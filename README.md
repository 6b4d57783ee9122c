# gestion-ventas — a verified model of its decision and state logic

gestion-ventas is a sales-tracking application for a bank. Advisors register
*sales*, which are credit applications for one of three products: consumer
credit, payroll loan or credit card. Administrators manage the user accounts
and see aggregate statistics. Users log in with a captcha. The backend is an
Express/TypeORM REST API and the frontend is a Redux single-page application.

This project models, in Dafny, the parts of both tiers that decide or change
something. It then proves what those parts promise.

- **Captcha store** (`Captcha`): an in-memory map from challenge id to the lower-cased answer and its expiry. Each id can be validated only once.
- **Validators** (`SaleValidators`, `UserValidators`, `AuthValidators`): these are the express-validator chains, stated as predicates over JavaScript request values.
  - A franchise is required exactly for credit cards.
  - A rate in [0, 99.99] is required exactly for consumer credit and payroll loans.
  - The amount must be positive.
  - There are length and format rules for users and logins.
- **Sales and users as stores** (`Sales`, `SalesBuild`, `Users`): the `sales` and `users` tables are sequences of rows with a serial key, held in classes whose methods run the services' read → check → write flows.
  - The ownership rule applies to every mutation.
  - The list filter and its total are modelled.
  - From the compiled build: sorting, pagination, the count, and the grouped statistics.
  - For users: unique emails, partial updates and re-hashing.
- **Request handling** (`SaleController`, `AuthController`, `AuthMiddleware`, `Jwt`, `Env`):
  - every handler's checks, in their order;
  - the advisor filter and the advisor read restriction;
  - the login order: captcha, then user, then password;
  - bearer-header parsing and the role gate;
  - the claim-shape checks that follow the token library's signature check;
  - the configuration defaults.
- **Client state** (`SalesSlice`, `UsersSlice`, `AuthSlice`, `CaptchaSlice`, `UiSlice`): each Redux slice is a class whose methods are its reducers.
  - The sales slice keeps a running `totalRequestedAmount`. The model proves that create, update, delete and status answers keep that total equal to the sum of the listed amounts.
  - The auth slice's copy in `localStorage` is read back on start-up.
- **Client forms and token helpers** (`SaleForm`, `UserForm`, `ClientJwt`):
  - the zod schemas of the two dialogs, their cross-field rules and their submit payloads;
  - how the forms relate to the server: an accepted sale form passes the server, and an accepted user form passes it exactly when its password has at least six characters (zod counts UTF-16 code units, the server counts characters);
  - decoding a token on the client, reading its role and checking its expiry.

JavaScript values are modelled explicitly by `Js.Value`: `undefined`, `null`, booleans, numbers (NaN or a real), strings, and objects. Truthiness follows JavaScript, and so do `Number(...)`, `??`, `replace` and `split`. `toLowerCase` is modelled for ASCII letters only (see "## Left out"). Numbers are `real`s.

Some library primitives become parameters:
- bcrypt hashing and comparison;
- token signing and verification;
- the validator.js and zod format checks;
- `Number(text)` parsing;
- base64 and JSON decoding;
- random UUIDs and captcha images;
- the clock.

### Behaviour worth knowing

- Advisors see only their own sales:
  - `SaleController.list` adds a `createdById` filter for advisors (backend/src/controllers/SaleController.ts:28-33);
  - `getById` answers 403 to an advisor asking for another advisor's sale (backend/src/controllers/SaleController.ts:61-63).

  The model states both (`SaleController.AdvisorSeesOwn`, `SaleController.SaleController.GetById`). An advisor whose token id reads as 0 gets a falsy filter, which the service skips, and sees every sale (`SaleController.ZeroIdAdvisorSeesAll`).
- For a token without `exp`, `isTokenExpired` returns false (frontend/src/utils/jwt.ts:49). The test file expects true (frontend/src/test/jwt.test.ts:91-98). The model follows the code (`ClientJwt.NoExpNeverExpires`).
- `updatedAt` is an `@UpdateDateColumn`, which TypeORM rewrites only when a save changes some column (`Sales.Revised`, `Users.Changed`). A supplied password is stored as a freshly salted hash, a parameter of `Users.Changed`, so in practice it always counts as a change.
- The handlers are modelled as written, including their two defects listed under "## Findings":
  - `authenticate` answers 500 to a token the library rejects (`AuthMiddleware.Authentication`);
  - `create` and `update` answer 500 to an accepted body with `rate: ""` (`SaleController.SaleController.Create`, `SaleController.SaleController.Update`).

- The user form counts lengths as zod does, in UTF-16 code units (`Js.Utf16Length`), while the server's `isLength` counts characters. A password of three emoji is six code units: the form accepts it and the server answers 422 (`UserForm.AstralPasswordPassesFormOnly`). The corrected `UserForm.FormIssues` counts the password as the server does.

  The corrected behaviour of the handlers is modelled beside them: `AuthMiddleware.AuthenticationCorrected` and `SaleController.StoredInput`. `AuthMiddleware.AuthenticationVersions` and `SaleController.AcceptedBodyStoredAsWritten` relate each correction to the code as written.

## Model

| member | source | states |
|---|---|---|
| Base.IntegerKey | backend/src/entities/Sale.ts:26-27 | A number used as a row key is accepted exactly when it is an integer, and is then that integer. Any other number is a 500 database error. |
| Js.ToNumber | backend/src/validators/saleValidators.ts:36 | `Number(v)` keeps a number as it is. `undefined` and objects give NaN. `null` and `""` give 0. |
| Js.ToLowerCase | backend/src/services/CaptchaService.ts:26 | ASCII lower-casing keeps the length, folds each letter A–Z to its lower-case form, leaves every other character alone, and leaves no upper-case ASCII letter. |
| Js.LowerCaseIdempotent | backend/src/services/CaptchaService.ts:26-44 | Lower-casing an already lower-cased answer changes nothing, so the stored answer is a fixed point of the guess normalisation. |
| Js.Utf16Length | frontend/src/components/Users/UserFormDialog.tsx:19-21 | The length of a string as JavaScript's `length` counts it: between its number of characters and twice that, and equal to the number of characters exactly when no character lies outside the Basic Multilingual Plane. |
| Js.IndexOf | backend/src/middlewares/authMiddleware.ts:14 | The result is the first position at or after `k` where the pattern occurs, or -1 when there is none. |
| Js.ReplaceFirst | backend/src/middlewares/authMiddleware.ts:14 | `replace` with a string pattern leaves a text without an occurrence unchanged. |
| Js.ReplacePrefix | backend/src/middlewares/authMiddleware.ts:10-14 | On a header that starts with the prefix, removing the prefix with `replace` leaves exactly the rest. |
| Js.ReplaceAllChar | frontend/src/utils/jwt.ts:13 | A global one-character replace changes exactly the occurrences of that character and nothing else. |
| Js.Split | frontend/src/utils/jwt.ts:30 | `split` yields one more part than there are separators, and no part contains the separator. |
| Js.SplitJoin | frontend/src/utils/jwt.ts:30 | Joining the parts with the separator gives back the token: splitting loses nothing. |
| UserEntity.RoleFromName | backend/src/entities/Role.ts:5-8 | A role is found by name exactly for "Administrador" and "Asesor", and the role found carries that name. |
| UserEntity.RoleNameRoundTrip | backend/src/entities/Role.ts:5-8 | Each role is recovered from its name. |
| UserEntity.Selected | backend/src/entities/User.ts:28-29 | A default select returns every column of the row except the password. |
| SaleEntity.ProductFromName | backend/src/entities/Sale.ts:6-10 | The product enum is closed: a name maps to a product exactly when it is one of the three names. |
| SaleEntity.FranchiseFromName | backend/src/entities/Sale.ts:12-16 | The franchise enum is closed: AMEX, VISA or MASTERCARD. |
| SaleEntity.StatusFromName | backend/src/entities/Sale.ts:18-22 | The status enum is closed: Abierto, En Proceso or Finalizado. |
| SaleEntity.NamesRoundTrip | backend/src/entities/Sale.ts:6-22 | Within each enum the names are distinct, so each value is recovered from its name. |
| SaleEntity.ShapeExclusive | backend/src/validators/saleValidators.ts:11-47 | A sale that follows the product rule carries exactly one of franchise and rate, never both and never neither. |
| Env.NumberFromEnv | backend/src/config/env.ts:5-13 | A missing or empty variable gives the fallback, and so does text that parses to NaN. Any other value gives the parsed number. |
| Env.StringFromEnv | backend/src/config/env.ts:15-30 | `??` takes the default only for an absent variable. An empty one is kept. |
| Env.NumericDefaults | backend/src/config/env.ts:17-26 | With the numeric variables unset or empty, the port is 4000, the captcha TTL is 120 s and the database port is 5432. |
| Env.EmptyEnvironment | backend/src/config/env.ts:15-30 | An empty environment yields every documented default. |
| Captcha.CaptchaService.constructor | backend/src/services/CaptchaService.ts:10-12 | The store starts empty, with the configured TTL. |
| Captcha.CaptchaService.Generate | backend/src/services/CaptchaService.ts:14-29 | The lower-cased text is stored under the new id, expiring at `now + ttlSeconds*1000`. Every other entry is unchanged. The returned challenge carries that id and expiry. |
| Captcha.CaptchaService.Validate | backend/src/services/CaptchaService.ts:31-45 | The answer is true exactly when the id is stored, `now <= expiresAt`, and the lower-cased guess equals the stored answer. The id is removed whatever the outcome. An absent id leaves the store unchanged. |
| Captcha.OneShot | backend/src/services/CaptchaService.ts:32-38 | Once an id has been validated, every later guess for it is refused. |
| Captcha.OtherIdsUntouched | backend/src/services/CaptchaService.ts:26-38 | Deleting one id, or writing any entry under it, does not change the answer for any other id. |
| Captcha.FreshChallenge | backend/src/services/CaptchaService.ts:23-44 | Until its expiry, a fresh challenge accepts exactly the guesses equal to its text up to case, including at the expiry instant itself. After its expiry it accepts nothing. |
| Captcha.OwnTextAccepted | backend/src/services/CaptchaService.ts:26-44 | Before expiry, the image text is accepted as shown and also lower-cased. |
| SaleValidators.FranchiseCheck | backend/src/validators/saleValidators.ts:8-24 | For a credit card, the franchise passes exactly when it is a known franchise name. For any other product it passes exactly when it is falsy. Each rejection carries its source message. |
| SaleValidators.RateCheck | backend/src/validators/saleValidators.ts:26-50 | For consumer credit or payroll loan, the rate passes exactly when it is not blank and `Number(rate)` lies in [0, 99.99] (0 included); a blank rate gives the "obligatoria" message. For other products it passes exactly when it is blank, so 0 is refused. |
| SaleValidators.SaleBodyErrors | backend/src/validators/saleValidators.ts:69-81 | A body has no errors exactly when the product is a known name, the amount is numeric and `> 0`, and both custom checks pass. Every error names one of the four fields. |
| SaleValidators.AcceptedBodyShape | backend/src/validators/saleValidators.ts:8-81 | An accepted body has a known product and a positive amount. The franchise is truthy exactly for a credit card, and then names a known franchise. The rate is present exactly for the two loans, and is then in range and fits `numeric(5,2)`. |
| SaleValidators.SaleQueryErrors | backend/src/validators/saleValidators.ts:52-67 | Empty or absent filters are skipped. The query is accepted exactly when a given product is a known name and the given dates are ISO 8601. |
| SaleValidators.ValidateRequest | backend/src/middlewares/validationMiddleware.ts:6-19 | The request goes on exactly when no error was collected. Otherwise it gets 422 "Errores de validación". |
| UserValidators.CreateUserErrors | backend/src/validators/userValidators.ts:7-28 | On create, a field is rejected exactly when it breaks its rule: name of 1..50 characters; email of at most 50 characters and in email format; password of 6..20 characters; role one of the two names. |
| UserValidators.UpdateUserErrors | backend/src/validators/userValidators.ts:30-55 | On update, a field is rejected exactly when it is truthy and breaks the create rule. An all-falsy body is accepted. |
| UserValidators.UpdateRelaxesCreate | backend/src/validators/userValidators.ts:7-55 | Every field the update rules reject, the create rules reject too. |
| UserValidators.CreateInput | backend/src/validators/userValidators.ts:7-28 | The service input built from a create body carries the body's texts and its role. |
| UserValidators.AcceptedCreateFits | backend/src/validators/userValidators.ts:7-28 | An accepted create body yields a service input whose name, email and password are within the column and validator bounds. |
| UserValidators.AcceptedUpdateFields | backend/src/validators/userValidators.ts:30-55 | In an accepted update body, the service applies exactly the truthy fields, and each of them is within bounds. |
| AuthValidators.LoginErrors | backend/src/validators/authValidators.ts:3-24 | A login field is rejected exactly when it breaks its rule: the email rule; the password rule (6..20); a UUID `captchaId`; a `captchaValue` of 4..6 characters. |
| AuthValidators.AcceptedLogin | backend/src/validators/authValidators.ts:3-24 | An accepted login body is all text and within every bound. |
| Jwt.SubjectId | backend/src/utils/jwt.ts:32-36 | A finite numeric `sub` is kept as it is. A string `sub` is converted with `Number`, and NaN is refused. Any other type is refused. |
| Jwt.ClaimsOf | backend/src/utils/jwt.ts:22-46 | A verified payload gives claims exactly when it is an object with a usable `sub` and string `email` and `role`; the claims are exactly those three. Anything else gives 401 "Token inválido". |
| Jwt.ClaimsRoundTrip | backend/src/utils/jwt.ts:42-46 | The payload of signed claims reads back as the same claims. |
| Jwt.VerifyAccessTokenAsWritten | backend/src/utils/jwt.ts:19-47 | As written, a token the library rejects ends as a 500. A verified token goes through the claim-shape checks. |
| Jwt.VerifyAccessToken | backend/src/utils/jwt.ts:19-47 | Corrected: every failure is a 401, and a token the library rejects gets "Token inválido". |
| Jwt.VerifyVersionsAgree | backend/src/utils/jwt.ts:19-47 | On tokens the library accepts, the two versions agree. |
| Jwt.ExpiredTokenAnswered500 | backend/src/middlewares/errorHandler.ts:5-17 | A token the library rejects gets status 500 as written and 401 once corrected. |
| AuthMiddleware.BearerToken | backend/src/middlewares/authMiddleware.ts:10-14 | A token is read exactly from a header that starts with "Bearer ", and the header is "Bearer " followed by that token. Otherwise the answer is 401 "Token de autenticación requerido". |
| AuthMiddleware.BearerRoundTrip | backend/src/middlewares/authMiddleware.ts:10-14 | The header the client builds for a token yields that token. |
| AuthMiddleware.Authentication | backend/src/middlewares/authMiddleware.ts:7-24 | As written: a failure is a 401, or a 500 exactly when the library rejects the bearer token, because that error escapes `verifyAccessToken`. A missing or malformed header gives 401 "Token de autenticación requerido". On success the caller is the verified `sub`, `email` and `role`. |
| AuthMiddleware.AuthenticationCorrected | backend/src/middlewares/authMiddleware.ts:7-24 | Corrected: every failure is a 401. On success the caller is the verified `sub`, `email` and `role`. |
| AuthMiddleware.AuthenticationVersions | backend/src/middlewares/authMiddleware.ts:15 | The two versions agree except on a token the library rejects. The code as written answers that token 500; the corrected version answers 401 "Token inválido". |
| AuthMiddleware.Request.constructor | backend/src/middlewares/authMiddleware.ts:7-8 | A request starts with its header and no caller attached. |
| AuthMiddleware.Request.Authenticate | backend/src/middlewares/authMiddleware.ts:7-24 | As written: on success, `req.user` becomes the caller `Authentication` gives. A failure gives the same error, a 500 for a token the library rejects, and leaves `req.user` unchanged. |
| AuthMiddleware.Authorize | backend/src/middlewares/authMiddleware.ts:26-39 | No caller gives 401. A role outside the list gives 403. Otherwise the request goes on. |
| AuthMiddleware.RouterGates | backend/src/routes/users.routes.ts:13 | The users router admits only "Administrador". The sales router admits exactly the two known roles. Whoever passes the users router passes the sales router. |
| Sales.NoFiltersMatchAll | backend/src/services/SaleService.ts:116-134 | With no filter set, every sale matches. |
| Sales.CanMutate | backend/src/services/SaleService.ts:136-146 | A mutation is allowed exactly for an Admin or for the sale's creator. Otherwise the answer is 403. |
| Sales.Authorized | backend/src/services/SaleService.ts:62-65 | The read and ownership step gives the row's position exactly when the id exists and the user may mutate it. An unknown id gives 404, and 404 only then. A refused owner check gives 403. |
| Sales.Revised | backend/src/services/SaleService.ts:62-74 | `update` replaces product, amount, franchise and rate and records the editor. Id, status, creator and creation time are kept. `updatedAt` moves only when something changed. |
| Sales.StatusChanged | backend/src/services/SaleService.ts:84-93 | Any status may follow any other. Only the status, the editor and (on change) `updatedAt` differ from the stored row. |
| Sales.RevisedKeepsShape | backend/src/services/SaleService.ts:62-74 | An input that follows the product rule yields an updated sale that follows it. |
| Sales.RemovedIdGone | backend/src/services/SaleService.ts:76-82 | After removing a row from rows with unique ids, no row has its id. |
| Sales.SaleService.constructor | backend/src/services/SaleService.ts:26-28 | The table starts empty, and the serial key starts at 1. |
| Sales.SaleService.GetById | backend/src/services/SaleService.ts:36-47 | The answer is the stored row with that id exactly when one exists. Otherwise it is 404 "Venta no encontrada". |
| Sales.SaleService.Create | backend/src/services/SaleService.ts:49-60 | Appends a row with the next id, status Abierto, the input's data (null franchise or rate when none is given), and the user as creator and editor. Keys stay unique. |
| Sales.SaleService.Update | backend/src/services/SaleService.ts:62-74 | The outcome follows `Authorized`. On success the row becomes `Revised` in place; a refusal changes no row. |
| Sales.SaleService.Delete | backend/src/services/SaleService.ts:76-82 | The outcome follows `Authorized`. On success exactly that row is removed and the id can no longer be found; a refusal changes nothing. |
| Sales.SaleService.UpdateStatus | backend/src/services/SaleService.ts:84-93 | The outcome follows `Authorized`. On success the row becomes `StatusChanged` in place; a refusal changes nothing. |
| Sales.SaleService.List | backend/src/services/SaleService.ts:30-34 | The result is newest first, and is a permutation of exactly the stored rows the filters match. |
| Sales.SaleService.TotalRequested | backend/src/services/SaleService.ts:95-106 | The total equals the sum of the amounts of the sales `List` returns for the same filters, and is 0 when none match. |
| SalesBuild.Paginate | backend/dist/services/SaleService.js:18-21 | Pagination applies only when page and limit are both non-zero. A page then holds at most `limit` rows, taken in order from position `(page-1)*limit`. A full page holds exactly `limit` rows, and a page past the end is empty. |
| SalesBuild.PageOfIndex | backend/dist/services/SaleService.js:18-21 | Every row of the ordered result appears on page `i/limit + 1`, at position `i % limit`. |
| SalesBuild.List | backend/dist/services/SaleService.js:12-23 | The result holds only matching stored sales, ordered by `sortBy` (descending unless ascending is asked for) or else newest first. Unpaginated, it is a permutation of all matches; paginated, it has at most `limit` rows. In both cases it is `Paginate` applied to `Ordered`, the sorted matches. |
| SalesBuild.Ordered | backend/dist/services/SaleService.js:12-17 | The matching sales in the requested order: a sorted permutation of the filtered rows. |
| SalesBuild.ListShowsEverySale | backend/dist/services/SaleService.js:12-23 | With a fixed limit, the sale at position `i` of the ordered matches is on page `i / limit + 1`, at position `i % limit`, so paging shows every matching sale. |
| SalesBuild.PageSorted | backend/dist/services/SaleService.js:14-21 | A page of a sorted result is sorted. |
| SalesBuild.CountMatching | backend/dist/services/SaleService.js:74-77 | `count` equals the length of the unpaginated list for the same filters. |
| SalesBuild.StatsByAdvisor | backend/dist/services/SaleService.js:110-128 | The rows are ordered by count, descending, and are a reordering of the groups by creator. |
| SalesBuild.StatsByProduct | backend/dist/services/SaleService.js:129-143 | The rows are ordered by total, descending, and are a reordering of the groups by product. |
| SalesBuild.StatsByDate | backend/dist/services/SaleService.js:144-158 | The rows are ordered by day, ascending, and are a reordering of the groups by calendar day. |
| SalesBuild.StatsByProductPartition | backend/dist/services/SaleService.js:129-143 | There is one row per product sold, and no key appears twice. Each row counts and sums exactly that product's sales. The counts add up to the number of sales and the totals to the overall sum. |
| SalesBuild.StatsByAdvisorPartition | backend/dist/services/SaleService.js:110-128 | The same partition holds per creator. |
| SalesBuild.StatsByDatePartition | backend/dist/services/SaleService.js:144-158 | The same partition holds per calendar day. |
| Collections.SumOfRemoveAt | frontend/src/features/sales/salesSlice.ts:159-166 | Removing one element takes exactly its amount out of the sum. |
| Collections.SumOfReplaceAt | frontend/src/features/sales/salesSlice.ts:150-158 | Replacing one element replaces its amount in the sum. |
| Collections.SumOfPermutation | backend/src/services/SaleService.ts:95-106 | A sum does not depend on row order, so the SQL total equals the sum over the ordered list. |
| Collections.SumOfConcat | backend/src/services/SaleService.ts:102 | The sum over two concatenated lists is the sum of their sums. |
| Collections.RemoveAt | frontend/src/features/sales/salesSlice.ts:164 | `splice(k, 1)` shortens the list by one, keeps the elements before `k`, and shifts the rest down. |
| Collections.FindIndex | frontend/src/features/sales/salesSlice.ts:151 | `findIndex` returns the first position satisfying the predicate, or -1 exactly when none does. |
| Collections.Filter | frontend/src/features/users/usersSlice.ts:113 | `filter` keeps exactly the elements that satisfy the predicate. |
| Collections.FilterSubsequence | frontend/src/features/users/usersSlice.ts:113 | The result of `filter` keeps the original relative order. |
| Collections.Insert | backend/src/services/SaleService.ts:108-114 | Inserting into a sorted list keeps it sorted and adds exactly that element. |
| Collections.Sort | backend/src/services/SaleService.ts:108-114 | ORDER BY gives a sorted permutation of its input. |
| Collections.GroupBy | backend/dist/services/SaleService.js:129-137 | GROUP BY yields one bucket per key, with no key twice. |
| Collections.GroupByCover | backend/dist/services/SaleService.js:129-137 | The buckets are exactly the keys occurring in the rows, and none of them is empty. |
| Collections.GroupByCounts | backend/dist/services/SaleService.js:129-137 | Each bucket's `COUNT` and `SUM` are exactly those of the rows with its key. |
| Collections.GroupBySums | backend/dist/services/SaleService.js:129-137 | The counts add up to the number of rows and the totals to the sum of all amounts. |
| Collections.ReorderedGroups | backend/dist/services/SaleService.js:110-158 | The grouping facts survive any `ORDER BY` of the buckets. |
| Users.PublicRows | backend/src/entities/User.ts:28-29 | A default select of the table is every row without its password. |
| Users.Changed | backend/src/services/UserService.ts:109-123 | Each supplied, non-empty field replaces the stored one, and every other field is kept. A supplied password is replaced by the freshly salted hash produced for the call. `updatedAt` moves exactly when a column changes. |
| Users.RemoveKeepsUnique | backend/src/services/UserService.ts:130-134 | Removing a row keeps ids and emails unique. The removed id is then gone, and no row is added. |
| Users.UserService.constructor | backend/src/services/UserService.ts:28-31 | The table starts empty, with the seeded roles. |
| Users.UserService.List | backend/src/services/UserService.ts:33-35 | Every user, newest first, without passwords. |
| Users.UserService.GetById | backend/src/services/UserService.ts:37-45 | The answer is the row with that id, without its password, exactly when one exists. Otherwise it is 404 "Usuario no encontrado". |
| Users.UserService.FindByEmailWithPassword | backend/src/services/UserService.ts:57-64 | The answer is the full row with that email, password included, or nothing exactly when no row has it. |
| Users.UserService.FindRole | backend/src/services/UserService.ts:66-74 | A seeded role is found. Any other gives 400 "Rol no válido". |
| Users.UserService.Create | backend/src/services/UserService.ts:76-96 | A registered email gives 409 before the role lookup. A missing role gives 400. Otherwise a row with the next id and the hash of the password is appended. Emails stay unique; a failure changes nothing. |
| Users.UserService.Update | backend/src/services/UserService.ts:98-128 | An unknown id gives 404. Another user's email gives 409, but the user's own email is no conflict. A missing role gives 400. Otherwise exactly that row becomes `Changed`. It succeeds exactly when none of these fails; a failure changes nothing, and emails stay unique. |
| Users.UserService.Delete | backend/src/services/UserService.ts:130-134 | Removes exactly the row with that id, or answers 404 and changes nothing. The id is gone afterwards. |
| SaleController.Caller | backend/src/controllers/SaleController.ts:16-20 | No authenticated caller gives 401 "No autorizado". |
| SaleController.RouteNumber | backend/src/controllers/SaleController.ts:104-108 | The NaN check alone: a `:id` that `Number` reads as NaN gives 400 "Identificador inválido"; any other gives its number. |
| SaleController.RouteId | backend/src/controllers/SaleController.ts:53-59 | A `:id` that `Number` reads as NaN gives 400 "Identificador inválido". An id that reaches the first query is the integer it denotes; a non-integer gives 500 there. |
| SaleController.NumericColumn | backend/src/entities/Sale.ts:35-42 | A `numeric(p,s)` column stores a finite number, or non-empty numeric text, that fits. Anything else fails with 500. |
| SaleController.ProductColumn | backend/src/entities/Sale.ts:29-30 | The product column takes exactly the three names. |
| SaleController.FranchiseColumn | backend/src/entities/Sale.ts:38-39 | The nullable franchise column takes exactly null or a franchise name. |
| SaleController.RateColumn | backend/src/entities/Sale.ts:41-42 | The nullable rate column takes exactly null or a number that fits `numeric(5,2)`. |
| SaleController.OrNull | backend/src/controllers/SaleController.ts:88-89 | `?? null` turns exactly `undefined` and `null` into null. |
| SaleController.StoredInputAsWritten | backend/src/controllers/SaleController.ts:84-92 | As written, only nullish franchise and rate values become null; other falsy values reach the columns. |
| SaleController.StoredInput | backend/src/controllers/SaleController.ts:84-92 | Corrected: a falsy franchise and a blank rate become null, and the product is stored as sent. |
| SaleController.AcceptedBodyStored | backend/src/controllers/SaleController.ts:84-92 | Corrected: every validated body whose amount fits `numeric(15,2)` is stored by `StoredInput`. It carries a franchise exactly for credit cards and a rate in [0, 99.99] exactly for loans, with the validated amount. |
| SaleController.AcceptedBodyStoredAsWritten | backend/src/controllers/SaleController.ts:84-92 | As written, a validated body whose amount fits is stored exactly when its franchise is nullish or truthy and its rate is neither `""` nor a boolean. It is then stored as the corrected version stores it; every other validated body gets 500. |
| SaleController.EmptyRateRejectedByDatabase | backend/src/controllers/SaleController.ts:84-92 | A credit-card body with `rate: ""` passes the validators. As written it fails with 500; corrected, it is stored with a null rate. |
| SaleController.StoredVersionsAgree | backend/src/controllers/SaleController.ts:84-92 | The two versions agree unless the franchise is a non-nullish falsy value, or the rate is `""` or a boolean. |
| SaleController.ListFilters | backend/src/controllers/SaleController.ts:22-33 | `createdById` is set exactly for an advisor, and is then the caller's id. The product and date filters are set exactly when given. |
| SaleController.SaleController.constructor | backend/src/controllers/SaleController.ts:10-13 | The controller uses the given sale and user services. |
| SaleController.SaleController.List | backend/src/controllers/SaleController.ts:15-44 | No caller gives 401. With a caller, the answer is Ok exactly when the filters can be built, and 500 otherwise. The data is the service list for the built filters, newest first, and the total is the sum of exactly those sales. |
| SaleController.SaleController.GetById | backend/src/controllers/SaleController.ts:46-66 | The checks run in order. 401 comes first, then 400 for a NaN id, then 500 for a non-integer id, then 404 "Venta no encontrada" for an unknown id. An advisor asking for another's sale gets 403 "No tienes permisos para ver esta venta". Otherwise the answer is the stored row. |
| SaleController.SaleController.CurrentUser | backend/src/controllers/SaleController.ts:75 | The answer is exactly the user service's answer for the caller's id: the caller's own row, or 404 once that row is gone. A non-integer id gives 500. |
| SaleController.SaleController.Prelude | backend/src/controllers/SaleController.ts:98-110 | The checks run in order. 401 comes first, then 400 for a NaN id. Next the caller's row is loaded, so a missing row is a 404 even for a non-integer id. Only then does a non-integer id give 500, at the service's first query. It succeeds with the id and the caller's row whenever all of these pass. |
| SaleController.SaleController.Create | backend/src/controllers/SaleController.ts:68-95 | No caller gives 401. Otherwise the new sale holds the body's values as written (`?? null`) with the caller's row as creator and editor. It succeeds whenever the caller's row exists and the columns take those values; otherwise a refused value gives 500. A failure changes nothing. |
| SaleController.SaleController.Update | backend/src/controllers/SaleController.ts:97-131 | The steps run in order: prelude (401, 400, the caller's row, the integer id), read and ownership check, the body's values as written (500 when a column refuses one), save of the `Revised` row. A failure at any step changes nothing. |
| SaleController.SaleController.Delete | backend/src/controllers/SaleController.ts:133-151 | The prelude runs (401, 400, the caller's row, the integer id), then the read and ownership check, then the removal of exactly that row. A failure changes nothing. |
| SaleController.SaleController.UpdateStatus | backend/src/controllers/SaleController.ts:153-173 | The prelude (401, 400, the caller's row, the integer id) and the read and ownership check run first. A known status is then stored; an absent one keeps the status and records the editor; any other value fails with 500. A failure changes nothing. |
| SaleController.StatusColumn | backend/src/controllers/SaleController.ts:168-170 | The status body gives "no change" exactly for `undefined`, and a status exactly for a known name. Anything else fails with 500. |
| SaleController.AdminSeesAll | backend/src/controllers/SaleController.ts:28-33 | An administrator's list holds every stored sale that matches the query. |
| SaleController.AdvisorSeesOwn | backend/src/controllers/SaleController.ts:28-33 | An advisor with a non-zero id sees only that advisor's own sales in the list. |
| SaleController.ZeroIdAdvisorSeesAll | backend/src/controllers/SaleController.ts:28-33 | An advisor whose id reads as 0 gets a falsy `createdById`, which the service skips, so the list holds every stored sale the other filters select. |
| AuthController.MapUserResponse | backend/src/controllers/AuthController.ts:9-16 | The response user carries id, name, email, role name and both timestamps, and no password. |
| AuthController.MapUserResponseInjective | backend/src/controllers/AuthController.ts:9-16 | Different public rows map to different responses, so the response loses nothing but the password. |
| AuthController.ClaimsFor | backend/src/controllers/AuthController.ts:47-51 | The signed claims are the user's id, email and role name. |
| AuthController.IssuedTokenAuthenticates | backend/src/controllers/AuthController.ts:47-51 | A token issued at login, sent back as a bearer token and accepted by the library, authenticates as the same id, email and role. It passes the users router exactly for an Admin. |
| AuthController.AuthController.constructor | backend/src/controllers/AuthController.ts:19 | The controller uses the given captcha store and user service. |
| AuthController.AuthController.Login | backend/src/controllers/AuthController.ts:21-59 | The captcha is consumed whatever happens. A failed captcha gives 400 before any lookup. An unknown email and a wrong password give the same 401. A valid captcha, a known email and a matching password always succeed. Success gives the token of the user's claims and the user's public fields. |
| AuthController.AuthController.Me | backend/src/controllers/AuthController.ts:61-70 | No caller gives 401. When a row with the caller's id exists, the answer is Ok with that row as a response user. Once the row is gone, the answer is 404. |
| SliceStatus.RejectedError | frontend/src/features/sales/salesSlice.ts:142-145 | A rejected request leaves its own message, or the slice's fallback when it carries none. |
| SalesSlice.SalesState.constructor | frontend/src/features/sales/salesSlice.ts:23-29 | The initial state has an empty list, a total of 0, no selection, status idle and no error. The total invariant holds. |
| SalesSlice.SalesState.Clear | frontend/src/features/sales/salesSlice.ts:130 | `clearSalesState` gives exactly the initial state. |
| SalesSlice.SalesState.FetchPending | frontend/src/features/sales/salesSlice.ts:134-136 | Only the status changes, to loading; the old error stays. |
| SalesSlice.SalesState.FetchFulfilled | frontend/src/features/sales/salesSlice.ts:137-141 | The list and total are taken from the response. The invariant then holds exactly when the server's total is the sum of its data. |
| SalesSlice.SalesState.FetchRejected | frontend/src/features/sales/salesSlice.ts:142-145 | The status becomes failed with `payload ?? "Ocurrió un error inesperado"`. The list and total stay. |
| SalesSlice.SalesState.CreateFulfilled | frontend/src/features/sales/salesSlice.ts:146-149 | The sale is prepended and its amount added, which keeps total = sum of listed amounts. |
| SalesSlice.SalesState.UpdateFulfilled | frontend/src/features/sales/salesSlice.ts:150-158 | The first sale with that id is replaced in place and the total moves by new − old. An unknown id changes nothing. The total invariant and unique ids are kept. |
| SalesSlice.SalesState.DeleteFulfilled | frontend/src/features/sales/salesSlice.ts:159-166 | The first sale with that id is removed and its amount subtracted. An unknown id changes nothing. The invariant is kept, and with unique ids no sale with that id remains. |
| SalesSlice.SalesState.StatusFulfilled | frontend/src/features/sales/salesSlice.ts:167-171 | The sale is replaced in place and the total is untouched. The invariant is kept when the answer's amount equals the listed one. |
| SalesSlice.RemovedUniqueIdGone | frontend/src/features/sales/salesSlice.ts:159-166 | With unique ids, the spliced-out id no longer occurs. |
| SalesSlice.StatusAnswerKeepsTotal | frontend/src/features/sales/salesSlice.ts:167-171 | The server's answer to a status change keeps the amount, so applying it leaves the sum of the list unchanged. |
| UsersSlice.UsersState.constructor | frontend/src/features/users/usersSlice.ts:14-18 | The initial state has no items, status idle and no error. |
| UsersSlice.UsersState.Clear | frontend/src/features/users/usersSlice.ts:82-86 | `clearUsersState` resets to no items, status idle and no error. |
| UsersSlice.UsersState.FetchPending | frontend/src/features/users/usersSlice.ts:90-93 | The status becomes loading and the error is cleared. The items stay. |
| UsersSlice.UsersState.FetchFulfilled | frontend/src/features/users/usersSlice.ts:94-97 | The status becomes succeeded, and the items are the fetched users. |
| UsersSlice.UsersState.FetchRejected | frontend/src/features/users/usersSlice.ts:98-101 | The status becomes failed with the message or the fallback. The items stay. |
| UsersSlice.UsersState.CreateFulfilled | frontend/src/features/users/usersSlice.ts:102-104 | The new user is prepended. |
| UsersSlice.UsersState.UpdateFulfilled | frontend/src/features/users/usersSlice.ts:105-111 | The first item with that id is replaced in place. An unknown id changes nothing. Length and ids are kept. |
| UsersSlice.UsersState.DeleteFulfilled | frontend/src/features/users/usersSlice.ts:112-114 | Every item with that id goes and every other item stays. |
| UsersSlice.DeleteKeepsOrder | frontend/src/features/users/usersSlice.ts:112-114 | The surviving items keep their original relative order. |
| CaptchaSlice.CaptchaState.constructor | frontend/src/features/captcha/captchaSlice.ts:14-18 | The initial state has no challenge, status idle and no error. |
| CaptchaSlice.CaptchaState.FetchPending | frontend/src/features/captcha/captchaSlice.ts:38-41 | The status becomes loading and the error is cleared. The shown challenge stays. |
| CaptchaSlice.CaptchaState.FetchFulfilled | frontend/src/features/captcha/captchaSlice.ts:42-45 | The status becomes succeeded, showing the new challenge. |
| CaptchaSlice.CaptchaState.FetchRejected | frontend/src/features/captcha/captchaSlice.ts:46-49 | The status becomes failed with the message or "No fue posible obtener el captcha". The challenge stays. |
| UiSlice.Shown | frontend/src/features/ui/uiSlice.ts:32-38 | The bar is open with the payload's message, and the severity is "info" when none is given. |
| UiSlice.UiState.constructor | frontend/src/features/ui/uiSlice.ts:15-21 | The bar starts closed, with an empty message and severity "info". |
| UiSlice.UiState.Show | frontend/src/features/ui/uiSlice.ts:32-38 | The bar becomes `Shown(payload)` whatever it was, so showing twice equals showing once. |
| UiSlice.UiState.Hide | frontend/src/features/ui/uiSlice.ts:39-41 | Only `open` changes, to false. Message and severity are kept. |
| AuthSlice.Persisted | frontend/src/features/auth/authSlice.ts:76-84 | Both keys are written exactly when the token is truthy and a user is present; otherwise both are removed. No other key changes. |
| AuthSlice.LoadInitialState | frontend/src/features/auth/authSlice.ts:29-41 | Non-empty user text that does not parse discards both user and token. Otherwise the token and user are exactly what storage holds. |
| AuthSlice.PersistThenLoad | frontend/src/features/auth/authSlice.ts:29-84 | A persisted session is what the next start reads back, provided parsing inverts stringifying. |
| AuthSlice.LogoutThenLoad | frontend/src/features/auth/authSlice.ts:90-96 | After a logout, the next start has no session. |
| AuthSlice.BrowserStorage.constructor | frontend/src/features/auth/authSlice.ts:29-31 | The storage starts with the given entries. |
| AuthSlice.PersistAuth | frontend/src/features/auth/authSlice.ts:76-84 | The storage becomes `Persisted` of its old entries. |
| AuthSlice.AuthState.constructor | frontend/src/features/auth/authSlice.ts:43-50 | The initial session is what `loadInitialState` reads, with status idle and no error. |
| AuthSlice.AuthState.Logout | frontend/src/features/auth/authSlice.ts:90-96 | User and token are cleared, the status is idle, there is no error, and the stored session is removed. |
| AuthSlice.AuthState.SetCredentials | frontend/src/features/auth/authSlice.ts:97-101 | The answer's user and token are set and persisted. Status and error are untouched. |
| AuthSlice.AuthState.LoginPending | frontend/src/features/auth/authSlice.ts:105-108 | The status becomes loading and the error is cleared. The session stays. |
| AuthSlice.AuthState.LoginFulfilled | frontend/src/features/auth/authSlice.ts:109-114 | The status becomes succeeded, and the answer's user and token are set and persisted. |
| AuthSlice.AuthState.LoginRejected | frontend/src/features/auth/authSlice.ts:115-118 | The status becomes failed with `payload ?? "No se pudo iniciar sesión"`. User and token are unchanged. |
| SaleForm.TypeIssues | frontend/src/components/Sales/SaleFormDialog.tsx:19-25 | A field has a type issue exactly when it is not of its schema type: a product name, a non-NaN number, or optional and nullable values. |
| SaleForm.Typed | frontend/src/components/Sales/SaleFormDialog.tsx:19-25 | The typed values are exactly the input's. Franchise and rate are absent exactly when nullish. |
| SaleForm.RefineIssues | frontend/src/components/Sales/SaleFormDialog.tsx:26-70 | The `superRefine` rule flags franchise exactly when its presence differs from "credit card". It flags rate for a loan when the rate is missing or outside [0, 99.99], and for any other product when a rate is present. |
| SaleForm.FormIssues | frontend/src/components/Sales/SaleFormDialog.tsx:19-70 | The form is valid exactly when all types are right, the amount is at least 1, the franchise is present exactly for a card, and the rate is present exactly for a loan and in [0, 99.99]. |
| SaleForm.Submitted | frontend/src/components/Sales/SaleFormDialog.tsx:131-136 | The payload keeps the franchise only for a credit card and the rate only for a loan. The other values are unchanged. |
| SaleForm.SubmitKeepsAccepted | frontend/src/components/Sales/SaleFormDialog.tsx:131-136 | On values the schema accepts, the submit normalisation changes nothing. |
| SaleForm.AcceptedFormPassesServer | frontend/src/components/Sales/SaleFormDialog.tsx:19-70 | Every payload the form accepts passes the server's body validators, whatever the format checks say. |
| SaleForm.FormStricterOnAmount | frontend/src/components/Sales/SaleFormDialog.tsx:22 | An amount of 0.5 is refused by the form but accepted by the server: the form's minimum is 1, the server's is anything above 0. |
| UserForm.SchemaIssues | frontend/src/components/Users/UserFormDialog.tsx:18-23 | A field has an issue exactly when it breaks its rule, with lengths in UTF-16 code units as zod counts them: name of 1..50 code units; email of at most 50 code units and in email format; a present password of 6..20 code units; role one of the two names. |
| UserForm.FormIssuesAsWritten | frontend/src/components/Users/UserFormDialog.tsx:18-46 | As written, the schema issues apply, plus a missing password when creating with a valid role. |
| UserForm.EditWithBlankPasswordRefused | frontend/src/components/Users/UserFormDialog.tsx:18-65 | As written, an edit whose password was reset to "" is always refused on `password`. |
| UserForm.FormIssues | frontend/src/components/Users/UserFormDialog.tsx:18-46 | Corrected: the length rule applies only to a non-empty password, and counts its characters as the server does. The result agrees with the as-written schema on every non-empty password without astral characters. |
| UserForm.Submitted | frontend/src/components/Users/UserFormDialog.tsx:72-79 | An edit without a password drops it from the payload. Anything else is sent unchanged. |
| UserForm.EditWithBlankPasswordAccepted | frontend/src/components/Users/UserFormDialog.tsx:72-79 | Corrected: an edit with a blank password and valid other fields is accepted, and its payload carries no password. |
| UserForm.AcceptedCreatePassesServer | frontend/src/components/Users/UserFormDialog.tsx:18-46 | Corrected: a creation the corrected form accepts passes the server's create rules, given that the form's email check is no looser than the server's. |
| UserForm.AcceptedCreateAsWritten | frontend/src/components/Users/UserFormDialog.tsx:18-46 | As written: a creation the form accepts is refused by the server's create rules exactly when its password has fewer than six characters, and never when the password has no astral characters. |
| UserForm.AstralPasswordPassesFormOnly | frontend/src/components/Users/UserFormDialog.tsx:21 | As written: a password of three emoji passes the form's `min(6)` and fails the server's `isLength({ min: 6 })`. |
| UserForm.AcceptedEditPassesServer | frontend/src/components/Users/UserFormDialog.tsx:72-79 | Corrected: an edit the corrected form accepts passes the server's update rules, and carries a password exactly when one was typed. |
| ClientJwt.Base64UrlToBase64 | frontend/src/utils/jwt.ts:13 | '-' becomes '+' and '_' becomes '/'. Every other character is kept, and no '-' or '_' remains. |
| ClientJwt.DecodeJwt | frontend/src/utils/jwt.ts:28-37 | Claims exist only for a token of exactly three dot-separated parts (exactly two dots), and then come from decoding the middle part. |
| ClientJwt.RoleFromToken | frontend/src/utils/jwt.ts:39-43 | A role is returned exactly for a non-empty, decodable token with a truthy role, and a string role is returned as it is. A null or empty token gives null. |
| ClientJwt.IsTokenExpired | frontend/src/utils/jwt.ts:45-52 | A missing, empty or unreadable token is expired. Otherwise the token is expired exactly when the claims are falsy, or `exp` is truthy and lies before the current whole second. |
| ClientJwt.NoExpNeverExpires | frontend/src/utils/jwt.ts:49 | Claims without `exp` are never expired, at any time. |
| ClientJwt.ExpiryIsFinal | frontend/src/utils/jwt.ts:50-51 | Once expired, a token stays expired as the clock moves on. |
| ClientJwt.ExpiryInstant | frontend/src/utils/jwt.ts:50-51 | A whole-second `exp` expires exactly at `(exp+1)*1000` ms. |

## Left out

- I/O and libraries are out: HTTP transport, Express routing and `asyncHandler`, TypeORM queries, and the database itself. The tables are sequences of rows.
- bcrypt hashing and comparison, JWT signing, the library's signature and expiry check, `randomUUID`, svg-captcha images, base64/UTF-8 and JSON decoding, and the clock are all parameters.
- IEEE floating point is out: amounts and rates are exact reals. Infinities, rounding, `numeric` rounding to 2 decimals and the `int4` range of ids are not modelled. The `decimalTransformer` text parsing of numeric columns is not modelled.
- Express-validator's coercion of non-string values to text before `isEmail`, `isLength` and similar checks is not modelled; a non-string simply fails a string rule. Arrays and nested objects in a body collapse to one `Obj` value.
- The validator messages of the user and login chains are not modelled; those chains only state which fields are rejected. The sale chains keep their messages.
- Concurrency is out: the controller's `Promise.all` and the interleaving of async handlers. Each operation is atomic.
- `Sales.SaleService.Create`: the created sale holds the creator's public row as it was at creation; later changes to that user do not reach stored sales. For the same reason `Sales.Revised` and `Sales.StatusChanged` compare the whole embedded editor row to decide whether `updatedAt` moves. Take an editor who has been renamed since their last save: the model then moves `updatedAt`, while TypeORM compares only `updated_by_id` and would not. The foreign key that stops deleting a user who created sales is not modelled either.
- The routes reference `controller.stats` and `devToken` handlers that the controller does not define, so they are not modelled.
- `SalesBuild.DayOf`: `DATE(created_at)` is taken as the UTC day of the instant. The database session time zone is not modelled, and neither is the text of the date.
- `SalesBuild.List`: sorting is modelled for the numeric columns id, requestedAmount, createdAt and updatedAt only. Ordering by an enum column as text is not modelled.
- Frontend timestamps are instants (`int`), not the ISO strings the API sends. The client's sale and user types reuse the backend's shapes.
- `Js.ToLowerCase`: only the ASCII letters A–Z are folded. JavaScript lower-cases all of Unicode; for example U+212A (Kelvin sign) becomes "k", and "İ" becomes two code units. A captcha guess with such characters can match in the source and not in the model.
- `SaleController.AcceptedBodyStored`: proved for the corrected `StoredInput` only. As written, a validated body with `rate: ""`, a boolean rate or a non-nullish falsy franchise is not stored (`SaleController.AcceptedBodyStoredAsWritten`).
- `UserValidators.CreateUserErrors`: lengths are counted in characters. Since validator 13.7, `isLength` also leaves out the variation selectors U+FE0E and U+FE0F; that is not modelled. The same holds for `UserValidators.UpdateUserErrors` and `AuthValidators.LoginErrors`.
- `UserForm.AcceptedCreatePassesServer` and `UserForm.AcceptedEditPassesServer` hold for the corrected form only. As written, zod counts a password in UTF-16 code units, so a form-accepted password of fewer than six characters is refused by the server (`UserForm.AcceptedCreateAsWritten`).
- `SaleForm.TypeIssues`: zod's `z.number()` accepts ±Infinity, which has no value in this model.
- `AuthSlice.LoadInitialState`: `JSON.parse(...) as User` accepts any JSON value. The model's parser returns a user or nothing, so a stored non-object is not represented.
- `fetchSaleByIdThunk` has no reducer, so `selectedSale` never changes after start-up and is kept only as a field.
- UI rendering, routing components, the HTTP clients with their interceptors, seeds and the data source are out: they are layout and wiring.

## Findings

| source | as written | input that shows it | evidently intended | confidence | as-written member | corrected member |
|---|---|---|---|---|---|---|
| backend/src/utils/jwt.ts:19-20 | `jwt.verify` throws a non-`AppError` for a bad signature or an expired token; `errorHandler` answers that with 500 | an expired access token in `Authorization: Bearer …` | 401 "Token inválido", as for every other unusable token, so the client's 401 handling logs the user out | not executed | Jwt.VerifyAccessTokenAsWritten | Jwt.VerifyAccessToken |
| backend/src/controllers/SaleController.ts:84-92 | `rate ?? null` keeps `""`, which the rate validator accepts as "no rate" for a credit card; the `numeric` column refuses it, and the answer is 500 | `{product: "Tarjeta de Credito", requestedAmount: 1000, franchise: "VISA", rate: ""}` | a blank rate (and a falsy franchise) stored as null | not executed | SaleController.StoredInputAsWritten | SaleController.StoredInput |
| frontend/src/components/Users/UserFormDialog.tsx:21 | the edit form is reset with `password: ""`, and `z.string().min(6)` rejects `""` even in edit mode | open a user for editing, change the name, submit without typing a password | an empty password accepted in edit mode and dropped from the payload, as `submit` intends | not executed | UserForm.FormIssuesAsWritten | UserForm.FormIssues |
| frontend/src/components/Users/UserFormDialog.tsx:21 | zod's `min(6)` counts UTF-16 code units, while the server's `isLength({ min: 6, max: 20 })` counts characters | password "😀😀😀" (six code units, three characters) on a new user | the form refuses what the server refuses, counting characters as the server does | not executed | UserForm.AstralPasswordPassesFormOnly | UserForm.FormIssues |
