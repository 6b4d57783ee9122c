/**
 * The sales controller: the handlers behind the sales routes. Each one
 * checks for an authenticated caller, parses the `:id` parameter, loads the
 * caller's user row and hands the request to the sales service; values the
 * database columns refuse end the request with 500.
 */
module SaleController {
  import opened Base
  import opened Js
  import opened UserEntity
  import opened SaleEntity
  import opened Collections
  import opened SaleValidators
  import opened AuthMiddleware
  import opened Sales
  import opened Users

  const MSG_CANNOT_VIEW := "No tienes permisos para ver esta venta"

  /** The body of a list response. */
  datatype ListResponse = ListResponse(totalRequestedAmount: real, data: seq<Sale>)

  /** `if (!user)`: the caller attached by the middleware, or 401. */
  function Caller(user: Option<RequestUser>): (r: Result<RequestUser>)
    ensures r.Ok? <==> user.Some?
    ensures r.Ok? ==> r.value == user.value
    ensures r.Err? ==> r.error == AppError(UNAUTHORIZED, MSG_UNAUTHORIZED)
  {
    if user.None? then Err(AppError(UNAUTHORIZED, MSG_UNAUTHORIZED)) else Ok(user.value)
  }

  /** `Number(req.params.id)` and its NaN check: 400 "Identificador inválido", else the number. */
  function RouteNumber(param: string, fmt: Formats): (r: Result<real>)
    ensures r.Err? <==> ToNumber(Str(param), fmt).NaN?
    ensures r.Err? ==> r.error == AppError(BAD_REQUEST, MSG_INVALID_ID)
    ensures r.Ok? ==> ToNumber(Str(param), fmt) == Finite(r.value)
  {
    match ToNumber(Str(param), fmt)
    case NaN => Err(AppError(BAD_REQUEST, MSG_INVALID_ID))
    case Finite(x) => Ok(x)
  }

  /** The id once the first query uses it as a key: 400 for NaN, then the integer the key column needs. */
  function RouteId(param: string, fmt: Formats): (r: Result<int>)
    ensures ToNumber(Str(param), fmt).NaN? ==> r == Err(AppError(BAD_REQUEST, MSG_INVALID_ID))
    ensures r.Ok? ==> ToNumber(Str(param), fmt) == Finite(r.value as real)
    ensures r.Err? ==> r.error.status in {BAD_REQUEST, INTERNAL}
  {
    var x :- RouteNumber(param, fmt);
    IntegerKey(x)
  }

  /** A value written to a `numeric(precision, scale)` column: a finite number or non-empty numeric text that fits. */
  function NumericColumn(v: Value, precision: nat, scale: nat, fmt: Formats): (r: Result<real>)
    requires scale <= precision
    ensures r.Ok? ==> FitsNumeric(r.value, precision, scale) && ToNumber(v, fmt) == Finite(r.value)
    ensures r.Ok? ==> v.Number? || (v.Str? && v.s != "")
    ensures r.Err? ==> r.error == DB_ERROR
  {
    var x: Option<real> :=
      match v
      case Number(Finite(x)) => Some(x)
      case Str(s) => if s != "" && ToNumber(v, fmt).Finite? then Some(ToNumber(v, fmt).x) else None
      case _ => None;
    if x.Some? && FitsNumeric(x.value, precision, scale) then Ok(x.value) else Err(DB_ERROR)
  }

  /** A value written to the product column. */
  function ProductColumn(v: Value): (r: Result<ProductType>)
    ensures r.Ok? <==> v.Str? && ProductFromName(v.s).Some?
    ensures r.Ok? ==> v == Str(r.value.Name())
    ensures r.Err? ==> r.error == DB_ERROR
  {
    if v.Str? && ProductFromName(v.s).Some? then Ok(ProductFromName(v.s).value) else Err(DB_ERROR)
  }

  /** A value written to the nullable franchise column: null, or one of its names. */
  function FranchiseColumn(v: Value): (r: Result<Option<FranchiseType>>)
    ensures v.Null? ==> r == Ok(None)
    ensures r == Ok(None) ==> v.Null?
    ensures r.Ok? && r.value.Some? ==> v == Str(r.value.value.Name())
    ensures r.Err? ==> r.error == DB_ERROR
  {
    if v.Null? then Ok(None)
    else if v.Str? && FranchiseFromName(v.s).Some? then Ok(FranchiseFromName(v.s))
    else Err(DB_ERROR)
  }

  /** A value written to the nullable rate column: null, or a number that fits `numeric(5,2)`. */
  function RateColumn(v: Value, fmt: Formats): (r: Result<Option<real>>)
    ensures v.Null? ==> r == Ok(None)
    ensures r == Ok(None) ==> v.Null?
    ensures r.Ok? && r.value.Some? ==> FitsNumeric(r.value.value, RATE_PRECISION, RATE_SCALE)
    ensures r.Err? ==> r.error == DB_ERROR
  {
    if v.Null? then Ok(None)
    else
      var x :- NumericColumn(v, RATE_PRECISION, RATE_SCALE, fmt);
      Ok(Some(x))
  }

  /** `value ?? null`. */
  function OrNull(v: Value): (r: Value)
    ensures Nullish(v) ==> r == Null
    ensures !Nullish(v) ==> r == v
  {
    if Nullish(v) then Null else v
  }

  /**
   * The row values `create` and `update` save, as written: `franchise ?? null`
   * and `rate ?? null` keep an empty string or another falsy value, which
   * the enum and numeric columns refuse.
   */
  function StoredInputAsWritten(body: SaleBody, fmt: Formats): (r: Result<SaleInput>)
    ensures r.Err? ==> r.error == DB_ERROR
    ensures r.Ok? ==> (Nullish(body.franchise) <==> r.value.franchise.None?)
    ensures r.Ok? ==> (Nullish(body.rate) <==> r.value.rate.None?)
  {
    var product :- ProductColumn(body.product);
    var amount :- NumericColumn(body.requestedAmount, AMOUNT_PRECISION, AMOUNT_SCALE, fmt);
    var franchise :- FranchiseColumn(OrNull(body.franchise));
    var rate :- RateColumn(OrNull(body.rate), fmt);
    Ok(SaleInput(product, amount, franchise, rate))
  }

  /**
   * The row values as the validators mean them: a falsy franchise and a blank
   * rate, which the validators accept as "none", are stored as null, and a
   * rate is stored as the number the validator checked.
   */
  function StoredInput(body: SaleBody, fmt: Formats): (r: Result<SaleInput>)
    ensures r.Err? ==> r.error == DB_ERROR
    ensures r.Ok? ==> (!Truthy(body.franchise) <==> r.value.franchise.None?)
    ensures r.Ok? ==> (Blank(body.rate) <==> r.value.rate.None?)
    ensures r.Ok? ==> body.product == Str(r.value.product.Name())
  {
    var product :- ProductColumn(body.product);
    var amount :- NumericColumn(body.requestedAmount, AMOUNT_PRECISION, AMOUNT_SCALE, fmt);
    var franchise :- FranchiseColumn(if Truthy(body.franchise) then body.franchise else Null);
    var rate :- RateColumn(if Blank(body.rate) then Null else Number(ToNumber(body.rate, fmt)), fmt);
    Ok(SaleInput(product, amount, franchise, rate))
  }

  /**
   * Every body the validators accept whose amount fits `numeric(15,2)` is
   * saved, with a franchise exactly for credit cards and a rate exactly for
   * loans, and with the amount and rate the validators checked.
   */
  lemma AcceptedBodyStored(body: SaleBody, fmt: Formats)
    requires SaleBodyErrors(body, fmt) == []
    requires FitsNumeric(ToNumber(body.requestedAmount, fmt).x, AMOUNT_PRECISION, AMOUNT_SCALE)
    ensures StoredInput(body, fmt).Ok?
    ensures var input := StoredInput(body, fmt).value;
      && (input.franchise.Some? <==> input.product.RequiresFranchise())
      && (input.rate.Some? <==> input.product.RequiresRate())
      && input.requestedAmount == ToNumber(body.requestedAmount, fmt).x > 0.0
      && (input.rate.Some? ==> 0.0 <= input.rate.value <= RATE_MAX)
  {
    AcceptedBodyShape(body, fmt);
    var p := ProductFromName(body.product.s).value;
    assert ProductColumn(body.product) == Ok(p);
    assert NumericColumn(body.requestedAmount, AMOUNT_PRECISION, AMOUNT_SCALE, fmt).Ok?;
    if Truthy(body.franchise) {
      assert FranchiseColumn(body.franchise).Ok?;
    }
    if !Blank(body.rate) {
      assert RateColumn(Number(ToNumber(body.rate, fmt)), fmt).Ok?;
    }
  }

  /**
   * As written, a body the validators accept whose amount fits is saved
   * exactly when its franchise is nullish or a name and its rate is neither
   * the empty string nor a boolean; it is then saved as the intended version
   * saves it. Every other accepted body ends in 500.
   */
  lemma AcceptedBodyStoredAsWritten(body: SaleBody, fmt: Formats)
    requires SaleBodyErrors(body, fmt) == []
    requires FitsNumeric(ToNumber(body.requestedAmount, fmt).x, AMOUNT_PRECISION, AMOUNT_SCALE)
    ensures StoredInputAsWritten(body, fmt).Ok? <==>
      (Nullish(body.franchise) || Truthy(body.franchise)) && body.rate != Str("") && !body.rate.Bool?
    ensures StoredInputAsWritten(body, fmt).Ok? ==> StoredInputAsWritten(body, fmt) == StoredInput(body, fmt)
    ensures StoredInputAsWritten(body, fmt).Err? ==> StoredInputAsWritten(body, fmt) == Err(DB_ERROR)
  {
    AcceptedBodyStored(body, fmt);
    AcceptedBodyShape(body, fmt);
    if (Nullish(body.franchise) || Truthy(body.franchise)) && body.rate != Str("") && !body.rate.Bool? {
      if Truthy(body.franchise) {
        assert body.franchise.Str? && body.franchise.s != "";
      }
      StoredVersionsAgree(body, fmt);
    } else if !(Nullish(body.franchise) || Truthy(body.franchise)) {
      assert FranchiseColumn(OrNull(body.franchise)).Err?;
    } else {
      assert RateColumn(OrNull(body.rate), fmt).Err?;
    }
  }

  /** A credit-card body with an empty rate: the validators accept it. */
  const CARD_WITH_EMPTY_RATE := SaleBody(Str(CreditCard.Name()), Number(Finite(1000.0)), Str(Visa.Name()), Str(""))

  /**
   * The body above passes every validator, yet the code as written sends the
   * empty rate to the numeric column and answers 500; the intended version
   * stores it with a null rate.
   */
  lemma EmptyRateRejectedByDatabase(fmt: Formats)
    ensures SaleBodyErrors(CARD_WITH_EMPTY_RATE, fmt) == []
    ensures StoredInputAsWritten(CARD_WITH_EMPTY_RATE, fmt) == Err(DB_ERROR)
    ensures StoredInput(CARD_WITH_EMPTY_RATE, fmt) == Ok(SaleInput(CreditCard, 1000.0, Some(Visa), None))
  {
    var b := CARD_WITH_EMPTY_RATE;
    assert IsProduct(b.product, CreditCard);
    assert !RequiresRate(b.product) by {
      assert !IsProduct(b.product, ConsumerCredit) && !IsProduct(b.product, PayrollLoan);
    }
    assert ProductColumn(b.product) == Ok(CreditCard);
    assert Pow10(AMOUNT_PRECISION - AMOUNT_SCALE) >= 1000.0 * Pow10(10) by {
      assert Pow10(13) == 10.0 * (10.0 * (10.0 * Pow10(10)));
    }
    assert NumericColumn(b.requestedAmount, AMOUNT_PRECISION, AMOUNT_SCALE, fmt) == Ok(1000.0);
    assert FranchiseColumn(b.franchise) == Ok(Some(Visa));
    assert RateColumn(b.rate, fmt) == Err(DB_ERROR);
  }

  /**
   * The two versions agree whenever the body's franchise is a name or nullish
   * and its rate is neither the empty string nor a boolean.
   */
  lemma StoredVersionsAgree(body: SaleBody, fmt: Formats)
    requires Nullish(body.franchise) || (body.franchise.Str? && body.franchise.s != "")
    requires body.rate != Str("") && !body.rate.Bool?
    ensures StoredInputAsWritten(body, fmt) == StoredInput(body, fmt)
  {
  }

  /**
   * The filters `list` builds: the query's product and dates, and for an
   * advisor the caller's own id; 500 for values the query cannot use.
   */
  function ListFilters(user: RequestUser, q: SaleQuery, parseDate: string -> Option<int>): (r: Result<SaleFilters>)
    ensures r.Ok? ==> (r.value.createdById.Some? <==> user.role == Advisor.Name())
    ensures r.Ok? && r.value.createdById.Some? ==> r.value.createdById.value as real == user.id
    ensures r.Ok? ==> (r.value.product.Some? <==> Given(q.product))
    ensures r.Ok? && Given(q.product) ==> q.product.value == r.value.product.value.Name()
    ensures r.Ok? ==> (r.value.createdFrom.Some? <==> Given(q.createdFrom))
    ensures r.Ok? ==> (r.value.createdTo.Some? <==> Given(q.createdTo))
    ensures r.Err? ==> r.error == DB_ERROR
  {
    var product :-
      if !Given(q.product) then Ok(None)
      else if ProductFromName(q.product.value).Some? then Ok(ProductFromName(q.product.value))
      else Err(DB_ERROR);
    var from :-
      if !Given(q.createdFrom) then Ok(None)
      else if parseDate(q.createdFrom.value).Some? then Ok(parseDate(q.createdFrom.value))
      else Err(DB_ERROR);
    var to :-
      if !Given(q.createdTo) then Ok(None)
      else if parseDate(q.createdTo.value).Some? then Ok(parseDate(q.createdTo.value))
      else Err(DB_ERROR);
    var createdById :-
      if user.role != Advisor.Name() then Ok(None)
      else if user.id == 0.0 then Ok(Some(0))
      else
        var id :- IntegerKey(user.id);
        Ok(Some(id));
    Ok(SaleFilters(product, createdById, from, to))
  }

  class SaleController {
    const sales: SaleService
    const users: UserService

    ghost predicate Valid()
      reads this, sales, users
    {
      sales.Valid() && users.Valid()
    }

    constructor (sales: SaleService, users: UserService)
      ensures this.sales == sales && this.users == users
    {
      this.sales := sales;
      this.users := users;
    }

    /**
     * `list`: 401 without a caller; otherwise the sales the filters select,
     * newest first, with the total of exactly those sales.
     */
    function List(user: Option<RequestUser>, q: SaleQuery, parseDate: string -> Option<int>): (r: Result<ListResponse>)
      reads this, sales
      ensures user.None? ==> r == Err(AppError(UNAUTHORIZED, MSG_UNAUTHORIZED))
      ensures r.Ok? ==> (user.Some? && ListFilters(user.value, q, parseDate).Ok?
        && r.value.data == sales.List(ListFilters(user.value, q, parseDate).value))
      ensures r.Ok? ==> r.value.totalRequestedAmount == SumOf(r.value.data, Amount)
      ensures r.Ok? ==> Sorted(r.value.data, CreatedAtKey, true)
      ensures user.Some? && ListFilters(user.value, q, parseDate).Ok? ==> r.Ok?
      ensures user.Some? && ListFilters(user.value, q, parseDate).Err? ==> r == Err(DB_ERROR)
    {
      var caller :- Caller(user);
      var filters :- ListFilters(caller, q, parseDate);
      Ok(ListResponse(sales.TotalRequested(filters), sales.List(filters)))
    }

    /** `getById`: 401, then 400 for a non-numeric id, 404, and 403 when an advisor asks for another's sale. */
    function GetById(user: Option<RequestUser>, idParam: string, fmt: Formats): (r: Result<Sale>)
      reads this, sales
      ensures user.None? ==> r == Err(AppError(UNAUTHORIZED, MSG_UNAUTHORIZED))
      ensures user.Some? && ToNumber(Str(idParam), fmt).NaN? ==> r == Err(AppError(BAD_REQUEST, MSG_INVALID_ID))
      ensures r.Ok? ==> (r.value in sales.rows && RouteId(idParam, fmt) == Ok(r.value.id))
      ensures r.Ok? && user.value.role == Advisor.Name() ==> r.value.createdBy.id as real == user.value.id
      ensures (user.Some? && RouteId(idParam, fmt).Ok? && sales.GetById(RouteId(idParam, fmt).value).Ok?
        && user.value.role != Advisor.Name()) ==> r.Ok?
      ensures r.Err? && r.error.message == MSG_CANNOT_VIEW ==> user.value.role == Advisor.Name()
      ensures user.Some? && RouteId(idParam, fmt).Err? ==> r == Err(RouteId(idParam, fmt).error)
      ensures user.Some? && RouteId(idParam, fmt).Ok? && sales.GetById(RouteId(idParam, fmt).value).Err? ==>
        r == Err(AppError(NOT_FOUND, MSG_SALE_NOT_FOUND))
      ensures user.Some? && RouteId(idParam, fmt).Ok? && sales.GetById(RouteId(idParam, fmt).value).Ok? ==>
        var sale := sales.GetById(RouteId(idParam, fmt).value).value;
        if user.value.role == Advisor.Name() && sale.createdBy.id as real != user.value.id
        then r == Err(AppError(FORBIDDEN, MSG_CANNOT_VIEW))
        else r == Ok(sale)
    {
      var caller :- Caller(user);
      var id :- RouteId(idParam, fmt);
      var sale :- sales.GetById(id);
      if caller.role == Advisor.Name() && sale.createdBy.id as real != caller.id then
        Err(AppError(FORBIDDEN, MSG_CANNOT_VIEW))
      else Ok(sale)
    }

    /** `userService.getById(user.id)`: the caller's row, 404 when it is gone, 500 for an id that is not an integer. */
    function CurrentUser(caller: RequestUser): (r: Result<PublicUser>)
      reads this, users
      ensures r.Ok? ==> r.value.id as real == caller.id && r.value in PublicRows(users.rows)
      ensures r.Err? ==> r.error in {DB_ERROR, AppError(NOT_FOUND, MSG_USER_NOT_FOUND)}
      ensures IntegerKey(caller.id).Err? ==> r == Err(DB_ERROR)
      ensures IntegerKey(caller.id).Ok? ==> r == users.GetById(IntegerKey(caller.id).value)
    {
      var id :- IntegerKey(caller.id);
      var u :- users.GetById(id);
      Ok(u)
    }

    /**
     * The steps every mutation of one sale begins with: the caller, the NaN
     * check of the route id, the caller's row, and then the id as the key the
     * service's first query needs.
     */
    function Prelude(user: Option<RequestUser>, idParam: string, fmt: Formats): (r: Result<(int, PublicUser)>)
      reads this, users
      ensures user.None? ==> r == Err(AppError(UNAUTHORIZED, MSG_UNAUTHORIZED))
      ensures user.Some? && ToNumber(Str(idParam), fmt).NaN? ==> r == Err(AppError(BAD_REQUEST, MSG_INVALID_ID))
      ensures user.Some? && RouteNumber(idParam, fmt).Ok? && CurrentUser(user.value).Err? ==>
        r == Err(CurrentUser(user.value).error)
      ensures user.Some? && CurrentUser(user.value).Ok? ==>
        r == (match RouteId(idParam, fmt)
              case Ok(id) => Ok((id, CurrentUser(user.value).value))
              case Err(e) => Err(e))
      ensures r.Ok? ==> RouteId(idParam, fmt) == Ok(r.value.0) && CurrentUser(user.value) == Ok(r.value.1)
    {
      var caller :- Caller(user);
      var x :- RouteNumber(idParam, fmt);
      var current :- CurrentUser(caller);
      var id :- IntegerKey(x);
      Ok((id, current))
    }

    /**
     * `create`: 401, the caller's row, then a new sale by that user with the
     * body's values as the code writes them, so a value the columns refuse is
     * a 500.
     */
    method Create(user: Option<RequestUser>, body: SaleBody, fmt: Formats, now: int) returns (r: Result<Sale>)
      requires Valid()
      modifies sales
      ensures Valid()
      ensures user.None? ==> r == Err(AppError(UNAUTHORIZED, MSG_UNAUTHORIZED))
      ensures r.Err? ==> sales.rows == old(sales.rows)
      ensures r.Ok? ==> (user.Some? && CurrentUser(user.value).Ok? && StoredInputAsWritten(body, fmt).Ok?
        && var input := StoredInputAsWritten(body, fmt).value;
           r.value == Sale(old(sales.nextId), input.product, DEFAULT_STATUS, input.requestedAmount,
             input.franchise, input.rate, CurrentUser(user.value).value, Some(CurrentUser(user.value).value), now, now)
           && sales.rows == old(sales.rows) + [r.value])
      ensures user.Some? && CurrentUser(user.value).Ok? && StoredInputAsWritten(body, fmt).Ok? ==> r.Ok?
      ensures user.Some? && CurrentUser(user.value).Ok? && StoredInputAsWritten(body, fmt).Err? ==> r == Err(DB_ERROR)
    {
      var caller :- Caller(user);
      var current :- CurrentUser(caller);
      var input :- StoredInputAsWritten(body, fmt);
      var sale := sales.Create(input, current, now);
      r := Ok(sale);
    }

    /**
     * `update`: the prelude, the service's read and ownership check, then the
     * save of the body's values as the code writes them; a refusal at any step
     * changes nothing.
     */
    method Update(user: Option<RequestUser>, idParam: string, body: SaleBody, fmt: Formats, now: int) returns (r: Result<Sale>)
      requires Valid()
      modifies sales
      ensures Valid()
      ensures r.Err? ==> sales.rows == old(sales.rows)
      ensures match Prelude(user, idParam, fmt)
        case Err(e) => r == Err(e)
        case Ok((id, current)) =>
          match Authorized(old(sales.rows), id, current)
          case Err(e) => r == Err(e)
          case Ok(k) =>
            match StoredInputAsWritten(body, fmt)
            case Err(e) => r == Err(e)
            case Ok(input) =>
              r == Ok(Revised(old(sales.rows)[k], input, current, now)) && sales.rows == old(sales.rows)[k := r.value]
    {
      var p :- Prelude(user, idParam, fmt);
      var (id, current) := p;
      var _ :- Authorized(sales.rows, id, current);
      var input :- StoredInputAsWritten(body, fmt);
      r := sales.Update(id, input, current, now);
    }

    /** `delete`: the prelude, then the service's delete; a refusal changes nothing. */
    method Delete(user: Option<RequestUser>, idParam: string, fmt: Formats) returns (r: Result<()>)
      requires Valid()
      modifies sales
      ensures Valid()
      ensures r.Err? ==> sales.rows == old(sales.rows)
      ensures match Prelude(user, idParam, fmt)
        case Err(e) => r == Err(e)
        case Ok((id, current)) =>
          match Authorized(old(sales.rows), id, current)
          case Err(e) => r == Err(e)
          case Ok(k) => r == Ok(()) && sales.rows == RemoveAt(old(sales.rows), k)
    {
      var p :- Prelude(user, idParam, fmt);
      var (id, current) := p;
      r := sales.Delete(id, current);
    }

    /**
     * `updateStatus`: the prelude, the service's read and ownership check, then
     * the save. A known status name is stored; an absent status leaves the
     * status as it was and records the editor; any other value is refused by
     * the column.
     */
    method UpdateStatus(user: Option<RequestUser>, idParam: string, status: Value, fmt: Formats, now: int) returns (r: Result<Sale>)
      requires Valid()
      modifies sales
      ensures Valid()
      ensures r.Err? ==> sales.rows == old(sales.rows)
      ensures match Prelude(user, idParam, fmt)
        case Err(e) => r == Err(e)
        case Ok((id, current)) =>
          match Authorized(old(sales.rows), id, current)
          case Err(e) => r == Err(e)
          case Ok(k) =>
            match StatusColumn(status)
            case Err(e) => r == Err(e)
            case Ok(s) =>
              var next := if s.Some? then s.value else old(sales.rows)[k].status;
              r == Ok(StatusChanged(old(sales.rows)[k], next, current, now)) && sales.rows == old(sales.rows)[k := r.value]
    {
      var p :- Prelude(user, idParam, fmt);
      var (id, current) := p;
      var k :- Authorized(sales.rows, id, current);
      var s :- StatusColumn(status);
      var next := if s.Some? then s.value else sales.rows[k].status;
      r := sales.UpdateStatus(id, next, current, now);
    }
  }

  /** The status of an `updateStatus` body: a known name, `undefined` (no change), or 500. */
  function StatusColumn(v: Value): (r: Result<Option<SaleStatus>>)
    ensures r == Ok(None) <==> v.Undefined?
    ensures r.Ok? && r.value.Some? ==> v == Str(r.value.value.Name())
    ensures v.Str? && StatusFromName(v.s).Some? ==> r.Ok?
    ensures r.Err? ==> r.error == DB_ERROR
  {
    if v.Undefined? then Ok(None)
    else if v.Str? && StatusFromName(v.s).Some? then Ok(StatusFromName(v.s))
    else Err(DB_ERROR)
  }

  /** An administrator's list holds every stored sale that matches the query's own filters. */
  lemma AdminSeesAll(c: SaleController, user: RequestUser, q: SaleQuery, parseDate: string -> Option<int>, s: Sale)
    requires user.role != Advisor.Name()
    requires ListFilters(user, q, parseDate).Ok?
    requires s in c.sales.rows && Matches(ListFilters(user, q, parseDate).value, s)
    ensures s in c.List(Some(user), q, parseDate).value.data
  {
  }

  /** An advisor's list holds only the advisor's own sales. */
  lemma AdvisorSeesOwn(c: SaleController, user: RequestUser, q: SaleQuery, parseDate: string -> Option<int>, s: Sale)
    requires user.role == Advisor.Name() && user.id != 0.0
    requires ListFilters(user, q, parseDate).Ok?
    requires s in c.List(Some(user), q, parseDate).value.data
    ensures s.createdBy.id as real == user.id
  {
    var f := ListFilters(user, q, parseDate).value;
    assert s in c.sales.List(f);
    assert Matches(f, s);
  }

  /**
   * An advisor whose token id reads as 0 gets a falsy `createdById`, which the
   * service skips: such an advisor sees every stored sale the other filters
   * select, whoever created it.
   */
  lemma ZeroIdAdvisorSeesAll(c: SaleController, user: RequestUser, q: SaleQuery, parseDate: string -> Option<int>, s: Sale)
    requires user.role == Advisor.Name() && user.id == 0.0
    requires ListFilters(user, q, parseDate).Ok?
    requires s in c.sales.rows && Matches(ListFilters(user, q, parseDate).value.(createdById := None), s)
    ensures s in c.List(Some(user), q, parseDate).value.data
  {
    assert ListFilters(user, q, parseDate).value.createdById == Some(0);
  }
}
