/**
 * The request validators of the sales routes: the body rules shared by
 * create and update, the list filters, and the middleware that turns the
 * collected errors into a 422 response.
 */
module SaleValidators {
  import opened Base
  import opened Js
  import opened SaleEntity

  /** One entry of a 422 response's `details`: the offending field and the rule's message. */
  datatype FieldError = FieldError(field: string, message: string)

  /** The outcome of a custom validator: accepted, or rejected with the message it throws. */
  datatype Check = Pass | Reject(message: string)

  const MSG_VALIDATION := "Errores de validación"
  const MSG_PRODUCT := "El producto debe ser Crédito de Consumo, Libranza Libre Inversión o Tarjeta de Crédito"
  const MSG_AMOUNT_NUMERIC := "El cupo solicitado debe ser un número válido"
  const MSG_AMOUNT_POSITIVE := "El cupo solicitado debe ser mayor a 0"
  const MSG_FRANCHISE_REQUIRED := "La franquicia es obligatoria para tarjetas de crédito"
  const MSG_FRANCHISE_INVALID := "La franquicia debe ser AMEX, VISA o MASTERCARD"
  const MSG_FRANCHISE_NOT_ALLOWED := "La franquicia solo se permite para tarjetas de crédito"
  const MSG_RATE_REQUIRED := "La tasa es obligatoria para créditos y libranzas"
  const MSG_RATE_NAN := "La tasa debe ser un número válido"
  const MSG_RATE_RANGE := "La tasa debe estar entre 0.00 y 99.99"
  const MSG_RATE_NOT_ALLOWED := "La tasa solo aplica para créditos o libranzas"
  const MSG_DATE_FROM := "La fecha inicial debe tener un formato válido"
  const MSG_DATE_TO := "La fecha final debe tener un formato válido"

  /** The largest rate the validator accepts. */
  const RATE_MAX := 99.99

  /** The JSON body of a create or update request. */
  datatype SaleBody = SaleBody(product: Value, requestedAmount: Value, franchise: Value, rate: Value)

  /** `isIn(productValues)`: the value is one of the product names. */
  predicate IsProductName(v: Value) {
    v.Str? && v.s in PRODUCT_NAMES
  }

  /** `req.body.product === p`. */
  predicate IsProduct(v: Value, p: ProductType) {
    v == Str(p.Name())
  }

  /** The values the rate validator treats as "no rate": `undefined`, `null` and `""`. */
  predicate Blank(v: Value) {
    v.Undefined? || v.Null? || v == Str("")
  }

  /** `isNumeric()`: text the format check accepts, or a finite number. */
  predicate AmountNumeric(v: Value, fmt: Formats) {
    match v
    case Str(s) => fmt.isNumeric(s)
    case Number(n) => n.Finite?
    case _ => false
  }

  /** `Number(value) > 0`. */
  predicate AmountPositive(v: Value, fmt: Formats) {
    ToNumber(v, fmt).Finite? && ToNumber(v, fmt).x > 0.0
  }

  /** The franchise rule: a known franchise for credit cards, a falsy value for every other product. */
  function FranchiseCheck(body: SaleBody): (c: Check)
    ensures c == Pass && IsProduct(body.product, CreditCard) ==>
      body.franchise.Str? && FranchiseFromName(body.franchise.s).Some?
    ensures c == Pass && !IsProduct(body.product, CreditCard) ==> !Truthy(body.franchise)
    ensures IsProduct(body.product, CreditCard) && body.franchise.Str? && body.franchise.s in FRANCHISE_NAMES ==> c == Pass
    ensures !IsProduct(body.product, CreditCard) && !Truthy(body.franchise) ==> c == Pass
    ensures c.Reject? ==> c.message in {MSG_FRANCHISE_REQUIRED, MSG_FRANCHISE_INVALID, MSG_FRANCHISE_NOT_ALLOWED}
  {
    if IsProduct(body.product, CreditCard) then
      if !Truthy(body.franchise) then Reject(MSG_FRANCHISE_REQUIRED)
      else if !(body.franchise.Str? && body.franchise.s in FRANCHISE_NAMES) then Reject(MSG_FRANCHISE_INVALID)
      else Pass
    else if Truthy(body.franchise) then Reject(MSG_FRANCHISE_NOT_ALLOWED)
    else Pass
  }

  /** The products whose body must carry a rate. */
  predicate RequiresRate(product: Value) {
    IsProduct(product, ConsumerCredit) || IsProduct(product, PayrollLoan)
  }

  /** The rate rule: a number in [0, 99.99] for loans, nothing for every other product. */
  function RateCheck(body: SaleBody, fmt: Formats): (c: Check)
    ensures c == Pass && RequiresRate(body.product) ==>
      !Blank(body.rate) && ToNumber(body.rate, fmt).Finite? && 0.0 <= ToNumber(body.rate, fmt).x <= RATE_MAX
    ensures c == Pass && !RequiresRate(body.product) ==> Blank(body.rate)
    ensures (RequiresRate(body.product) && !Blank(body.rate) && ToNumber(body.rate, fmt).Finite?
      && 0.0 <= ToNumber(body.rate, fmt).x <= RATE_MAX) ==> c == Pass
    ensures !RequiresRate(body.product) && Blank(body.rate) ==> c == Pass
    ensures RequiresRate(body.product) && Blank(body.rate) ==> c == Reject(MSG_RATE_REQUIRED)
  {
    if RequiresRate(body.product) then
      if Blank(body.rate) then Reject(MSG_RATE_REQUIRED)
      else
        match ToNumber(body.rate, fmt)
        case NaN => Reject(MSG_RATE_NAN)
        case Finite(x) => if x < 0.0 || x > RATE_MAX then Reject(MSG_RATE_RANGE) else Pass
    else if !Blank(body.rate) then Reject(MSG_RATE_NOT_ALLOWED)
    else Pass
  }

  function CheckErrors(field: string, c: Check): seq<FieldError> {
    if c.Reject? then [FieldError(field, c.message)] else []
  }

  /** The errors of the shared create/update chain, in the order the chain reports them. */
  function SaleBodyErrors(body: SaleBody, fmt: Formats): (errs: seq<FieldError>)
    ensures errs == [] <==>
      && IsProductName(body.product)
      && AmountNumeric(body.requestedAmount, fmt) && AmountPositive(body.requestedAmount, fmt)
      && FranchiseCheck(body) == Pass && RateCheck(body, fmt) == Pass
    ensures forall e :: e in errs ==> e.field in {"product", "requestedAmount", "franchise", "rate"}
  {
    (if IsProductName(body.product) then [] else [FieldError("product", MSG_PRODUCT)])
    + (if AmountNumeric(body.requestedAmount, fmt) then [] else [FieldError("requestedAmount", MSG_AMOUNT_NUMERIC)])
    + (if AmountPositive(body.requestedAmount, fmt) then [] else [FieldError("requestedAmount", MSG_AMOUNT_POSITIVE)])
    + CheckErrors("franchise", FranchiseCheck(body))
    + CheckErrors("rate", RateCheck(body, fmt))
  }

  /**
   * What the rest of the backend may rely on once a body is accepted: a known
   * product, a positive amount, a franchise exactly for credit cards and a rate
   * in range exactly for loans.
   */
  lemma AcceptedBodyShape(body: SaleBody, fmt: Formats)
    requires SaleBodyErrors(body, fmt) == []
    ensures body.product.Str? && ProductFromName(body.product.s).Some?
    ensures ToNumber(body.requestedAmount, fmt).Finite? && ToNumber(body.requestedAmount, fmt).x > 0.0
    ensures Truthy(body.franchise) <==> ProductFromName(body.product.s) == Some(CreditCard)
    ensures Truthy(body.franchise) ==> body.franchise.Str? && FranchiseFromName(body.franchise.s).Some?
    ensures !Blank(body.rate) <==> ProductFromName(body.product.s).value.RequiresRate()
    ensures !Blank(body.rate) ==>
      (ToNumber(body.rate, fmt).Finite? && 0.0 <= ToNumber(body.rate, fmt).x <= RATE_MAX
       && FitsNumeric(ToNumber(body.rate, fmt).x, RATE_PRECISION, RATE_SCALE))
  {
    var p := ProductFromName(body.product.s).value;
    assert body.product == Str(p.Name());
    if !Blank(body.rate) {
      assert Pow10(RATE_PRECISION - RATE_SCALE) == 1000.0;
    }
  }

  /** The query of a list request; `None` is an absent parameter. */
  datatype SaleQuery = SaleQuery(product: Option<string>, createdFrom: Option<string>, createdTo: Option<string>)

  /** `optional({ values: "falsy" })`: an absent or empty parameter skips its rules. */
  predicate Given(v: Option<string>) {
    v.Some? && v.value != ""
  }

  /** The errors of the list filters, in order. */
  function SaleQueryErrors(q: SaleQuery, fmt: Formats): (errs: seq<FieldError>)
    ensures errs == [] <==>
      && (Given(q.product) ==> q.product.value in PRODUCT_NAMES)
      && (Given(q.createdFrom) ==> fmt.isISO8601(q.createdFrom.value))
      && (Given(q.createdTo) ==> fmt.isISO8601(q.createdTo.value))
    ensures !Given(q.product) && !Given(q.createdFrom) && !Given(q.createdTo) ==> errs == []
  {
    (if Given(q.product) && q.product.value !in PRODUCT_NAMES then [FieldError("product", MSG_PRODUCT)] else [])
    + (if Given(q.createdFrom) && !fmt.isISO8601(q.createdFrom.value) then [FieldError("createdFrom", MSG_DATE_FROM)] else [])
    + (if Given(q.createdTo) && !fmt.isISO8601(q.createdTo.value) then [FieldError("createdTo", MSG_DATE_TO)] else [])
  }

  /** `validateRequest`: any collected error stops the request with 422. */
  function ValidateRequest(errs: seq<FieldError>): (r: Result<()>)
    ensures r.Ok? <==> errs == []
    ensures r.Err? ==> r.error == AppError(UNPROCESSABLE, MSG_VALIDATION)
  {
    if errs == [] then Ok(()) else Err(AppError(UNPROCESSABLE, MSG_VALIDATION))
  }
}
