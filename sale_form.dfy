/**
 * The sale form of the client: the schema its values are checked against
 * before submission (field types, a minimum amount, and the cross-field rule
 * tying franchise and rate to the product) and the payload it submits.
 */
module SaleForm {
  import opened Base
  import opened Js
  import opened SaleEntity
  import opened SaleValidators

  /** The form's values as the schema receives them. */
  datatype SaleFormInput = SaleFormInput(product: Value, requestedAmount: Value, franchise: Value, rate: Value)

  /** The values once they have the schema's types; an absent franchise or rate (`null` or `undefined`) is `None`. */
  datatype SaleFormValues = SaleFormValues(
    product: ProductType,
    requestedAmount: real,
    franchise: Option<FranchiseType>,
    rate: Option<real>)

  const AMOUNT_MIN := 1.0

  /** `z.nativeEnum(ProductType)`. */
  function ProductOf(v: Value): Option<ProductType> {
    if v.Str? then ProductFromName(v.s) else None
  }

  /** `z.number()`: a number that is not NaN. */
  function NumberOf(v: Value): Option<real> {
    if v.Number? && v.n.Finite? then Some(v.n.x) else None
  }

  /** `nullable().optional()` around a type: absent, or of that type. */
  predicate OptionalOk<T>(v: Value, parsed: Option<T>) {
    Nullish(v) || parsed.Some?
  }

  function FranchiseOf(v: Value): Option<FranchiseType> {
    if v.Str? then FranchiseFromName(v.s) else None
  }

  /** The fields whose value has the wrong type; any of them stops the object before the cross-field rule. */
  function TypeIssues(f: SaleFormInput): (fields: set<string>)
    ensures "product" in fields <==> ProductOf(f.product).None?
    ensures "requestedAmount" in fields <==> NumberOf(f.requestedAmount).None?
    ensures "franchise" in fields <==> !OptionalOk(f.franchise, FranchiseOf(f.franchise))
    ensures "rate" in fields <==> !OptionalOk(f.rate, NumberOf(f.rate))
    ensures fields <= {"product", "requestedAmount", "franchise", "rate"}
  {
    (if ProductOf(f.product).None? then {"product"} else {})
    + (if NumberOf(f.requestedAmount).None? then {"requestedAmount"} else {})
    + (if OptionalOk(f.franchise, FranchiseOf(f.franchise)) then {} else {"franchise"})
    + (if OptionalOk(f.rate, NumberOf(f.rate)) then {} else {"rate"})
  }

  /** The typed values, once no field has the wrong type. */
  function Typed(f: SaleFormInput): (v: SaleFormValues)
    requires TypeIssues(f) == {}
    ensures v.product.Name() == f.product.s && v.requestedAmount == f.requestedAmount.n.x
    ensures v.franchise.None? <==> Nullish(f.franchise)
    ensures v.franchise.Some? ==> f.franchise == Str(v.franchise.value.Name())
    ensures v.rate.None? <==> Nullish(f.rate)
    ensures v.rate.Some? ==> f.rate == Number(Finite(v.rate.value))
  {
    assert "product" !in TypeIssues(f) && "requestedAmount" !in TypeIssues(f);
    assert "franchise" !in TypeIssues(f) && "rate" !in TypeIssues(f);
    SaleFormValues(
      ProductOf(f.product).value,
      NumberOf(f.requestedAmount).value,
      if Nullish(f.franchise) then None else FranchiseOf(f.franchise),
      if Nullish(f.rate) then None else NumberOf(f.rate))
  }

  /** The `superRefine` rule: the fields it adds an issue on. */
  function RefineIssues(v: SaleFormValues): (fields: set<string>)
    ensures "franchise" in fields <==> (v.product == CreditCard) != v.franchise.Some?
    ensures "rate" in fields <==>
      if v.product.RequiresRate() then v.rate.None? || v.rate.value < 0.0 || v.rate.value > RATE_MAX
      else v.rate.Some?
    ensures fields <= {"franchise", "rate"}
  {
    var requiresFranchise := v.product == CreditCard;
    var requiresRate := v.product == ConsumerCredit || v.product == PayrollLoan;
    (if requiresFranchise && v.franchise.None? then {"franchise"} else {})
    + (if !requiresFranchise && v.franchise.Some? then {"franchise"} else {})
    + (if requiresRate && (v.rate.None? || v.rate.value < 0.0 || v.rate.value > RATE_MAX) then {"rate"} else {})
    + (if !requiresRate && v.rate.Some? then {"rate"} else {})
  }

  /**
   * Every field the schema reports: wrong types, an amount under 1, and,
   * when every type is right, the cross-field rule.
   */
  function FormIssues(f: SaleFormInput): (fields: set<string>)
    ensures TypeIssues(f) <= fields
    ensures NumberOf(f.requestedAmount).Some? && NumberOf(f.requestedAmount).value < AMOUNT_MIN ==> "requestedAmount" in fields
    ensures TypeIssues(f) == {} ==> RefineIssues(Typed(f)) <= fields
    ensures fields == {} <==>
      && TypeIssues(f) == {}
      && Typed(f).requestedAmount >= AMOUNT_MIN
      && (Typed(f).franchise.Some? <==> Typed(f).product == CreditCard)
      && (Typed(f).rate.Some? <==> Typed(f).product.RequiresRate())
      && (Typed(f).rate.Some? ==> 0.0 <= Typed(f).rate.value <= RATE_MAX)
  {
    var amountIssue := if NumberOf(f.requestedAmount).Some? && NumberOf(f.requestedAmount).value < AMOUNT_MIN
      then {"requestedAmount"} else {};
    if TypeIssues(f) != {} then TypeIssues(f) + amountIssue
    else
      var v := Typed(f);
      assert "franchise" in RefineIssues(v) <==> (v.product == CreditCard) != v.franchise.Some?;
      assert "rate" in RefineIssues(v) <==>
        if v.product.RequiresRate() then v.rate.None? || v.rate.value < 0.0 || v.rate.value > RATE_MAX
        else v.rate.Some?;
      amountIssue + RefineIssues(v)
  }

  /**
   * `submit`: the values with the franchise kept only for a credit card and
   * the rate only for the two loans.
   */
  function Submitted(v: SaleFormValues): (p: SaleFormValues)
    ensures p.product == v.product && p.requestedAmount == v.requestedAmount
    ensures p.franchise.Some? ==> p.product == CreditCard && p.franchise == v.franchise
    ensures p.rate.Some? ==> p.product.RequiresRate() && p.rate == v.rate
    ensures v.product == CreditCard ==> p.franchise == v.franchise
    ensures v.product.RequiresRate() ==> p.rate == v.rate
  {
    v.(franchise := if v.product == CreditCard then v.franchise else None,
       rate := if v.product.RequiresRate() then v.rate else None)
  }

  /** The JSON body the payload is sent as; an absent franchise or rate is `null`. */
  function Body(p: SaleFormValues): SaleBody {
    SaleBody(
      Str(p.product.Name()),
      Number(Finite(p.requestedAmount)),
      if p.franchise.Some? then Str(p.franchise.value.Name()) else Null,
      if p.rate.Some? then Number(Finite(p.rate.value)) else Null)
  }

  /** On values the schema accepts, the submit normalisation changes nothing. */
  lemma SubmitKeepsAccepted(f: SaleFormInput)
    requires FormIssues(f) == {}
    ensures Submitted(Typed(f)) == Typed(f)
  {
  }

  /**
   * Whatever the form accepts and submits, the server's body rules accept
   * too, whatever the format checks say: the form is at least as strict.
   */
  lemma AcceptedFormPassesServer(f: SaleFormInput, fmt: Formats)
    requires FormIssues(f) == {}
    ensures SaleBodyErrors(Body(Submitted(Typed(f))), fmt) == []
  {
    var v := Typed(f);
    var body := Body(Submitted(v));
    assert body.product == Str(v.product.Name());
    assert IsProductName(body.product) by {
      match v.product
      case ConsumerCredit =>
      case PayrollLoan =>
      case CreditCard =>
    }
    if v.product == CreditCard {
      var fr := v.franchise.value;
      assert body.franchise.s in FRANCHISE_NAMES by {
        match fr
        case Amex =>
        case Visa =>
        case Mastercard =>
      }
      assert FranchiseCheck(body) == Pass;
    } else {
      assert !IsProduct(body.product, CreditCard);
      assert FranchiseCheck(body) == Pass;
    }
    assert RequiresRate(body.product) <==> v.product.RequiresRate();
    assert RateCheck(body, fmt) == Pass;
  }

  /** The server still accepts an amount the form refuses: the form's minimum is 1, the server's is anything above 0. */
  lemma FormStricterOnAmount(fmt: Formats)
    ensures var f := SaleFormInput(Str(CreditCard.Name()), Number(Finite(0.5)), Str(Visa.Name()), Null);
      "requestedAmount" in FormIssues(f)
      && SaleBodyErrors(SaleBody(f.product, f.requestedAmount, f.franchise, f.rate), fmt) == []
  {
    var body := SaleBody(Str(CreditCard.Name()), Number(Finite(0.5)), Str(Visa.Name()), Null);
    assert IsProductName(body.product);
    assert FranchiseCheck(body) == Pass;
  }
}
