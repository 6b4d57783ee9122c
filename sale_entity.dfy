/**
 * The `Sale` entity: its three closed enumerations, the row itself and the
 * column constraints of the `sales` table.
 */
module SaleEntity {
  import opened Base
  import opened UserEntity

  datatype ProductType = ConsumerCredit | PayrollLoan | CreditCard {
    function Name(): string {
      match this
      case ConsumerCredit => "Credito de Consumo"
      case PayrollLoan => "Libranza Libre Inversión"
      case CreditCard => "Tarjeta de Credito"
    }

    /** Consumer credit and payroll loans carry an interest rate. */
    predicate RequiresRate() { ConsumerCredit? || PayrollLoan? }

    /** Credit cards carry a franchise. */
    predicate RequiresFranchise() { CreditCard? }
  }

  datatype FranchiseType = Amex | Visa | Mastercard {
    function Name(): string {
      match this
      case Amex => "AMEX"
      case Visa => "VISA"
      case Mastercard => "MASTERCARD"
    }
  }

  datatype SaleStatus = Open | InProgress | Closed {
    function Name(): string {
      match this
      case Open => "Abierto"
      case InProgress => "En Proceso"
      case Closed => "Finalizado"
    }
  }

  const PRODUCT_NAMES: seq<string> := ["Credito de Consumo", "Libranza Libre Inversión", "Tarjeta de Credito"]
  const FRANCHISE_NAMES: seq<string> := ["AMEX", "VISA", "MASTERCARD"]
  const STATUS_NAMES: seq<string> := ["Abierto", "En Proceso", "Finalizado"]

  function ProductFromName(name: string): (r: Option<ProductType>)
    ensures r.Some? ==> r.value.Name() == name
    ensures r.None? <==> name !in PRODUCT_NAMES
  {
    if name == ConsumerCredit.Name() then Some(ConsumerCredit)
    else if name == PayrollLoan.Name() then Some(PayrollLoan)
    else if name == CreditCard.Name() then Some(CreditCard)
    else None
  }

  function FranchiseFromName(name: string): (r: Option<FranchiseType>)
    ensures r.Some? ==> r.value.Name() == name
    ensures r.None? <==> name !in FRANCHISE_NAMES
  {
    if name == Amex.Name() then Some(Amex)
    else if name == Visa.Name() then Some(Visa)
    else if name == Mastercard.Name() then Some(Mastercard)
    else None
  }

  function StatusFromName(name: string): (r: Option<SaleStatus>)
    ensures r.Some? ==> r.value.Name() == name
    ensures r.None? <==> name !in STATUS_NAMES
  {
    if name == Open.Name() then Some(Open)
    else if name == InProgress.Name() then Some(InProgress)
    else if name == Closed.Name() then Some(Closed)
    else None
  }

  /** Each enumeration's names are distinct, so a value is recovered from its name. */
  lemma NamesRoundTrip(p: ProductType, f: FranchiseType, s: SaleStatus)
    ensures ProductFromName(p.Name()) == Some(p)
    ensures FranchiseFromName(f.Name()) == Some(f)
    ensures StatusFromName(s.Name()) == Some(s)
  {
  }

  /** The status column's default. */
  const DEFAULT_STATUS := Open

  /** A `sales` row; `createdBy` is required, `updatedBy`, `franchise` and `rate` are nullable. */
  datatype Sale = Sale(
    id: int,
    product: ProductType,
    status: SaleStatus,
    requestedAmount: real,
    franchise: Option<FranchiseType>,
    rate: Option<real>,
    createdBy: PublicUser,
    updatedBy: Option<PublicUser>,
    createdAt: int,
    updatedAt: int)

  const AMOUNT_PRECISION := 15
  const AMOUNT_SCALE := 2
  const RATE_PRECISION := 5
  const RATE_SCALE := 2

  function Pow10(n: nat): (r: real)
    ensures r >= 1.0
  {
    if n == 0 then 1.0 else 10.0 * Pow10(n - 1)
  }

  /** A value a `numeric(precision, scale)` column stores without overflow. */
  predicate FitsNumeric(x: real, precision: nat, scale: nat)
    requires scale <= precision
  {
    -Pow10(precision - scale) < x < Pow10(precision - scale)
  }

  predicate SaleColumnsFit(s: Sale) {
    && FitsNumeric(s.requestedAmount, AMOUNT_PRECISION, AMOUNT_SCALE)
    && (s.rate.Some? ==> FitsNumeric(s.rate.value, RATE_PRECISION, RATE_SCALE))
  }

  /** The rule the validators enforce: a franchise exactly for credit cards, a rate exactly for loans. */
  predicate ProductShape(s: Sale) {
    && (s.franchise.Some? <==> s.product.RequiresFranchise())
    && (s.rate.Some? <==> s.product.RequiresRate())
  }

  /** The product decides which one of franchise and rate a well-shaped sale carries. */
  lemma ShapeExclusive(s: Sale)
    requires ProductShape(s)
    ensures s.franchise.Some? != s.rate.Some?
  {
  }

  predicate UniqueSaleIds(sales: seq<Sale>) {
    forall i, j :: 0 <= i < j < |sales| ==> sales[i].id != sales[j].id
  }
}
