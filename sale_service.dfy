/**
 * The sales service: the `sales` table as a sequence of rows with a serial
 * key, the read → ownership check → write flow of every mutation, and the
 * filtered list and total the sales page shows.
 */
module Sales {
  import opened Base
  import opened UserEntity
  import opened SaleEntity
  import opened Collections

  const MSG_SALE_NOT_FOUND := "Venta no encontrada"
  const MSG_CANNOT_MUTATE := "No tienes permisos para modificar esta venta"

  /** The data of a create or update; `None` stands for an omitted or null franchise or rate. */
  datatype SaleInput = SaleInput(product: ProductType, requestedAmount: real, franchise: Option<FranchiseType>, rate: Option<real>)

  /** The optional list filters; dates are instants in milliseconds. */
  datatype SaleFilters = SaleFilters(
    product: Option<ProductType>,
    createdById: Option<int>,
    createdFrom: Option<int>,
    createdTo: Option<int>)

  const NO_FILTERS := SaleFilters(None, None, None, None)

  /**
   * `applyFilters`: a conjunction of the conditions whose filter value is
   * truthy (a creator id of 0 is falsy); both date bounds are inclusive.
   */
  predicate Matches(f: SaleFilters, s: Sale) {
    && (f.product.Some? ==> s.product == f.product.value)
    && (f.createdById.Some? && f.createdById.value != 0 ==> s.createdBy.id == f.createdById.value)
    && (f.createdFrom.Some? ==> s.createdAt >= f.createdFrom.value)
    && (f.createdTo.Some? ==> s.createdAt <= f.createdTo.value)
  }

  function Matching(f: SaleFilters): Sale -> bool {
    (s: Sale) => Matches(f, s)
  }

  /** With no filter set, every sale matches. */
  lemma NoFiltersMatchAll(s: Sale)
    ensures Matches(NO_FILTERS, s)
  {
  }

  function CreatedAtKey(s: Sale): real { s.createdAt as real }

  function Amount(s: Sale): real { s.requestedAmount }

  /** `ensureCanMutate`: an administrator may change any sale, anyone else only the sales they created. */
  function CanMutate(sale: Sale, user: PublicUser): (r: Result<()>)
    ensures r.Ok? <==> user.role == Admin || sale.createdBy.id == user.id
    ensures r.Err? ==> r.error == AppError(FORBIDDEN, MSG_CANNOT_MUTATE)
  {
    if user.role == Admin then Ok(())
    else if sale.createdBy.id != user.id then Err(AppError(FORBIDDEN, MSG_CANNOT_MUTATE))
    else Ok(())
  }

  /**
   * The read and check steps shared by update, delete and updateStatus: the
   * position of the sale with id `id` when `user` may change it, 404 when
   * there is none, 403 when the user may not.
   */
  function Authorized(rows: seq<Sale>, id: int, user: PublicUser): (r: Result<nat>)
    ensures r.Ok? ==> r.value < |rows| && rows[r.value].id == id
    ensures r.Ok? ==> user.role == Admin || rows[r.value].createdBy.id == user.id
    ensures (forall k :: 0 <= k < |rows| ==> rows[k].id != id) <==> r == Err(AppError(NOT_FOUND, MSG_SALE_NOT_FOUND))
    ensures r.Err? && r.error.status == FORBIDDEN ==>
      user.role != Admin && exists k :: 0 <= k < |rows| && rows[k].id == id && rows[k].createdBy.id != user.id
    ensures r.Err? ==> r.error.status in {NOT_FOUND, FORBIDDEN}
  {
    var i := FindIndex(rows, (s: Sale) => s.id == id);
    if i < 0 then Err(AppError(NOT_FOUND, MSG_SALE_NOT_FOUND))
    else
      match CanMutate(rows[i], user)
      case Err(e) => Err(e)
      case Ok(_) => Ok(i)
  }

  /**
   * `update`'s assignments: the new data and editor; id, status, creator and
   * creation time stay. The update time moves only when a column changes, as
   * a save without changes writes nothing.
   */
  function Revised(sale: Sale, input: SaleInput, user: PublicUser, now: int): (r: Sale)
    ensures r.id == sale.id && r.status == sale.status
    ensures r.createdBy == sale.createdBy && r.createdAt == sale.createdAt
    ensures r.product == input.product && r.requestedAmount == input.requestedAmount
    ensures r.franchise == input.franchise && r.rate == input.rate
    ensures r.updatedBy == Some(user)
    ensures r.(updatedAt := sale.updatedAt) == sale ==> r == sale
    ensures r.(updatedAt := sale.updatedAt) != sale ==> r.updatedAt == now
  {
    var edited := sale.(product := input.product, requestedAmount := input.requestedAmount,
      franchise := input.franchise, rate := input.rate, updatedBy := Some(user));
    if edited == sale then sale else edited.(updatedAt := now)
  }

  /**
   * `updateStatus`'s assignments: any status may follow any other; only
   * status, editor and, when one of them changes, the update time change.
   */
  function StatusChanged(sale: Sale, status: SaleStatus, user: PublicUser, now: int): (r: Sale)
    ensures r.status == status && r.updatedBy == Some(user)
    ensures r.(status := sale.status, updatedBy := sale.updatedBy, updatedAt := sale.updatedAt) == sale
    ensures r.(updatedAt := sale.updatedAt) != sale ==> r.updatedAt == now
  {
    var edited := sale.(status := status, updatedBy := Some(user));
    if edited == sale then sale else edited.(updatedAt := now)
  }

  /** An input that follows the product rule yields a sale that follows it. */
  lemma RevisedKeepsShape(sale: Sale, input: SaleInput, user: PublicUser, now: int)
    requires (input.franchise.Some? <==> input.product.RequiresFranchise())
    requires (input.rate.Some? <==> input.product.RequiresRate())
    ensures ProductShape(Revised(sale, input, user, now))
  {
  }

  /** A row whose id is taken out of a list with unique ids is no longer found. */
  lemma RemovedIdGone(rows: seq<Sale>, k: nat)
    requires k < |rows| && UniqueSaleIds(rows)
    ensures forall j :: 0 <= j < |RemoveAt(rows, k)| ==> RemoveAt(rows, k)[j].id != rows[k].id
  {
  }

  class SaleService {
    /** The rows of the `sales` table, in insertion order. */
    var rows: seq<Sale>
    /** The next value of the serial primary key. */
    var nextId: int

    ghost predicate Valid()
      reads this
    {
      && nextId >= 1
      && UniqueSaleIds(rows)
      && forall k :: 0 <= k < |rows| ==> 1 <= rows[k].id < nextId
    }

    constructor ()
      ensures Valid() && rows == [] && nextId == 1
    {
      rows := [];
      nextId := 1;
    }

    /** `getById`: the sale with that id, or 404. */
    function GetById(id: int): (r: Result<Sale>)
      reads this
      ensures r.Ok? <==> exists k :: 0 <= k < |rows| && rows[k].id == id
      ensures r.Ok? ==> r.value in rows && r.value.id == id
      ensures r.Err? ==> r.error == AppError(NOT_FOUND, MSG_SALE_NOT_FOUND)
    {
      var i := FindIndex(rows, (s: Sale) => s.id == id);
      if i < 0 then Err(AppError(NOT_FOUND, MSG_SALE_NOT_FOUND)) else Ok(rows[i])
    }

    /**
     * `create`: a new row with the next id, status "Abierto", a null franchise
     * or rate where none was given, and the caller as creator and editor.
     */
    method Create(input: SaleInput, user: PublicUser, now: int) returns (sale: Sale)
      requires Valid()
      modifies this
      ensures Valid()
      ensures sale == Sale(old(nextId), input.product, DEFAULT_STATUS, input.requestedAmount,
        input.franchise, input.rate, user, Some(user), now, now)
      ensures rows == old(rows) + [sale] && nextId == old(nextId) + 1
    {
      sale := Sale(nextId, input.product, DEFAULT_STATUS, input.requestedAmount,
        input.franchise, input.rate, user, Some(user), now, now);
      rows := rows + [sale];
      nextId := nextId + 1;
    }

    /** `update`: read, check ownership, then overwrite the data; a refusal changes nothing. */
    method Update(id: int, input: SaleInput, user: PublicUser, now: int) returns (r: Result<Sale>)
      requires Valid()
      modifies this
      ensures Valid() && nextId == old(nextId)
      ensures match Authorized(old(rows), id, user)
        case Err(e) => r == Err(e) && rows == old(rows)
        case Ok(k) => r == Ok(Revised(old(rows)[k], input, user, now)) && rows == old(rows)[k := r.value]
    {
      var k :- Authorized(rows, id, user);
      var sale := Revised(rows[k], input, user, now);
      rows := rows[k := sale];
      r := Ok(sale);
    }

    /** `delete`: read, check ownership, then remove exactly that row; a refusal changes nothing. */
    method Delete(id: int, user: PublicUser) returns (r: Result<()>)
      requires Valid()
      modifies this
      ensures Valid() && nextId == old(nextId)
      ensures match Authorized(old(rows), id, user)
        case Err(e) => r == Err(e) && rows == old(rows)
        case Ok(k) => r == Ok(()) && rows == RemoveAt(old(rows), k)
      ensures r.Ok? ==> GetById(id).Err?
    {
      var k :- Authorized(rows, id, user);
      RemovedIdGone(rows, k);
      rows := RemoveAt(rows, k);
      r := Ok(());
    }

    /** `updateStatus`: read, check ownership, then set the status and editor; a refusal changes nothing. */
    method UpdateStatus(id: int, status: SaleStatus, user: PublicUser, now: int) returns (r: Result<Sale>)
      requires Valid()
      modifies this
      ensures Valid() && nextId == old(nextId)
      ensures match Authorized(old(rows), id, user)
        case Err(e) => r == Err(e) && rows == old(rows)
        case Ok(k) => r == Ok(StatusChanged(old(rows)[k], status, user, now)) && rows == old(rows)[k := r.value]
    {
      var k :- Authorized(rows, id, user);
      var sale := StatusChanged(rows[k], status, user, now);
      rows := rows[k := sale];
      r := Ok(sale);
    }

    /** `list`: the matching sales, newest first. */
    function List(f: SaleFilters): (r: seq<Sale>)
      reads this
      ensures Sorted(r, CreatedAtKey, true)
      ensures multiset(r) == multiset(Filter(rows, Matching(f)))
      ensures forall s :: s in r <==> s in rows && Matches(f, s)
    {
      var matching := Filter(rows, Matching(f));
      var r := Sort(matching, CreatedAtKey, true);
      forall s: Sale
        ensures s in r <==> s in rows && Matches(f, s)
      {
        assert s in r <==> s in multiset(r);
        assert s in matching <==> s in multiset(matching);
        assert Matching(f)(s) == Matches(f, s);
      }
      r
    }

    /** `totalRequested`: the sum of the amounts of exactly the sales `list` returns, 0 when none match. */
    function TotalRequested(f: SaleFilters): (t: real)
      reads this
      ensures t == SumOf(List(f), Amount)
      ensures List(f) == [] ==> t == 0.0
    {
      var matching := Filter(rows, Matching(f));
      SumOfPermutation(matching, List(f), Amount);
      SumOf(matching, Amount)
    }
  }
}
