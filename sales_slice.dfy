/**
 * The client's sales state: the listed sales, the running total of their
 * requested amounts, and the status of the last fetch. The reducers edit the
 * list in place and keep the total in step with `+=` and `-=`.
 */
module SalesSlice {
  import opened Base
  import opened Collections
  import opened SaleEntity
  import opened Sales
  import opened SliceStatus

  const MSG_UNEXPECTED := "Ocurrió un error inesperado"

  /** `(sale) => sale.id === id`. */
  function WithId(id: int): Sale -> bool {
    (s: Sale) => s.id == id
  }

  class SalesState {
    var list: seq<Sale>
    var totalRequestedAmount: real
    var selectedSale: Option<Sale>
    var status: LoadStatus
    var error: Option<string>

    /** The invariant the reducers are meant to keep: the total is the sum of the listed amounts. */
    ghost predicate TotalMatches()
      reads this
    {
      totalRequestedAmount == SumOf(list, Amount)
    }

    /** `initialState`. */
    ghost predicate IsInitial()
      reads this
    {
      list == [] && totalRequestedAmount == 0.0 && selectedSale == None && status == Idle && error == None
    }

    constructor ()
      ensures IsInitial() && TotalMatches()
    {
      list := [];
      totalRequestedAmount := 0.0;
      selectedSale := None;
      status := Idle;
      error := None;
    }

    /** `clearSalesState`: back to the initial state, whatever came before. */
    method Clear()
      modifies this
      ensures IsInitial() && TotalMatches()
    {
      list := [];
      totalRequestedAmount := 0.0;
      selectedSale := None;
      status := Idle;
      error := None;
    }

    /** `fetchSalesThunk.pending`: loading; nothing else moves, the old error included. */
    method FetchPending()
      modifies this
      ensures status == Loading
      ensures list == old(list) && totalRequestedAmount == old(totalRequestedAmount)
      ensures selectedSale == old(selectedSale) && error == old(error)
    {
      status := Loading;
    }

    /**
     * `fetchSalesThunk.fulfilled`: the list and the total are both taken from
     * the response, so the invariant holds afterwards exactly when the server
     * sent a total that matches its data.
     */
    method FetchFulfilled(data: seq<Sale>, total: real)
      modifies this
      ensures status == Succeeded && list == data && totalRequestedAmount == total
      ensures selectedSale == old(selectedSale) && error == old(error)
      ensures TotalMatches() <==> total == SumOf(data, Amount)
    {
      status := Succeeded;
      list := data;
      totalRequestedAmount := total;
    }

    /** `fetchSalesThunk.rejected`: failed, with the rejection's message or the fallback; the list stays. */
    method FetchRejected(payload: Option<string>)
      modifies this
      ensures status == Failed && error == Some(RejectedError(payload, MSG_UNEXPECTED))
      ensures list == old(list) && totalRequestedAmount == old(totalRequestedAmount)
      ensures selectedSale == old(selectedSale)
    {
      status := Failed;
      error := Some(RejectedError(payload, MSG_UNEXPECTED));
    }

    /** `createSaleThunk.fulfilled`: the new sale goes first and its amount onto the total. */
    method CreateFulfilled(sale: Sale)
      modifies this
      ensures list == [sale] + old(list)
      ensures totalRequestedAmount == old(totalRequestedAmount) + sale.requestedAmount
      ensures status == old(status) && selectedSale == old(selectedSale) && error == old(error)
      ensures old(TotalMatches()) ==> TotalMatches()
    {
      list := [sale] + list;
      totalRequestedAmount := totalRequestedAmount + sale.requestedAmount;
    }

    /**
     * `updateSaleThunk.fulfilled`: the first listed sale with the answer's id
     * is replaced where it stands and the total moves by the difference of the
     * amounts; an id not in the list changes nothing.
     */
    method UpdateFulfilled(sale: Sale)
      modifies this
      ensures var i := FindIndex(old(list), WithId(sale.id));
        if i == -1 then list == old(list) && totalRequestedAmount == old(totalRequestedAmount)
        else (list == old(list)[i := sale]
          && totalRequestedAmount == old(totalRequestedAmount) - old(list)[i].requestedAmount + sale.requestedAmount)
      ensures status == old(status) && selectedSale == old(selectedSale) && error == old(error)
      ensures old(TotalMatches()) ==> TotalMatches()
      ensures UniqueSaleIds(old(list)) ==> UniqueSaleIds(list)
    {
      var index := FindIndex(list, WithId(sale.id));
      if index != -1 {
        var original := list[index];
        SumOfReplaceAt(list, index, sale, Amount);
        totalRequestedAmount := totalRequestedAmount - original.requestedAmount;
        totalRequestedAmount := totalRequestedAmount + sale.requestedAmount;
        list := list[index := sale];
      }
    }

    /**
     * `deleteSaleThunk.fulfilled`: the first listed sale with that id leaves
     * the list and its amount leaves the total; when ids are unique none with
     * that id is left. An id not in the list changes nothing.
     */
    method DeleteFulfilled(id: int)
      modifies this
      ensures var i := FindIndex(old(list), WithId(id));
        if i == -1 then list == old(list) && totalRequestedAmount == old(totalRequestedAmount)
        else (list == RemoveAt(old(list), i)
          && totalRequestedAmount == old(totalRequestedAmount) - old(list)[i].requestedAmount)
      ensures status == old(status) && selectedSale == old(selectedSale) && error == old(error)
      ensures old(TotalMatches()) ==> TotalMatches()
      ensures UniqueSaleIds(old(list)) ==> forall s :: s in list ==> s.id != id
    {
      var index := FindIndex(list, WithId(id));
      if index != -1 {
        var original := list[index];
        SumOfRemoveAt(list, index, Amount);
        RemovedUniqueIdGone(list, index);
        totalRequestedAmount := totalRequestedAmount - original.requestedAmount;
        list := RemoveAt(list, index);
      }
    }

    /**
     * `updateSaleStatusThunk.fulfilled`: the sale is replaced where it stands
     * and the total is left alone, which keeps it right as long as the answer
     * carries the amount already listed.
     */
    method StatusFulfilled(sale: Sale)
      modifies this
      ensures var i := FindIndex(old(list), WithId(sale.id));
        (i == -1 ==> list == old(list)) && (i != -1 ==> list == old(list)[i := sale])
      ensures totalRequestedAmount == old(totalRequestedAmount)
      ensures status == old(status) && selectedSale == old(selectedSale) && error == old(error)
      ensures var i := FindIndex(old(list), WithId(sale.id));
        old(TotalMatches()) && (i != -1 ==> old(list)[i].requestedAmount == sale.requestedAmount) ==> TotalMatches()
    {
      var index := FindIndex(list, WithId(sale.id));
      if index != -1 {
        SumOfReplaceAt(list, index, sale, Amount);
        list := list[index := sale];
      }
    }
  }

  /** Removing the only sale with its id leaves no sale with that id. */
  lemma RemovedUniqueIdGone(list: seq<Sale>, k: nat)
    requires k < |list|
    ensures UniqueSaleIds(list) ==> forall s :: s in RemoveAt(list, k) ==> s.id != list[k].id
  {
    if UniqueSaleIds(list) {
      var r := RemoveAt(list, k);
      forall s | s in r
        ensures s.id != list[k].id
      {
        var j :| 0 <= j < |r| && r[j] == s;
        if j < k {
          assert r[j] == list[j];
        } else {
          assert r[j] == list[j + 1];
        }
      }
    }
  }

  /**
   * A status change on the server keeps the amount, so the answer to a status
   * request for a listed sale leaves the client's total right.
   */
  lemma StatusAnswerKeepsTotal(list: seq<Sale>, k: nat, status: SaleStatus, user: UserEntity.PublicUser, now: int)
    requires k < |list|
    ensures var answer := StatusChanged(list[k], status, user, now);
      SumOf(list[k := answer], Amount) == SumOf(list, Amount)
  {
    var answer := StatusChanged(list[k], status, user, now);
    SumOfReplaceAt(list, k, answer, Amount);
  }
}
