/**
 * The compiled build of the sales service carries queries the TypeScript
 * sources lack: a sortable, paginated list, a count, and grouped statistics
 * by advisor, product and day. They are read-only queries over the rows of
 * the `sales` table.
 */
module SalesBuild {
  import opened Base
  import opened UserEntity
  import opened SaleEntity
  import opened Collections
  import opened Sales

  /** The columns a list may be ordered by. */
  datatype SortColumn = Id | RequestedAmount | CreatedAt | UpdatedAt

  datatype SortOrder = Asc | Desc

  /** The list options: the filters, the ordering and the page; a page or limit of 0 is falsy. */
  datatype ListOptions = ListOptions(
    filters: SaleFilters,
    sortBy: Option<SortColumn>,
    sortOrder: Option<SortOrder>,
    page: nat,
    limit: nat)

  function ColumnKey(c: SortColumn): Sale -> real {
    match c
    case Id => (s: Sale) => s.id as real
    case RequestedAmount => (s: Sale) => s.requestedAmount
    case CreatedAt => (s: Sale) => s.createdAt as real
    case UpdatedAt => (s: Sale) => s.updatedAt as real
  }

  /** The key and direction of the ordering: the chosen column (descending unless ascending is asked for), else newest first. */
  function OrderKey(opts: ListOptions): (Sale -> real, bool) {
    match opts.sortBy
    case None => (CreatedAtKey, true)
    case Some(c) => (ColumnKey(c), opts.sortOrder != Some(Asc))
  }

  /** `skip((page - 1) * limit).take(limit)`, applied only when both are truthy. */
  function Paginate<T>(s: seq<T>, page: nat, limit: nat): (r: seq<T>)
    ensures page == 0 || limit == 0 ==> r == s
    ensures forall x :: x in r ==> x in s
    ensures page > 0 && limit > 0 ==> |r| <= limit
    ensures page > 0 && limit > 0 ==>
      forall i :: 0 <= i < |r| ==> (page - 1) * limit + i < |s| && r[i] == s[(page - 1) * limit + i]
    ensures page > 0 && limit > 0 && (page - 1) * limit + limit <= |s| ==> |r| == limit
    ensures page > 0 && limit > 0 && (page - 1) * limit >= |s| ==> r == []
  {
    if page == 0 || limit == 0 then s
    else
      var skip := (page - 1) * limit;
      if skip >= |s| then []
      else
        var r := s[skip..if skip + limit <= |s| then skip + limit else |s|];
        assert forall i :: 0 <= i < |r| ==> r[i] == s[skip + i];
        r
  }


  /** Every row of a result shows up on exactly the page its position says, at the position within it. */
  lemma PageOfIndex<T>(s: seq<T>, limit: nat, i: nat)
    requires limit > 0 && i < |s|
    ensures var page := i / limit + 1;
      i % limit < |Paginate(s, page, limit)| && Paginate(s, page, limit)[i % limit] == s[i]
  {
    var page := i / limit + 1;
    PageBounds(i, limit);
    var skip := (page - 1) * limit;
    var end := if skip + limit <= |s| then skip + limit else |s|;
    assert Paginate(s, page, limit) == s[skip..end];
  }

  /** The page a position falls on starts at most at that position and ends after it; the position within it is the remainder. */
  lemma PageBounds(i: nat, limit: nat)
    requires limit > 0
    ensures var skip := (i / limit + 1 - 1) * limit; skip <= i < skip + limit && i - skip == i % limit
  {
    var q, m := i / limit, i % limit;
    assert q * limit + m == i && 0 <= m < limit;
    assert q + 1 - 1 == q;
  }

  /** Every matching sale, in the requested order: what the list pages through. */
  function Ordered(rows: seq<Sale>, opts: ListOptions): (r: seq<Sale>)
    ensures multiset(r) == multiset(Filter(rows, Matching(opts.filters)))
    ensures Sorted(r, OrderKey(opts).0, OrderKey(opts).1)
  {
    Sort(Filter(rows, Matching(opts.filters)), OrderKey(opts).0, OrderKey(opts).1)
  }

  /** `list`: the matching sales in the requested order, one page of them when a page is asked for. */
  function List(rows: seq<Sale>, opts: ListOptions): (r: seq<Sale>)
    ensures forall s :: s in r ==> s in rows && Matches(opts.filters, s)
    ensures opts.page == 0 || opts.limit == 0 ==>
      multiset(r) == multiset(Filter(rows, Matching(opts.filters)))
    ensures opts.page > 0 && opts.limit > 0 ==> |r| <= opts.limit
    ensures Sorted(r, OrderKey(opts).0, OrderKey(opts).1)
    ensures r == Paginate(Ordered(rows, opts), opts.page, opts.limit)
  {
    var key := OrderKey(opts).0;
    var descending := OrderKey(opts).1;
    var matching := Filter(rows, Matching(opts.filters));
    var ordered := Sort(matching, key, descending);
    var r := Paginate(ordered, opts.page, opts.limit);
    forall x | x in r
      ensures x in rows && Matches(opts.filters, x)
    {
      assert x in multiset(ordered);
      assert x in matching;
    }
    PageSorted(ordered, opts.page, opts.limit, key, descending);
    r
  }

  /**
   * Paging through a list with a fixed limit shows every matching sale: the
   * one at position `i` of the ordered result is on page `i / limit + 1`, at
   * position `i % limit`.
   */
  lemma ListShowsEverySale(rows: seq<Sale>, opts: ListOptions, i: nat)
    requires opts.limit > 0 && i < |Ordered(rows, opts)|
    ensures var page := List(rows, opts.(page := i / opts.limit + 1));
      i % opts.limit < |page| && page[i % opts.limit] == Ordered(rows, opts)[i]
  {
    var opts' := opts.(page := i / opts.limit + 1);
    assert Ordered(rows, opts') == Ordered(rows, opts);
    PageOfIndex(Ordered(rows, opts), opts.limit, i);
  }

  /** A page of a sorted result is sorted. */
  lemma PageSorted<T>(s: seq<T>, page: nat, limit: nat, key: T -> real, descending: bool)
    requires Sorted(s, key, descending)
    ensures Sorted(Paginate(s, page, limit), key, descending)
  {
    var r := Paginate(s, page, limit);
    if page > 0 && limit > 0 {
      var skip := (page - 1) * limit;
      forall i, j | 0 <= i < j < |r|
        ensures InOrder(key, descending, r[i], r[j])
      {
        assert r[i] == s[skip + i] && r[j] == s[skip + j];
      }
    }
  }

  /** `count`: the number of sales the unpaginated list returns. */
  function CountMatching(rows: seq<Sale>, f: SaleFilters): (n: nat)
    ensures n == |List(rows, ListOptions(f, None, None, 0, 0))|
    ensures n <= |rows|
  {
    var unpaged := List(rows, ListOptions(f, None, None, 0, 0));
    assert |multiset(unpaged)| == |multiset(Filter(rows, Matching(f)))|;
    |Filter(rows, Matching(f))|
  }

  /** The advisor a sale is grouped under: the creator's id and name. */
  datatype AdvisorKey = AdvisorKey(id: int, name: string)

  function AdvisorOf(s: Sale): AdvisorKey { AdvisorKey(s.createdBy.id, s.createdBy.name) }

  function ProductOf(s: Sale): ProductType { s.product }

  const MS_PER_DAY := 86400000

  /** The calendar day of an instant, counted in days since the epoch. */
  function DayOf(s: Sale): int { s.createdAt / MS_PER_DAY }

  function DayKey(b: Bucket<int>): real { b.key as real }

  /** `statsByAdvisor`: one row per creator with the count and sum of their sales, the busiest first. */
  function StatsByAdvisor(rows: seq<Sale>): (r: seq<Bucket<AdvisorKey>>)
    ensures Sorted(r, BucketCount, true)
    ensures multiset(r) == multiset(GroupBy(rows, AdvisorOf, Amount))
  {
    Sort(GroupBy(rows, AdvisorOf, Amount), BucketCount, true)
  }

  /** `statsByProduct`: one row per product with the count and sum of its sales, the largest sum first. */
  function StatsByProduct(rows: seq<Sale>): (r: seq<Bucket<ProductType>>)
    ensures Sorted(r, BucketTotal, true)
    ensures multiset(r) == multiset(GroupBy(rows, ProductOf, Amount))
  {
    Sort(GroupBy(rows, ProductOf, Amount), BucketTotal, true)
  }

  /** `statsByDate`: one row per calendar day with the count and sum of its sales, earliest first. */
  function StatsByDate(rows: seq<Sale>): (r: seq<Bucket<int>>)
    ensures Sorted(r, DayKey, false)
    ensures multiset(r) == multiset(GroupBy(rows, DayOf, Amount))
  {
    Sort(GroupBy(rows, DayOf, Amount), DayKey, false)
  }

  /**
   * Each product row counts and sums exactly the sales of its product, each
   * product sold has one row, and the counts add up to the number of sales
   * and the totals to the overall sum.
   */
  lemma StatsByProductPartition(rows: seq<Sale>)
    ensures var r := StatsByProduct(rows);
      && DistinctKeys(r)
      && (forall b :: b in r ==>
            (b.count >= 1 && b.count == Count(rows, ProductOf, b.key) && b.total == SumWhere(rows, ProductOf, Amount, b.key)))
      && (forall s :: s in rows ==> HasKey(r, s.product))
      && CountOf(r) == |rows| as real && TotalOf(r) == SumOf(rows, Amount)
  {
    ReorderedGroups(rows, ProductOf, Amount, StatsByProduct(rows));
  }

  /** The same partition for the rows per advisor. */
  lemma StatsByAdvisorPartition(rows: seq<Sale>)
    ensures var r := StatsByAdvisor(rows);
      && DistinctKeys(r)
      && (forall b :: b in r ==>
            (b.count >= 1 && b.count == Count(rows, AdvisorOf, b.key) && b.total == SumWhere(rows, AdvisorOf, Amount, b.key)))
      && (forall s :: s in rows ==> HasKey(r, AdvisorOf(s)))
      && CountOf(r) == |rows| as real && TotalOf(r) == SumOf(rows, Amount)
  {
    ReorderedGroups(rows, AdvisorOf, Amount, StatsByAdvisor(rows));
  }

  /** The same partition for the rows per day. */
  lemma StatsByDatePartition(rows: seq<Sale>)
    ensures var r := StatsByDate(rows);
      && DistinctKeys(r)
      && (forall b :: b in r ==>
            (b.count >= 1 && b.count == Count(rows, DayOf, b.key) && b.total == SumWhere(rows, DayOf, Amount, b.key)))
      && (forall s :: s in rows ==> HasKey(r, DayOf(s)))
      && CountOf(r) == |rows| as real && TotalOf(r) == SumOf(rows, Amount)
  {
    ReorderedGroups(rows, DayOf, Amount, StatsByDate(rows));
  }
}
