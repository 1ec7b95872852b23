/** Listing executions page by page, with a total that is sometimes an estimate. */
module Pagination {
  import opened Common

  datatype Row = Row(id: string, workflowId: string, userId: string, status: string, startedAt: int, finishedAt: Option<int>)

  /** What a caller may ask for. Empty strings count as missing. */
  datatype Filters = Filters(
    workflowId: Option<string>, userId: Option<string>, status: Option<string>,
    startedAfter: Option<int>, startedBefore: Option<int>, finishedAfter: Option<int>, finishedBefore: Option<int>)

  datatype Range = Range(gte: Option<int>, lte: Option<int>)

  /** The query object: a missing key is a condition that is not there. */
  datatype Where = Where(
    workflowId: Option<string>, userId: Option<string>, status: Option<string>,
    startedAt: Option<Range>, finishedAt: Option<Range>)

  datatype Meta = Meta(page: nat, limit: nat, total: nat, totalPages: nat)

  datatype Listing = Listing(items: seq<Row>, meta: Meta)

  const MAX_PAGE := 100
  const SAMPLE := 1000

  // ---------------------------------------------------------------------------------
  // Filters and queries

  predicate Given(value: Option<string>) {
    value.Some? && value.value != ""
  }

  /** What the filters mean for one row. */
  predicate Selected(filters: Filters, row: Row) {
    && (Given(filters.workflowId) ==> row.workflowId == filters.workflowId.value)
    && (Given(filters.userId) ==> row.userId == filters.userId.value)
    && (Given(filters.status) ==> row.status == filters.status.value)
    && (filters.startedAfter.Some? ==> row.startedAt >= filters.startedAfter.value)
    && (filters.startedBefore.Some? ==> row.startedAt <= filters.startedBefore.value)
    && (filters.finishedAfter.Some? ==> row.finishedAt.Some? && row.finishedAt.value >= filters.finishedAfter.value)
    && (filters.finishedBefore.Some? ==> row.finishedAt.Some? && row.finishedAt.value <= filters.finishedBefore.value)
  }

  function One(given: bool): nat {
    if given then 1 else 0
  }

  /** On how many columns the filters put a condition. */
  function Conditions(filters: Filters): nat {
    One(Given(filters.workflowId)) + One(Given(filters.userId)) + One(Given(filters.status))
    + One(filters.startedAfter.Some? || filters.startedBefore.Some?)
    + One(filters.finishedAfter.Some? || filters.finishedBefore.Some?)
  }

  predicate InRange(range: Range, at: int) {
    (range.gte.Some? ==> at >= range.gte.value) && (range.lte.Some? ==> at <= range.lte.value)
  }

  /** How the database reads the query object. A row without a finish time is in no range. */
  predicate Matches(w: Where, row: Row) {
    && (w.workflowId.Some? ==> row.workflowId == w.workflowId.value)
    && (w.userId.Some? ==> row.userId == w.userId.value)
    && (w.status.Some? ==> row.status == w.status.value)
    && (w.startedAt.Some? ==> InRange(w.startedAt.value, row.startedAt))
    && (w.finishedAt.Some? && w.finishedAt.value != Range(None, None) ==>
          row.finishedAt.Some? && InRange(w.finishedAt.value, row.finishedAt.value))
  }

  /** `Object.keys(where).length` */
  function KeyCount(w: Where): nat {
    (if w.workflowId.Some? then 1 else 0) + (if w.userId.Some? then 1 else 0) + (if w.status.Some? then 1 else 0)
    + (if w.startedAt.Some? then 1 else 0) + (if w.finishedAt.Some? then 1 else 0)
  }

  /** The query object is built key by key and selects exactly what the filters mean. */
  method BuildWhere(filters: Filters) returns (w: Where)
    ensures w == WhereOf(filters)
    ensures forall row :: Matches(w, row) <==> Selected(filters, row)
    ensures KeyCount(w) == Conditions(filters)
  {
    w := Where(None, None, None, None, None);
    if Given(filters.workflowId) {
      w := w.(workflowId := filters.workflowId);
    }
    if Given(filters.userId) {
      w := w.(userId := filters.userId);
    }
    if Given(filters.status) {
      w := w.(status := filters.status);
    }
    if filters.startedAfter.Some? || filters.startedBefore.Some? {
      w := w.(startedAt := Some(Range(filters.startedAfter, filters.startedBefore)));
    }
    if filters.finishedAfter.Some? || filters.finishedBefore.Some? {
      w := w.(finishedAt := Some(Range(filters.finishedAfter, filters.finishedBefore)));
    }
  }

  function WhereOf(filters: Filters): Where {
    Where(
      if Given(filters.workflowId) then filters.workflowId else None,
      if Given(filters.userId) then filters.userId else None,
      if Given(filters.status) then filters.status else None,
      if filters.startedAfter.Some? || filters.startedBefore.Some?
      then Some(Range(filters.startedAfter, filters.startedBefore)) else None,
      if filters.finishedAfter.Some? || filters.finishedBefore.Some?
      then Some(Range(filters.finishedAfter, filters.finishedBefore)) else None)
  }

  /** The rows that a query selects, in the order in which the database returns them. */
  function Found(rows: seq<Row>, w: Where): (r: seq<Row>)
    ensures |r| <= |rows|
  {
    if rows == [] then []
    else Found(rows[..|rows| - 1], w) + if Matches(w, rows[|rows| - 1]) then [rows[|rows| - 1]] else []
  }

  /** The list holds the rows at these places, in order, and these are the places of all rows that match. */
  ghost predicate Picks(rows: seq<Row>, w: Where, found: seq<Row>, places: seq<nat>) {
    && |found| == |places|
    && (forall k | 0 <= k < |places| :: places[k] < |rows| && found[k] == rows[places[k]])
    && (forall j, k | 0 <= j < k < |places| :: places[j] < places[k])
    && (forall i: nat | i < |rows| :: i in places <==> Matches(w, rows[i]))
  }

  function Places(rows: seq<Row>, w: Where): seq<nat> {
    if rows == [] then []
    else Places(rows[..|rows| - 1], w) + if Matches(w, rows[|rows| - 1]) then [|rows| - 1] else []
  }

  lemma {:induction false} FoundPicks(rows: seq<Row>, w: Where)
    ensures Picks(rows, w, Found(rows, w), Places(rows, w))
  {
    if rows != [] {
      FoundPicks(rows[..|rows| - 1], w);
    }
  }

  lemma FirstPicked(rows: seq<Row>, w: Where, found: seq<Row>, places: seq<nat>)
    requires Picks(rows, w, found, places)
    ensures places == [] || places[0] < |rows|
  {
  }

  lemma LastPicked(rows: seq<Row>, w: Where, found: seq<Row>, places: seq<nat>)
    requires rows != [] && Matches(w, rows[|rows| - 1]) && Picks(rows, w, found, places)
    ensures places != [] && places[|places| - 1] == |rows| - 1
  {
    var n: nat := |rows| - 1;
    assert n in places;
    assert forall k | 0 <= k < |places| - 1 :: places[k] < places[|places| - 1];
  }

  lemma PicksWithoutLast(rows: seq<Row>, w: Where, found: seq<Row>, places: seq<nat>)
    requires rows != [] && Matches(w, rows[|rows| - 1]) && Picks(rows, w, found, places)
    ensures places != [] && found != [] && found[|found| - 1] == rows[|rows| - 1]
    ensures Picks(rows[..|rows| - 1], w, found[..|found| - 1], places[..|places| - 1])
  {
    LastPicked(rows, w, found, places);
    hide Matches;
    var before := places[..|places| - 1];
    assert places == before + [|rows| - 1];
    assert forall i: nat | i < |rows| - 1 :: i in before <==> i in places;
  }

  lemma PicksWithout(rows: seq<Row>, w: Where, found: seq<Row>, places: seq<nat>)
    requires rows != [] && !Matches(w, rows[|rows| - 1]) && Picks(rows, w, found, places)
    ensures Picks(rows[..|rows| - 1], w, found, places)
  {
    hide Matches;
    var n: nat := |rows| - 1;
    assert n !in places;
    assert forall k | 0 <= k < |places| :: places[k] in places && places[k] != n;
  }

  lemma {:induction false} PicksOnce(rows: seq<Row>, w: Where, found: seq<Row>, places: seq<nat>)
    requires Picks(rows, w, found, places)
    ensures found == Found(rows, w)
  {
    if rows == [] {
      FirstPicked(rows, w, found, places);
    } else {
      hide Picks, Matches;
      if Matches(w, rows[|rows| - 1]) {
        PicksWithoutLast(rows, w, found, places);
        PicksOnce(rows[..|rows| - 1], w, found[..|found| - 1], places[..|places| - 1]);
      } else {
        PicksWithout(rows, w, found, places);
        PicksOnce(rows[..|rows| - 1], w, found, places);
      }
    }
  }

  /** The selected rows are all the rows that match, each once, in their order, and no others. */
  lemma FoundExactly(rows: seq<Row>, w: Where, found: seq<Row>)
    ensures found == Found(rows, w) <==> exists places :: Picks(rows, w, found, places)
  {
    if found == Found(rows, w) {
      FoundPicks(rows, w);
    }
    if places :| Picks(rows, w, found, places) {
      PicksOnce(rows, w, found, places);
    }
  }

  // ---------------------------------------------------------------------------------
  // One page

  function Least(a: nat, b: nat): nat {
    if a < b then a else b
  }

  /** `skip` and `take` on a list. */
  function Slice<T>(s: seq<T>, skip: nat, take: nat): seq<T> {
    s[Least(skip, |s|)..Least(skip + take, |s|)]
  }

  function Skip(page: nat, limit: nat): nat
    requires page >= 1
  {
    (page - 1) * limit
  }

  function PageOf<T>(found: seq<T>, page: nat, limit: nat): seq<T>
    requires page >= 1
  {
    Slice(found, Skip(page, limit), Least(limit, MAX_PAGE))
  }

  /** The items are those found from the first place on, as many as there are up to the size. */
  ghost predicate IsPage<T>(found: seq<T>, items: seq<T>, first: nat, size: nat) {
    && (forall k | 0 <= k < |items| :: first + k < |found| && items[k] == found[first + k])
    && |items| == (if |found| <= first then 0 else if |found| - first < size then |found| - first else size)
  }

  lemma PageHolds<T>(found: seq<T>, page: nat, limit: nat)
    requires page >= 1
    ensures IsPage(found, PageOf(found, page, limit), (page - 1) * limit, if limit < 100 then limit else 100)
  {
  }

  /** `getApproximateCount`; a failing estimate falls back to the exact count. */
  function ApproximateCount(rows: seq<Row>, w: Where, fails: bool): nat {
    var exact := |Found(rows, w)|;
    if fails || KeyCount(w) <= 2 then exact
    else
      var sample := Least(SAMPLE, exact);
      if sample < SAMPLE then sample
      else Round(sample, SAMPLE, |rows|)
  }

  /** `Math.round((sample / size) * rows)` with exact division. */
  function Round(sample: nat, size: nat, rows: nat): nat
    requires size > 0
  {
    (2 * sample * rows + size) / (2 * size)
  }

  function Total(rows: seq<Row>, w: Where, page: nat, limit: nat, fails: bool): nat {
    if page == 1 && Least(limit, MAX_PAGE) < MAX_PAGE then |Found(rows, w)| else ApproximateCount(rows, w, fails)
  }

  function CeilDiv(a: nat, b: nat): (q: nat)
    requires b > 0
    ensures q * b >= a
    ensures q > 0 ==> (q - 1) * b < a
  {
    if a == 0 then 0 else (a - 1) / b + 1
  }

  /** `findMany`. Callers pass pages and limits from 1 up. */
  method FindMany(rows: seq<Row>, filters: Filters, page: nat, limit: nat, fails: bool) returns (r: Listing)
    requires page >= 1 && limit >= 1
    ensures r.items == PageOf(Found(rows, WhereOf(filters)), page, limit)
    ensures forall row | row in r.items :: Selected(filters, row)
    ensures IsPage(Found(rows, WhereOf(filters)), r.items, (page - 1) * limit, if limit < 100 then limit else 100)
    ensures
      var total := Total(rows, WhereOf(filters), page, limit, fails);
      r.meta == Meta(page, limit, total, CeilDiv(total, limit))
    ensures
      var found := |Found(rows, WhereOf(filters))|;
      r.meta.total ==
        if (page != 1 || limit >= 100) && !fails && Conditions(filters) > 2 && found >= 1000 then |rows| else found
    ensures r.meta.totalPages * limit >= r.meta.total
    ensures r.meta.totalPages > 0 ==> (r.meta.totalPages - 1) * limit < r.meta.total
  {
    var w := BuildWhere(filters);
    var skip := (page - 1) * limit;
    var take := Least(limit, MAX_PAGE);
    var items := Slice(Found(rows, w), skip, take);
    var total := if page == 1 && take < MAX_PAGE then |Found(rows, w)| else ApproximateCount(rows, w, fails);
    FoundMatches(rows, w);
    TotalReported(rows, w, page, limit, fails);
    PageHolds(Found(rows, w), page, limit);
    hide IsPage, Found;
    r := Listing(items, Meta(page, limit, total, CeilDiv(total, limit)));
  }

  lemma {:induction false} FoundMatches(rows: seq<Row>, w: Where)
    ensures forall row | row in Found(rows, w) :: Matches(w, row) && row in rows
  {
    if rows != [] {
      FoundMatches(rows[..|rows| - 1], w);
    }
  }

  // ---------------------------------------------------------------------------------
  // All pages

  /** Pages 1 to n, one after another. */
  function Pages<T>(found: seq<T>, limit: nat, n: nat): seq<T> {
    if n == 0 then [] else Pages(found, limit, n - 1) + PageOf(found, n, limit)
  }

  /** With a limit within the page size, n pages are the first n * limit rows. */
  lemma {:induction false} PagesArePrefix<T>(found: seq<T>, limit: nat, n: nat)
    requires 1 <= limit <= MAX_PAGE
    ensures Pages(found, limit, n) == found[..Least(n * limit, |found|)]
  {
    if n > 0 {
      PagesArePrefix(found, limit, n - 1);
      assert n * limit == Skip(n, limit) + limit;
    }
  }

  /** A limit beyond the page size leaves a gap after each page. */
  lemma {:induction false} PagesFallShort<T>(found: seq<T>, limit: nat, n: nat)
    requires limit > MAX_PAGE && n >= 1 && |found| > MAX_PAGE
    ensures |Pages(found, limit, n)| < Least(n * limit, |found|)
  {
    if n == 1 {
      assert Pages(found, limit, 0) == [];
    } else {
      PagesFallShort(found, limit, n - 1);
      assert n * limit == Skip(n, limit) + limit;
    }
  }

  lemma {:induction false} OnePageIsAll<T>(found: seq<T>, limit: nat, n: nat)
    requires limit > MAX_PAGE && n >= 1 && |found| <= MAX_PAGE
    ensures Pages(found, limit, n) == found
  {
    if n == 1 {
      assert Pages(found, limit, 0) == [];
    } else {
      OnePageIsAll(found, limit, n - 1);
      SkipAtLeast(n, limit);
    }
  }

  lemma SkipAtLeast(page: nat, limit: nat)
    requires page >= 2
    ensures Skip(page, limit) >= limit
  {
    assert (page - 1) * limit == limit + (page - 2) * limit;
  }

  /**
   Enough pages give back the whole list, without gap or repeat, exactly if the limit is
   within the page size or everything fits on one page.
   */
  lemma PagesCover<T>(found: seq<T>, limit: nat, n: nat)
    requires limit >= 1 && n * limit >= |found|
    ensures Pages(found, limit, n) == found <==> limit <= MAX_PAGE || |found| <= MAX_PAGE
  {
    if limit <= MAX_PAGE {
      PagesArePrefix(found, limit, n);
    } else if n == 0 {
    } else if |found| <= MAX_PAGE {
      OnePageIsAll(found, limit, n);
    } else {
      PagesFallShort(found, limit, n);
    }
  }

  // ---------------------------------------------------------------------------------
  // The reported total

  /** The query is complex enough, and selects enough rows, for its count to be estimated. */
  predicate Estimated(rows: seq<Row>, w: Where, page: nat, limit: nat, fails: bool) {
    !(page == 1 && limit < MAX_PAGE) && !fails && KeyCount(w) > 2 && |Found(rows, w)| >= SAMPLE
  }

  lemma RoundOfAll(rows: nat)
    ensures Round(SAMPLE, SAMPLE, rows) == rows
  {
  }

  /** The total is the exact count, except that an estimate is always the size of the whole table. */
  lemma {:induction false} TotalReported(rows: seq<Row>, w: Where, page: nat, limit: nat, fails: bool)
    ensures
      Total(rows, w, page, limit, fails)
      == if Estimated(rows, w, page, limit, fails) then |rows| else |Found(rows, w)|
    ensures Total(rows, w, page, limit, fails) >= |Found(rows, w)|
  {
    RoundOfAll(|rows|);
  }

  /** Following the page count that any page reports gives the whole list, exactly under the same condition. */
  lemma {:induction false} ReportedPagesCover(rows: seq<Row>, filters: Filters, page: nat, limit: nat, fails: bool)
    requires limit >= 1
    ensures
      var found := Found(rows, WhereOf(filters));
      var totalPages := CeilDiv(Total(rows, WhereOf(filters), page, limit, fails), limit);
      Pages(found, limit, totalPages) == found <==> limit <= MAX_PAGE || |found| <= MAX_PAGE
  {
    TotalReported(rows, WhereOf(filters), page, limit, fails);
    PagesCover(Found(rows, WhereOf(filters)), limit,
               CeilDiv(Total(rows, WhereOf(filters), page, limit, fails), limit));
  }
}
