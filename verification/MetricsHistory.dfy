/** What the metrics should say, as functions of everything recorded since the last reset. */
module MetricsHistory {
  import opened Common

  const MAX_RECENT_ERRORS := 100
  const MAX_RESPONSE_TIMES := 1000

  datatype ErrorEntry = ErrorEntry(timestamp: string, error: string, endpoint: string, correlationId: string)

  /** One call of the collector. Times are whole milliseconds. */
  datatype Event =
    | Request(method_: string, endpoint: string, status: int, time: int, at: string)
    | Error(kind: string, endpoint: string, correlationId: Option<string>, message: Option<string>, at: string)

  type History = seq<Event>

  /** JavaScript's `value || fallback` on an optional string: the empty string counts as missing. */
  function OrElse(value: Option<string>, fallback: string): string {
    if value.None? || value.value == "" then fallback else value.value
  }

  function Methods(h: History): seq<string> {
    if h == [] then []
    else Methods(h[..|h| - 1]) + if h[|h| - 1].Request? then [h[|h| - 1].method_] else []
  }

  function Statuses(h: History): seq<int> {
    if h == [] then []
    else Statuses(h[..|h| - 1]) + if h[|h| - 1].Request? then [h[|h| - 1].status] else []
  }

  function Endpoints(h: History): seq<string> {
    if h == [] then []
    else Endpoints(h[..|h| - 1]) + if h[|h| - 1].Request? then [h[|h| - 1].endpoint] else []
  }

  function Times(h: History): seq<int> {
    if h == [] then []
    else Times(h[..|h| - 1]) + if h[|h| - 1].Request? then [h[|h| - 1].time] else []
  }

  /** A request is an error of its own from status 400 on. */
  predicate IsError(e: Event) {
    e.Error? || e.status >= 400
  }

  function KindOf(e: Event): string
    requires IsError(e)
  {
    if e.Error? then e.kind else if e.status >= 500 then "server_error" else "client_error"
  }

  function EntryOf(e: Event): ErrorEntry
    requires IsError(e)
  {
    if e.Error? then ErrorEntry(e.at, OrElse(e.message, e.kind), e.endpoint, OrElse(e.correlationId, "unknown"))
    else ErrorEntry(e.at, KindOf(e), e.endpoint, "unknown")
  }

  function Kinds(h: History): seq<string> {
    if h == [] then []
    else Kinds(h[..|h| - 1]) + if IsError(h[|h| - 1]) then [KindOf(h[|h| - 1])] else []
  }

  function NewestErrors(h: History): seq<ErrorEntry> {
    if h == [] then []
    else (if IsError(h[|h| - 1]) then [EntryOf(h[|h| - 1])] else []) + NewestErrors(h[..|h| - 1])
  }

  /** The lists of one property each have one element for each request, or for each error. */
  lemma {:induction false} Lengths(h: History)
    ensures |Methods(h)| == |Statuses(h)| == |Endpoints(h)| == |Times(h)|
    ensures |Kinds(h)| == |NewestErrors(h)|
  {
    if h != [] {
      Lengths(h[..|h| - 1]);
    }
  }

  // ---------------------------------------------------------------------------------
  // Bounded windows

  function LastN<T>(s: seq<T>, n: nat): (r: seq<T>)
    ensures |r| == if |s| < n then |s| else n
  {
    if |s| <= n then s else s[|s| - n..]
  }

  function FirstN<T>(s: seq<T>, n: nat): (r: seq<T>)
    ensures |r| == if |s| < n then |s| else n
  {
    if |s| <= n then s else s[..n]
  }

  /** Trimming after each push loses nothing that trimming at the end would keep. */
  lemma LastNPush<T>(s: seq<T>, x: T, n: nat)
    requires n > 0
    ensures LastN(LastN(s, n) + [x], n) == LastN(s + [x], n)
  {
  }

  lemma FirstNPush<T>(s: seq<T>, x: T, n: nat)
    requires n > 0
    ensures FirstN([x] + FirstN(s, n), n) == FirstN([x] + s, n)
  {
  }

  // ---------------------------------------------------------------------------------
  // Breakdown counters

  /** The counters count the list: its elements are the keys, its multiplicities the values. */
  ghost predicate Tallies<T(!new)>(counts: map<T, nat>, list: seq<T>) {
    && (forall x: T :: x in counts <==> x in list)
    && (forall x: T :: x in counts ==> counts[x] == multiset(list)[x])
  }

  /** `counts[x] = (counts[x] || 0) + 1` */
  function Increment<T>(counts: map<T, nat>, x: T): map<T, nat> {
    counts[x := (if x in counts then counts[x] else 0) + 1]
  }

  lemma IncrementTallies<T(!new)>(counts: map<T, nat>, list: seq<T>, x: T)
    requires Tallies(counts, list)
    ensures Tallies(Increment(counts, x), list + [x])
  {
    assert multiset(list + [x]) == multiset(list) + multiset{x};
    if x !in list {
      assert multiset(list)[x] == 0;
    }
  }

  ghost function Sum<T(!new)>(counts: map<T, nat>): nat
    decreases |counts|
  {
    if counts == map[] then 0
    else
      var x :| x in counts;
      assert |counts - {x}| < |counts| by { SmallerWithout(counts, x); }
      counts[x] + Sum(counts - {x})
  }

  lemma SmallerWithout<T>(counts: map<T, nat>, x: T)
    requires x in counts
    ensures |counts - {x}| == |counts| - 1
  {
    assert counts.Keys == (counts - {x}).Keys + {x};
  }

  /** The sum can be taken apart at any key. */
  lemma {:induction false} SumWithout<T(!new)>(counts: map<T, nat>, x: T)
    requires x in counts
    ensures Sum(counts) == counts[x] + Sum(counts - {x})
    decreases |counts|
  {
    var y :| y in counts && Sum(counts) == counts[y] + Sum(counts - {y});
    if y != x {
      SmallerWithout(counts, y);
      SumWithout(counts - {y}, x);
      SmallerWithout(counts, x);
      SumWithout(counts - {x}, y);
      assert counts - {y} - {x} == counts - {x} - {y};
    }
  }

  lemma IncrementSum<T(!new)>(counts: map<T, nat>, x: T)
    ensures Sum(Increment(counts, x)) == Sum(counts) + 1
  {
    var more := Increment(counts, x);
    SumWithout(more, x);
    if x in counts {
      SumWithout(counts, x);
      assert more - {x} == counts - {x};
    } else {
      assert more - {x} == counts;
    }
  }

  /** Counters that tally a list add up to its length. */
  lemma {:induction false} TalliesSum<T(!new)>(counts: map<T, nat>, list: seq<T>)
    requires Tallies(counts, list)
    ensures Sum(counts) == |list|
  {
    if list == [] {
      assert counts == map[];
    } else {
      var rest, x := list[..|list| - 1], list[|list| - 1];
      assert list == rest + [x];
      var fewer := map y | y in counts && y in rest :: multiset(rest)[y];
      assert Tallies(fewer, rest);
      TalliesSum(fewer, rest);
      IncrementTallies(fewer, rest, x);
      IncrementSum(fewer, x);
      assert Increment(fewer, x) == counts;
    }
  }

  // ---------------------------------------------------------------------------------
  // Response times

  function Total(times: seq<int>): int {
    if times == [] then 0 else Total(times[..|times| - 1]) + times[|times| - 1]
  }

  /** The least sample; none stands for infinity. */
  function Least(times: seq<int>): Option<int> {
    if times == [] then None
    else
      var rest := Least(times[..|times| - 1]);
      if rest.Some? && rest.value < times[|times| - 1] then rest else Some(times[|times| - 1])
  }

  /** The greatest sample, or zero if all are negative. */
  function Greatest(times: seq<int>): int {
    if times == [] then 0 else Max(Greatest(times[..|times| - 1]), times[|times| - 1])
  }

  function Quotient(total: int, n: nat): real {
    if n == 0 then 0.0 else total as real / n as real
  }

  function Average(times: seq<int>): real {
    Quotient(Total(times), |times|)
  }

  lemma {:induction false} Extremes(times: seq<int>)
    ensures Least(times).Some? <==> times != []
    ensures times != [] ==> Least(times).value in times && forall t | t in times :: Least(times).value <= t
    ensures forall t | t in times :: t <= Greatest(times)
    ensures Greatest(times) in times || (Greatest(times) == 0 && forall t | t in times :: t < 0)
  {
    if times != [] {
      Extremes(times[..|times| - 1]);
      assert times == times[..|times| - 1] + [times[|times| - 1]];
    }
  }

  lemma OneTimesMore(n: nat, x: int)
    ensures (n + 1) * x == n * x + x
  {
  }

  lemma {:induction false} TotalBetween(times: seq<int>, low: int, high: int)
    requires forall t | t in times :: low <= t <= high
    ensures |times| * low <= Total(times) <= |times| * high
  {
    if times != [] {
      var rest, t := times[..|times| - 1], times[|times| - 1];
      assert t in times && forall u | u in rest :: u in times;
      TotalBetween(rest, low, high);
      OneTimesMore(|rest|, low);
      OneTimesMore(|rest|, high);
    }
  }

  lemma QuotientBetween(total: int, n: nat, low: int, high: int)
    requires n > 0 && n * low <= total <= n * high
    ensures low as real <= Quotient(total, n) <= high as real
  {
    var q := total as real / n as real;
    assert q * n as real == total as real;
    assert (n * low) as real == n as real * low as real && (n * high) as real == n as real * high as real;
    assert (q - low as real) * n as real >= 0.0;
    assert (high as real - q) * n as real >= 0.0;
  }

  /** The stored minimum, average and maximum are always in this order. */
  lemma AverageBetween(times: seq<int>)
    requires times != []
    ensures Least(times).value as real <= Average(times) <= Greatest(times) as real
  {
    Extremes(times);
    TotalBetween(times, Least(times).value, Greatest(times));
    QuotientBetween(Total(times), |times|, Least(times).value, Greatest(times));
  }

  /** The stored maximum is a sample exactly if some sample is not negative. */
  lemma MaximumIsSample(times: seq<int>)
    requires times != []
    ensures (Greatest(times) in times) <==> exists t | t in times :: t >= 0
  {
    Extremes(times);
    if Greatest(times) in times {
      if t :| t in times && t >= 0 {
      } else {
        MaximumNotNegative(times);
      }
    }
  }

  lemma {:induction false} MaximumNotNegative(times: seq<int>)
    ensures Greatest(times) >= 0
  {
    if times != [] {
      MaximumNotNegative(times[..|times| - 1]);
    }
  }
}
