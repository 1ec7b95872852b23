/** The metrics collector, kept in agreement with its full history since the last reset. */
module Metrics {
  import opened Common
  import opened MetricsHistory
  import opened Percentile

  datatype RequestStats = RequestStats(
    total: nat, byMethod: map<string, nat>, byStatus: map<int, nat>, byEndpoint: map<string, nat>)

  /** No minimum stands for infinity. */
  datatype TimeStats = TimeStats(
    total: int, count: nat, average: real, min: Option<int>, max: int, p95: seq<int>)

  datatype ErrorStats = ErrorStats(total: nat, byType: map<string, nat>, recent: seq<ErrorEntry>)

  const NO_REQUESTS := RequestStats(0, map[], map[], map[])
  const NO_TIMES := TimeStats(0, 0, 0.0, None, 0, [])
  const NO_ERRORS := ErrorStats(0, map[], [])

  ghost predicate RequestsAgree(stats: RequestStats, h: History) {
    && stats.total == |Methods(h)|
    && Tallies(stats.byMethod, Methods(h))
    && Tallies(stats.byStatus, Statuses(h))
    && Tallies(stats.byEndpoint, Endpoints(h))
  }

  ghost predicate TimesAgree(stats: TimeStats, window: seq<int>, times: seq<int>) {
    && stats.total == Total(times)
    && stats.count == |times|
    && stats.average == Average(times)
    && stats.min == Least(times)
    && stats.max == Greatest(times)
    && window == LastN(times, MAX_RESPONSE_TIMES)
    && stats.p95 == Tail(window)
  }

  ghost predicate ErrorsAgree(stats: ErrorStats, kinds: seq<string>, newest: seq<ErrorEntry>) {
    && stats.total == |kinds|
    && Tallies(stats.byType, kinds)
    && stats.recent == FirstN(newest, MAX_RECENT_ERRORS)
  }

  /** A request joins the history: what each list of the history gains. */
  lemma HistoryGrows(h: History, e: Event)
    ensures
      var more := h + [e];
      && Methods(more) == Methods(h) + (if e.Request? then [e.method_] else [])
      && Statuses(more) == Statuses(h) + (if e.Request? then [e.status] else [])
      && Endpoints(more) == Endpoints(h) + (if e.Request? then [e.endpoint] else [])
      && Times(more) == Times(h) + (if e.Request? then [e.time] else [])
      && Kinds(more) == Kinds(h) + (if IsError(e) then [KindOf(e)] else [])
      && NewestErrors(more) == (if IsError(e) then [EntryOf(e)] else []) + NewestErrors(h)
  {
    assert (h + [e])[..|h|] == h;
  }

  lemma CountRequest(stats: RequestStats, h: History, e: Event)
    requires RequestsAgree(stats, h) && e.Request?
    ensures RequestsAgree(
      RequestStats(stats.total + 1, Increment(stats.byMethod, e.method_), Increment(stats.byStatus, e.status),
                   Increment(stats.byEndpoint, e.endpoint)), h + [e])
  {
    HistoryGrows(h, e);
    IncrementTallies(stats.byMethod, Methods(h), e.method_);
    IncrementTallies(stats.byStatus, Statuses(h), e.status);
    IncrementTallies(stats.byEndpoint, Endpoints(h), e.endpoint);
  }

  lemma SampleTotals(times: seq<int>, t: int)
    ensures
      var more := times + [t];
      Total(more) == Total(times) + t && Greatest(more) == Max(Greatest(times), t)
    ensures Least(times + [t]) ==
      if Least(times).Some? && Least(times).value < t then Least(times) else Some(t)
  {
    assert (times + [t])[..|times|] == times;
  }

  lemma SampleAverage(times: seq<int>, t: int)
    ensures Average(times + [t]) == Quotient(Total(times) + t, |times| + 1)
  {
    hide Quotient, Total, Greatest, Least;
    SampleTotals(times, t);
    assert |times + [t]| == |times| + 1;
  }

  ghost predicate Agree(requests: RequestStats, times: TimeStats, window: seq<int>, errors: ErrorStats, h: History) {
    && RequestsAgree(requests, h)
    && TimesAgree(times, window, Times(h))
    && ErrorsAgree(errors, Kinds(h), NewestErrors(h))
  }

  lemma RequestRecorded(requests: RequestStats, times: TimeStats, window: seq<int>, errors: ErrorStats, h: History, e: Event)
    requires e.Request? && RequestsAgree(requests, h + [e]) && TimesAgree(times, window, Times(h) + [e.time])
    requires if e.status >= 400
      then ErrorsAgree(errors, Kinds(h) + [KindOf(e)], [EntryOf(e)] + NewestErrors(h))
      else ErrorsAgree(errors, Kinds(h), NewestErrors(h))
    ensures Agree(requests, times, window, errors, h + [e])
  {
    HistoryGrows(h, e);
    if e.status < 400 {
      assert Kinds(h + [e]) == Kinds(h);
      assert NewestErrors(h + [e]) == NewestErrors(h);
    }
  }

  lemma ErrorRecorded(requests: RequestStats, times: TimeStats, window: seq<int>, errors: ErrorStats, h: History, e: Event)
    requires e.Error? && RequestsAgree(requests, h) && TimesAgree(times, window, Times(h))
    requires ErrorsAgree(errors, Kinds(h) + [KindOf(e)], [EntryOf(e)] + NewestErrors(h))
    ensures Agree(requests, times, window, errors, h + [e])
  {
    HistoryGrows(h, e);
    assert Methods(h + [e]) == Methods(h) && Statuses(h + [e]) == Statuses(h);
    assert Endpoints(h + [e]) == Endpoints(h) && Times(h + [e]) == Times(h);
  }

  /** The counters with one more x; the others are as they were. */
  predicate OneMore<T(!new)>(before: map<T, nat>, after: map<T, nat>, x: T) {
    && after.Keys == before.Keys + {x}
    && after[x] == (if x in before then before[x] + 1 else 1)
    && forall y | y in before && y != x :: after[y] == before[y]
  }

  /** One error more: counted under its kind, and at the head of the recent ones. */
  predicate ErrorAdded(before: ErrorStats, after: ErrorStats, kind: string, entry: ErrorEntry) {
    && after.total == before.total + 1 && OneMore(before.byType, after.byType, kind)
    && |after.recent| > 0 && after.recent[0] == entry
    && |after.recent| == (if |before.recent| < 100 then |before.recent| + 1 else 100)
    && forall k | 0 < k < |after.recent| :: after.recent[k] == before.recent[k - 1]
  }

  /** One request more in the counters. */
  predicate RequestAdded(before: RequestStats, after: RequestStats, method_: string, status: int, endpoint: string) {
    && after.total == before.total + 1
    && OneMore(before.byMethod, after.byMethod, method_)
    && OneMore(before.byStatus, after.byStatus, status)
    && OneMore(before.byEndpoint, after.byEndpoint, endpoint)
  }

  lemma IncrementIsOneMore<T(!new)>(counts: map<T, nat>, x: T)
    ensures OneMore(counts, Increment(counts, x), x)
  {
  }

  /** One sample more: the sum, the count, their quotient and the extremes. */
  predicate TimeAdded(before: TimeStats, after: TimeStats, time: int) {
    && after.total == before.total + time && after.count == before.count + 1
    && after.average == after.total as real / after.count as real
    && after.min == Some(if before.min.Some? && before.min.value < time then before.min.value else time)
    && after.max == (if before.max < time then time else before.max)
  }

  /** The window with one sample more, without its oldest if there were 1000. */
  predicate WindowMoved(before: seq<int>, after: seq<int>, time: int) {
    after == if |before| < 1000 then before + [time] else before[1..] + [time]
  }

  lemma WindowMoves(times: seq<int>, window: seq<int>, after: seq<int>, time: int)
    requires window == LastN(times, 1000) && WindowMoved(window, after, time)
    ensures after == LastN(times + [time], 1000)
  {
    LastNPush(times, time, 1000);
  }

  lemma TimeRecorded(before: TimeStats, after: TimeStats, window: seq<int>, window': seq<int>, times: seq<int>, time: int)
    requires TimesAgree(before, window, times)
    requires TimeAdded(before, after, time) && WindowMoved(window, window', time) && after.p95 == Tail(window')
    ensures TimesAgree(after, window', times + [time])
  {
    WindowMoves(times, window, window', time);
    SampleTotals(times, time);
    SampleAverage(times, time);
    hide LastN, Tail, Total, Least, Greatest;
  }

  class MetricsCollector {
    var requests: RequestStats
    var responseTime: TimeStats
    var errors: ErrorStats
    var responseTimes: seq<int>

    /** Everything recorded since the last reset, oldest first. */
    ghost var history: History

    /** Every field is what the history says. */
    ghost predicate Valid()
      reads this
    {
      Agree(requests, responseTime, responseTimes, errors, history)
    }

    constructor ()
      ensures Valid() && history == []
    {
      requests, responseTime, errors, responseTimes := NO_REQUESTS, NO_TIMES, NO_ERRORS, [];
      history := [];
    }

    method Reset()
      modifies this
      ensures Valid() && history == []
      ensures requests == NO_REQUESTS && responseTime == NO_TIMES && errors == NO_ERRORS && responseTimes == []
    {
      requests, responseTime, errors, responseTimes := NO_REQUESTS, NO_TIMES, NO_ERRORS, [];
      history := [];
    }

    method RecordRequest(method_: string, endpoint: string, statusCode: int, time: int, at: string)
      requires Valid()
      modifies this
      ensures Valid() && history == old(history) + [Request(method_, endpoint, statusCode, time, at)]
      ensures RequestAdded(old(requests), requests, method_, statusCode, endpoint)
      ensures TimeAdded(old(responseTime), responseTime, time)
      ensures WindowMoved(old(responseTimes), responseTimes, time)
      ensures statusCode < 400 ==> errors == old(errors)
      ensures 400 <= statusCode < 500 ==>
        ErrorAdded(old(errors), errors, "client_error", ErrorEntry(at, "client_error", endpoint, "unknown"))
      ensures 500 <= statusCode ==>
        ErrorAdded(old(errors), errors, "server_error", ErrorEntry(at, "server_error", endpoint, "unknown"))
    {
      ghost var e := Request(method_, endpoint, statusCode, time, at);
      hide RequestsAgree, TimesAgree, ErrorsAgree, RequestAdded, TimeAdded, ErrorAdded, WindowMoved;
      CountOne(method_, endpoint, statusCode, e);
      RecordResponseTime(time, Times(history));
      if statusCode >= 400 {
        var kind := if statusCode >= 500 then "server_error" else "client_error";
        RecordFailure(kind, endpoint, None, None, at, Kinds(history), NewestErrors(history));
      }
      RequestRecorded(requests, responseTime, responseTimes, errors, history, e);
      history := history + [e];
    }

    /** The counters that `recordRequest` updates first. */
    method CountOne(method_: string, endpoint: string, statusCode: int, ghost e: Event)
      requires RequestsAgree(requests, history)
      requires e.Request? && e.method_ == method_ && e.endpoint == endpoint && e.status == statusCode
      modifies this`requests
      ensures RequestsAgree(requests, history + [e])
      ensures RequestAdded(old(requests), requests, method_, statusCode, endpoint)
    {
      CountRequest(requests, history, e);
      IncrementIsOneMore(requests.byMethod, method_);
      IncrementIsOneMore(requests.byStatus, statusCode);
      IncrementIsOneMore(requests.byEndpoint, endpoint);
      hide RequestsAgree, OneMore, Increment;
      requests := RequestStats(
        requests.total + 1, Increment(requests.byMethod, method_), Increment(requests.byStatus, statusCode),
        Increment(requests.byEndpoint, endpoint));
    }

    method RecordResponseTime(time: int, ghost times: seq<int>)
      requires TimesAgree(responseTime, responseTimes, times)
      modifies this`responseTime, this`responseTimes
      ensures TimesAgree(responseTime, responseTimes, times + [time])
      ensures TimeAdded(old(responseTime), responseTime, time)
      ensures WindowMoved(old(responseTimes), responseTimes, time)
    {
      responseTimes := responseTimes + [time];
      if |responseTimes| > MAX_RESPONSE_TIMES {
        responseTimes := responseTimes[|responseTimes| - MAX_RESPONSE_TIMES..];
      }
      var total, count := responseTime.total + time, responseTime.count + 1;
      var average := Quotient(total, count);
      var min := if responseTime.min.Some? && responseTime.min.value < time then responseTime.min else Some(time);
      var max := Max(responseTime.max, time);
      var sorted := Sort(responseTimes);
      assert |sorted| == |responseTimes| by {
        SortCorrect(responseTimes);
      }
      var p95Index := Cut(|sorted|);
      responseTime := TimeStats(total, count, average, min, max, sorted[p95Index..]);
      TimeRecorded(old(responseTime), responseTime, old(responseTimes), responseTimes, times, time);
    }

    method RecordError(errorType: string, endpoint: string, correlationId: Option<string>, errorMessage: Option<string>, at: string)
      requires Valid()
      modifies this
      ensures Valid() && history == old(history) + [Error(errorType, endpoint, correlationId, errorMessage, at)]
      ensures requests == old(requests) && responseTime == old(responseTime) && responseTimes == old(responseTimes)
      ensures
        var error := if errorMessage.Some? && errorMessage.value != "" then errorMessage.value else errorType;
        var id := if correlationId.Some? && correlationId.value != "" then correlationId.value else "unknown";
        ErrorAdded(old(errors), errors, errorType, ErrorEntry(at, error, endpoint, id))
    {
      ghost var e := Error(errorType, endpoint, correlationId, errorMessage, at);
      hide RequestsAgree, TimesAgree, ErrorsAgree, ErrorAdded;
      RecordFailure(errorType, endpoint, correlationId, errorMessage, at, Kinds(history), NewestErrors(history));
      ErrorRecorded(requests, responseTime, responseTimes, errors, history, e);
      history := history + [e];
    }

    /** The body of `recordError`, which `recordRequest` shares. */
    method RecordFailure(errorType: string, endpoint: string, correlationId: Option<string>, errorMessage: Option<string>,
                         at: string, ghost kinds: seq<string>, ghost newest: seq<ErrorEntry>)
      requires ErrorsAgree(errors, kinds, newest)
      modifies this`errors
      ensures
        var entry := ErrorEntry(at, OrElse(errorMessage, errorType), endpoint, OrElse(correlationId, "unknown"));
        ErrorsAgree(errors, kinds + [errorType], [entry] + newest) && ErrorAdded(old(errors), errors, errorType, entry)
    {
      IncrementTallies(errors.byType, kinds, errorType);
      var entry := ErrorEntry(at, OrElse(errorMessage, errorType), endpoint, OrElse(correlationId, "unknown"));
      IncrementIsOneMore(errors.byType, errorType);
      FirstNPush(newest, entry, MAX_RECENT_ERRORS);
      var recent := [entry] + errors.recent;
      if |recent| > MAX_RECENT_ERRORS {
        recent := recent[..MAX_RECENT_ERRORS];
      }
      errors := ErrorStats(errors.total + 1, Increment(errors.byType, errorType), recent);
    }

    method GetHealthScore() returns (score: int)
      ensures score == Health(requests.total, errors.total, responseTime.average)
      ensures exists p, q ::
        ErrorPenalty(requests.total, errors.total, p) && SlownessPenalty(responseTime.average, q) && score == 100 - p - q
    {
      HealthExactly(requests.total, errors.total, responseTime.average,
                    Health(requests.total, errors.total, responseTime.average));
      var errorRate := if requests.total > 0 then errors.total as real / requests.total as real else 0.0;
      var avgResponseTime := responseTime.average;
      score := 100;
      if errorRate > 0.1 {
        score := score - 50;
      } else if errorRate > 0.05 {
        score := score - 25;
      } else if errorRate > 0.01 {
        score := score - 10;
      }
      if avgResponseTime > 5000.0 {
        score := score - 30;
      } else if avgResponseTime > 2000.0 {
        score := score - 20;
      } else if avgResponseTime > 1000.0 {
        score := score - 10;
      }
      score := Max(0, score);
    }
  }

  /** Every breakdown adds up to its total. */
  lemma BreakdownsAddUp(requests: RequestStats, errors: ErrorStats, h: History)
    requires RequestsAgree(requests, h) && ErrorsAgree(errors, Kinds(h), NewestErrors(h))
    ensures Sum(requests.byMethod) == Sum(requests.byStatus) == Sum(requests.byEndpoint) == requests.total
    ensures Sum(errors.byType) == errors.total
  {
    Lengths(h);
    TalliesSum(requests.byMethod, Methods(h));
    TalliesSum(requests.byStatus, Statuses(h));
    TalliesSum(requests.byEndpoint, Endpoints(h));
    TalliesSum(errors.byType, Kinds(h));
  }

  /** The response-time figures hang together, and the stored list starts at the window's percentile. */
  lemma TimesHangTogether(stats: TimeStats, window: seq<int>, times: seq<int>)
    requires TimesAgree(stats, window, times) && times != []
    ensures stats.min.Some? && stats.min.value as real <= stats.average <= stats.max as real
    ensures window != [] && stats.p95 != [] && NearestRank95(window, stats.p95[0])
  {
    AverageBetween(times);
    Extremes(times);
    TailStartsAtPercentile(window);
  }

  function ErrorRate(requests: nat, errors: nat): real {
    if requests > 0 then errors as real / requests as real else 0.0
  }

  /** 100, less a penalty for the error rate and one for slowness. */
  function Health(requests: nat, errors: nat, average: real): int {
    var rate := ErrorRate(requests, errors);
    100
    - (if rate > 0.1 then 50 else if rate > 0.05 then 25 else if rate > 0.01 then 10 else 0)
    - (if average > 5000.0 then 30 else if average > 2000.0 then 20 else if average > 1000.0 then 10 else 0)
  }

  /** The error penalty of a score, in whole numbers: more than one error in ten, in twenty or in a hundred requests. */
  predicate ErrorPenalty(requests: nat, errors: nat, penalty: int) {
    && (penalty == 50 <==> requests > 0 && 10 * errors > requests)
    && (penalty == 25 <==> requests > 0 && 20 * errors > requests >= 10 * errors)
    && (penalty == 10 <==> requests > 0 && 100 * errors > requests >= 20 * errors)
    && (penalty == 0 <==> requests == 0 || 100 * errors <= requests)
  }

  predicate SlownessPenalty(average: real, penalty: int) {
    && (penalty == 30 <==> average > 5000.0)
    && (penalty == 20 <==> 2000.0 < average <= 5000.0)
    && (penalty == 10 <==> 1000.0 < average <= 2000.0)
    && (penalty == 0 <==> average <= 1000.0)
  }

  lemma RateAbove(requests: nat, errors: nat, n: nat, limit: real)
    requires requests > 0 && n > 0 && limit * n as real == 1.0
    ensures ErrorRate(requests, errors) > limit <==> n * errors > requests
  {
    var rate := ErrorRate(requests, errors);
    assert rate * requests as real == errors as real;
    assert (rate - limit) * (requests as real * n as real) == (n * errors) as real - requests as real;
  }

  /** The score is 100 less two penalties, and each of the six thresholds decides its own. */
  lemma HealthExactly(requests: nat, errors: nat, average: real, score: int)
    ensures score == Health(requests, errors, average) <==>
      exists p, q :: ErrorPenalty(requests, errors, p) && SlownessPenalty(average, q) && score == 100 - p - q
  {
    if requests > 0 {
      RateAbove(requests, errors, 10, 0.1);
      RateAbove(requests, errors, 20, 0.05);
      RateAbove(requests, errors, 100, 0.01);
    }
    var rate := ErrorRate(requests, errors);
    var p := if rate > 0.1 then 50 else if rate > 0.05 then 25 else if rate > 0.01 then 10 else 0;
    var q := if average > 5000.0 then 30 else if average > 2000.0 then 20 else if average > 1000.0 then 10 else 0;
    assert ErrorPenalty(requests, errors, p) && SlownessPenalty(average, q);
  }

  /** More errors or slower answers never raise the score, which stays between 20 and 100. */
  lemma {:induction false} HealthFalls(requests: nat, errors: nat, more: nat, average: real, slower: real)
    requires errors <= more && average <= slower
    ensures 20 <= Health(requests, more, slower) <= Health(requests, errors, average) <= 100
  {
    if requests > 0 {
      var n := requests as real;
      assert more as real / n - errors as real / n == (more - errors) as real / n;
      assert (more - errors) as real / n >= 0.0;
    }
  }
}
