/** The stored 95th percentile list against the nearest-rank definition. */
module Percentile {

  predicate Ascending(s: seq<int>) {
    forall i, j | 0 <= i < j < |s| :: s[i] <= s[j]
  }

  function Place(s: seq<int>, x: int): seq<int> {
    if s == [] || x <= s[0] then [x] + s else [s[0]] + Place(s[1..], x)
  }

  /** `[...s].sort((a, b) => a - b)` */
  function Sort(s: seq<int>): seq<int> {
    if s == [] then [] else Place(Sort(s[..|s| - 1]), s[|s| - 1])
  }

  lemma {:induction false} PlaceKeepsElements(s: seq<int>, x: int)
    ensures multiset(Place(s, x)) == multiset(s) + multiset{x}
  {
    if s == [] || x <= s[0] {
    } else {
      PlaceKeepsElements(s[1..], x);
      assert s == [s[0]] + s[1..];
    }
  }

  lemma {:induction false} PlaceAscends(s: seq<int>, x: int)
    requires Ascending(s)
    ensures Ascending(Place(s, x))
  {
    if s == [] || x <= s[0] {
    } else {
      PlaceAscends(s[1..], x);
      var rest := Place(s[1..], x);
      PlaceKeepsElements(s[1..], x);
      forall j | 0 <= j < |rest|
        ensures s[0] <= rest[j]
      {
        assert rest[j] in multiset(rest);
        assert rest[j] == x || rest[j] in s[1..];
      }
    }
  }

  /** Sorting is an ascending rearrangement. */
  lemma {:induction false} SortCorrect(s: seq<int>)
    ensures Ascending(Sort(s)) && multiset(Sort(s)) == multiset(s)
    ensures |Sort(s)| == |s|
  {
    if s != [] {
      var rest, x := s[..|s| - 1], s[|s| - 1];
      assert s == rest + [x];
      SortCorrect(rest);
      PlaceKeepsElements(Sort(rest), x);
      PlaceAscends(Sort(rest), x);
    }
    assert |multiset(Sort(s))| == |multiset(s)|;
  }

  /** `Math.ceil(n * 0.95) - 1`, with 0.95 taken exactly. */
  function Cut(n: nat): (i: nat)
    requires n > 0
    ensures i < n
    ensures 20 * i < 19 * n <= 20 * (i + 1)
  {
    (19 * n + 19) / 20 - 1
  }

  /** The list that is stored: the sorted window from the 95th percentile on. */
  function Tail(window: seq<int>): seq<int> {
    if window == [] then []
    else
      SortCorrect(window);
      Sort(window)[Cut(|window|)..]
  }

  /** Number of samples that are at most v. */
  function AtMost(s: seq<int>, v: int): nat {
    if s == [] then 0 else AtMost(s[..|s| - 1], v) + if s[|s| - 1] <= v then 1 else 0
  }

  /** v is the least sample that at least 95 per cent of the samples do not exceed. */
  ghost predicate NearestRank95(window: seq<int>, v: int) {
    && v in window
    && 20 * AtMost(window, v) >= 19 * |window|
    && forall w | w in window && w < v :: 20 * AtMost(window, w) < 19 * |window|
  }

  lemma {:induction false} AtMostAppend(s: seq<int>, t: seq<int>, v: int)
    ensures AtMost(s + t, v) == AtMost(s, v) + AtMost(t, v)
  {
    if t == [] {
      assert s + t == s;
    } else {
      AtMostAppend(s, t[..|t| - 1], v);
      assert (s + t)[..|s + t| - 1] == s + t[..|t| - 1];
    }
  }

  lemma TakeOut(t: seq<int>, i: nat, v: int)
    requires i < |t|
    ensures
      var rest := t[..i] + t[i + 1..];
      multiset(rest) == multiset(t) - multiset{t[i]} && AtMost(t, v) == AtMost(rest, v) + if t[i] <= v then 1 else 0
  {
    assert t == t[..i] + [t[i]] + t[i + 1..];
    AtMostAppend(t[..i] + [t[i]], t[i + 1..], v);
    AtMostAppend(t[..i], [t[i]], v);
    AtMostAppend(t[..i], t[i + 1..], v);
  }

  /** The count depends only on which samples there are, not on their order. */
  lemma {:induction false} AtMostPermuted(s: seq<int>, t: seq<int>, v: int)
    requires multiset(s) == multiset(t)
    ensures AtMost(s, v) == AtMost(t, v)
    decreases |s|
  {
    if s == [] {
      assert |multiset(t)| == 0;
    } else {
      var x := s[|s| - 1];
      assert s == s[..|s| - 1] + [x];
      assert x in multiset(t);
      var i :| 0 <= i < |t| && t[i] == x;
      TakeOut(t, i, v);
      AtMostPermuted(s[..|s| - 1], t[..i] + t[i + 1..], v);
    }
  }

  lemma {:induction false} AtMostAll(s: seq<int>, v: int)
    requires forall i | 0 <= i < |s| :: s[i] <= v
    ensures AtMost(s, v) == |s|
  {
    if s != [] {
      AtMostAll(s[..|s| - 1], v);
    }
  }

  lemma {:induction false} AtMostNone(s: seq<int>, v: int)
    requires forall i | 0 <= i < |s| :: s[i] > v
    ensures AtMost(s, v) == 0
  {
    if s != [] {
      AtMostNone(s[..|s| - 1], v);
    }
  }

  lemma {:induction false} AtMostBounded(s: seq<int>, v: int)
    ensures AtMost(s, v) <= |s|
  {
    if s != [] {
      AtMostBounded(s[..|s| - 1], v);
    }
  }

  /** In an ascending list, rank i is reached at element i and not by anything smaller. */
  lemma RankInSorted(s: seq<int>, i: nat, w: int)
    requires Ascending(s) && i < |s| && w < s[i]
    ensures AtMost(s, s[i]) >= i + 1
    ensures AtMost(s, w) <= i
  {
    assert s == s[..i + 1] + s[i + 1..];
    AtMostAppend(s[..i + 1], s[i + 1..], s[i]);
    AtMostAll(s[..i + 1], s[i]);
    assert s == s[..i] + s[i..];
    AtMostAppend(s[..i], s[i..], w);
    AtMostNone(s[i..], w);
    AtMostBounded(s[..i], w);
  }

  /** The first stored sample is the nearest-rank 95th percentile of the window. */
  lemma TailStartsAtPercentile(window: seq<int>)
    requires window != []
    ensures Tail(window) != [] && NearestRank95(window, Tail(window)[0])
  {
    var sorted := Sort(window);
    SortCorrect(window);
    var i := Cut(|window|);
    var v := sorted[i];
    assert v in multiset(sorted);
    RankInSorted(sorted, i, v - 1);
    AtMostPermuted(sorted, window, v);
    forall w | w in window && w < v
      ensures 20 * AtMost(window, w) < 19 * |window|
    {
      RankInSorted(sorted, i, w);
      AtMostPermuted(sorted, window, w);
    }
  }

  /** A window has only one nearest-rank percentile. */
  lemma PercentileIsUnique(window: seq<int>, v: int, w: int)
    requires NearestRank95(window, v) && NearestRank95(window, w)
    ensures v == w
  {
  }

  /** The stored list and the samples below it are the window, and none below exceeds one in the list. */
  lemma {:induction false} TailSplitsWindow(window: seq<int>)
    requires window != []
    ensures |Sort(window)| == |window|
    ensures
      var below := Sort(window)[..Cut(|window|)];
      && |Tail(window)| == |window| - (19 * |window| + 19) / 20 + 1
      && multiset(below) + multiset(Tail(window)) == multiset(window)
      && forall a, b | a in below && b in Tail(window) :: a <= b
  {
    var sorted := Sort(window);
    SortCorrect(window);
    assert sorted == sorted[..Cut(|window|)] + Tail(window);
  }
}
