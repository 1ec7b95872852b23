/** Small definitions shared by the other modules. */
module Common {

  datatype Option<+T> = None | Some(value: T)

  function Max(a: int, b: int): int {
    if a < b then b else a
  }

  function MinReal(a: real, b: real): real {
    if a < b then a else b
  }

  function Pow2(n: nat): (p: nat)
    ensures p > 0
  {
    if n == 0 then 1 else 2 * Pow2(n - 1)
  }

  lemma Pow2Monotone(a: nat, b: nat)
    requires a <= b
    ensures Pow2(a) <= Pow2(b)
  {
    if a < b {
      Pow2Monotone(a, b - 1);
    }
  }

  /** An injection into the numbers 1..n has at most n arguments. */
  lemma InjectionBound(m: map<int, int>, n: nat)
    requires forall k :: k in m ==> 1 <= m[k] <= n
    requires forall k, l :: k in m && l in m && k != l ==> m[k] != m[l]
    ensures |m| <= n
  {
    if n == 0 {
      assert forall k :: k !in m;
      assert m.Keys == {};
    } else if k :| k in m && m[k] == n {
      var rest := m - {k};
      assert m.Keys == rest.Keys + {k};
      InjectionBound(rest, n - 1);
    } else {
      InjectionBound(m, n - 1);
    }
  }
}
