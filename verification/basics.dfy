/** What several parts of the model share. */
module Basics {

  datatype Option<T> = None | Some(value: T)

  /** WorkDispatcher::kMaxActors, the number of in-flight slots. */
  const MAX_ACTORS := 1024

  function Max0(x: int): nat { if x > 0 then x else 0 }

  predicate Distinct(xs: seq<int>) { forall i, j :: 0 <= i < j < |xs| ==> xs[i] != xs[j] }

  lemma Remainder(p: nat, n: int, q: nat, r: nat)
    requires r < n && p == q * n + r
    ensures p % n == r && p / n == q
  {
    assert p == (p / n) * n + p % n;
    if p / n != q { BigMultiple(p / n - q, n); }
  }

  lemma BigMultiple(d: int, n: int)
    requires n > 0 && d != 0
    ensures d * n >= n || d * n <= -n
  {
    assert d > 0 ==> (d - 1) * n >= 0;
    assert d < 0 ==> (-d - 1) * n >= 0;
  }
}
