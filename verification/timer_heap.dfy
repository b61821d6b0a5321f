/** The index heap of TimerBase: a binary min-heap of pool indices ordered by a mutable pool's expiry. */
module TimerHeap {
  import opened Basics

  datatype Node = Node(expiry: int, interval: nat, id: int, repeating: bool, alive: bool)

  function Parent(j: nat): nat
    requires j > 0
  {
    (j - 1) / 2
  }

  predicate InPool(h: seq<nat>, pool: seq<Node>) { forall i :: 0 <= i < |h| ==> h[i] < |pool| }

  predicate EdgeOk(h: seq<nat>, pool: seq<Node>, j: nat)
    requires InPool(h, pool) && 0 < j < |h|
  {
    pool[h[Parent(j)]].expiry <= pool[h[j]].expiry
  }

  ghost predicate Ordered(h: seq<nat>, pool: seq<Node>) {
    InPool(h, pool) && forall j :: 0 < j < |h| ==> EdgeOk(h, pool, j)
  }

  /** Ordered but for the edges at the root, which pop does not look at. */
  ghost predicate OrderedBelowRoot(h: seq<nat>, pool: seq<Node>) {
    InPool(h, pool) && forall j :: 0 < j < |h| && Parent(j) > 0 ==> EdgeOk(h, pool, j)
  }

  /** Ordered but for the edge above k, and k's children fit under k's parent. */
  ghost predicate OrderedButUp(h: seq<nat>, pool: seq<Node>, k: nat) {
    && InPool(h, pool) && k < |h|
    && (forall j :: 0 < j < |h| && j != k ==> EdgeOk(h, pool, j))
    && (forall j :: 0 < j < |h| && Parent(j) == k && k > 0 ==>
          pool[h[Parent(k)]].expiry <= pool[h[j]].expiry)
  }

  /** Ordered but for the edges below k, and k's children fit under k's parent. */
  ghost predicate OrderedButDown(h: seq<nat>, pool: seq<Node>, k: nat) {
    && InPool(h, pool) && k < |h|
    && (forall j :: 0 < j < |h| && Parent(j) != k ==> EdgeOk(h, pool, j))
    && (forall j :: 0 < j < |h| && Parent(j) == k && k > 0 ==>
          pool[h[Parent(k)]].expiry <= pool[h[j]].expiry)
  }

  function Swap(h: seq<nat>, i: nat, j: nat): (r: seq<nat>)
    requires i < |h| && j < |h|
    ensures |r| == |h| && multiset(r) == multiset(h)
  {
    h[i := h[j]][j := h[i]]
  }

  function SiftUp(h: seq<nat>, pool: seq<Node>, k: nat): (r: seq<nat>)
    requires OrderedButUp(h, pool, k)
    ensures Ordered(r, pool) && multiset(r) == multiset(h)
    decreases k
  {
    if k == 0 || EdgeOk(h, pool, k) then h
    else
      SwapUp(h, pool, k);
      SiftUp(Swap(h, k, Parent(k)), pool, Parent(k))
  }

  lemma SwapUp(h: seq<nat>, pool: seq<Node>, k: nat)
    requires OrderedButUp(h, pool, k) && k > 0 && !EdgeOk(h, pool, k)
    ensures OrderedButUp(Swap(h, k, Parent(k)), pool, Parent(k))
  {
    var p := Parent(k);
    var r := Swap(h, k, p);
    forall j | 0 < j < |r| && j != p ensures EdgeOk(r, pool, j) {
      if j != k { assert EdgeOk(h, pool, j); }
    }
    if p > 0 {
      assert EdgeOk(h, pool, p);
      forall j | 0 < j < |r| && Parent(j) == p ensures pool[r[Parent(p)]].expiry <= pool[r[j]].expiry {
        if j != k { assert EdgeOk(h, pool, j); }
      }
    }
  }

  function SmallerChild(h: seq<nat>, pool: seq<Node>, k: nat): (c: nat)
    requires InPool(h, pool) && 2 * k + 1 < |h|
    ensures k < c < |h| && Parent(c) == k
    ensures forall j :: 0 < j < |h| && Parent(j) == k ==> pool[h[c]].expiry <= pool[h[j]].expiry
  {
    if 2 * k + 2 < |h| && pool[h[2 * k + 2]].expiry < pool[h[2 * k + 1]].expiry then 2 * k + 2 else 2 * k + 1
  }

  function SiftDown(h: seq<nat>, pool: seq<Node>, k: nat): (r: seq<nat>)
    requires OrderedButDown(h, pool, k)
    ensures Ordered(r, pool) && multiset(r) == multiset(h)
    decreases |h| - k
  {
    if 2 * k + 1 >= |h| then h
    else
      var c := SmallerChild(h, pool, k);
      if pool[h[k]].expiry <= pool[h[c]].expiry then h
      else
        SwapDown(h, pool, k, c);
        SiftDown(Swap(h, k, c), pool, c)
  }

  lemma SwapDown(h: seq<nat>, pool: seq<Node>, k: nat, c: nat)
    requires OrderedButDown(h, pool, k) && 0 < c < |h| && Parent(c) == k && !EdgeOk(h, pool, c)
    requires forall j :: 0 < j < |h| && Parent(j) == k ==> pool[h[c]].expiry <= pool[h[j]].expiry
    ensures OrderedButDown(Swap(h, k, c), pool, c)
  {
    var r := Swap(h, k, c);
    forall j | 0 < j < |r| && Parent(j) != c ensures EdgeOk(r, pool, j) {
      if Parent(j) != k && j != k { assert EdgeOk(h, pool, j); }
    }
    forall j | 0 < j < |r| && Parent(j) == c ensures pool[r[Parent(c)]].expiry <= pool[r[j]].expiry {
      assert EdgeOk(h, pool, j);
    }
  }

  /** priority_queue::push */
  function Push(h: seq<nat>, pool: seq<Node>, x: nat): (r: seq<nat>)
    requires Ordered(h, pool) && x < |pool|
    ensures Ordered(r, pool) && multiset(r) == multiset(h) + multiset{x}
  {
    var g := h + [x];
    assert forall j :: 0 < j < |h| ==> (EdgeOk(h, pool, j) ==> EdgeOk(g, pool, j));
    SiftUp(g, pool, |h|)
  }

  /** The last index takes the root's place. */
  function LastToRoot(h: seq<nat>): (r: seq<nat>)
    requires |h| > 1
  {
    [h[|h| - 1]] + h[1..|h| - 1]
  }

  lemma LastToRootFits(h: seq<nat>, pool: seq<Node>)
    requires OrderedBelowRoot(h, pool) && |h| > 1
    ensures OrderedButDown(LastToRoot(h), pool, 0)
    ensures multiset(LastToRoot(h)) == multiset(h) - multiset{h[0]}
  {
    var n, g := |h| - 1, LastToRoot(h);
    assert h == [h[0]] + h[1..n] + [h[n]];
    assert forall j :: 0 < j < |g| && Parent(j) != 0 ==> (EdgeOk(h, pool, j) ==> EdgeOk(g, pool, j));
  }

  /** priority_queue::pop. The root's own key is not read, so it may already be reset. */
  function Pop(h: seq<nat>, pool: seq<Node>): (r: seq<nat>)
    requires OrderedBelowRoot(h, pool) && h != []
    ensures Ordered(r, pool) && multiset(r) == multiset(h) - multiset{h[0]}
  {
    if |h| == 1 then assert h == [h[0]]; []
    else
      LastToRootFits(h, pool);
      SiftDown(LastToRoot(h), pool, 0)
  }

  /** The top of an ordered heap has the earliest expiry. */
  lemma {:induction false} TopIsEarliest(h: seq<nat>, pool: seq<Node>, i: nat)
    requires Ordered(h, pool) && i < |h|
    ensures pool[h[0]].expiry <= pool[h[i]].expiry
  {
    if i > 0 {
      TopIsEarliest(h, pool, Parent(i));
      assert EdgeOk(h, pool, i);
    }
  }

  /** Order depends on the keys of heaped indices only. */
  lemma OrderSurvives(h: seq<nat>, pool: seq<Node>, pool': seq<Node>)
    requires Ordered(h, pool) && |pool| <= |pool'|
    requires forall i :: 0 <= i < |h| ==> pool'[h[i]].expiry == pool[h[i]].expiry
    ensures Ordered(h, pool')
  {
    forall j | 0 < j < |h| ensures EdgeOk(h, pool', j) { assert EdgeOk(h, pool, j); }
  }

  // ---- Heaps as sets of indices ------------------------------------------------------------------

  lemma DistinctIsMultiplicity(h: seq<nat>)
    ensures Distinct(h) <==> forall x :: multiset(h)[x] <= 1
  {
    if !Distinct(h) {
      var i, j :| 0 <= i < j < |h| && h[i] == h[j];
      assert h == h[..i] + [h[i]] + h[i + 1..j] + [h[j]] + h[j + 1..];
      assert multiset(h)[h[i]] >= 2;
    } else {
      forall x ensures multiset(h)[x] <= 1 { OnceAtMost(h, x); }
    }
  }

  lemma {:induction false} OnceAtMost(h: seq<nat>, x: nat)
    requires Distinct(h)
    ensures multiset(h)[x] <= 1
  {
    if h != [] {
      OnceAtMost(h[1..], x);
      assert h == [h[0]] + h[1..];
      assert h[0] !in h[1..];
    }
  }

  lemma PushMembers(h: seq<nat>, pool: seq<Node>, x: nat)
    requires Ordered(h, pool) && x < |pool| && Distinct(h) && x !in h
    ensures Distinct(Push(h, pool, x))
    ensures forall y :: y in Push(h, pool, x) <==> y in h || y == x
  {
    var r := Push(h, pool, x);
    DistinctIsMultiplicity(h);
    DistinctIsMultiplicity(r);
    forall y ensures y in r <==> y in h || y == x {
      assert y in multiset(r) <==> y in r;
      assert y in multiset(h) <==> y in h;
    }
    assert multiset(h)[x] == 0;
  }

  lemma PopMembers(h: seq<nat>, pool: seq<Node>)
    requires OrderedBelowRoot(h, pool) && h != [] && Distinct(h)
    ensures Distinct(Pop(h, pool))
    ensures forall y :: y in Pop(h, pool) <==> y in h && y != h[0]
  {
    var r := Pop(h, pool);
    DistinctIsMultiplicity(h);
    DistinctIsMultiplicity(r);
    forall y ensures y in r <==> y in h && y != h[0] {
      assert y in multiset(r) <==> y in r;
      assert y in multiset(h) <==> y in h;
    }
  }
}
