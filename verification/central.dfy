/**
Slabs and the central cache of one size class, as functions on values: what each mutex-guarded operation
does to the slabs, the list of partial slabs and the lookup map. A slab's free list is the sequence of
blocks that FreeLists.FreeList holds, the next one to be popped first.
*/
module Centrals {
  import opened Basics
  import opened SizeClasses

  /** total is slabSize / blockSize. */
  datatype Geometry = Geometry(blockSize: nat, slabSize: nat, total: nat)

  predicate GeoOk(g: Geometry) {
    g.blockSize > 0 && g.slabSize > 0 && g.total > 0 && g.total == g.slabSize / g.blockSize
  }

  datatype Slab = Slab(base: nat, free: seq<nat>, used: int)

  datatype SlabState = Empty | Partial | Full

  datatype Central = Central(slabs: seq<Slab>, partials: seq<nat>, slabMap: map<int, nat>, inUse: int)

  /** n blocks of b bytes */
  function Bytes(n: nat, b: nat): nat {
    if n == 0 then 0 else Bytes(n - 1, b) + b
  }

  lemma {:induction false} BytesIsProduct(n: nat, b: nat)
    ensures Bytes(n, b) == n * b
  {
    if n > 0 { BytesIsProduct(n - 1, b); }
  }

  /** The first n blocks from base, pushed one after the other: the last one is on top. */
  function Carve(base: nat, blockSize: nat, n: nat): (r: seq<nat>)
    ensures |r| == n
  {
    if n == 0 then [] else [base + Bytes(n - 1, blockSize)] + Carve(base, blockSize, n - 1)
  }

  function Blocks(g: Geometry, base: nat): (r: seq<nat>)
    ensures |r| == g.total
  {
    Carve(base, g.blockSize, g.total)
  }

  function StateOf(g: Geometry, s: Slab): SlabState {
    if s.used == 0 then Empty else if s.used == g.total then Full else Partial
  }

  function NewSlab(g: Geometry, base: nat): Slab { Slab(base, Blocks(g, base), 0) }

  /** allocateBatch, and allocate for n == 1 */
  function Taken(s: Slab, n: nat): nat { if n < |s.free| then n else |s.free| }

  function SlabTake(s: Slab, n: nat): (Slab, seq<nat>) {
    var k := Taken(s, n);
    (s.(free := s.free[k..], used := s.used + k), s.free[..k])
  }

  function SlabPut(s: Slab, p: nat): Slab { s.(free := [p] + s.free, used := s.used - 1) }

  function Without(xs: seq<nat>, x: nat): (r: seq<nat>) {
    if xs == [] then [] else (if xs[0] == x then [] else [xs[0]]) + Without(xs[1..], x)
  }

  /** transitionState */
  function NextPartials(xs: seq<nat>, i: nat, before: SlabState, after: SlabState): seq<nat> {
    if before == after then xs
    else (if before == Partial then Without(xs, i) else xs) + (if after == Partial then [i] else [])
  }

  function SetSlab(g: Geometry, c: Central, i: nat, s: Slab): (r: Central)
    requires i < |c.slabs|
    ensures |r.slabs| == |c.slabs| && r.slabMap == c.slabMap
  {
    c.(slabs := c.slabs[i := s], partials := NextPartials(c.partials, i, StateOf(g, c.slabs[i]), StateOf(g, s)))
  }

  function TakeFrom(g: Geometry, c: Central, i: nat, n: nat): (r: (Central, seq<nat>))
    requires i < |c.slabs|
    ensures |r.0.slabs| == |c.slabs| && |r.1| == Taken(c.slabs[i], n) <= n
  {
    var (s, out) := SlabTake(c.slabs[i], n);
    (SetSlab(g, c, i, s), out)
  }

  function AddSlab(g: Geometry, c: Central, base: nat): Central {
    c.(slabs := c.slabs + [NewSlab(g, base)], slabMap := c.slabMap[base := |c.slabs|])
  }

  /** The first loop of fetchBatch, over the slabs still ahead of its iterator. */
  function FetchFrom(g: Geometry, c: Central, ahead: seq<nat>, n: nat): (r: (Central, seq<nat>))
    requires forall i :: i in ahead ==> i < |c.slabs|
    ensures |r.0.slabs| == |c.slabs| && |r.1| <= n
    decreases ahead
  {
    if ahead == [] || n == 0 then (c, [])
    else
      assert ahead[0] in ahead && forall i :: i in ahead[1..] ==> i in ahead;
      var (c1, out) := TakeFrom(g, c, ahead[0], n);
      var (c2, more) := FetchFrom(g, c1, ahead[1..], n - |out|);
      (c2, out + more)
  }

  /** The second loop of fetchBatch: a new slab at base, if blocks are still missing. */
  function FetchNew(g: Geometry, c: Central, n: nat, base: nat): (Central, seq<nat>) {
    if n == 0 then (c, []) else TakeFrom(g, AddSlab(g, c, base), |c.slabs|, n)
  }

  predicate InRange(c: Central) { forall i :: i in c.partials ==> i < |c.slabs| }

  function FetchBatch(g: Geometry, c: Central, n: nat, base: nat): (Central, seq<nat>)
    requires InRange(c)
  {
    var (c1, out) := FetchFrom(g, c, c.partials, n);
    var (c2, more) := FetchNew(g, c1, n - |out|, base);
    (c2.(inUse := c2.inUse + |out| + |more|), out + more)
  }

  function Allocate(g: Geometry, c: Central, base: nat): (Central, seq<nat>)
    requires InRange(c)
  {
    var c1 := if c.partials == [] then AddSlab(g, c, base) else c;
    assert c.partials != [] ==> c.partials[0] in c.partials;
    var i := if c.partials == [] then |c.slabs| else c.partials[0];
    var (c2, out) := TakeFrom(g, c1, i, 1);
    (c2.(inUse := c2.inUse + 1), out)
  }

  /** findSlab: the index of the slab that the masked address leads to. */
  function Found(g: Geometry, c: Central, p: nat): bool
    requires g.slabSize > 0
  {
    RoundDown(p, g.slabSize) in c.slabMap && c.slabMap[RoundDown(p, g.slabSize)] < |c.slabs|
  }

  function SlabOf(g: Geometry, c: Central, p: nat): (i: nat)
    requires g.slabSize > 0 && Found(g, c, p)
    ensures i < |c.slabs|
  {
    c.slabMap[RoundDown(p, g.slabSize)]
  }

  /** One round of returnBatch. */
  function PutOne(g: Geometry, c: Central, p: nat): (r: Central)
    requires g.slabSize > 0
    ensures |r.slabs| == |c.slabs| && r.slabMap == c.slabMap
  {
    if Found(g, c, p) then SetSlab(g, c, SlabOf(g, c, p), SlabPut(c.slabs[SlabOf(g, c, p)], p)) else c
  }

  function PutAll(g: Geometry, c: Central, ps: seq<nat>): (r: (Central, nat))
    requires g.slabSize > 0
    ensures |r.0.slabs| == |c.slabs|
    decreases ps
  {
    if ps == [] then (c, 0)
    else
      var (c1, n) := PutAll(g, PutOne(g, c, ps[0]), ps[1..]);
      (c1, n + if Found(g, c, ps[0]) then 1 else 0)
  }

  function ReturnBatch(g: Geometry, c: Central, ps: seq<nat>): (Central, nat)
    requires g.slabSize > 0
  {
    var (c1, n) := PutAll(g, c, ps);
    (c1.(inUse := c1.inUse - n), n)
  }

  function Deallocate(g: Geometry, c: Central, p: nat): (r: Central)
    requires g.slabSize > 0
    ensures |r.slabs| == |c.slabs|
  {
    if Found(g, c, p) then var c1 := PutOne(g, c, p); c1.(inUse := c1.inUse - 1) else c
  }

  // ---- The structure invariant -------------------------------------------------------------------

  ghost predicate SlabOk(g: Geometry, s: Slab)
    requires GeoOk(g)
  {
    && s.base % g.slabSize == 0
    && multiset(s.free) <= multiset(Blocks(g, s.base))
    && |s.free| + s.used == g.total
  }

  ghost predicate MapOk(c: Central) {
    && (forall i :: 0 <= i < |c.slabs| ==> c.slabs[i].base in c.slabMap && c.slabMap[c.slabs[i].base] == i)
    && (forall b :: b in c.slabMap ==> c.slabMap[b] < |c.slabs| && c.slabs[c.slabMap[b]].base == b)
  }

  /** partialSlabs_ holds exactly the partial slabs, each once. */
  ghost predicate PartialsOk(g: Geometry, c: Central) {
    && Distinct(c.partials) && InRange(c)
    && forall i :: 0 <= i < |c.slabs| ==> (i in c.partials <==> StateOf(g, c.slabs[i]) == Partial)
  }

  ghost predicate Structure(g: Geometry, c: Central) {
    GeoOk(g) && (forall i :: 0 <= i < |c.slabs| ==> SlabOk(g, c.slabs[i])) && MapOk(c) && PartialsOk(g, c)
  }

  // ---- Keeping it --------------------------------------------------------------------------------

  lemma {:induction false} WithoutMembers(xs: seq<nat>, x: nat, y: nat)
    ensures y in Without(xs, x) <==> y in xs && y != x
  {
    if xs != [] {
      WithoutMembers(xs[1..], x, y);
      assert y in xs <==> y == xs[0] || y in xs[1..];
    }
  }

  lemma {:induction false} WithoutDistinct(xs: seq<nat>, x: nat)
    requires Distinct(xs)
    ensures Distinct(Without(xs, x))
  {
    if xs != [] {
      WithoutDistinct(xs[1..], x);
      WithoutMembers(xs[1..], x, xs[0]);
    }
  }

  lemma {:induction false} WithoutAbsent(xs: seq<nat>, x: nat)
    requires x !in xs
    ensures Without(xs, x) == xs
  {
    if xs != [] { WithoutAbsent(xs[1..], x); }
  }

  lemma SetSlabPartials(g: Geometry, c: Central, i: nat, s: Slab)
    requires PartialsOk(g, c) && i < |c.slabs|
    ensures PartialsOk(g, SetSlab(g, c, i, s))
  {
    var before, after := StateOf(g, c.slabs[i]), StateOf(g, s);
    var r := SetSlab(g, c, i, s);
    WithoutDistinct(c.partials, i);
    forall j ensures j in Without(c.partials, i) <==> j in c.partials && j != i { WithoutMembers(c.partials, i, j); }
    assert forall j :: j in r.partials <==> if j == i then after == Partial else j in c.partials;
  }

  lemma {:induction false} WithoutOnce(xs: seq<nat>, j: nat)
    requires Distinct(xs) && j < |xs|
    ensures Without(xs, xs[j]) == xs[..j] + xs[j + 1..]
  {
    if j == 0 {
      assert xs[0] !in xs[1..];
      WithoutAbsent(xs[1..], xs[0]);
    } else {
      WithoutOnce(xs[1..], j - 1);
      assert xs[1..][j - 1] == xs[j] != xs[0];
      assert xs[..j] + xs[j + 1..] == [xs[0]] + (xs[1..][..j - 1] + xs[1..][j..]);
    }
  }

  /** A slab that becomes partial goes to the end of partialSlabs_, one that is partial no longer leaves its place
      there, and the others keep their order. */
  lemma PartialsKeepOrder(g: Geometry, c: Central, i: nat, s: Slab)
    requires PartialsOk(g, c) && i < |c.slabs|
    ensures var wasPartial, isPartial := StateOf(g, c.slabs[i]) == Partial, StateOf(g, s) == Partial;
            var r := SetSlab(g, c, i, s).partials;
            && (wasPartial == isPartial ==> r == c.partials)
            && (!wasPartial && isPartial ==> r == c.partials + [i])
            && (wasPartial && !isPartial ==>
                  exists j :: 0 <= j < |c.partials| && c.partials[j] == i
                              && r == c.partials[..j] + c.partials[j + 1..])
  {
    if StateOf(g, c.slabs[i]) == Partial {
      var j :| 0 <= j < |c.partials| && c.partials[j] == i;
      WithoutOnce(c.partials, j);
      assert c.partials[..j] + c.partials[j + 1..] + [] == c.partials[..j] + c.partials[j + 1..];
    }
    assert c.partials + [] == c.partials;
  }

  lemma SetSlabKeeps(g: Geometry, c: Central, i: nat, s: Slab)
    requires Structure(g, c) && i < |c.slabs| && SlabOk(g, s) && s.base == c.slabs[i].base
    ensures Structure(g, SetSlab(g, c, i, s))
  {
    SetSlabPartials(g, c, i, s);
  }

  lemma AddSlabKeeps(g: Geometry, c: Central, base: nat)
    requires Structure(g, c) && base % g.slabSize == 0 && base !in c.slabMap
    ensures Structure(g, AddSlab(g, c, base))
  {
    AddSlabSlabs(g, c, base);
    AddSlabPartials(g, c, base);
  }

  lemma AddSlabSlabs(g: Geometry, c: Central, base: nat)
    requires Structure(g, c) && base % g.slabSize == 0 && base !in c.slabMap
    ensures var r := AddSlab(g, c, base); MapOk(r) && forall i :: 0 <= i < |r.slabs| ==> SlabOk(g, r.slabs[i])
  {
    hide Blocks, PartialsOk;
    var r := AddSlab(g, c, base);
    forall i | 0 <= i < |r.slabs| ensures SlabOk(g, r.slabs[i]) {
      if i < |c.slabs| { assert SlabOk(g, c.slabs[i]); }
    }
  }

  lemma AddSlabPartials(g: Geometry, c: Central, base: nat)
    requires PartialsOk(g, c)
    ensures PartialsOk(g, AddSlab(g, c, base))
  {
    hide Blocks;
  }
}
