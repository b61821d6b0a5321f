/** Lookup by mask, and what becomes of slabs whose last block came back. */
module CentralTheorems {
  import opened Basics
  import opened SizeClasses
  import opened Centrals
  import opened CentralAccount
  import opened CentralOps

  predicate InSlab(g: Geometry, s: Slab, p: nat) { s.base <= p < s.base + g.slabSize }

  /** For slabs of 2^k bytes: the masked address is the key that findSlab looks up, and the lookup finds
      exactly the slab whose range contains the address, or none when no slab's does. */
  lemma MaskLookupIsRangeSearch(g: Geometry, c: Central, p: nat, k: nat)
    requires Structure(g, c) && k <= 64 && g.slabSize == Pow2(k) && p < Pow2(64)
    ensures Pow2(k) <= Pow2(64) && BitAnd(p, Pow2(64) - g.slabSize) == RoundDown(p, g.slabSize)
    ensures Found(g, c, p) <==> exists i :: 0 <= i < |c.slabs| && InSlab(g, c.slabs[i], p)
    ensures forall i :: 0 <= i < |c.slabs| && InSlab(g, c.slabs[i], p) ==> Found(g, c, p) && SlabOf(g, c, p) == i
  {
    hide Pow2, BitAnd;
    MaskRoundsDown(p, k, 64);
    if Found(g, c, p) { assert InSlab(g, c.slabs[SlabOf(g, c, p)], p); }
    forall i | 0 <= i < |c.slabs| && InSlab(g, c.slabs[i], p) ensures Found(g, c, p) && SlabOf(g, c, p) == i {
      SlabIn(g, c, i);
      WithinOneUnit(c.slabs[i].base, g.slabSize, p);
    }
  }

  /** Every block of an aligned slab of 2^s bytes cut into blocks of 2^b bytes is aligned to its own size. */
  lemma {:induction false} BlocksAreAligned(base: nat, b: nat, s: nat, n: nat, x: nat)
    requires b <= s && base % Pow2(s) == 0 && x in Carve(base, Pow2(b), n)
    ensures x % Pow2(b) == 0
  {
    hide Pow2;
    if x == base + Bytes(n - 1, Pow2(b)) {
      BytesIsProduct(n - 1, Pow2(b));
      Pow2Divides(b, s);
      MultipleOfMultiple(base, Pow2(s), Pow2(b));
      Remainder((n - 1) * Pow2(b), Pow2(b), n - 1, 0);
      SumOfMultiples(base, (n - 1) * Pow2(b), Pow2(b));
    } else {
      BlocksAreAligned(base, b, s, n - 1, x);
    }
  }

  // ---- Slabs that have become empty --------------------------------------------------------------

  predicate IsEmpty(g: Geometry, c: Central, i: nat) { i < |c.slabs| && StateOf(g, c.slabs[i]) == Empty }

  lemma {:induction false} FetchFromLeaves(g: Geometry, c: Central, ahead: seq<nat>, n: nat, i: nat)
    requires i < |c.slabs| && i !in ahead && forall j :: j in ahead ==> j < |c.slabs|
    ensures FetchFrom(g, c, ahead, n).0.slabs[i] == c.slabs[i]
    decreases ahead
  {
    if ahead != [] && n != 0 {
      assert ahead[0] in ahead && forall j :: j in ahead[1..] ==> j in ahead;
      var (c1, out) := TakeFrom(g, c, ahead[0], n);
      FetchFromLeaves(g, c1, ahead[1..], n - |out|, i);
    }
  }

  /** No allocation is ever served from a slab that has become empty, although all its blocks are free. */
  lemma EmptySlabGivesNothing(g: Geometry, c: Central, n: nat, base: nat, i: nat)
    requires Structure(g, c) && IsEmpty(g, c, i)
    ensures InRange(c)
    ensures FetchBatch(g, c, n, base).0.slabs[i] == c.slabs[i]
    ensures Allocate(g, c, base).0.slabs[i] == c.slabs[i]
  {
    assert i !in c.partials;
    if c.partials != [] { assert c.partials[0] in c.partials; }
    FetchFromLeaves(g, c, c.partials, n, i);
  }

  lemma EmptySlabTakesNothing(g: Geometry, c: Central, p: nat, i: nat)
    requires Structure(g, c) && IsEmpty(g, c, i) && p in HandedOut(g, c)
    ensures PutOne(g, c, p).slabs[i] == c.slabs[i]
  {
    HandedOutIsFound(g, c, p);
  }

  lemma {:induction false} EmptySlabStaysPut(g: Geometry, c: Central, ps: seq<nat>, i: nat)
    requires Structure(g, c) && IsEmpty(g, c, i) && multiset(ps) <= HandedOut(g, c)
    ensures PutAll(g, c, ps).0.slabs[i] == c.slabs[i]
    decreases ps
  {
    hide Structure, HandedOut, PutOne;
    StructureFacts(g, c);
    if ps != [] {
      assert ps == [ps[0]] + ps[1..];
      assert multiset(ps) == multiset{ps[0]} + multiset(ps[1..]) && ps[0] in multiset(ps);
      PutMoves(g, c, ps[0]);
      EmptySlabTakesNothing(g, c, ps[0], i);
      EmptySlabStaysPut(g, PutOne(g, c, ps[0]), ps[1..], i);
    }
  }

  // ---- Growth without use ------------------------------------------------------------------------

  /** allocate on an empty list of partial slabs, then deallocate of the same block. */
  function AllocateAndFree(g: Geometry, c: Central, base: nat): Central
    requires g.slabSize > 0 && InRange(c)
  {
    var (c1, out) := Allocate(g, c, base);
    if out == [] then c1 else Deallocate(g, c1, out[0])
  }

  /** Each such pair leaves one more slab behind, empty and never used again. */
  lemma PairLeavesASlab(g: Geometry, c: Central, base: nat)
    requires CentralOk(g, c) && c.partials == [] && base % g.slabSize == 0 && base !in c.slabMap
    ensures var r := AllocateAndFree(g, c, base);
            && CentralOk(g, r) && r.partials == [] && HandedOut(g, r) == HandedOut(g, c)
            && |r.slabs| == |c.slabs| + 1 && r.slabMap == c.slabMap[base := |c.slabs|]
  {
    hide Structure, HandedOut, Blocks, SlabOk, Allocate, Deallocate;
    StructureFacts(g, c);
    var (c1, out) := Allocate(g, c, base);
    AllocateMoves(g, c, base);
    DeallocateMoves(g, c1, out[0]);
    FirstOfNewSlab(g, c, base);
    PairPartials(g, c, base);
  }

  lemma FirstOfNewSlab(g: Geometry, c: Central, base: nat)
    requires Structure(g, c) && c.partials == []
    ensures g.total > 0 && InRange(c) && |Allocate(g, c, base).1| == 1
    ensures Allocate(g, c, base).1[0] in Blocks(g, base)
  {
  }

  lemma PairPartials(g: Geometry, c: Central, base: nat)
    requires GeoOk(g) && c.partials == [] && base % g.slabSize == 0
    requires InRange(c) && |Allocate(g, c, base).1| == 1 && Allocate(g, c, base).1[0] in Blocks(g, base)
    ensures var r := AllocateAndFree(g, c, base);
            r.partials == [] && |r.slabs| == |c.slabs| + 1 && r.slabMap == c.slabMap[base := |c.slabs|]
  {
    hide Blocks, RoundDown;
    assert Without([|c.slabs|], |c.slabs|) == [];
    var (c1, out) := Allocate(g, c, base);
    BlockRoundsToBase(g, base, out[0]);
    var i := |c.slabs|;
    assert c1.slabs[i].used == 1 && c1.partials == (if g.total == 1 then [] else [i]);
    assert Found(g, c1, out[0]) && SlabOf(g, c1, out[0]) == i;
    var r := PutOne(g, c1, out[0]);
    assert r.slabs[i].used == 0;
    assert r.partials == NextPartials(c1.partials, i, StateOf(g, c1.slabs[i]), Empty);
  }

  /** n pairs of allocate and deallocate from the initial state. */
  function Churned(g: Geometry, n: nat): (r: Central)
    requires GeoOk(g)
    ensures InRange(r)
  {
    if n == 0 then Central([], [], map[], 0)
    else
      var c := AllocateAndFree(g, Churned(g, n - 1), Bytes(n, g.slabSize));
      if InRange(c) then c else Central([], [], map[], 0)
  }

  /** A program that holds at most one block at a time still makes the central cache grow without bound. */
  lemma {:induction false} GrowsWithoutBound(g: Geometry, n: nat)
    requires GeoOk(g)
    ensures var c := Churned(g, n);
            && CentralOk(g, c) && |c.slabs| == n && c.inUse == 0 && c.partials == []
            && forall b :: b in c.slabMap ==> b <= Bytes(n, g.slabSize)
  {
    hide Structure, HandedOut, AllocateAndFree;
    if n == 0 {
      NoBlocks(g);
    } else {
      GrowsWithoutBound(g, n - 1);
      BytesIsProduct(n, g.slabSize);
      Remainder(n * g.slabSize, g.slabSize, n, 0);
      PairLeavesASlab(g, Churned(g, n - 1), Bytes(n, g.slabSize));
    }
  }

  lemma NoBlocks(g: Geometry)
    requires GeoOk(g)
    ensures CentralOk(g, Central([], [], map[], 0))
  {
  }
}
