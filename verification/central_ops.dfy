/** What the operations of the central cache do to the blocks that are handed out. */
module CentralOps {
  import opened Basics
  import opened Centrals
  import opened CentralAccount

  /** The blocks that are in no slab's free list. */
  ghost function HandedOut(g: Geometry, c: Central): multiset<nat> { AllOf(g, c.slabs) - FreeOf(c.slabs) }

  /** Structure, and the counter of allocated blocks is exact. */
  ghost predicate CentralOk(g: Geometry, c: Central) { Structure(g, c) && c.inUse == |HandedOut(g, c)| }

  lemma CounterIsSumOfUsed(g: Geometry, c: Central)
    requires CentralOk(g, c)
    ensures c.inUse == SumUsed(c.slabs)
  {
    UsedIsAllButFree(g, c.slabs);
  }

  lemma {:induction false} FreeContains(slabs: seq<Slab>, i: nat, x: nat)
    requires i < |slabs| && x in slabs[i].free
    ensures x in FreeOf(slabs)
  {
    if i > 0 { FreeContains(slabs[1..], i - 1, x); }
  }

  lemma StructureFacts(g: Geometry, c: Central)
    requires Structure(g, c)
    ensures GeoOk(g) && InRange(c) && Distinct(c.partials)
    ensures c.partials != [] ==> c.partials[0] < |c.slabs| && StateOf(g, c.slabs[c.partials[0]]) == Partial
  {
    if c.partials != [] { assert c.partials[0] in c.partials; }
  }

  /** The counter is no part of the structure. */
  lemma CounterApart(g: Geometry, c: Central, n: int)
    ensures Structure(g, c.(inUse := n)) <==> Structure(g, c)
    ensures HandedOut(g, c.(inUse := n)) == HandedOut(g, c)
  {
    hide GeoOk, SlabOk, StateOf, AllOf, FreeOf;
  }

  lemma SlabIn(g: Geometry, c: Central, i: nat)
    requires Structure(g, c) && i < |c.slabs|
    ensures GeoOk(g) && SlabOk(g, c.slabs[i])
  {
  }

  // ---- Taking blocks -----------------------------------------------------------------------------

  lemma SlabTakeOk(g: Geometry, s: Slab, n: nat)
    requires GeoOk(g) && SlabOk(g, s)
    ensures SlabOk(g, SlabTake(s, n).0)
    ensures multiset(s.free) == multiset(SlabTake(s, n).0.free) + multiset(SlabTake(s, n).1)
  {
    var k := Taken(s, n);
    assert s.free == s.free[..k] + s.free[k..];
  }

  lemma TakeMoves(g: Geometry, c: Central, i: nat, n: nat)
    requires Structure(g, c) && i < |c.slabs|
    ensures var (c1, out) := TakeFrom(g, c, i, n);
            && Structure(g, c1) && HandedOut(g, c1) == HandedOut(g, c) + multiset(out)
            && c1.inUse == c.inUse && c1.slabMap == c.slabMap
  {
    hide Structure, SlabOk, AllOf, FreeOf, NextPartials;
    var s := SlabTake(c.slabs[i], n).0;
    var (c1, out) := TakeFrom(g, c, i, n);
    SlabIn(g, c, i);
    SlabTakeOk(g, c.slabs[i], n);
    SetSlabKeeps(g, c, i, s);
    AllStays(g, c.slabs, i, s);
    FreeChanges(c.slabs, i, s);
    Cancel(FreeOf(c.slabs), multiset(s.free), FreeOf(c1.slabs), multiset(out));
    AllCoversFree(g, c);
    AllCoversFree(g, c1);
  }

  lemma AllCoversFree(g: Geometry, c: Central)
    requires Structure(g, c)
    ensures FreeOf(c.slabs) <= AllOf(g, c.slabs)
  {
    UsedIsAllButFree(g, c.slabs);
  }

  lemma AddMoves(g: Geometry, c: Central, base: nat)
    requires Structure(g, c) && base % g.slabSize == 0 && base !in c.slabMap
    ensures Structure(g, AddSlab(g, c, base)) && HandedOut(g, AddSlab(g, c, base)) == HandedOut(g, c)
  {
    AddSlabKeeps(g, c, base);
    AppendOne(g, c.slabs, NewSlab(g, base));
    AllCoversFree(g, c);
  }

  /** The free blocks of the listed slabs. */
  function FreeIn(c: Central, xs: seq<nat>): nat
    requires forall i :: i in xs ==> i < |c.slabs|
  {
    if xs == [] then 0
    else
      assert xs[0] in xs && forall i :: i in xs[1..] ==> i in xs;
      |c.slabs[xs[0]].free| + FreeIn(c, xs[1..])
  }

  lemma {:induction false} FreeInSame(c: Central, c1: Central, xs: seq<nat>, k: nat)
    requires forall i :: i in xs ==> i < |c.slabs| && i != k
    requires |c1.slabs| == |c.slabs| && forall i :: 0 <= i < |c.slabs| && i != k ==> c1.slabs[i] == c.slabs[i]
    ensures FreeIn(c1, xs) == FreeIn(c, xs)
  {
    if xs != [] {
      assert xs[0] in xs && forall i :: i in xs[1..] ==> i in xs;
      FreeInSame(c, c1, xs[1..], k);
    }
  }

  lemma {:induction false} FetchFromMoves(g: Geometry, c: Central, ahead: seq<nat>, n: nat)
    requires Structure(g, c) && forall i :: i in ahead ==> i < |c.slabs|
    ensures var (c1, out) := FetchFrom(g, c, ahead, n);
            && Structure(g, c1) && c1.slabMap == c.slabMap && c1.inUse == c.inUse
            && HandedOut(g, c1) == HandedOut(g, c) + multiset(out)
    decreases ahead
  {
    hide Structure, HandedOut;
    if ahead != [] && n != 0 {
      assert ahead[0] in ahead && forall i :: i in ahead[1..] ==> i in ahead;
      var (c1, out) := TakeFrom(g, c, ahead[0], n);
      TakeMoves(g, c, ahead[0], n);
      FetchFromMoves(g, c1, ahead[1..], n - |out|);
    }
  }

  /** The first loop takes as many blocks as the partial slabs can give. */
  lemma {:induction false} FetchFromCount(g: Geometry, c: Central, ahead: seq<nat>, n: nat)
    requires Distinct(ahead) && forall i :: i in ahead ==> i < |c.slabs|
    ensures |FetchFrom(g, c, ahead, n).1| == if n < FreeIn(c, ahead) then n else FreeIn(c, ahead)
    decreases ahead
  {
    if ahead != [] && n != 0 {
      assert ahead[0] in ahead && forall i :: i in ahead[1..] ==> i in ahead;
      var (c1, out) := TakeFrom(g, c, ahead[0], n);
      assert forall j :: 0 <= j < |ahead[1..]| ==> ahead[1..][j] == ahead[j + 1] != ahead[0];
      FreeInSame(c, c1, ahead[1..], ahead[0]);
      FetchFromCount(g, c1, ahead[1..], n - |out|);
    }
  }

  lemma FetchNewMoves(g: Geometry, c: Central, n: nat, base: nat)
    requires Structure(g, c) && base % g.slabSize == 0 && base !in c.slabMap
    ensures var (c1, out) := FetchNew(g, c, n, base);
            && Structure(g, c1) && HandedOut(g, c1) == HandedOut(g, c) + multiset(out) && c1.inUse == c.inUse
            && |out| == (if n < g.total then n else g.total)
            && |c1.slabs| == |c.slabs| + (if n == 0 then 0 else 1)
  {
    if n > 0 {
      AddMoves(g, c, base);
      TakeMoves(g, AddSlab(g, c, base), |c.slabs|, n);
    }
  }

  /** fetchBatch hands out blocks that were not handed out. It adds a slab exactly when the partial slabs
      cannot fill the batch, and then only one; the batch is short exactly when that slab is too small. */
  lemma FetchBatchMoves(g: Geometry, c: Central, n: nat, base: nat)
    requires CentralOk(g, c) && n > 0 && base % g.slabSize == 0 && base !in c.slabMap
    ensures var (c1, out) := FetchBatch(g, c, n, base);
            && CentralOk(g, c1) && HandedOut(g, c1) == HandedOut(g, c) + multiset(out)
  {
    hide Structure, HandedOut, FetchNew, FetchFrom;
    StructureFacts(g, c);
    var (c1, out) := FetchFrom(g, c, c.partials, n);
    FetchFromMoves(g, c, c.partials, n);
    FetchNewMoves(g, c1, n - |out|, base);
    var (c2, more) := FetchNew(g, c1, n - |out|, base);
    assert multiset(out + more) == multiset(out) + multiset(more);
    CounterApart(g, c2, c2.inUse + |out| + |more|);
  }

  lemma FetchBatchCount(g: Geometry, c: Central, n: nat, base: nat)
    requires CentralOk(g, c) && n > 0 && base % g.slabSize == 0 && base !in c.slabMap
    ensures var (c1, out) := FetchBatch(g, c, n, base);
            var ready := FreeIn(c, c.partials);
            && |c1.slabs| == |c.slabs| + (if ready < n then 1 else 0)
            && |out| == (if n <= ready + g.total then n else ready + g.total)
            && 1 <= |out| <= n && (n <= g.total ==> |out| == n)
  {
    hide Structure, HandedOut, FetchFrom, FetchNew;
    StructureFacts(g, c);
    var (c1, out) := FetchFrom(g, c, c.partials, n);
    FetchFromMoves(g, c, c.partials, n);
    FetchFromCount(g, c, c.partials, n);
    FetchNewMoves(g, c1, n - |out|, base);
  }

  /** The free blocks of the listed slabs, one slab after the other, each from its top on. */
  function FreeBlocksIn(c: Central, xs: seq<nat>): (r: seq<nat>)
    requires forall i :: i in xs ==> i < |c.slabs|
  {
    if xs == [] then []
    else
      assert xs[0] in xs && forall i :: i in xs[1..] ==> i in xs;
      c.slabs[xs[0]].free + FreeBlocksIn(c, xs[1..])
  }

  lemma {:induction false} FreeBlocksSame(c: Central, c1: Central, xs: seq<nat>, k: nat)
    requires forall i :: i in xs ==> i < |c.slabs| && i != k
    requires |c1.slabs| == |c.slabs| && forall i :: 0 <= i < |c.slabs| && i != k ==> c1.slabs[i] == c.slabs[i]
    ensures FreeBlocksIn(c1, xs) == FreeBlocksIn(c, xs)
  {
    if xs != [] {
      assert xs[0] in xs && forall i :: i in xs[1..] ==> i in xs;
      FreeBlocksSame(c, c1, xs[1..], k);
    }
  }

  function Cut(xs: seq<nat>, n: nat): seq<nat> { if n < |xs| then xs[..n] else xs }

  lemma CutNothing(xs: seq<nat>)
    ensures Cut(xs, 0) == [] && forall n: nat :: Cut([], n) == []
  {
  }

  lemma TakeCuts(s: Slab, n: nat)
    ensures SlabTake(s, n).1 == Cut(s.free, n)
  {
  }

  lemma CutTwo(xs: seq<nat>, ys: seq<nat>, n: nat)
    ensures Cut(xs + ys, n) == Cut(xs, n) + Cut(ys, n - |Cut(xs, n)|)
  {
  }

  lemma {:induction false} FetchFromInOrder(g: Geometry, c: Central, ahead: seq<nat>, n: nat)
    requires Distinct(ahead) && forall i :: i in ahead ==> i < |c.slabs|
    ensures FetchFrom(g, c, ahead, n).1 == Cut(FreeBlocksIn(c, ahead), n)
    decreases ahead
  {
    hide Cut, NextPartials, SlabTake;
    CutNothing(FreeBlocksIn(c, ahead));
    if ahead != [] && n != 0 {
      assert ahead[0] in ahead && forall i :: i in ahead[1..] ==> i in ahead;
      var (c1, out) := TakeFrom(g, c, ahead[0], n);
      assert forall j :: 0 <= j < |ahead[1..]| ==> ahead[1..][j] == ahead[j + 1] != ahead[0];
      FreeBlocksSame(c, c1, ahead[1..], ahead[0]);
      FetchFromInOrder(g, c1, ahead[1..], n - |out|);
      TakeCuts(c.slabs[ahead[0]], n);
      CutTwo(c.slabs[ahead[0]].free, FreeBlocksIn(c, ahead[1..]), n);
    }
  }

  /** A fetched batch is the start of the partial slabs' free blocks, in the order of partialSlabs_, followed by the
      blocks of a new slab. */
  lemma FetchTakesInOrder(g: Geometry, c: Central, n: nat, base: nat)
    requires CentralOk(g, c) && n > 0 && base % g.slabSize == 0 && base !in c.slabMap
    ensures InRange(c)
    ensures var all, out := FreeBlocksIn(c, c.partials) + Blocks(g, base), FetchBatch(g, c, n, base).1;
            |out| <= |all| && out == all[..|out|]
  {
    hide Structure, HandedOut, FetchFrom, Blocks;
    StructureFacts(g, c);
    FetchFromInOrder(g, c, c.partials, n);
    var (c1, out) := FetchFrom(g, c, c.partials, n);
    NewInOrder(g, c1, n - |out|, base);
  }

  lemma NewInOrder(g: Geometry, c: Central, n: nat, base: nat)
    ensures var out := FetchNew(g, c, n, base).1; |out| <= g.total && out == Blocks(g, base)[..|out|]
  {
  }

  /** allocate always finds a block. */
  lemma AllocateMoves(g: Geometry, c: Central, base: nat)
    requires CentralOk(g, c) && base % g.slabSize == 0 && base !in c.slabMap
    ensures var (c1, out) := Allocate(g, c, base);
            && CentralOk(g, c1) && |out| == 1 && HandedOut(g, c1) == HandedOut(g, c) + multiset(out)
  {
    hide Structure, HandedOut, SetSlab, SlabOk;
    StructureFacts(g, c);
    if c.partials == [] {
      AddMoves(g, c, base);
      TakeMoves(g, AddSlab(g, c, base), |c.slabs|, 1);
      CounterApart(g, TakeFrom(g, AddSlab(g, c, base), |c.slabs|, 1).0, c.inUse + 1);
    } else {
      var i := c.partials[0];
      SlabIn(g, c, i);
      PartialHasFree(g, c.slabs[i]);
      TakeMoves(g, c, i, 1);
      CounterApart(g, TakeFrom(g, c, i, 1).0, c.inUse + 1);
    }
  }

  predicate HasPartial(g: Geometry, c: Central) { exists i :: 0 <= i < |c.slabs| && StateOf(g, c.slabs[i]) == Partial }

  /** allocate adds a slab exactly when no slab is partial; otherwise its block was free in the front one of
      partialSlabs_, and the other slabs stay as they are. */
  lemma AllocateCount(g: Geometry, c: Central, base: nat)
    requires CentralOk(g, c) && base % g.slabSize == 0 && base !in c.slabMap
    ensures var (c1, out) := Allocate(g, c, base);
            && |c1.slabs| == |c.slabs| + (if HasPartial(g, c) then 0 else 1) && |out| == 1
            && if HasPartial(g, c)
               then && c.partials != [] && c.partials[0] < |c.slabs|
                    && StateOf(g, c.slabs[c.partials[0]]) == Partial && out[0] in c.slabs[c.partials[0]].free
                    && forall i :: 0 <= i < |c.slabs| && i != c.partials[0] ==> c1.slabs[i] == c.slabs[i]
               else out[0] in Blocks(g, base) && c1.slabs[..|c.slabs|] == c.slabs
  {
    hide HandedOut, SlabOk, Blocks, NextPartials;
    StructureFacts(g, c);
    assert HasPartial(g, c) ==> c.partials != [];
    if c.partials != [] {
      SlabIn(g, c, c.partials[0]);
      PartialHasFree(g, c.slabs[c.partials[0]]);
    }
  }

  lemma PartialHasFree(g: Geometry, s: Slab)
    requires GeoOk(g) && SlabOk(g, s) && StateOf(g, s) == Partial
    ensures s.free != [] && 0 < s.used < g.total
  {
    SmallerOrEqual(multiset(s.free), multiset(Blocks(g, s.base)));
  }

  lemma SmallerOrEqual(a: multiset<nat>, b: multiset<nat>)
    requires a <= b
    ensures |a| <= |b|
  {
    assert b == a + (b - a);
  }

  // ---- Giving blocks back ------------------------------------------------------------------------

  /** A block that is handed out is found by its address, in a slab that has it in use. */
  lemma HandedOutIsFound(g: Geometry, c: Central, p: nat)
    requires Structure(g, c) && p in HandedOut(g, c)
    ensures GeoOk(g) && Found(g, c, p)
    ensures var s := c.slabs[SlabOf(g, c, p)]; SlabOk(g, SlabPut(s, p)) && s.used > 0
  {
    hide Structure, SlabOk, Blocks;
    AllCoversFree(g, c);
    BlockIsFound(g, c, p);
    var i := SlabOf(g, c, p);
    SlabIn(g, c, i);
    if p in c.slabs[i].free { FreeContains(c.slabs, i, p); }
    PutFits(g, c.slabs[i], p);
  }

  lemma PutFits(g: Geometry, s: Slab, p: nat)
    requires GeoOk(g) && SlabOk(g, s) && p in Blocks(g, s.base) && p !in s.free
    ensures SlabOk(g, SlabPut(s, p)) && s.used > 0
  {
    hide Blocks;
    OneMoreFits(multiset(s.free), multiset(Blocks(g, s.base)), p);
    assert multiset([p] + s.free) == multiset{p} + multiset(s.free);
    SmallerOrEqual(multiset([p] + s.free), multiset(Blocks(g, s.base)));
  }

  lemma OneMoreFits(a: multiset<nat>, b: multiset<nat>, p: nat)
    requires a <= b && p !in a && p in b
    ensures multiset{p} + a <= b
  {
  }

  lemma PutMoves(g: Geometry, c: Central, p: nat)
    requires Structure(g, c) && p in HandedOut(g, c)
    ensures Found(g, c, p) && Structure(g, PutOne(g, c, p))
    ensures HandedOut(g, PutOne(g, c, p)) == HandedOut(g, c) - multiset{p}
    ensures PutOne(g, c, p).inUse == c.inUse && PutOne(g, c, p).slabMap == c.slabMap
  {
    hide Structure, SlabOk, AllOf, FreeOf, NextPartials;
    HandedOutIsFound(g, c, p);
    var i := SlabOf(g, c, p);
    var s := SlabPut(c.slabs[i], p);
    SetSlabKeeps(g, c, i, s);
    AllStays(g, c.slabs, i, s);
    FreeChanges(c.slabs, i, s);
    assert multiset(s.free) == multiset{p} + multiset(c.slabs[i].free);
    Cancel(FreeOf(c.slabs[i := s]), multiset(c.slabs[i].free), FreeOf(c.slabs), multiset{p});
    AllCoversFree(g, c);
  }

  lemma Cancel(x: multiset<nat>, a: multiset<nat>, y: multiset<nat>, p: multiset<nat>)
    requires x + a == y + (p + a)
    ensures x == y + p
  {
    forall e ensures x[e] == (y + p)[e] { assert (x + a)[e] == (y + (p + a))[e]; }
  }

  lemma {:induction false} PutAllMoves(g: Geometry, c: Central, ps: seq<nat>)
    requires Structure(g, c) && multiset(ps) <= HandedOut(g, c)
    ensures var (c1, n) := PutAll(g, c, ps);
            && n == |ps| && Structure(g, c1) && HandedOut(g, c1) == HandedOut(g, c) - multiset(ps)
            && c1.inUse == c.inUse && c1.slabMap == c.slabMap
    decreases ps
  {
    hide Structure, HandedOut, PutOne;
    if ps != [] {
      assert ps == [ps[0]] + ps[1..];
      assert multiset(ps) == multiset{ps[0]} + multiset(ps[1..]) && ps[0] in multiset(ps);
      PutMoves(g, c, ps[0]);
      PutAllMoves(g, PutOne(g, c, ps[0]), ps[1..]);
    }
  }

  /** returnBatch takes back every block of a batch that is handed out: the returned count is exact. */
  lemma ReturnBatchMoves(g: Geometry, c: Central, ps: seq<nat>)
    requires CentralOk(g, c) && multiset(ps) <= HandedOut(g, c)
    ensures var (c1, n) := ReturnBatch(g, c, ps);
            && n == |ps| && CentralOk(g, c1) && HandedOut(g, c1) == HandedOut(g, c) - multiset(ps)
            && c1.slabMap == c.slabMap
  {
    hide Structure, HandedOut, PutAll;
    StructureFacts(g, c);
    PutAllMoves(g, c, ps);
    CounterApart(g, PutAll(g, c, ps).0, PutAll(g, c, ps).0.inUse - |ps|);
  }

  lemma DeallocateMoves(g: Geometry, c: Central, p: nat)
    requires CentralOk(g, c) && p in HandedOut(g, c)
    ensures GeoOk(g) && CentralOk(g, Deallocate(g, c, p))
    ensures HandedOut(g, Deallocate(g, c, p)) == HandedOut(g, c) - multiset{p}
  {
    hide Structure, HandedOut, PutOne;
    StructureFacts(g, c);
    PutMoves(g, c, p);
    CounterApart(g, PutOne(g, c, p), c.inUse - 1);
  }

  lemma PutThenTake(s: Slab, p: nat)
    ensures SlabTake(SlabPut(s, p), 1) == (s, [p])
  {
    assert SlabPut(s, p).free[1..] == s.free;
  }

  /** With no partial slab, a freed block is the one that the next allocate hands out, and then all is as it was. */
  lemma FreedBlockComesBack(g: Geometry, c: Central, p: nat, base: nat)
    requires CentralOk(g, c) && p in HandedOut(g, c) && c.partials == [] && g.total > 1
    ensures GeoOk(g) && InRange(Deallocate(g, c, p))
    ensures Allocate(g, Deallocate(g, c, p), base) == (c, [p])
  {
    hide HandedOut, SlabOk, Blocks, Without;
    HandedOutIsFound(g, c, p);
    var i := SlabOf(g, c, p);
    var s := SlabPut(c.slabs[i], p);
    assert StateOf(g, c.slabs[i]) == Full && StateOf(g, s) == Partial;
    var c1 := Deallocate(g, c, p);
    assert c1 == c.(slabs := c.slabs[i := s], partials := [i], inUse := c.inUse - 1);
    PutThenTake(c.slabs[i], p);
    WithoutSelf(i);
    var (c2, out) := TakeFrom(g, c1, i, 1);
    assert c2.slabs == c.slabs && c2.partials == [] + [] == [];
  }

  lemma WithoutSelf(i: nat)
    ensures Without([i], i) == []
  {
    assert [i][1..] == [];
  }
}
