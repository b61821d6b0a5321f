/**
The free lists of a pool over whole runs: whatever users write into their blocks, the links of every list
lead through exactly its blocks and end.
*/
module PoolLinkProofs {
  import opened Basics
  import opened FreeLists
  import opened Centrals
  import opened CentralAccount
  import opened CentralOps
  import opened Pools
  import opened PoolLinks

  // ---- Who holds a block -------------------------------------------------------------------------

  ghost predicate NoSlabAtNull(c: Central) { NULL !in c.slabMap }

  lemma NotNull(g: Geometry, c: Central, x: nat)
    requires Structure(g, c) && NoSlabAtNull(c) && x in AllOf(g, c.slabs)
    ensures x != NULL
  {
    hide AllOf, FreeOf;
    BlockIsFound(g, c, x);
    CarveBounds(c.slabs[SlabOf(g, c, x)].base, g.blockSize, g.total, x);
  }

  /** No block is in two places. */
  lemma OnePlace(g: Geometry, batch: nat, s: System, x: nat)
    requires Inv(g, batch, s)
    ensures FreeOf(s.central.slabs)[x] + Held(s.threads)[x] + s.users[x] <= 1
    ensures x in Held(s.threads) + s.users ==> x in HandedOut(g, s.central) && x in AllOf(g, s.central.slabs)
  {
    hide Held, AllOf, FreeOf, MapOk, PartialsOk, SlabOk;
    AllCoversFree(g, s.central);
    assert HandedOut(g, s.central)[x] == (Held(s.threads) + s.users)[x];
    if x in AllOf(g, s.central.slabs) { BlockIsFound(g, s.central, x); }
  }

  lemma FreeIsInside(slabs: seq<Slab>, x: nat)
    ensures FreeOf(slabs)[x] == 0 ==> Outside(Frees(slabs), x)
  {
    forall i | 0 <= i < |slabs| && x in slabs[i].free ensures x in FreeOf(slabs) { FreeContains(slabs, i, x); }
  }

  lemma CachedIsHeld(threads: seq<Thread>, x: nat)
    ensures Held(threads)[x] == 0 ==> Outside(Caches(threads), x)
  {
    hide Held;
    forall t | 0 <= t < |threads| && x in threads[t].cache ensures Held(threads)[x] > 0 { HeldIncludes(threads, t); }
  }

  /** A block in a user's hands is in no list. */
  lemma UsersApart(g: Geometry, batch: nat, s: System, x: nat)
    requires Inv(g, batch, s) && x in s.users
    ensures Outside(Frees(s.central.slabs), x) && Outside(Caches(s.threads), x)
  {
    hide Inv, Held, AllOf, FreeOf, HandedOut, Outside, Frees, Caches;
    OnePlace(g, batch, s, x);
    FreeIsInside(s.central.slabs, x);
    CachedIsHeld(s.threads, x);
  }

  /** Nor is one in a transfer buffer. */
  lemma BufferApart(g: Geometry, batch: nat, s: System, t: nat, x: nat)
    requires Inv(g, batch, s) && t < |s.threads| && x in s.threads[t].buf
    ensures Outside(Frees(s.central.slabs), x) && Outside(Caches(s.threads), x)
  {
    hide Inv, Held, AllOf, FreeOf, HandedOut, Outside, Frees;
    OnePlace(g, batch, s, x);
    var th := s.threads[t].(buf := []);
    var rest := s.threads[t := th];
    HeldChanges(s.threads, t, th);
    CountsSplit(Held(rest), Of(s.threads[t]), Held(s.threads), Of(th), x);
    FreeIsInside(s.central.slabs, x);
    CachedIsHeld(rest, x);
    assert Caches(rest) == Caches(s.threads);
  }

  lemma CountsSplit(a: multiset<nat>, b: multiset<nat>, c: multiset<nat>, d: multiset<nat>, x: nat)
    requires a + b == c + d
    ensures a[x] + b[x] == c[x] + d[x]
  {
    assert (a + b)[x] == (c + d)[x];
  }

  lemma OnceMeansDistinct(s: seq<nat>)
    requires forall x :: multiset(s)[x] <= 1
    ensures Distinct(s)
  {
    forall i, j | 0 <= i < j < |s| ensures s[i] != s[j] {
      assert s == s[..j] + [s[j]] + s[j + 1..];
      assert s[i] == s[..j][i] && s[i] in multiset(s[..j]);
      assert multiset(s) == multiset(s[..j]) + multiset{s[j]} + multiset(s[j + 1..]);
      assert multiset(s)[s[j]] <= 1;
    }
  }

  /** The blocks of a transfer buffer are distinct. */
  lemma BufferOnce(g: Geometry, batch: nat, s: System, t: nat)
    requires Inv(g, batch, s) && t < |s.threads|
    ensures Distinct(s.threads[t].buf)
  {
    hide Inv, Held, AllOf, FreeOf, HandedOut, Distinct;
    HeldIncludes(s.threads, t);
    forall x ensures multiset(s.threads[t].buf)[x] <= 1 {
      if x in s.threads[t].buf { OnePlace(g, batch, s, x); }
    }
    OnceMeansDistinct(s.threads[t].buf);
  }

  // ---- Lists stay whole --------------------------------------------------------------------------

  ghost predicate BothWhole(l: Links, frees: seq<seq<int>>, caches: seq<seq<int>>) {
    Whole(l.next, l.slabs, frees) && Whole(l.next, l.caches, caches)
  }

  ghost predicate Pushable(blocks: seq<int>, frees: seq<seq<int>>, caches: seq<seq<int>>) {
    && NULL !in blocks && Distinct(blocks)
    && forall x :: x in blocks ==> Outside(frees, x) && Outside(caches, x)
  }

  lemma PushSlabKeeps(l: Links, frees: seq<seq<int>>, caches: seq<seq<int>>, i: nat, blocks: seq<int>)
    requires BothWhole(l, frees, caches) && i < |frees| && Pushable(blocks, frees, caches)
    ensures BothWhole(PushSlab(l, i, blocks), frees[i := Reversed(blocks) + frees[i]], caches)
  {
    hide Reversed, Chain;
    PushedIs(l.next, l.slabs[i], frees[i], blocks);
    WholeSurvives(l.next, PushSlab(l, i, blocks).next, l.slabs, frees);
    WholeSurvives(l.next, PushSlab(l, i, blocks).next, l.caches, caches);
  }

  lemma PushCacheKeeps(l: Links, frees: seq<seq<int>>, caches: seq<seq<int>>, t: nat, blocks: seq<int>)
    requires BothWhole(l, frees, caches) && t < |caches| && Pushable(blocks, frees, caches)
    ensures BothWhole(PushCache(l, t, blocks), frees, caches[t := Reversed(blocks) + caches[t]])
  {
    hide Reversed, Chain;
    PushedIs(l.next, l.caches[t], caches[t], blocks);
    WholeSurvives(l.next, PushCache(l, t, blocks).next, l.slabs, frees);
    WholeSurvives(l.next, PushCache(l, t, blocks).next, l.caches, caches);
  }

  lemma OneReversed(p: int)
    ensures Reversed([p]) == [p]
  {
    assert Reversed([p][1..]) + [[p][0]] == [p];
  }

  lemma PushOneSlab(l: Links, frees: seq<seq<int>>, caches: seq<seq<int>>, i: nat, p: int)
    requires BothWhole(l, frees, caches) && i < |frees| && p != NULL && Outside(frees, p) && Outside(caches, p)
    ensures BothWhole(PushSlab(l, i, [p]), frees[i := [p] + frees[i]], caches)
  {
    hide Reversed, BothWhole, Outside, PushSlab;
    PushSlabKeeps(l, frees, caches, i, [p]);
    OneReversed(p);
  }

  lemma PopSlabKeeps(l: Links, frees: seq<seq<int>>, caches: seq<seq<int>>, i: nat, n: nat)
    requires BothWhole(l, frees, caches) && i < |frees|
    ensures var k := if n < |frees[i]| then n else |frees[i]|;
            PopSlab(l, i, n).1 == k && BothWhole(PopSlab(l, i, n).0, frees[i := frees[i][k..]], caches)
  {
    hide Chain;
    PoppedIs(l.next, l.slabs[i], frees[i], n);
  }

  lemma PopCacheKeeps(l: Links, frees: seq<seq<int>>, caches: seq<seq<int>>, t: nat, n: nat)
    requires BothWhole(l, frees, caches) && t < |caches|
    ensures var k := if n < |caches[t]| then n else |caches[t]|;
            BothWhole(PopCache(l, t, n), frees, caches[t := caches[t][k..]])
  {
    hide Chain;
    PoppedIs(l.next, l.caches[t], caches[t], n);
  }

  lemma TakeKeeps(g: Geometry, c: Central, l: Links, caches: seq<seq<int>>, i: nat, n: nat)
    requires BothWhole(l, Frees(c.slabs), caches) && i < |c.slabs|
    ensures PopSlab(l, i, n).1 == |TakeFrom(g, c, i, n).1|
    ensures BothWhole(PopSlab(l, i, n).0, Frees(TakeFrom(g, c, i, n).0.slabs), caches)
  {
    hide BothWhole;
    PopSlabKeeps(l, Frees(c.slabs), caches, i, n);
    var k := Taken(c.slabs[i], n);
    assert Frees(TakeFrom(g, c, i, n).0.slabs) == Frees(c.slabs)[i := c.slabs[i].free[k..]];
  }

  lemma {:induction false} FetchFromKeeps(g: Geometry, c: Central, l: Links, caches: seq<seq<int>>, ahead: seq<nat>,
                                          n: nat)
    requires BothWhole(l, Frees(c.slabs), caches) && forall i :: i in ahead ==> i < |c.slabs|
    ensures forall i :: i in ahead ==> i < |l.slabs|
    ensures FetchFromLinks(l, ahead, n).1 == n - |FetchFrom(g, c, ahead, n).1|
    ensures BothWhole(FetchFromLinks(l, ahead, n).0, Frees(FetchFrom(g, c, ahead, n).0.slabs), caches)
    decreases ahead
  {
    hide Chain, TakeFrom, PopSlab;
    if ahead != [] && n != 0 {
      assert ahead[0] in ahead && forall i :: i in ahead[1..] ==> i in ahead;
      TakeKeeps(g, c, l, caches, ahead[0], n);
      var (c1, out) := TakeFrom(g, c, ahead[0], n);
      FetchFromKeeps(g, c1, PopSlab(l, ahead[0], n).0, caches, ahead[1..], n - |out|);
    }
  }

  /** The blocks of a new slab are in no list yet. */
  lemma FreshBlocks(g: Geometry, c: Central, base: nat, x: nat)
    requires Structure(g, c) && FreshBase(g, c, base) && x in Blocks(g, base)
    ensures x !in AllOf(g, c.slabs) && multiset(Blocks(g, base))[x] == 1
  {
    hide AllOf;
    var c1 := AddSlab(g, c, base);
    AddSlabKeeps(g, c, base);
    AppendOne(g, c.slabs, NewSlab(g, base));
    if x in AllOf(g, c1.slabs) { BlockIsFound(g, c1, x); }
  }

  ghost predicate CachesIn(g: Geometry, c: Central, caches: seq<seq<int>>) {
    forall x: nat :: x !in AllOf(g, c.slabs) ==> Outside(caches, x)
  }

  lemma NewBlocksPushable(g: Geometry, c: Central, caches: seq<seq<int>>, base: nat)
    requires Structure(g, c) && FreshBase(g, c, base) && base != NULL && CachesIn(g, c, caches)
    ensures Pushable(Reversed(Blocks(g, base)), Frees(c.slabs), caches)
  {
    hide Structure, AllOf, FreeOf, Blocks, Frees, Outside;
    var blocks := Blocks(g, base);
    ReversedSame(blocks);
    forall x ensures multiset(Reversed(blocks))[x] <= 1 { if x in blocks { FreshBlocks(g, c, base, x); } }
    OnceMeansDistinct(Reversed(blocks));
    AllCoversFree(g, c);
    forall x | x in Reversed(blocks) ensures x != NULL && Outside(Frees(c.slabs), x) && Outside(caches, x) {
      assert x in multiset(Reversed(blocks));
      FreshBlocks(g, c, base, x);
      FreeIsInside(c.slabs, x);
      NewNotNull(g, c, base, x);
    }
  }

  lemma NewNotNull(g: Geometry, c: Central, base: nat, x: nat)
    requires Structure(g, c) && x in Blocks(g, base) && base != NULL
    ensures x != NULL
  {
    CarveBounds(base, g.blockSize, g.total, x);
  }

  lemma {:induction false} ReversedAlike(s: seq<nat>)
    ensures Reversed<int>(s) == Reversed<nat>(s)
  {
    if s != [] { ReversedAlike(s[1..]); }
  }

  lemma CarveKeeps(g: Geometry, c: Central, l: Links, caches: seq<seq<int>>, base: nat)
    requires Structure(g, c) && FreshBase(g, c, base) && base != NULL && CachesIn(g, c, caches)
    requires BothWhole(l, Frees(c.slabs), caches)
    ensures BothWhole(CarveLinks(g, l, base), Frees(AddSlab(g, c, base).slabs), caches)
  {
    hide Structure, AllOf, Blocks, Reversed, CachesIn;
    var blocks := Reversed(Blocks(g, base));
    var l1, frees := l.(slabs := l.slabs + [NULL]), Frees(c.slabs) + [[]];
    NewBlocksPushable(g, c, caches, base);
    assert forall x :: Outside(Frees(c.slabs), x) ==> Outside(frees, x);
    PushSlabKeeps(l1, frees, caches, |c.slabs|, blocks);
    ReversedAlike(blocks);
    ReversedTwice(Blocks(g, base));
    assert Reversed(blocks) + [] == Blocks(g, base);
    assert Frees(AddSlab(g, c, base).slabs) == frees[|c.slabs| := Blocks(g, base)];
  }

  /** returnBatch and deallocate write to blocks that are in no list. */
  lemma {:induction false} PutAllKeeps(g: Geometry, c: Central, l: Links, caches: seq<seq<int>>, ps: seq<nat>)
    requires Structure(g, c) && NoSlabAtNull(c) && multiset(ps) <= HandedOut(g, c)
    requires BothWhole(l, Frees(c.slabs), caches) && forall p :: p in ps ==> Outside(caches, p)
    ensures |l.slabs| == |c.slabs|
    ensures BothWhole(PutLinks(g, c, l, ps), Frees(PutAll(g, c, ps).0.slabs), caches)
    decreases ps
  {
    hide Structure, HandedOut, PutOne, Chain, PushSlab, Outside, SlabOf, Found;
    StructureFacts(g, c);
    if ps != [] {
      var p := ps[0];
      assert ps == [p] + ps[1..] && p in ps;
      assert multiset(ps) == multiset{p} + multiset(ps[1..]) && p in multiset(ps);
      PutMoves(g, c, p);
      PutOneKeeps(g, c, l, caches, p);
      PutAllKeeps(g, PutOne(g, c, p), PushSlab(l, SlabOf(g, c, p), [p]), caches, ps[1..]);
    }
  }

  lemma PutOneKeeps(g: Geometry, c: Central, l: Links, caches: seq<seq<int>>, p: nat)
    requires Structure(g, c) && NoSlabAtNull(c) && p in HandedOut(g, c) && g.slabSize > 0 && Found(g, c, p)
    requires BothWhole(l, Frees(c.slabs), caches) && Outside(caches, p)
    ensures BothWhole(PushSlab(l, SlabOf(g, c, p), [p]), Frees(PutOne(g, c, p).slabs), caches)
  {
    hide Structure, AllOf, FreeOf, HandedOut, Outside, BothWhole, SlabOf, Found, PutOne, PushSlab, NoSlabAtNull;
    AllCoversFree(g, c);
    HandedOutOnce(g, c, p);
    NotNull(g, c, p);
    FreeIsInside(c.slabs, p);
    var i := SlabOf(g, c, p);
    PushOneSlab(l, Frees(c.slabs), caches, i, p);
    FreesAfterPut(g, c, p);
  }

  lemma FreesAfterPut(g: Geometry, c: Central, p: nat)
    requires g.slabSize > 0 && Found(g, c, p)
    ensures var i := SlabOf(g, c, p); Frees(PutOne(g, c, p).slabs) == Frees(c.slabs)[i := [p] + Frees(c.slabs)[i]]
  {
  }

  lemma HandedOutOnce(g: Geometry, c: Central, p: nat)
    requires Structure(g, c) && p in HandedOut(g, c)
    ensures FreeOf(c.slabs)[p] == 0 && p in AllOf(g, c.slabs)
  {
    hide Structure, AllOf, FreeOf;
    BlockIsFound(g, c, p);
  }
}
