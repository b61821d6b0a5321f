/** The free lists of a pool over every run, with users writing into their blocks at any moment. */
module PoolLinkTheorems {
  import opened Basics
  import opened FreeLists
  import opened Centrals
  import opened CentralAccount
  import opened CentralOps
  import opened Pools
  import opened PoolProofs
  import opened PoolLinks
  import opened PoolLinkProofs

  ghost predicate ListsWhole(s: System, l: Links) {
    BothWhole(l, Frees(s.central.slabs), Caches(s.threads))
  }

  ghost predicate LinkInv(g: Geometry, batch: nat, s: Linked) {
    Inv(g, batch, s.pool) && NoSlabAtNull(s.pool.central) && ListsWhole(s.pool, s.links)
  }

  // ---- Each step ---------------------------------------------------------------------------------

  lemma CachesAfter(threads: seq<Thread>, t: nat, th: Thread)
    requires t < |threads|
    ensures Caches(threads[t := th]) == Caches(threads)[t := th.cache]
  {
  }

  lemma AllocateCachedLinks(g: Geometry, batch: nat, s: Linked, t: nat)
    requires Sane(g, batch) && LinkInv(g, batch, s) && Allowed(g, batch, s, Act(AllocateCached(t)))
    ensures ListsWhole(Step(g, batch, s.pool, AllocateCached(t)), LinksAfter(g, batch, s, AllocateCached(t)))
  {
    hide Inv, BothWhole, Caches, Frees;
    var th := s.pool.threads[t];
    CachesAfter(s.pool.threads, t, th.(cache := th.cache[1..]));
    PopCacheKeeps(s.links, Frees(s.pool.central.slabs), Caches(s.pool.threads), t, 1);
  }

  lemma BufferPushable(g: Geometry, batch: nat, s: Linked, t: nat)
    requires Sane(g, batch) && LinkInv(g, batch, s) && t < |s.pool.threads| && s.pool.threads[t].buf != []
    ensures Pushable(s.pool.threads[t].buf[1..], Frees(s.pool.central.slabs), Caches(s.pool.threads))
  {
    hide AllOf, FreeOf, Held, BothWhole, Caches, Frees, Outside;
    var buf := s.pool.threads[t].buf;
    BufferOnce(g, batch, s.pool, t);
    BufferIsHandedOut(g, s.pool, t);
    AllCoversFree(g, s.pool.central);
    forall x | x in buf[1..]
      ensures x != NULL && Outside(Frees(s.pool.central.slabs), x) && Outside(Caches(s.pool.threads), x)
    {
      BufferApart(g, batch, s.pool, t, x);
      assert x in multiset(buf);
      NotNull(g, s.pool.central, x);
    }
  }

  lemma StashLinks(g: Geometry, batch: nat, s: Linked, t: nat)
    requires Sane(g, batch) && LinkInv(g, batch, s) && Allowed(g, batch, s, Act(Stash(t)))
    ensures ListsWhole(Step(g, batch, s.pool, Stash(t)), LinksAfter(g, batch, s, Stash(t)))
  {
    hide Inv, BothWhole, Caches, Frees, Pushable, PushCache, Reversed;
    var th := s.pool.threads[t];
    BufferPushable(g, batch, s, t);
    PushCacheKeeps(s.links, Frees(s.pool.central.slabs), Caches(s.pool.threads), t, th.buf[1..]);
    CachesAfter(s.pool.threads, t, Stashed(th));
    ReversedAlike(th.buf[1..]);
  }

  lemma UsersBlock(g: Geometry, batch: nat, s: Linked, p: nat)
    requires LinkInv(g, batch, s) && p in s.pool.users
    ensures p != NULL && Outside(Frees(s.pool.central.slabs), p) && Outside(Caches(s.pool.threads), p)
    ensures p in HandedOut(g, s.pool.central)
  {
    hide AllOf, FreeOf, Held, HandedOut, BothWhole, Caches, Frees, Outside, NoSlabAtNull;
    UsersApart(g, batch, s.pool, p);
    OnePlace(g, batch, s.pool, p);
    NotNull(g, s.pool.central, p);
  }

  lemma LoadedCache(th: Thread, n: nat)
    ensures Loaded(th, n).cache == th.cache[if n < |th.cache| then n else |th.cache|..]
  {
  }

  lemma FreeLinks(g: Geometry, batch: nat, s: Linked, t: nat, p: nat)
    requires Sane(g, batch) && LinkInv(g, batch, s) && Allowed(g, batch, s, Act(Free(t, p)))
    ensures ListsWhole(Step(g, batch, s.pool, Free(t, p)), LinksAfter(g, batch, s, Free(t, p)))
  {
    hide Inv, BothWhole, Caches, Frees, PushCache, PopCache, Outside, Loaded, Reversed;
    var th, frees, caches := s.pool.threads[t], Frees(s.pool.central.slabs), Caches(s.pool.threads);
    UsersBlock(g, batch, s, p);
    PushCacheKeeps(s.links, frees, caches, t, [p]);
    OneReversed(p);
    CachesAfter(s.pool.threads, t, Freed(th, p, batch));
    if |th.cache| + 1 > batch {
      PopCacheKeeps(PushCache(s.links, t, [p]), frees, caches[t := [p] + th.cache], t, batch);
      LoadedCache(th.(cache := [p] + th.cache), batch);
      assert caches[t := [p] + th.cache][t := Freed(th, p, batch).cache] == caches[t := Freed(th, p, batch).cache];
    }
  }

  lemma UnloadLinks(g: Geometry, batch: nat, s: Linked, t: nat, limit: nat)
    requires Sane(g, batch) && LinkInv(g, batch, s) && Allowed(g, batch, s, Act(Unload(t, limit)))
    ensures ListsWhole(Step(g, batch, s.pool, Unload(t, limit)), LinksAfter(g, batch, s, Unload(t, limit)))
  {
    hide Inv, BothWhole, Caches, Frees;
    CachesAfter(s.pool.threads, t, Loaded(s.pool.threads[t], limit));
    PopCacheKeeps(s.links, Frees(s.pool.central.slabs), Caches(s.pool.threads), t, limit);
  }

  lemma CachesAreIn(g: Geometry, batch: nat, s: System)
    requires Inv(g, batch, s)
    ensures CachesIn(g, s.central, Caches(s.threads))
  {
    hide Inv, Held, AllOf, HandedOut, Outside, Caches;
    forall x: nat | x !in AllOf(g, s.central.slabs) ensures Outside(Caches(s.threads), x) {
      OnePlace(g, batch, s, x);
      CachedIsHeld(s.threads, x);
    }
  }

  lemma FetchLinksKeep(g: Geometry, c: Central, l: Links, caches: seq<seq<int>>, n: nat, base: nat)
    requires Structure(g, c) && FreshBase(g, c, base) && base != NULL && CachesIn(g, c, caches)
    requires BothWhole(l, Frees(c.slabs), caches) && InRange(c)
    ensures forall i :: i in c.partials ==> i < |l.slabs|
    ensures BothWhole(FetchLinks(g, l, c.partials, n, base), Frees(FetchBatch(g, c, n, base).0.slabs), caches)
  {
    hide Structure, FetchFrom, FetchFromLinks, TakeFrom, PopSlab, Frees, AllOf, Blocks, CarveLinks, Chain;
    FetchFromKeeps(g, c, l, caches, c.partials, n);
    FetchFromMoves(g, c, c.partials, n);
    FetchedAll(g, c, c.partials, n);
    var (c1, out) := FetchFrom(g, c, c.partials, n);
    var l1 := FetchFromLinks(l, c.partials, n).0;
    if n > |out| {
      CarveKeeps(g, c1, l1, caches, base);
      TakeKeeps(g, AddSlab(g, c1, base), CarveLinks(g, l1, base), caches, |c.slabs|, n - |out|);
    }
  }

  /** Taking blocks does not change which blocks there are. */
  lemma {:induction false} FetchedAll(g: Geometry, c: Central, ahead: seq<nat>, n: nat)
    requires forall i :: i in ahead ==> i < |c.slabs|
    ensures AllOf(g, FetchFrom(g, c, ahead, n).0.slabs) == AllOf(g, c.slabs)
    decreases ahead
  {
    hide AllOf;
    if ahead != [] && n != 0 {
      assert ahead[0] in ahead && forall i :: i in ahead[1..] ==> i in ahead;
      var (c1, out) := TakeFrom(g, c, ahead[0], n);
      AllStays(g, c.slabs, ahead[0], SlabTake(c.slabs[ahead[0]], n).0);
      FetchedAll(g, c1, ahead[1..], n - |out|);
    }
  }

  lemma FetchAction(g: Geometry, batch: nat, s: Linked, t: nat, base: nat)
    requires Sane(g, batch) && LinkInv(g, batch, s) && Allowed(g, batch, s, Act(Fetch(t, base)))
    ensures ListsWhole(Step(g, batch, s.pool, Fetch(t, base)), LinksAfter(g, batch, s, Fetch(t, base)))
  {
    hide Structure, HandedOut, BothWhole, CachesIn, FetchBatch, FetchLinks, Frees, Caches, ThreadsOk, Owned;
    CachesAreIn(g, batch, s.pool);
    FetchLinksKeep(g, s.pool.central, s.links, Caches(s.pool.threads), batch, base);
    CachesAfter(s.pool.threads, t, Thread([], FetchBatch(g, s.pool.central, batch, base).1, Fetched));
    CacheAt(s.pool.threads, t);
  }

  lemma CacheAt(threads: seq<Thread>, t: nat)
    requires t < |threads|
    ensures Caches(threads)[t := threads[t].cache] == Caches(threads)
  {
  }

  lemma ReturnLinks(g: Geometry, batch: nat, s: Linked, t: nat)
    requires Sane(g, batch) && LinkInv(g, batch, s) && t < |s.pool.threads|
    ensures |s.links.slabs| == |s.pool.central.slabs|
    ensures var (c, ps) := (s.pool.central, s.pool.threads[t].buf);
            BothWhole(PutLinks(g, c, s.links, ps), Frees(ReturnBatch(g, c, ps).0.slabs), Caches(s.pool.threads))
  {
    hide Inv, HandedOut, BothWhole, Outside, PutAll, PutLinks, Frees, Caches, NoSlabAtNull, Structure;
    ReturnReady(g, batch, s.pool, t);
    PutAllKeeps(g, s.pool.central, s.links, Caches(s.pool.threads), s.pool.threads[t].buf);
  }

  lemma ReturnAction(g: Geometry, batch: nat, s: Linked, t: nat)
    requires Sane(g, batch) && LinkInv(g, batch, s) && Allowed(g, batch, s, Act(Return(t)))
    ensures ListsWhole(Step(g, batch, s.pool, Return(t)), LinksAfter(g, batch, s, Return(t)))
  {
    hide Inv, BothWhole, ReturnBatch, PutLinks, Frees, Caches, NoSlabAtNull;
    var th := s.pool.threads[t];
    ReturnLinks(g, batch, s, t);
    CachesAfter(s.pool.threads, t, Thread(th.cache, [], Idle));
    CacheAt(s.pool.threads, t);
  }

  lemma ReturnReady(g: Geometry, batch: nat, s: System, t: nat)
    requires Inv(g, batch, s) && t < |s.threads|
    ensures Structure(g, s.central) && multiset(s.threads[t].buf) <= HandedOut(g, s.central)
    ensures forall p :: p in s.threads[t].buf ==> Outside(Caches(s.threads), p)
  {
    hide HandedOut, Held, Outside, Caches;
    BufferIsHandedOut(g, s, t);
    forall p | p in s.threads[t].buf ensures Outside(Caches(s.threads), p) { BufferApart(g, batch, s, t, p); }
  }

  lemma CentralAllocateAction(g: Geometry, batch: nat, s: Linked, base: nat)
    requires Sane(g, batch) && LinkInv(g, batch, s) && Allowed(g, batch, s, Act(CentralAllocate(base)))
    ensures ListsWhole(Step(g, batch, s.pool, CentralAllocate(base)), LinksAfter(g, batch, s, CentralAllocate(base)))
  {
    hide Structure, HandedOut, BothWhole, CachesIn, TakeFrom, PopSlab, Frees, Caches, ThreadsOk, Owned, CarveLinks;
    var c, l, caches := s.pool.central, s.links, Caches(s.pool.threads);
    if c.partials == [] {
      CachesAreIn(g, batch, s.pool);
      CarveKeeps(g, c, l, caches, base);
      TakeKeeps(g, AddSlab(g, c, base), CarveLinks(g, l, base), caches, |c.slabs|, 1);
    } else {
      assert c.partials[0] in c.partials;
      TakeKeeps(g, c, l, caches, c.partials[0], 1);
    }
  }

  lemma CentralDeallocateAction(g: Geometry, batch: nat, s: Linked, p: nat)
    requires Sane(g, batch) && LinkInv(g, batch, s) && Allowed(g, batch, s, Act(CentralDeallocate(p)))
    ensures ListsWhole(Step(g, batch, s.pool, CentralDeallocate(p)), LinksAfter(g, batch, s, CentralDeallocate(p)))
  {
    hide Structure, HandedOut, BothWhole, Outside, PutOne, Frees, Caches, ThreadsOk, Owned, NoSlabAtNull, Found;
    var c := s.pool.central;
    UsersBlock(g, batch, s, p);
    assert multiset([p]) <= HandedOut(g, c);
    PutAllKeeps(g, c, s.links, Caches(s.pool.threads), [p]);
    PutMoves(g, c, p);
    assert PutAll(g, PutOne(g, c, p), [p][1..]).0 == PutOne(g, c, p);
  }

  /** A user's write reaches no list. */
  lemma UserWriteLinks(g: Geometry, batch: nat, s: Linked, p: nat, v: int)
    requires LinkInv(g, batch, s) && p in s.pool.users
    ensures ListsWhole(s.pool, s.links.(next := s.links.next[p := v]))
  {
    hide Inv, Frees, Caches, Chain;
    UsersBlock(g, batch, s, p);
    WholeSurvives(s.links.next, s.links.next[p := v], s.links.slabs, Frees(s.pool.central.slabs));
    WholeSurvives(s.links.next, s.links.next[p := v], s.links.caches, Caches(s.pool.threads));
  }

  lemma ActionLinks(g: Geometry, batch: nat, s: Linked, x: Action)
    requires Sane(g, batch) && LinkInv(g, batch, s) && Allowed(g, batch, s, Act(x))
    ensures ListsWhole(Step(g, batch, s.pool, x), LinksAfter(g, batch, s, x))
  {
    hide LinkInv, ListsWhole, Step, LinksAfter, Allowed;
    match x
    case AllocateCached(t) => AllocateCachedLinks(g, batch, s, t);
    case Fetch(t, base) => FetchAction(g, batch, s, t, base);
    case Stash(t) => StashLinks(g, batch, s, t);
    case Free(t, p) => FreeLinks(g, batch, s, t, p);
    case Unload(t, limit) => UnloadLinks(g, batch, s, t, limit);
    case Return(t) => ReturnAction(g, batch, s, t);
    case CentralAllocate(base) => CentralAllocateAction(g, batch, s, base);
    case CentralDeallocate(p) => CentralDeallocateAction(g, batch, s, p);
  }

  lemma NullStaysFree(g: Geometry, batch: nat, s: Linked, x: Action)
    requires Sane(g, batch) && Inv(g, batch, s.pool) && NoSlabAtNull(s.pool.central) && Allowed(g, batch, s, Act(x))
    ensures NoSlabAtNull(Step(g, batch, s.pool, x).central)
  {
    hide Structure, HandedOut, FetchFrom, PutAll, PutOne, ThreadsOk;
    var c := s.pool.central;
    match x
    case Fetch(t, base) => FetchFromMoves(g, c, c.partials, batch);
    case Return(t) =>
      BufferIsHandedOut(g, s.pool, t);
      ReturnBatchMoves(g, c, s.pool.threads[t].buf);
    case _ =>
  }

  lemma NextKeeps(g: Geometry, batch: nat, s: Linked, d: Deed)
    requires Sane(g, batch) && LinkInv(g, batch, s) && Allowed(g, batch, s, d)
    ensures LinkInv(g, batch, Next(g, batch, s, d))
  {
    hide Inv, ListsWhole, Step, LinksAfter, NoSlabAtNull, Enabled;
    match d
    case Act(x) =>
      StepKeeps(g, batch, s.pool, x);
      NullStaysFree(g, batch, s, x);
      ActionLinks(g, batch, s, x);
    case UserWrite(p, v) => UserWriteLinks(g, batch, s, p, v);
  }

  lemma {:induction false} LinkedRunInv(g: Geometry, batch: nat, run: seq<Linked>, deeds: seq<Deed>, k: nat)
    requires Sane(g, batch) && IsLinkedRun(g, batch, run, deeds) && k < |run|
    ensures LinkInv(g, batch, run[k])
  {
    hide LinkInv, Allowed, Next;
    if k == 0 {
      LinkedInitInv(g, batch, run[0]);
    } else {
      LinkedRunInv(g, batch, run, deeds, k - 1);
      assert NextIs(g, batch, run, deeds, k - 1);
      NextKeeps(g, batch, run[k - 1], deeds[k - 1]);
    }
  }

  lemma LinkedInitInv(g: Geometry, batch: nat, s: Linked)
    requires Sane(g, batch) && LinkedInit(s)
    ensures LinkInv(g, batch, s)
  {
    InitInv(g, batch, s.pool);
  }

  // ---- The theorems ------------------------------------------------------------------------------

  /** In every state of every run, each slab's list and each thread's list is whole: from its head the links
      lead through its blocks, the last one pushed first, each once, and end. */
  lemma ListsStayWhole(g: Geometry, batch: nat, run: seq<Linked>, deeds: seq<Deed>, k: nat)
    requires Sane(g, batch) && IsLinkedRun(g, batch, run, deeds) && k < |run|
    ensures var (s, l) := (run[k].pool, run[k].links);
            && |l.slabs| == |s.central.slabs| && |l.caches| == |s.threads|
            && (forall i :: 0 <= i < |l.slabs| ==>
                  Chain(l.next, l.slabs[i], s.central.slabs[i].free) && Distinct(s.central.slabs[i].free))
            && (forall t :: 0 <= t < |l.caches| ==>
                  Chain(l.next, l.caches[t], s.threads[t].cache) && Distinct(s.threads[t].cache))
  {
    hide Inv, Allowed, Next, LinkedInit, Chain;
    LinkedRunInv(g, batch, run, deeds, k);
    var (s, l) := (run[k].pool, run[k].links);
    forall i | 0 <= i < |l.slabs|
      ensures Chain(l.next, l.slabs[i], s.central.slabs[i].free) && Distinct(s.central.slabs[i].free)
    {
      DistinctInChain(l.next, l.slabs[i], Frees(s.central.slabs)[i]);
    }
    forall t | 0 <= t < |l.caches|
      ensures Chain(l.next, l.caches[t], s.threads[t].cache) && Distinct(s.threads[t].cache)
    {
      DistinctInChain(l.next, l.caches[t], Caches(s.threads)[t]);
    }
  }

  lemma DistinctInChain(next: map<int, int>, head: int, elems: seq<int>)
    requires Chain(next, head, elems)
    ensures Distinct(elems)
  {
    forall i, j | 0 <= i < j < |elems| ensures elems[i] != elems[j] { ChainIsAcyclic(next, head, elems, i, j); }
  }

  /** So what popping reads from memory, at any moment of any run and from any list, is what was pushed. */
  lemma PopsReadThePushes(g: Geometry, batch: nat, run: seq<Linked>, deeds: seq<Deed>, k: nat, i: nat, n: nat)
    requires Sane(g, batch) && IsLinkedRun(g, batch, run, deeds) && k < |run|
    ensures var (s, l) := (run[k].pool, run[k].links);
            && |l.slabs| == |s.central.slabs| && |l.caches| == |s.threads|
            && (i < |l.slabs| ==> Popped(l.next, l.slabs[i], n).1 == SlabTake(s.central.slabs[i], n).1)
            && (i < |l.caches| ==> Popped(l.next, l.caches[i], n).1 == Loaded(s.threads[i], n).buf)
  {
    hide Inv, Allowed, Next, LinkedInit, Chain, Popped, Distinct;
    ListsStayWhole(g, batch, run, deeds, k);
    var (s, l) := (run[k].pool, run[k].links);
    if i < |s.central.slabs| { PoppedIs(l.next, l.slabs[i], s.central.slabs[i].free, n); }
    if i < |s.threads| { PoppedIs(l.next, l.caches[i], s.threads[i].cache, n); }
  }
}
