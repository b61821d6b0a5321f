/** What holds of every run of a pool. */
module PoolTheorems {
  import opened FreeLists
  import opened Centrals
  import opened CentralAccount
  import opened CentralOps
  import opened CentralTheorems
  import opened Pools
  import opened PoolProofs

  /** In how many threads' caches and buffers x is, counted with repetition. */
  ghost function InThreads(s: System, x: nat): nat { Held(s.threads)[x] }

  /** Every block of every slab is in exactly one place: a slab's free list, a thread, or a user's hands;
      nothing else is in any of these places; and a slab's free list holds blocks of that slab only. */
  lemma BlocksHaveOneOwner(g: Geometry, batch: nat, run: seq<System>, acts: seq<Action>, k: nat, x: nat)
    requires Sane(g, batch) && IsRun(g, batch, run, acts) && k < |run|
    ensures var s := run[k];
            var everywhere := FreeOf(s.central.slabs)[x] + InThreads(s, x) + s.users[x];
            && (x in AllOf(g, s.central.slabs) ==> everywhere == 1)
            && (x !in AllOf(g, s.central.slabs) ==> everywhere == 0)
    ensures forall i :: 0 <= i < |run[k].central.slabs| ==> SlabOk(g, run[k].central.slabs[i])
  {
    hide Held, Init, Enabled, Step, AllOf, FreeOf, MapOk, PartialsOk;
    RunInv(g, batch, run, acts, k);
    var s := run[k];
    AllCoversFree(g, s.central);
    assert HandedOut(g, s.central)[x] == (Held(s.threads) + s.users)[x];
    if x in AllOf(g, s.central.slabs) { BlockIsFound(g, s.central, x); }
  }

  ghost function CachedCount(threads: seq<Thread>): nat {
    if threads == [] then 0 else |threads[0].cache| + |threads[0].buf| + CachedCount(threads[1..])
  }

  lemma {:induction false} HeldSize(threads: seq<Thread>)
    ensures |Held(threads)| == CachedCount(threads)
  {
    if threads != [] { HeldSize(threads[1..]); }
  }

  /** allocatedBlocks is the number of blocks used in slabs, and that of the blocks in users' hands and in threads. */
  lemma CountsAgree(g: Geometry, batch: nat, run: seq<System>, acts: seq<Action>, k: nat)
    requires Sane(g, batch) && IsRun(g, batch, run, acts) && k < |run|
    ensures run[k].central.inUse == SumUsed(run[k].central.slabs) == |run[k].users| + CachedCount(run[k].threads)
  {
    hide Init, Enabled, Step, Structure, HandedOut;
    RunInv(g, batch, run, acts, k);
    CounterIsSumOfUsed(g, run[k].central);
    HeldSize(run[k].threads);
  }

  /** An idle thread caches at most a batch, so one drain empties its cache, and the central cache takes
      back the whole buffer. */
  lemma DrainEmpties(g: Geometry, batch: nat, run: seq<System>, acts: seq<Action>, k: nat)
    requires Sane(g, batch) && IsRun(g, batch, run, acts) && k < |acts| && acts[k].Unload?
    ensures acts[k].t < |run[k].threads| == |run[k + 1].threads| && run[k + 1].threads[acts[k].t].cache == []
    ensures ReturnBatch(g, run[k + 1].central, run[k + 1].threads[acts[k].t].buf).1 == |run[k].threads[acts[k].t].cache|
  {
    hide Init, Structure, HandedOut, CentralOk, ReturnBatch, Owned;
    var t := acts[k].t;
    RunInv(g, batch, run, acts, k);
    RunInv(g, batch, run, acts, k + 1);
    StepAt(g, batch, run, acts, k);
    assert ThreadOk(run[k].threads[t], batch);
    ReturnedIsReturnCount(g, batch, run, acts, k + 1, t);
  }

  lemma StepAt(g: Geometry, batch: nat, run: seq<System>, acts: seq<Action>, k: nat)
    requires g.slabSize > 0 && IsRun(g, batch, run, acts) && k < |acts|
    ensures Enabled(g, batch, run[k], acts[k]) && run[k + 1] == Step(g, batch, run[k], acts[k])
  {
    hide Enabled, Step, Init;
    assert Follows(g, batch, run, acts, k);
  }

  /** returnBatch always returns the count it was given: returnToCentral's assertion cannot fail. */
  lemma ReturnedIsReturnCount(g: Geometry, batch: nat, run: seq<System>, acts: seq<Action>, k: nat, t: nat)
    requires Sane(g, batch) && IsRun(g, batch, run, acts) && k < |run| && t < |run[k].threads|
    ensures ReturnBatch(g, run[k].central, run[k].threads[t].buf).1 == |run[k].threads[t].buf|
  {
    hide Init, Enabled, Step, Structure, HandedOut, ReturnBatch;
    RunInv(g, batch, run, acts, k);
    BufferIsHandedOut(g, run[k], t);
    ReturnBatchMoves(g, run[k].central, run[k].threads[t].buf);
  }

  /** A fetch brings at least one block, and exactly a batch when a slab holds that many. */
  lemma FetchSucceeds(g: Geometry, batch: nat, run: seq<System>, acts: seq<Action>, k: nat)
    requires Sane(g, batch) && IsRun(g, batch, run, acts) && k < |acts| && acts[k].Fetch?
    ensures acts[k].t < |run[k + 1].threads|
    ensures var buf := run[k + 1].threads[acts[k].t].buf;
            1 <= |buf| <= batch && (batch <= g.total ==> |buf| == batch)
    ensures |run[k + 1].central.slabs| <= |run[k].central.slabs| + 1
  {
    hide Init, Structure, HandedOut, CentralOk, FetchBatch, FreeIn, Owned, ThreadsOk;
    RunInv(g, batch, run, acts, k);
    StepAt(g, batch, run, acts, k);
    FetchBatchCount(g, run[k].central, batch, acts[k].base);
  }

  /** The slabs that a step adds. */
  function SlabsNeeded(g: Geometry, batch: nat, s: System, x: Action): nat
    requires InRange(s.central)
  {
    match x
    case Fetch(_, _) => if FreeIn(s.central, s.central.partials) < batch then 1 else 0
    case CentralAllocate(_) => if HasPartial(g, s.central) then 0 else 1
    case _ => 0
  }

  /** A slab is added by a fetch when the free blocks of all partial slabs do not fill the batch, by an allocate
      from the central cache when no slab is partial, and never otherwise. */
  lemma SlabsAreAddedWhenNeeded(g: Geometry, batch: nat, run: seq<System>, acts: seq<Action>, k: nat)
    requires Sane(g, batch) && IsRun(g, batch, run, acts) && k < |acts|
    ensures InRange(run[k].central)
    ensures |run[k + 1].central.slabs| == |run[k].central.slabs| + SlabsNeeded(g, batch, run[k], acts[k])
  {
    hide Init, Structure, HandedOut, FetchBatch, Allocate, ReturnBatch, Deallocate, FreeIn, HasPartial, Owned,
         ThreadsOk;
    RunInv(g, batch, run, acts, k);
    StructureFacts(g, run[k].central);
    StepAt(g, batch, run, acts, k);
    match acts[k]
    case Fetch(_, base) => FetchBatchCount(g, run[k].central, batch, base);
    case CentralAllocate(base) => AllocateCount(g, run[k].central, base);
    case Return(t) => SameSlabs(g, run[k].central, run[k].threads[t].buf);
    case _ =>
  }

  lemma SameSlabs(g: Geometry, c: Central, ps: seq<nat>)
    requires g.slabSize > 0
    ensures |ReturnBatch(g, c, ps).0.slabs| == |c.slabs|
  {
  }

  /** An allocate from the central cache hands out a block of a partial slab when there is one. */
  lemma AllocateTakesFromPartial(g: Geometry, batch: nat, run: seq<System>, acts: seq<Action>, k: nat)
    requires Sane(g, batch) && IsRun(g, batch, run, acts) && k < |acts| && acts[k].CentralAllocate?
    requires HasPartial(g, run[k].central)
    ensures var c := run[k].central;
            exists i, p ::
              && 0 <= i < |c.slabs| && StateOf(g, c.slabs[i]) == Partial && p in c.slabs[i].free
              && run[k + 1].users == run[k].users + multiset{p}
  {
    hide Init, Structure, HandedOut, Allocate, HasPartial, Owned, ThreadsOk;
    RunInv(g, batch, run, acts, k);
    StepAt(g, batch, run, acts, k);
    var c := run[k].central;
    AllocateCount(g, c, acts[k].base);
    var out := Allocate(g, c, acts[k].base).1;
    assert out == [out[0]];
    assert out[0] in c.slabs[c.partials[0]].free && run[k + 1].users == run[k].users + multiset{out[0]};
  }

  // ---- A thread's cache --------------------------------------------------------------------------

  /** xs backwards, in front of ys */
  predicate Backwards(xs: seq<nat>, ys: seq<nat>, r: seq<nat>) {
    |r| == |xs| + |ys| && r[|xs|..] == ys && forall i :: 0 <= i < |xs| ==> r[i] == xs[|xs| - 1 - i]
  }

  /** What thread t's step does to its cache, top first, and its buffer; p: the block that a user gets or gives. */
  ghost predicate CacheStep(batch: nat, th: Thread, th': Thread, x: Action, p: nat) {
    match x
    case AllocateCached(_) => th.cache == [p] + th'.cache && th'.buf == th.buf && th'.phase == Idle
    case Stash(_) =>
      && th.buf != [] && th.buf[0] == p && Backwards(th.buf[1..], th.cache, th'.cache)
      && th'.buf == [] && th'.phase == Idle
    case Free(_, _) =>
      && th'.buf + th'.cache == [p] + th.cache
      && |th'.buf| == (if |th.cache| < batch then 0 else batch) && (th'.buf == [] <==> th'.phase == Idle)
    case Unload(_, limit) =>
      && th'.buf + th'.cache == th.cache && th'.phase == Returning
      && |th'.buf| == if limit < |th.cache| then limit else |th.cache|
    case Return(_) => th'.cache == th.cache && th'.buf == [] && th'.phase == Idle
    case Fetch(_, _) => th'.cache == th.cache && th'.phase == Fetched
    case _ => true
  }

  predicate OfThread(x: Action) { !x.CentralAllocate? && !x.CentralDeallocate? }

  lemma {:induction false} ReversedIsBackwards(xs: seq<nat>, ys: seq<nat>)
    ensures Backwards(xs, ys, Reversed(xs) + ys)
  {
    if xs != [] {
      var r := Reversed(xs[1..]) + ([xs[0]] + ys);
      ReversedIsBackwards(xs[1..], [xs[0]] + ys);
      assert Reversed(xs) + ys == r;
      assert r[|xs|..] == r[|xs[1..]|..][1..] && r[|xs| - 1] == r[|xs[1..]|..][0];
      assert forall i :: 1 <= i < |xs| ==> xs[i] == xs[1..][i - 1];
    }
  }

  /** A thread's cache is a stack: allocate pops its top, deallocate pushes, and when that makes more than a batch,
      the batch on top goes to the central cache in one piece; a fetched batch is pushed in order, but for its
      first block, which the user gets. No step touches another thread. */
  lemma CacheIsAStack(g: Geometry, batch: nat, run: seq<System>, acts: seq<Action>, k: nat) returns (p: nat)
    requires Sane(g, batch) && IsRun(g, batch, run, acts) && k < |acts| && OfThread(acts[k])
    ensures acts[k].t < |run[k].threads| == |run[k + 1].threads|
    ensures CacheStep(batch, run[k].threads[acts[k].t], run[k + 1].threads[acts[k].t], acts[k], p)
    ensures forall u :: 0 <= u < |run[k].threads| && u != acts[k].t ==> run[k + 1].threads[u] == run[k].threads[u]
    ensures match acts[k]
            case AllocateCached(_) => run[k + 1].users == run[k].users + multiset{p}
            case Stash(_) => run[k + 1].users == run[k].users + multiset{p}
            case Free(_, q) => p == q && q in run[k].users && run[k + 1].users == run[k].users - multiset{q}
            case _ => run[k + 1].users == run[k].users
  {
    hide Init, CentralOk, Owned, FetchBatch, ReturnBatch, Reversed;
    RunInv(g, batch, run, acts, k);
    StepAt(g, batch, run, acts, k);
    var th := run[k].threads[acts[k].t];
    assert ThreadOk(th, batch);
    p := 0;
    match acts[k]
    case AllocateCached(_) => p := th.cache[0];
    case Stash(_) =>
      p := th.buf[0];
      ReversedIsBackwards(th.buf[1..], th.cache);
    case Free(_, q) => p := q;
    case _ =>
  }

  /** A block that a thread frees into a cache with room is the one that it gets back next; then all is as before. */
  lemma FreedIsNext(g: Geometry, batch: nat, s: System, t: nat, p: nat)
    requires g.slabSize > 0 && Enabled(g, batch, s, Free(t, p)) && |s.threads[t].cache| < batch
    ensures Enabled(g, batch, Step(g, batch, s, Free(t, p)), AllocateCached(t))
    ensures Step(g, batch, Step(g, batch, s, Free(t, p)), AllocateCached(t)) == s
  {
    var r := Step(g, batch, s, Free(t, p));
    assert r.threads[t].cache[1..] == s.threads[t].cache;
    assert s.users - multiset{p} + multiset{p} == s.users;
    assert r.threads[t := s.threads[t]] == s.threads;
  }

  /** When every thread has drained and every user has given its blocks back, all blocks are free. */
  lemma EverythingComesBack(g: Geometry, batch: nat, run: seq<System>, acts: seq<Action>, k: nat)
    requires Sane(g, batch) && IsRun(g, batch, run, acts) && k < |run| && run[k].users == multiset{}
    requires forall t :: 0 <= t < |run[k].threads| ==> run[k].threads[t].cache == [] && run[k].threads[t].buf == []
    ensures run[k].central.inUse == 0
    ensures FreeOf(run[k].central.slabs) == AllOf(g, run[k].central.slabs)
  {
    hide Init, Enabled, Step, Structure, FreeOf, AllOf;
    RunInv(g, batch, run, acts, k);
    NothingHeld(run[k].threads);
    AllCoversFree(g, run[k].central);
  }

  // ---- Emptied slabs -----------------------------------------------------------------------------

  lemma EmptyStaysOneStep(g: Geometry, batch: nat, s: System, x: Action, i: nat)
    requires Sane(g, batch) && Inv(g, batch, s) && Enabled(g, batch, s, x) && IsEmpty(g, s.central, i)
    ensures var r := Step(g, batch, s, x).central; i < |r.slabs| && r.slabs[i] == s.central.slabs[i]
  {
    hide Structure, HandedOut, Held, FetchBatch, Allocate, PutAll, PutOne, Of, Freed, Loaded, Stashed;
    match x
    case Fetch(t, base) =>
      EmptySlabGivesNothing(g, s.central, batch, base, i);
      FetchBatchCount(g, s.central, batch, base);
    case Return(t) =>
      BufferIsHandedOut(g, s, t);
      EmptySlabStaysPut(g, s.central, s.threads[t].buf, i);
    case CentralAllocate(base) =>
      EmptySlabGivesNothing(g, s.central, 1, base, i);
      AllocateGrows(g, s.central, base);
    case CentralDeallocate(p) => EmptySlabTakesNothing(g, s.central, p, i);
    case _ =>
  }

  lemma AllocateGrows(g: Geometry, c: Central, base: nat)
    requires InRange(c)
    ensures |Allocate(g, c, base).0.slabs| >= |c.slabs|
  {
  }

  /** Once a slab is empty, no later step of any run touches it: its memory is never used again. */
  lemma {:induction false} EmptySlabIsRetired(g: Geometry, batch: nat, run: seq<System>, acts: seq<Action>,
                                              k: nat, j: nat, i: nat)
    requires Sane(g, batch) && IsRun(g, batch, run, acts) && k <= j < |run| && IsEmpty(g, run[k].central, i)
    ensures i < |run[j].central.slabs| && run[j].central.slabs[i] == run[k].central.slabs[i]
    decreases j
  {
    hide Inv, Enabled, Step, Init;
    if j > k {
      EmptySlabIsRetired(g, batch, run, acts, k, j - 1, i);
      RunInv(g, batch, run, acts, j - 1);
      StepAt(g, batch, run, acts, j - 1);
      EmptyStaysOneStep(g, batch, run[j - 1], acts[j - 1], i);
    }
  }
}
