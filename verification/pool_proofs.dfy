/** The invariant of a pool: every step keeps the accounts of blocks. */
module PoolProofs {
  import opened FreeLists
  import opened SizeClasses
  import opened Centrals
  import opened CentralOps
  import opened Pools

  predicate Sane(g: Geometry, batch: nat) { GeoOk(g) && 0 < batch <= MAX_BATCH_SIZE }

  lemma InitInv(g: Geometry, batch: nat, s: System)
    requires Sane(g, batch) && Init(s)
    ensures Inv(g, batch, s)
  {
    NothingHeld(s.threads);
  }

  /** Thread t changes and keeps its bounds; the accounts move by more. */
  lemma ThreadStep(batch: nat, threads: seq<Thread>, t: nat, th: Thread)
    requires ThreadsOk(threads, batch) && t < |threads| && ThreadOk(th, batch)
    ensures ThreadsOk(threads[t := th], batch)
  {
  }

  lemma AllocateCachedKeeps(g: Geometry, batch: nat, s: System, t: nat)
    requires Sane(g, batch) && Inv(g, batch, s) && Enabled(g, batch, s, AllocateCached(t))
    ensures Inv(g, batch, Step(g, batch, s, AllocateCached(t)))
  {
    hide CentralOk, HandedOut, Held;
    var th := s.threads[t];
    var th1 := th.(cache := th.cache[1..]);
    assert th.cache == [th.cache[0]] + th.cache[1..];
    assert Of(th) == Of(th1) + multiset{th.cache[0]};
    Exchange(s.threads, t, th1, multiset{th.cache[0]});
    ThreadStep(batch, s.threads, t, th1);
  }

  lemma FetchKeeps(g: Geometry, batch: nat, s: System, t: nat, base: nat)
    requires Sane(g, batch) && Inv(g, batch, s) && Enabled(g, batch, s, Fetch(t, base))
    ensures Inv(g, batch, Step(g, batch, s, Fetch(t, base)))
  {
    hide CentralOk, HandedOut, Held, FetchBatch, FreeIn;
    FetchBatchMoves(g, s.central, batch, base);
    FetchBatchCount(g, s.central, batch, base);
    var (c, out) := FetchBatch(g, s.central, batch, base);
    var th1 := Thread([], out, Fetched);
    assert ThreadOk(s.threads[t], batch);
    assert Of(th1) == Of(s.threads[t]) + multiset(out);
    Exchange(s.threads, t, th1, multiset(out));
    ThreadStep(batch, s.threads, t, th1);
  }

  lemma StashKeeps(g: Geometry, batch: nat, s: System, t: nat)
    requires Sane(g, batch) && Inv(g, batch, s) && Enabled(g, batch, s, Stash(t))
    ensures Inv(g, batch, Step(g, batch, s, Stash(t)))
  {
    hide CentralOk, HandedOut, Held, Reversed;
    var th := s.threads[t];
    assert ThreadOk(th, batch);
    ReversedSame(th.buf[1..]);
    assert th.buf == [th.buf[0]] + th.buf[1..];
    assert Of(th) == Of(Stashed(th)) + multiset{th.buf[0]};
    Exchange(s.threads, t, Stashed(th), multiset{th.buf[0]});
    ThreadStep(batch, s.threads, t, Stashed(th));
  }

  lemma LoadedSame(th: Thread, n: nat)
    requires th.buf == []
    ensures Of(Loaded(th, n)) == Of(th)
  {
    var k := if n < |th.cache| then n else |th.cache|;
    assert th.cache == th.cache[..k] + th.cache[k..];
  }

  lemma FreedOk(th: Thread, p: nat, batch: nat)
    requires ThreadOk(th, batch) && th.phase == Idle && 0 < batch <= MAX_BATCH_SIZE
    ensures ThreadOk(Freed(th, p, batch), batch) && Of(Freed(th, p, batch)) == Of(th) + multiset{p}
  {
    var th1 := th.(cache := [p] + th.cache);
    assert Of(th1) == Of(th) + multiset{p};
    LoadedSame(th1, batch);
  }

  lemma FreeKeeps(g: Geometry, batch: nat, s: System, t: nat, p: nat)
    requires Sane(g, batch) && Inv(g, batch, s) && Enabled(g, batch, s, Free(t, p))
    ensures Inv(g, batch, Step(g, batch, s, Free(t, p)))
  {
    hide CentralOk, HandedOut, Held, Freed, Of;
    assert ThreadOk(s.threads[t], batch);
    FreedOk(s.threads[t], p, batch);
    Exchange(s.threads, t, Freed(s.threads[t], p, batch), multiset{p});
    ThreadStep(batch, s.threads, t, Freed(s.threads[t], p, batch));
  }

  lemma UnloadKeeps(g: Geometry, batch: nat, s: System, t: nat, limit: nat)
    requires Sane(g, batch) && Inv(g, batch, s) && Enabled(g, batch, s, Unload(t, limit))
    ensures Inv(g, batch, Step(g, batch, s, Unload(t, limit)))
  {
    hide CentralOk, HandedOut, Held;
    var th := s.threads[t];
    assert ThreadOk(th, batch);
    LoadedSame(th, limit);
    assert Of(Loaded(th, limit)) == Of(th) + multiset{};
    Exchange(s.threads, t, Loaded(th, limit), multiset{});
    ThreadStep(batch, s.threads, t, Loaded(th, limit));
  }

  lemma BufferIsHandedOut(g: Geometry, s: System, t: nat)
    requires Owned(g, s) && t < |s.threads|
    ensures multiset(s.threads[t].buf) <= HandedOut(g, s.central)
  {
    hide HandedOut, Held;
    HeldIncludes(s.threads, t);
  }

  lemma ReturnKeeps(g: Geometry, batch: nat, s: System, t: nat)
    requires Sane(g, batch) && Inv(g, batch, s) && Enabled(g, batch, s, Return(t))
    ensures Inv(g, batch, Step(g, batch, s, Return(t)))
  {
    hide CentralOk, HandedOut, Held, ReturnBatch;
    var th := s.threads[t];
    var th1 := Thread(th.cache, [], Idle);
    BufferIsHandedOut(g, s, t);
    ReturnBatchMoves(g, s.central, th.buf);
    assert Of(th) == Of(th1) + multiset(th.buf);
    Exchange(s.threads, t, th1, multiset(th.buf));
    assert ThreadOk(th, batch);
    ThreadStep(batch, s.threads, t, th1);
  }

  lemma CentralAllocateKeeps(g: Geometry, batch: nat, s: System, base: nat)
    requires Sane(g, batch) && Inv(g, batch, s) && Enabled(g, batch, s, CentralAllocate(base))
    ensures Inv(g, batch, Step(g, batch, s, CentralAllocate(base)))
  {
    hide CentralOk, HandedOut, Held, Allocate;
    AllocateMoves(g, s.central, base);
  }

  lemma CentralDeallocateKeeps(g: Geometry, batch: nat, s: System, p: nat)
    requires Sane(g, batch) && Inv(g, batch, s) && Enabled(g, batch, s, CentralDeallocate(p))
    ensures Inv(g, batch, Step(g, batch, s, CentralDeallocate(p)))
  {
    hide CentralOk, HandedOut, Held, Deallocate;
    DeallocateMoves(g, s.central, p);
  }

  lemma StepKeeps(g: Geometry, batch: nat, s: System, x: Action)
    requires Sane(g, batch) && Inv(g, batch, s) && Enabled(g, batch, s, x)
    ensures Inv(g, batch, Step(g, batch, s, x))
  {
    hide Inv, Enabled, Step;
    match x
    case AllocateCached(t) => AllocateCachedKeeps(g, batch, s, t);
    case Fetch(t, base) => FetchKeeps(g, batch, s, t, base);
    case Stash(t) => StashKeeps(g, batch, s, t);
    case Free(t, p) => FreeKeeps(g, batch, s, t, p);
    case Unload(t, limit) => UnloadKeeps(g, batch, s, t, limit);
    case Return(t) => ReturnKeeps(g, batch, s, t);
    case CentralAllocate(base) => CentralAllocateKeeps(g, batch, s, base);
    case CentralDeallocate(p) => CentralDeallocateKeeps(g, batch, s, p);
  }

  lemma {:induction false} RunInv(g: Geometry, batch: nat, run: seq<System>, acts: seq<Action>, k: nat)
    requires Sane(g, batch) && IsRun(g, batch, run, acts) && k < |run|
    ensures Inv(g, batch, run[k])
  {
    hide Inv, Enabled, Step, Init;
    if k == 0 {
      InitInv(g, batch, run[0]);
    } else {
      RunInv(g, batch, run, acts, k - 1);
      assert Follows(g, batch, run, acts, k - 1);
      StepKeeps(g, batch, run[k - 1], acts[k - 1]);
    }
  }
}
