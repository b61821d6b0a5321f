/**
One size class of a memory pool under any number of threads. A step is one locked operation of the
central cache or one stretch of a thread's own work between two of them, so a batch on its way between
the tiers sits in the thread's transfer buffer, where other threads' steps can come in between.
*/
module Pools {
  import opened FreeLists
  import opened SizeClasses
  import opened Centrals
  import opened CentralAccount
  import opened CentralOps

  datatype Phase = Idle | Fetched | Returning

  datatype Thread = Thread(cache: seq<nat>, buf: seq<nat>, phase: Phase)

  datatype System = System(central: Central, threads: seq<Thread>, users: multiset<nat>)

  datatype Action =
    | AllocateCached(t: nat)            // ThreadLocalCache::allocate with a block at hand
    | Fetch(t: nat, base: nat)          // fetchFromCentral up to its fetchBatch; base: where a new slab goes
    | Stash(t: nat)                     // the rest of fetchFromCentral: one block to the user, the others cached
    | Free(t: nat, p: nat)              // ThreadLocalCache::deallocate up to its returnBatch
    | Unload(t: nat, limit: nat)        // drain (a batch) or drainAll (a full buffer), up to their returnBatch
    | Return(t: nat)                    // returnBatch
    | CentralAllocate(base: nat)        // CentralCache::allocate and deallocate called directly
    | CentralDeallocate(p: nat)

  predicate Init(s: System) {
    && s.central == Central([], [], map[], 0) && s.users == multiset{}
    && forall t :: 0 <= t < |s.threads| ==> s.threads[t] == Thread([], [], Idle)
  }

  predicate At(s: System, t: nat, phase: Phase) { t < |s.threads| && s.threads[t].phase == phase }

  /** The operating system gives aligned memory that no slab occupies. */
  predicate FreshBase(g: Geometry, c: Central, base: nat)
    requires g.slabSize > 0
  {
    base % g.slabSize == 0 && base !in c.slabMap
  }

  predicate Enabled(g: Geometry, batch: nat, s: System, x: Action)
    requires g.slabSize > 0
  {
    match x
    case AllocateCached(t) => At(s, t, Idle) && s.threads[t].cache != []
    case Fetch(t, base) =>
      At(s, t, Idle) && s.threads[t].cache == [] && InRange(s.central) && FreshBase(g, s.central, base)
    case Stash(t) => At(s, t, Fetched) && s.threads[t].buf != []
    case Free(t, p) => At(s, t, Idle) && p in s.users
    case Unload(t, limit) => At(s, t, Idle) && s.threads[t].cache != [] && (limit == batch || limit == MAX_BATCH_SIZE)
    case Return(t) => At(s, t, Returning)
    case CentralAllocate(base) => InRange(s.central) && FreshBase(g, s.central, base)
    case CentralDeallocate(p) => p in s.users
  }

  /** The first n cached blocks move to the buffer. */
  function Loaded(th: Thread, n: nat): Thread {
    var k := if n < |th.cache| then n else |th.cache|;
    Thread(th.cache[k..], th.cache[..k], Returning)
  }

  function Freed(th: Thread, p: nat, batch: nat): Thread {
    var th1 := th.(cache := [p] + th.cache);
    if |th1.cache| > batch then Loaded(th1, batch) else th1
  }

  function Stashed(th: Thread): Thread
    requires th.buf != []
  {
    Thread(Reversed(th.buf[1..]) + th.cache, [], Idle)
  }

  function Step(g: Geometry, batch: nat, s: System, x: Action): System
    requires g.slabSize > 0 && Enabled(g, batch, s, x)
  {
    match x
    case AllocateCached(t) =>
      var th := s.threads[t];
      s.(threads := s.threads[t := th.(cache := th.cache[1..])], users := s.users + multiset{th.cache[0]})
    case Fetch(t, base) =>
      var (c, out) := FetchBatch(g, s.central, batch, base);
      s.(central := c, threads := s.threads[t := Thread([], out, Fetched)])
    case Stash(t) =>
      s.(threads := s.threads[t := Stashed(s.threads[t])], users := s.users + multiset{s.threads[t].buf[0]})
    case Free(t, p) =>
      s.(threads := s.threads[t := Freed(s.threads[t], p, batch)], users := s.users - multiset{p})
    case Unload(t, limit) => s.(threads := s.threads[t := Loaded(s.threads[t], limit)])
    case Return(t) =>
      var (c, returned) := ReturnBatch(g, s.central, s.threads[t].buf);
      s.(central := c, threads := s.threads[t := Thread(s.threads[t].cache, [], Idle)])
    case CentralAllocate(base) =>
      var (c, out) := Allocate(g, s.central, base);
      s.(central := c, users := s.users + multiset(out))
    case CentralDeallocate(p) => s.(central := Deallocate(g, s.central, p), users := s.users - multiset{p})
  }

  predicate Follows(g: Geometry, batch: nat, run: seq<System>, acts: seq<Action>, k: nat)
    requires g.slabSize > 0 && |run| == |acts| + 1 && k < |acts|
  {
    Enabled(g, batch, run[k], acts[k]) && run[k + 1] == Step(g, batch, run[k], acts[k])
  }

  /** run[k + 1] is run[k] after acts[k]. */
  ghost predicate IsRun(g: Geometry, batch: nat, run: seq<System>, acts: seq<Action>)
    requires g.slabSize > 0
  {
    |run| == |acts| + 1 && Init(run[0]) && forall k :: 0 <= k < |acts| ==> Follows(g, batch, run, acts, k)
  }

  // ---- What every step keeps ---------------------------------------------------------------------

  ghost function Of(th: Thread): multiset<nat> { multiset(th.cache) + multiset(th.buf) }

  ghost function Held(threads: seq<Thread>): multiset<nat> {
    if threads == [] then multiset{} else Of(threads[0]) + Held(threads[1..])
  }

  ghost predicate ThreadOk(th: Thread, batch: nat) {
    && |th.cache| <= batch && |th.buf| <= MAX_BATCH_SIZE
    && (th.phase == Idle ==> th.buf == [])
    && (th.phase == Fetched ==> th.cache == [] && 1 <= |th.buf| <= batch)
  }

  ghost predicate Owned(g: Geometry, s: System) { HandedOut(g, s.central) == Held(s.threads) + s.users }

  ghost predicate ThreadsOk(threads: seq<Thread>, batch: nat) {
    forall t :: 0 <= t < |threads| ==> ThreadOk(threads[t], batch)
  }

  ghost predicate Inv(g: Geometry, batch: nat, s: System) {
    CentralOk(g, s.central) && Owned(g, s) && ThreadsOk(s.threads, batch)
  }

  lemma {:induction false} HeldChanges(threads: seq<Thread>, t: nat, th: Thread)
    requires t < |threads|
    ensures Held(threads[t := th]) + Of(threads[t]) == Held(threads) + Of(th)
  {
    if t == 0 {
      assert threads[t := th][1..] == threads[1..];
    } else {
      assert threads[t := th][1..] == threads[1..][t - 1 := th];
      HeldChanges(threads[1..], t - 1, th);
      AddToBoth(Of(threads[0]), Held(threads[1..][t - 1 := th]), Of(threads[t]), Held(threads[1..]), Of(th));
    }
  }

  lemma {:induction false} NothingHeld(threads: seq<Thread>)
    requires forall t :: 0 <= t < |threads| ==> threads[t].cache == [] && threads[t].buf == []
    ensures Held(threads) == multiset{}
  {
    if threads != [] { NothingHeld(threads[1..]); }
  }

  lemma {:induction false} HeldIncludes(threads: seq<Thread>, t: nat)
    requires t < |threads|
    ensures Of(threads[t]) <= Held(threads)
  {
    if t > 0 { HeldIncludes(threads[1..], t - 1); }
  }

  lemma {:induction false} ReversedSame(s: seq<nat>)
    ensures multiset(Reversed(s)) == multiset(s)
  {
    if s != [] {
      ReversedSame(s[1..]);
      assert s == [s[0]] + s[1..];
    }
  }

  /** A thread takes on blocks that the central cache gives up or a user returns, or the other way round. */
  lemma Exchange(threads: seq<Thread>, t: nat, th: Thread, more: multiset<nat>)
    requires t < |threads|
    ensures Of(th) == Of(threads[t]) + more ==> Held(threads[t := th]) == Held(threads) + more
    ensures Of(threads[t]) == Of(th) + more ==> Held(threads) == Held(threads[t := th]) + more
  {
    hide Of, Held;
    HeldChanges(threads, t, th);
    if Of(th) == Of(threads[t]) + more { Cancel(Held(threads[t := th]), Of(threads[t]), Held(threads), more); }
    if Of(threads[t]) == Of(th) + more { Cancel(Held(threads), Of(th), Held(threads[t := th]), more); }
  }
}
