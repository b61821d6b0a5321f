/** What holds of every run of the timer system. */
module TimerTheorems {
  import opened Basics
  import opened TimerHeap
  import opened Timer
  import opened TimerRuns
  import opened TimerInv

  /** No index is twice in the heap, or in two of heap, free list and the round's nodes; ids map one to
      one onto live nodes; the heap stays ordered. */
  lemma StructureHolds(run: seq<System>, acts: seq<Action>, k: nat)
    requires IsRun(run, acts) && k < |run|
    ensures var t, round := run[k].timers, Ids(run[k].round);
            && Ordered(t.heap, t.pool) && Distinct(t.heap) && Distinct(t.free)
            && (forall idx :: idx in t.heap ==> idx !in t.free)
            && (forall id :: id in t.ids ==> t.ids[id] !in t.free && (id in round <==> t.ids[id] !in t.heap))
            && (forall a, b :: a in t.ids && b in t.ids && t.ids[a] == t.ids[b] ==> a == b)
  {
    RunInv(run, acts, k);
    var t, round := run[k].timers, Ids(run[k].round);
    forall idx | idx in t.heap ensures idx !in t.free { assert HeapedOk(t, idx); }
    forall id | id in t.ids ensures t.ids[id] !in t.free && (id in round <==> t.ids[id] !in t.heap) {
      assert IdOk(t, round, id);
    }
    forall a, b | a in t.ids && b in t.ids && t.ids[a] == t.ids[b] ensures a == b {
      assert IdOk(t, round, a) && IdOk(t, round, b);
    }
  }

  /** A firing round fires exactly the live timers that have expired, each once, by expiry. */
  lemma RoundIsExact(run: seq<System>, acts: seq<Action>, k: nat)
    requires IsRun(run, acts) && k < |acts| && acts[k].BeginRound?
    ensures IsRound(run[k].timers, {}, acts[k].at, run[k + 1].round)
    ensures run[k + 1].timers.ids == run[k].timers.ids
  {
    RunInv(run, acts, k);
    assert Follows(run, acts, k);
    assert Ids(run[k].round) == {};
    CollectExact(run[k].timers, {}, acts[k].at);
  }

  // ---- How often a timer fires -------------------------------------------------------------------

  /** How many of the first k steps began a round that fires id. */
  ghost function Fired(run: seq<System>, acts: seq<Action>, id: int, k: nat): nat
    requires |run| == |acts| + 1 && k <= |acts|
  {
    if k == 0 then 0
    else Fired(run, acts, id, k - 1) + if acts[k - 1].BeginRound? && id in run[k].round then 1 else 0
  }

  lemma FiresAfter(s: System, x: Action, id: int)
    requires Inv(s) && Enabled(s, x)
    ensures var r, more := Step(s, x), if x.BeginRound? && id in Step(s, x).round then 1 else 0;
            && (id in s.fires ==> id in r.fires && r.fires[id] == s.fires[id] + more)
            && (id !in s.fires && id in r.fires ==> r.fires[id] == 0)
            && (id !in s.fires ==> more == 0)
  {
    FreshId(s);
    assert FiresOk(s, id) && LifeOk(s, id);
    if x.BeginRound? { CollectExact(s.timers, Ids(s.round), x.at); }
  }

  lemma {:induction false} FiresIsFired(run: seq<System>, acts: seq<Action>, id: int, k: nat)
    requires IsRun(run, acts) && k <= |acts|
    ensures Fired(run, acts, id, k) == if id in run[k].fires then run[k].fires[id] else 0
  {
    if k > 0 {
      FiresIsFired(run, acts, id, k - 1);
      RunInv(run, acts, k - 1);
      assert Follows(run, acts, k - 1);
      FiresAfter(run[k - 1], acts[k - 1], id);
    }
  }

  /** A one-shot timer fires at most once in a whole run. */
  lemma OneShotFiresOnce(run: seq<System>, acts: seq<Action>, id: int, k: nat)
    requires IsRun(run, acts) && k <= |acts| && id in run[k].born && !run[k].born[id].repeating
    ensures Fired(run, acts, id, k) <= 1
  {
    FiresIsFired(run, acts, id, k);
    RunInv(run, acts, k);
    assert FiresOk(run[k], id);
  }

  /** A waiting timer that was added at time t with interval d and has fired n times expires at t + (n + 1) d. */
  lemma ExpiryKeepsPhase(run: seq<System>, acts: seq<Action>, id: int, k: nat)
    requires IsRun(run, acts) && k <= |acts| && id in run[k].timers.ids && id !in run[k].round
    ensures id in run[k].born && run[k].timers.ids[id] < |run[k].timers.pool|
    ensures var b := run[k].born[id];
            Expiry(run[k].timers, id) == b.at + (Fired(run, acts, id, k) + 1) * b.interval
  {
    FiresIsFired(run, acts, id, k);
    RunInv(run, acts, k);
    assert LifeOk(run[k], id);
    TimesIsProduct(run[k].fires[id] + 1, run[k].born[id].interval);
  }

  // ---- Deliveries --------------------------------------------------------------------------------

  lemma CancelledStays(s: System, x: Action, id: int)
    requires Inv(s) && Enabled(s, x) && id in s.cancelled
    ensures id in Step(s, x).cancelled
    ensures s.delivered <= Step(s, x).delivered && id !in Step(s, x).delivered[|s.delivered|..]
  {
    assert CtxOk(s, id);
  }

  lemma {:induction false} CancelledDelivery(run: seq<System>, acts: seq<Action>, id: int, k: nat, j: nat)
    requires IsRun(run, acts) && k <= j <= |acts| && id in run[k].cancelled
    ensures id in run[j].cancelled
    ensures run[k].delivered <= run[j].delivered && id !in run[j].delivered[|run[k].delivered|..]
    decreases j
  {
    if j > k {
      CancelledDelivery(run, acts, id, k, j - 1);
      RunInv(run, acts, j - 1);
      assert Follows(run, acts, j - 1);
      CancelledStays(run[j - 1], acts[j - 1], id);
      Splice(run[k].delivered, run[j - 1].delivered, run[j].delivered, id);
    }
  }

  lemma Splice(a: seq<int>, b: seq<int>, c: seq<int>, id: int)
    requires a <= b <= c && id !in b[|a|..] && id !in c[|b|..]
    ensures a <= c && id !in c[|a|..]
  {
    assert c[|a|..] == b[|a|..] + c[|b|..];
  }

  /** After Scheduler::cancel(id) of an issued id, no later step delivers id's message, even when id was
      already in the round that is firing. */
  lemma CancelIsFinal(run: seq<System>, acts: seq<Action>, k: nat, j: nat)
    requires IsRun(run, acts) && k < j <= |acts| && acts[k].SchedCancel? && acts[k].id < run[k].timers.nextId
    ensures run[k + 1].delivered == run[k].delivered <= run[j].delivered
    ensures acts[k].id !in run[j].delivered[|run[k].delivered|..]
  {
    assert Follows(run, acts, k);
    CancelledDelivery(run, acts, acts[k].id, k + 1, j);
  }

  /** A callback for a scheduled timer that has not been cancelled delivers its message. */
  lemma LiveTimerIsDelivered(run: seq<System>, acts: seq<Action>, k: nat)
    requires IsRun(run, acts) && k < |acts| && acts[k].Callback?
    requires run[k].called < |run[k].round| && run[k].round[run[k].called] in run[k].scheduled
    requires run[k].round[run[k].called] in run[k].timers.ids
    ensures run[k + 1].delivered == run[k].delivered + [run[k].round[run[k].called]]
  {
    RunInv(run, acts, k);
    assert Follows(run, acts, k);
    assert CtxOk(run[k], run[k].round[run[k].called]);
  }

  ghost predicate DeliveredOk(s: System, id: int, fired: nat) {
    && s.called <= |s.round|
    && multiset(s.delivered)[id] + (if id in s.round[s.called..] then 1 else 0) <= fired
  }

  lemma DeliveredAfter(s: System, x: Action, id: int, fired: nat)
    requires Inv(s) && Enabled(s, x) && DeliveredOk(s, id, fired)
    ensures DeliveredOk(Step(s, x), id, fired + if x.BeginRound? && id in Step(s, x).round then 1 else 0)
  {
    if x.Callback? {
      var id' := s.round[s.called];
      assert s.round[s.called..] == [id'] + s.round[s.called + 1..];
      assert id' !in s.round[s.called + 1..];
    }
  }

  /** Every delivery of id's message belongs to its own firing; a one-shot timer's message is so
      delivered at most once. */
  lemma {:induction false} DeliveriesAreFirings(run: seq<System>, acts: seq<Action>, id: int, k: nat)
    requires IsRun(run, acts) && k <= |acts|
    ensures DeliveredOk(run[k], id, Fired(run, acts, id, k))
    ensures id in run[k].born && !run[k].born[id].repeating ==> multiset(run[k].delivered)[id] <= 1
  {
    if k > 0 {
      DeliveriesAreFirings(run, acts, id, k - 1);
      RunInv(run, acts, k - 1);
      assert Follows(run, acts, k - 1);
      DeliveredAfter(run[k - 1], acts[k - 1], id, Fired(run, acts, id, k - 1));
    }
    if id in run[k].born && !run[k].born[id].repeating { OneShotFiresOnce(run, acts, id, k); }
  }
}
