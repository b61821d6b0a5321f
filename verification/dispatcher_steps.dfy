/**
The class WorkDispatcher and the step machine of module Token agree: a thread that is not interrupted and
takes the queue that the class picks comes, step by step, to what the class's methods promise.
*/
module DispatcherSteps {
  import opened Basics
  import opened Token
  import Dispatcher

  /** The machine's steps of thread t in dispatch, as many as n. */
  function SendAlone(s: State, t: Tid, q: nat, n: nat): State
    decreases n
  {
    if n == 0 || !SendReady(s, t, q) then s else SendAlone(SendStep(s, t, q, false), t, q, n - 1)
  }

  /** The machine's steps of worker t in settleToken; its mailbox count is exact. */
  function SettleAlone(s: State, t: Tid, q: nat, n: nat): State
    decreases n
  {
    if n == 0 || !WorkReady(s, t, q, false) || !Settling(s.work[t]) then s
    else
      var fails := s.work[t].Recheck? && s.mbox[s.work[t].actor] == 0;
      SettleAlone(SettleStep(s, t, q, fails), t, q, n - 1)
  }

  lemma SendOne(s: State, t: Tid, q: nat, n: nat)
    requires SendReady(s, t, q) && n > 0
    ensures SendAlone(s, t, q, n) == SendAlone(SendStep(s, t, q, false), t, q, n - 1)
  {
  }

  lemma NothingToSend(s: State, t: Tid, q: nat, n: nat)
    requires t in s.send && s.send[t] == NoSend
    ensures SendAlone(s, t, q, n) == s
  {
  }

  lemma PushAgrees(s: State, t: Tid, q: nat, a: Actor)
    requires SendReady(s, t, q) && s.send[t] == Won(a) && s.mutex == None && s.sys.strict
    ensures var r, ok := SendAlone(s, t, q, 2), |s.queues[q]| < s.sys.capacity;
            && r.send == s.send[t := NoSend] && r.held == s.held
            && Dispatcher.Placed(s.queues, r.queues, s.pended, r.pended, q, a, ok)
            && r.pending == s.pending + if ok then 1 else 0
  {
    hide Slot, SendAlone;
    SendOne(s, t, q, 2);
    var s1 := SendStep(s, t, q, false);
    SendOne(s1, t, q, 1);
    var s2 := SendStep(s1, t, q, false);
    NothingToSend(s2, t, q, 0);
    assert s.send[t := s1.send[t]][t := NoSend] == s.send[t := NoSend];
  }

  /** The contract of WorkDispatcher.Dispatch. */
  lemma DispatchAgrees(s: State, t: Tid, q: nat, a: Actor)
    requires SendReady(s, t, q) && s.send[t] == Pushed(a) && s.mutex == None && s.sys.strict
    ensures var r, ok := SendAlone(s, t, q, 3), |s.queues[q]| < s.sys.capacity;
            && r.send == s.send[t := NoSend] && r.held == s.held[Slot(a) := true]
            && if s.held[Slot(a)] then r.queues == s.queues && r.pended == s.pended && r.pending == s.pending
               else && Dispatcher.Placed(s.queues, r.queues, s.pended, r.pended, q, a, ok)
                    && r.pending == s.pending + if ok then 1 else 0
  {
    hide Slot, SendAlone;
    SendOne(s, t, q, 3);
    var s1 := SendStep(s, t, q, false);
    if s.held[Slot(a)] {
      NothingToSend(s1, t, q, 2);
    } else {
      PushAgrees(s1, t, q, a);
      assert s.send[t := Won(a)][t := NoSend] == s.send[t := NoSend];
    }
  }

  lemma SettleOne(s: State, t: Tid, q: nat, n: nat)
    requires WorkReady(s, t, q, false) && Settling(s.work[t]) && n > 0
    ensures var fails := s.work[t].Recheck? && s.mbox[s.work[t].actor] == 0;
            SettleAlone(s, t, q, n) == SettleAlone(SettleStep(s, t, q, fails), t, q, n - 1)
  {
    hide SettleStep;
  }

  /** Worker t releases the slot and looks whether its actor has been stopped. */
  lemma Released(s: State, t: Tid, q: nat, a: Actor, n: nat)
    requires WorkReady(s, t, q, false) && s.work[t] == Settle(a)
    ensures var r := Unclaimed(ToWork(s, t, if a in s.stopped then Retire else Recheck(a)), a, t);
            SettleAlone(s, t, q, n + 2) == SettleAlone(r, t, q, n)
  {
    hide Slot, SettleAlone, Claimed, Enqueue, Pend, PushFails;
    SettleOne(s, t, q, n + 2);
    var s1 := SettleStep(s, t, q, false);
    SettleOne(s1, t, q, n + 1);
    var w := if a in s.stopped then Retire else Recheck(a);
    assert s.work[t := Work.Released(a)][t := w] == s.work[t := w];
  }

  lemma Rechecked(s: State, t: Tid, q: nat, a: Actor, n: nat)
    requires WorkReady(s, t, q, false) && s.work[t] == Recheck(a)
    ensures SettleAlone(s, t, q, n + 1)
         == SettleAlone(ToWork(s, t, if s.mbox[a] == 0 then Retire else Reclaim(a)), t, q, n)
  {
    hide SettleAlone;
    SettleOne(s, t, q, n + 1);
  }

  lemma Reclaimed(s: State, t: Tid, q: nat, a: Actor, n: nat)
    requires WorkReady(s, t, q, false) && s.work[t] == Reclaim(a) && !s.held[Slot(a)]
    ensures SettleAlone(s, t, q, n + 1) == SettleAlone(Claimed(ToWork(s, t, Reissue(a)), a, Holder(t)), t, q, n)
  {
    hide SettleAlone;
    SettleOne(s, t, q, n + 1);
  }

  lemma Reissued(s: State, t: Tid, q: nat, a: Actor)
    requires WorkReady(s, t, q, false) && s.mutex == None && s.sys.strict && s.work[t] == Reissue(a)
    ensures var r, ok := SettleAlone(s, t, q, 2), |s.queues[q]| < s.sys.capacity;
            && r.work == s.work[t := Top] && r.held == s.held && r.pending == s.pending
            && Dispatcher.Placed(s.queues, r.queues, s.pended, r.pended, q, a, ok)
  {
    hide Slot;
    SettleOne(s, t, q, 2);
    var s1 := SettleStep(s, t, q, false);
    if |s.queues[q]| < s.sys.capacity {
      assert SettleAlone(s1, t, q, 1) == s1;
    } else {
      SettleOne(s1, t, q, 1);
      assert s.work[t := Overflow(a)][t := Top] == s.work[t := Top];
    }
  }

  lemma Retired(s: State, t: Tid, q: nat, n: nat)
    requires WorkReady(s, t, q, false) && s.work[t] == Retire && n > 0
    ensures SettleAlone(s, t, q, n) == ToWork(s, t, Top).(pending := s.pending - 1)
  {
    SettleOne(s, t, q, n);
    assert SettleAlone(SettleStep(s, t, q, false), t, q, n - 1) == SettleStep(s, t, q, false);
  }

  /** What of a state the class has, and what a worker needs to go on. */
  ghost predicate SameBut(s: State, r: State, t: Tid, w: Work, held: seq<bool>) {
    && r.held == held && |held| == MAX_ACTORS && r.work == s.work[t := w] && r.pending == s.pending
    && r.queues == s.queues && r.pended == s.pended && r.sys == s.sys && r.mutex == s.mutex && r.send == s.send
    && r.mbox == s.mbox && r.stopped == s.stopped
  }

  lemma Goes(s: State, t: Tid, w: Work)
    requires |s.held| == MAX_ACTORS
    ensures SameBut(s, ToWork(s, t, w), t, w, s.held)
  {
  }

  lemma Freed(s: State, t: Tid, a: Actor, w: Work)
    requires |s.held| == MAX_ACTORS
    ensures SameBut(s, Unclaimed(ToWork(s, t, w), a, t), t, w, s.held[Slot(a) := false])
  {
    hide Slot;
  }

  lemma Taken(s: State, t: Tid, a: Actor, w: Work)
    requires |s.held| == MAX_ACTORS
    ensures SameBut(s, Claimed(ToWork(s, t, w), a, Holder(t)), t, w, s.held[Slot(a) := true])
  {
    hide Slot;
  }

  lemma Replaces(s: State, r: State, r': State, t: Tid, w: Work, w': Work, held: seq<bool>, held': seq<bool>)
    requires SameBut(s, r, t, w, held) && SameBut(r, r', t, w', held')
    ensures SameBut(s, r', t, w', held')
  {
    assert s.work[t := w][t := w'] == s.work[t := w'];
  }

  lemma ReachesReclaim(s: State, t: Tid, q: nat, a: Actor, n: nat) returns (r: State)
    requires WorkReady(s, t, q, false) && s.work[t] == Settle(a)
    requires a !in s.stopped && a in s.mbox && s.mbox[a] > 0
    ensures SettleAlone(s, t, q, n + 3) == SettleAlone(r, t, q, n)
    ensures SameBut(s, r, t, Reclaim(a), s.held[Slot(a) := false])
  {
    hide SettleAlone, Slot, ToWork, Unclaimed;
    Released(s, t, q, a, n + 1);
    Goes(s, t, Recheck(a));
    Freed(s, t, a, Recheck(a));
    var s1 := Unclaimed(ToWork(s, t, Recheck(a)), a, t);
    Rechecked(s1, t, q, a, n);
    Goes(s1, t, Reclaim(a));
    r := ToWork(s1, t, Reclaim(a));
    Replaces(s, s1, r, t, Recheck(a), Reclaim(a), s.held[Slot(a) := false], s.held[Slot(a) := false]);
  }

  lemma ReachesReissue(s: State, t: Tid, q: nat, a: Actor, n: nat) returns (r: State)
    requires WorkReady(s, t, q, false) && s.work[t] == Settle(a)
    requires a !in s.stopped && a in s.mbox && s.mbox[a] > 0
    ensures SettleAlone(s, t, q, n + 4) == SettleAlone(r, t, q, n)
    ensures SameBut(s, r, t, Reissue(a), s.held[Slot(a) := true])
  {
    hide SettleAlone, Slot, ToWork, Claimed;
    var s2 := ReachesReclaim(s, t, q, a, n + 1);
    Reclaimed(s2, t, q, a, n);
    Goes(s2, t, Reissue(a));
    Taken(s2, t, a, Reissue(a));
    r := Claimed(ToWork(s2, t, Reissue(a)), a, Holder(t));
    assert s.held[Slot(a) := false][Slot(a) := true] == s.held[Slot(a) := true];
    Replaces(s, s2, r, t, Reclaim(a), Reissue(a), s.held[Slot(a) := false], s.held[Slot(a) := true]);
  }

  /** The contract of WorkDispatcher.SettleToken for an actor that goes on. */
  lemma ReissueAgrees(s: State, t: Tid, q: nat, a: Actor)
    requires WorkReady(s, t, q, false) && s.work[t] == Settle(a) && s.mutex == None && s.sys.strict
    requires a !in s.stopped && a in s.mbox && s.mbox[a] > 0
    ensures var r, ok := SettleAlone(s, t, q, 6), |s.queues[q]| < s.sys.capacity;
            && r.work == s.work[t := Top] && r.held == s.held[Slot(a) := true] && r.pending == s.pending
            && Dispatcher.Placed(s.queues, r.queues, s.pended, r.pended, q, a, ok)
  {
    hide SettleAlone, Slot, Dispatcher.Placed;
    var r := ReachesReissue(s, t, q, a, 2);
    Reissued(r, t, q, a);
    assert s.work[t := Reissue(a)][t := Top] == s.work[t := Top];
  }

  lemma ReachesRetire(s: State, t: Tid, q: nat, a: Actor) returns (r: State, n: nat)
    requires WorkReady(s, t, q, false) && s.work[t] == Settle(a)
    requires a in s.stopped || (a in s.mbox && s.mbox[a] == 0)
    ensures n > 0 && SettleAlone(s, t, q, 4) == SettleAlone(r, t, q, n)
    ensures SameBut(s, r, t, Retire, s.held[Slot(a) := false])
  {
    hide SettleAlone, Slot, ToWork, Unclaimed;
    Released(s, t, q, a, 2);
    var w := if a in s.stopped then Retire else Recheck(a);
    Goes(s, t, w);
    Freed(s, t, a, w);
    r, n := Unclaimed(ToWork(s, t, w), a, t), 2;
    if a !in s.stopped {
      Rechecked(r, t, q, a, 1);
      Goes(r, t, Retire);
      Replaces(s, r, ToWork(r, t, Retire), t, w, Retire, s.held[Slot(a) := false], s.held[Slot(a) := false]);
      r, n := ToWork(r, t, Retire), 1;
    }
  }

  /** And for one that retires. */
  lemma RetireAgrees(s: State, t: Tid, q: nat, a: Actor)
    requires WorkReady(s, t, q, false) && s.work[t] == Settle(a)
    requires a in s.stopped || (a in s.mbox && s.mbox[a] == 0)
    ensures var r := SettleAlone(s, t, q, 4);
            && r.work == s.work[t := Top] && r.held == s.held[Slot(a) := false] && r.pending == s.pending - 1
            && r.queues == s.queues && r.pended == s.pended
  {
    hide SettleAlone, Slot;
    var r, n := ReachesRetire(s, t, q, a);
    Retired(r, t, q, n);
    assert s.work[t := Retire][t := Top] == s.work[t := Top];
  }

  // ---- acquire and drainPendedActor --------------------------------------------------------------

  /** What WorkDispatcher.TrySteal takes is what the machine's worker gets when it tries the same victim. */
  lemma StealAgrees(s: State, t: Tid, j: nat, after: seq<seq<Actor>>, a: Actor)
    requires t < |s.queues| && Dispatcher.Stolen(s.queues, t, j, after, a)
    requires WorkReady(s, t, Dispatcher.Around(t, j, |s.queues|), false) && s.work[t] == AcqTake
    ensures var r := Step(s, t, WorkGo(Dispatcher.Around(t, j, |s.queues|), false));
            r.queues == after && r.work == s.work[t := Begin(a)]
  {
    hide Dispatcher.Around;
  }

  /** The queue for the entry at the iterator. */
  function DrainQueue(s: State, t: Tid, highWatermark: nat): (q: nat)
    requires t in s.work && s.queues != []
    ensures q < |s.queues|
  {
    if s.work[t].Drain? && s.work[t].next < |s.pended|
    then Dispatcher.Pick(Dispatcher.Lengths(s.queues), highWatermark, s.pended[s.work[t].next])
    else 0
  }

  /** The machine's steps of worker t in drainPendedActor, as many as n. */
  function DrainAlone(s: State, t: Tid, highWatermark: nat, n: nat): State
    decreases n
  {
    if n == 0 || s.queues == [] || !WorkReady(s, t, 0, false) || !DrainingPended(s.work[t]) then s
    else DrainAlone(DrainStep(s, t, DrainQueue(s, t, highWatermark), false), t, highWatermark, n - 1)
  }

  ghost predicate Drains(s: State, t: Tid, i: nat) {
    && s.queues != [] && WorkReady(s, t, 0, false) && s.sys.strict && s.work[t] == Drain(i) && i <= |s.pended|
  }

  lemma DrainOne(s: State, t: Tid, highWatermark: nat, n: nat)
    requires s.queues != [] && WorkReady(s, t, 0, false) && DrainingPended(s.work[t]) && n > 0
    ensures DrainAlone(s, t, highWatermark, n)
            == DrainAlone(DrainStep(s, t, DrainQueue(s, t, highWatermark), false), t, highWatermark, n - 1)
  {
  }

  /** An entry for a full queue is passed over. */
  lemma PassesOver(s: State, t: Tid, i: nat, q: nat)
    requires Drains(s, t, i) && i < |s.pended| && q < |s.queues| && |s.queues[q]| >= s.sys.capacity
    ensures var r := DrainStep(s, t, q, false);
            r == ToWork(s, t, Drain(i + 1)).(overflows := s.overflows + 1) && Drains(r, t, i + 1)
  {
    hide Dispatcher.Pick, DrainStep;
    FullFails(s, t, i, q);
  }

  lemma FullFails(s: State, t: Tid, i: nat, q: nat)
    requires Drains(s, t, i) && i < |s.pended| && q < |s.queues| && |s.queues[q]| >= s.sys.capacity
    ensures DrainStep(s, t, q, false) == ToWork(s, t, Drain(i + 1)).(overflows := s.overflows + 1)
  {
    hide Dispatcher.Pick, Enqueue, Unpend;
    assert PushFails(s, q, false);
  }

  /** Any other is pushed, erased and, in a second step, counted. */
  lemma MovesOver(s: State, t: Tid, i: nat, q: nat)
    requires Drains(s, t, i) && i < |s.pended| && q < |s.queues| && |s.queues[q]| < s.sys.capacity
    ensures var r := DrainStep(s, t, q, false);
            && r.queues == s.queues[q := s.queues[q] + [s.pended[i]]] && r.pending == s.pending
            && r.pended == s.pended[..i] + s.pended[i + 1..] && r.sys == s.sys && r.mutex == s.mutex
            && r.work == s.work[t := DrainAdd(i)] && r.send == s.send && r.held == s.held
            && r.queues != [] && WorkReady(r, t, 0, false)
  {
    hide Dispatcher.Pick;
  }

  lemma CountsIt(s: State, t: Tid, i: nat, highWatermark: nat)
    requires s.queues != [] && WorkReady(s, t, 0, false) && s.sys.strict && s.work[t] == DrainAdd(i) && i <= |s.pended|
    ensures var r := DrainStep(s, t, DrainQueue(s, t, highWatermark), false);
            r == ToWork(s, t, Drain(i)).(pending := s.pending + 1) && Drains(r, t, i)
  {
    hide Dispatcher.Pick;
  }

  /** One entry: pushed, erased and counted, or passed over. */
  lemma DrainEntry(s: State, t: Tid, i: nat, highWatermark: nat, n: nat) returns (r: State, m: nat)
    requires Drains(s, t, i) && i < |s.pended| && n > 1
    ensures DrainAlone(s, t, highWatermark, n) == DrainAlone(r, t, highWatermark, m) && n - 2 <= m < n
    ensures var q := Dispatcher.Pick(Dispatcher.Lengths(s.queues), highWatermark, s.pended[i]);
            if |s.queues[q]| < s.sys.capacity
            then && r.queues == s.queues[q := s.queues[q] + [s.pended[i]]] && r.pending == s.pending + 1
                 && r.pended == s.pended[..i] + s.pended[i + 1..] && Drains(r, t, i)
            else r.queues == s.queues && r.pending == s.pending && r.pended == s.pended && Drains(r, t, i + 1)
    ensures r.sys == s.sys && r.work == s.work[t := r.work[t]] && r.send == s.send && r.held == s.held
  {
    hide DrainAlone, DrainStep, Dispatcher.Pick;
    var q := DrainQueue(s, t, highWatermark);
    DrainOne(s, t, highWatermark, n);
    r, m := DrainStep(s, t, q, false), n - 1;
    if |s.queues[q]| < s.sys.capacity {
      MovesOver(s, t, i, q);
      DrainOne(r, t, highWatermark, m);
      CountsIt(r, t, i, highWatermark);
      r, m := DrainStep(r, t, DrainQueue(r, t, highWatermark), false), n - 2;
    } else {
      PassesOver(s, t, i, q);
    }
  }

  /** The contract of WorkDispatcher.DrainPendedActor, from the iterator on. */
  lemma {:induction false} DrainAgrees(s: State, t: Tid, i: nat, highWatermark: nat, n: nat)
    requires Drains(s, t, i) && n > 2 * (|s.pended| - i)
    ensures var r := DrainAlone(s, t, highWatermark, n);
            && (r.queues, r.pended)
               == Dispatcher.Behind(s.pended[..i],
                                    Dispatcher.Flush(s.queues, s.pended[i..], s.sys.capacity, highWatermark))
            && r.pending == s.pending + |s.pended| - |r.pended|
            && r.work == s.work[t := NullDraining] && r.mutex == None && r.held == s.held
    decreases |s.pended| - i
  {
    hide DrainAlone, Dispatcher.Pick, Dispatcher.Flush, DrainQueue;
    if i == |s.pended| {
      DrainOne(s, t, highWatermark, n);
      var r := DrainStep(s, t, DrainQueue(s, t, highWatermark), false);
      DrainedAlone(r, t, highWatermark, n - 1);
      Dispatcher.FlushEnd(s.queues, s.pended, s.sys.capacity, highWatermark);
    } else {
      var r, m := DrainEntry(s, t, i, highWatermark, n);
      DrainAgrees(r, t, r.work[t].next, highWatermark, m);
      Dispatcher.FlushOne(s.queues, s.pended, i, s.sys.capacity, highWatermark);
      assert s.work[t := r.work[t]][t := NullDraining] == s.work[t := NullDraining];
    }
  }

  lemma DrainedAlone(s: State, t: Tid, highWatermark: nat, n: nat)
    requires t in s.work && s.work[t] == NullDraining
    ensures DrainAlone(s, t, highWatermark, n) == s
  {
  }
}
