/** Graceful drain: what is left when every worker has left runLoop. */
module TokenDrain {
  import opened Token
  import opened TokenInv
  import opened TokenAccount
  import opened TokenTheorems

  /** From a null acquire until the worker leaves or goes round the loop again. */
  predicate Committed(w: Work) {
    DrainingPended(w) || w.NullDraining? || w.NullPending? || w.NullRunning? || w.Left?
  }

  /** Once beginDrain has started, only running workers send. */
  ghost predicate OutsideQuiet(s: State) {
    !s.phase.Up? ==> forall t :: t in s.send && t !in s.work ==> s.send[t] == NoSend
  }

  /** A calm state: outside senders were quiet when the drain began, and no push has ever failed. */
  ghost predicate Calm(s: State) { OutsideQuiet(s) && s.overflows == 0 }

  ghost predicate Busy(s: State) {
    exists t :: t in s.work && !Committed(s.work[t])
  }

  function Committeds(work: map<Tid, Work>): set<Tid> { set t | t in work && Committed(work[t]) }

  /** While running is set nobody gives up; before draining is set each who has given up fell into the
      gap; and never have all given up while an entry is queued. */
  ghost predicate DrainInv(s: State) {
    && (s.phase.Up? ==> Early(s))
    && (!s.phase.Draining? ==> |Committeds(s.work)| <= s.gapExits)
    && (QueuedActors(s.token) != {} ==> Busy(s))
    && 0 in s.work
  }

  /** Nobody has given up or is about to read draining in acquire. */
  ghost predicate Early(s: State) {
    forall t :: t in s.work ==> !Committed(s.work[t]) && !s.work[t].AcqDraining?
  }

  lemma CommittedsMove(work: map<Tid, Work>, t: Tid, w: Work)
    requires t in work
    ensures |Committeds(work[t := w])| == |Committeds(work)| - One(Committed(work[t])) + One(Committed(w))
  {
    SetMoves(Committeds(work), Committeds(work[t := w]), t);
  }

  lemma WholeSet(work: map<Tid, Work>)
    requires forall t :: t in work ==> Committed(work[t])
    ensures |Committeds(work)| == |work|
  {
    assert Committeds(work) == work.Keys;
  }

  /** Fewer gap exits than workers: somebody has not given up. */
  lemma SomebodyIsBusy(s: State)
    requires |Committeds(s.work)| < |s.work|
    ensures Busy(s)
  {
    if !Busy(s) { WholeSet(s.work); }
  }

  /** pendingWork is zero only when no entry is queued: each lagging increment is a running worker's. */
  lemma ZeroMeansNoEntry(s: State)
    requires Inv(s) && Clean(s) && Calm(s) && !s.phase.Up? && s.pending == 0
    ensures QueuedActors(s.token) == {}
  {
    forall t | t in SendLag(s.send) ensures t in Actives(s.work) { assert SendOk(s, t); }
    SubsetSize(SendLag(s.send), Actives(s.work));
    assert DrainLag(s.work) == {};
  }

  lemma BusyStays(s: State, s': State, t: Tid)
    requires Busy(s) && t in s.work && s'.work.Keys == s.work.Keys
    requires forall u :: u in s.work && u != t ==> s'.work[u] == s.work[u]
    requires Committed(s'.work[t]) ==> Committed(s.work[t])
    ensures Busy(s')
  {
    var u :| u in s.work && !Committed(s.work[u]);
    assert u in s'.work && !Committed(s'.work[u]);
  }

  /** A worker that gives up in a step saw pendingWork at zero, or fell into the gap. */
  /** The same of the worker's next place in the loop. */
  lemma NextCommitsOnlyAtZero(s: State, t: Tid)
    requires Core(s) && t in s.work && !Settling(s.work[t]) && !Committed(s.work[t])
    ensures var w := LoopNext(s, t);
            && (Committed(w) ==>
                  if s.work[t].AcqPendingCheck? then s.pending == 0 && s.phase.Draining?
                  else s.work[t].AcqDraining? && !s.phase.Draining?)
            && (w.AcqDraining? ==> !s.phase.Up?)
  {
    hide SendOk, Tokens, Lists, Wakes;
    assert WorkOk(s, t);
  }

  lemma CommitsOnlyAtZero(s: State, t: Tid, q: nat, fails: bool)
    requires Core(s) && WorkReady(s, t, q, fails) && !Settling(s.work[t]) && !Committed(s.work[t])
    ensures var s' := LoopStep(s, t, q, fails);
            && (Committed(s'.work[t]) ==>
                  if s.work[t].AcqPendingCheck? then s.pending == 0 && s.phase.Draining?
                  else s.work[t].AcqDraining? && !s.phase.Draining? && s'.gapExits == s.gapExits + 1)
            && (s'.work[t].AcqDraining? ==> !s.phase.Up?)
  {
    hide Core, LoopNext;
    NextCommitsOnlyAtZero(s, t);
  }

  lemma LoopOneWorker(s: State, t: Tid, q: nat, fails: bool)
    requires WorkReady(s, t, q, fails) && !Settling(s.work[t]) && !DrainingPended(s.work[t])
    ensures var s' := LoopStep(s, t, q, fails);
            && t in s'.work && s'.work == s.work[t := s'.work[t]] && s'.phase == s.phase && s'.gapExits >= s.gapExits
            && (Committed(s'.work[t]) ==> s'.token == s.token)
  {
  }

  lemma LoopDrains(s: State, t: Tid, q: nat, fails: bool)
    requires Inv(s) && Clean(s) && Calm(s) && DrainInv(s)
    requires WorkReady(s, t, q, fails) && !Settling(s.work[t]) && !DrainingPended(s.work[t])
    requires LoopStep(s, t, q, fails).gapExits < |s.work|
    ensures DrainInv(LoopStep(s, t, q, fails))
  {
    hide Core, Balanced, Clean, LoopStep;
    var s' := LoopStep(s, t, q, fails);
    LoopOneWorker(s, t, q, fails);
    CommittedsMove(s.work, t, s'.work[t]);
    if !Committed(s.work[t]) { CommitsOnlyAtZero(s, t, q, fails); }
    LoopBusy(s, t, q, fails);
  }

  lemma LoopBusy(s: State, t: Tid, q: nat, fails: bool)
    requires Inv(s) && Clean(s) && Calm(s) && DrainInv(s)
    requires WorkReady(s, t, q, fails) && !Settling(s.work[t]) && !DrainingPended(s.work[t])
    requires LoopStep(s, t, q, fails).gapExits < |s.work|
    ensures QueuedActors(LoopStep(s, t, q, fails).token) != {} ==> Busy(LoopStep(s, t, q, fails))
  {
    hide Core, Balanced, Clean, LoopStep;
    var s' := LoopStep(s, t, q, fails);
    LoopOneWorker(s, t, q, fails);
    if Committed(s'.work[t]) {
      if Committed(s.work[t]) {
        if Busy(s) { BusyStays(s, s', t); }
      } else {
        CommitsOnlyAtZero(s, t, q, fails);
        if s.work[t].AcqPendingCheck? {
          ZeroMeansNoEntry(s);
        } else {
          CommittedsMove(s.work, t, s'.work[t]);
          SomebodyIsBusy(s');
        }
      }
    }
  }

  /** A settling worker has not given up, and does not by settling. */
  ghost predicate SettlesOn(s: State, s': State, t: Tid) {
    && t in s.work && t in s'.work && s'.work == s.work[t := s'.work[t]]
    && s'.phase == s.phase && s'.gapExits == s.gapExits && !Committed(s'.work[t]) && !s'.work[t].AcqDraining?
  }

  lemma SettlerSettlesOn(s: State, t: Tid, q: nat, fails: bool)
    requires WorkReady(s, t, q, fails) && Settling(s.work[t])
    ensures SettlesOn(s, SettleStep(s, t, q, fails), t)
  {
    hide SettleStep;
    SettleStepSettles(s, t, q, fails);
  }

  lemma SettleDrains(s: State, t: Tid, q: nat, fails: bool)
    requires DrainInv(s) && WorkReady(s, t, q, fails) && Settling(s.work[t])
    ensures DrainInv(SettleStep(s, t, q, fails))
  {
    hide SettleStep;
    SettlerSettlesOn(s, t, q, fails);
    var s' := SettleStep(s, t, q, fails);
    CommittedsMove(s.work, t, s'.work[t]);
    assert t in s'.work && !Committed(s'.work[t]);
  }

  lemma PendedDrains(s: State, t: Tid, q: nat, fails: bool)
    requires DrainInv(s) && WorkReady(s, t, q, fails) && DrainingPended(s.work[t]) && s.pended == []
    ensures DrainInv(DrainStep(s, t, q, fails))
  {
    hide PushFails, Unpend, QueuedActors;
    var s' := DrainStep(s, t, q, fails);
    assert s'.work == s.work[t := s'.work[t]] && Committed(s'.work[t]);
    CommittedsMove(s.work, t, s'.work[t]);
    if Busy(s) { BusyStays(s, s', t); }
  }

  lemma SendDrains(s: State, t: Tid, q: nat, fails: bool)
    requires Core(s) && DrainInv(s) && SendReady(s, t, q) && Calm(s)
    ensures DrainInv(SendStep(s, t, q, fails))
  {
    hide WorkOk, Tokens, Waking;
    var s' := SendStep(s, t, q, fails);
    assert SendOk(s, t);
    assert s'.work == s.work;
    // a worker that sends is in a batch; an outside thread sends only while no worker has given up
    assert if t in s.work then !Committed(s.work[t]) else !Committed(s.work[0]);
    assert Busy(s');
  }

  lemma OtherDrains(s: State, t: Tid, x: Action)
    requires DrainInv(s) && Enabled(s, t, x) && !x.SendGo? && !x.WorkGo?
    ensures DrainInv(Step(s, t, x))
  {
    var s' := Step(s, t, x);
    assert s'.work == s.work && s'.token == s.token && s'.gapExits == s.gapExits;
    if Busy(s) { assert Busy(s'); }
  }

  lemma StepDrains(s: State, t: Tid, x: Action)
    requires Inv(s) && Clean(s) && Calm(s) && DrainInv(s) && Enabled(s, t, x)
    requires Step(s, t, x).gapExits < |s.work|
    ensures DrainInv(Step(s, t, x))
  {
    hide DrainInv, Core, Balanced;
    match x
    case SendGo(q, fails) => SendDrains(s, t, q, fails);
    case WorkGo(q, fails) =>
      if Settling(s.work[t]) { SettleDrains(s, t, q, fails); }
      else if DrainingPended(s.work[t]) { PendedDrains(s, t, q, fails); }
      else { LoopDrains(s, t, q, fails); }
    case _ => OtherDrains(s, t, x);
  }

  // ---- Counters only grow ------------------------------------------------------------------------

  ghost predicate CountersGrow(s: State, s': State) {
    && s'.gapExits >= s.gapExits && s'.overflows >= s.overflows && s'.drift >= s.drift && s'.work.Keys == s.work.Keys
    && (s.phase == s'.phase || s.phase.Up? || s'.phase.Draining?)
  }

  lemma SettleCounters(s: State, t: Tid, q: nat, fails: bool)
    requires WorkReady(s, t, q, fails) && Settling(s.work[t])
    ensures CountersGrow(s, SettleStep(s, t, q, fails))
  {
    hide SettleStep;
    SettleStepSettles(s, t, q, fails);
  }

  lemma LoopCounters(s: State, t: Tid, q: nat, fails: bool)
    requires WorkReady(s, t, q, fails) && !Settling(s.work[t]) && !DrainingPended(s.work[t])
    ensures CountersGrow(s, LoopStep(s, t, q, fails))
  {
    hide Slot;
  }

  lemma PendedCounters(s: State, t: Tid, q: nat, fails: bool)
    requires WorkReady(s, t, q, fails) && DrainingPended(s.work[t])
    ensures CountersGrow(s, DrainStep(s, t, q, fails))
  {
    hide Slot;
  }

  lemma SendCounters(s: State, t: Tid, q: nat, fails: bool)
    requires SendReady(s, t, q)
    ensures CountersGrow(s, SendStep(s, t, q, fails))
  {
    hide Slot;
  }

  lemma StepCounters(s: State, t: Tid, x: Action)
    requires Enabled(s, t, x)
    ensures CountersGrow(s, Step(s, t, x))
  {
    hide Slot, SettleStep, LoopStep, DrainStep, SendStep;
    match x
    case SendGo(q, fails) => SendCounters(s, t, q, fails);
    case WorkGo(q, fails) =>
      if Settling(s.work[t]) { SettleCounters(s, t, q, fails); }
      else if DrainingPended(s.work[t]) { PendedCounters(s, t, q, fails); }
      else { LoopCounters(s, t, q, fails); }
    case _ =>
  }

  lemma NextCounters(s: State, s': State)
    requires Next(s, s')
    ensures CountersGrow(s, s')
  {
    var t, x :| Enabled(s, t, x) && s' == Step(s, t, x);
    StepCounters(s, t, x);
  }

  lemma {:induction false} RunCounters(run: seq<State>, i: nat, j: nat)
    requires IsRun(run) && i <= j < |run|
    ensures CountersGrow(run[i], run[j])
    decreases j
  {
    hide Init, Next;
    if i < j {
      RunCounters(run, i, j - 1);
      NextCounters(run[j - 1], run[j - 1 + 1]);
    }
  }

  // ---- Runs --------------------------------------------------------------------------------------

  lemma NextDrains(s: State, s': State)
    requires Inv(s) && Clean(s) && Calm(s) && DrainInv(s) && Next(s, s') && s'.gapExits < |s.work|
    ensures DrainInv(s')
  {
    hide Inv, Clean, Calm, DrainInv;
    var t, x :| Enabled(s, t, x) && s' == Step(s, t, x);
    StepDrains(s, t, x);
  }

  lemma InitDrains(s: State)
    requires Init(s)
    ensures DrainInv(s)
  {
    assert Committeds(s.work) == {};
  }

  lemma {:induction false} RunDrains(run: seq<State>, k: nat)
    requires IsRun(run) && k < |run| && Attached(run[0].sys.actors)
    requires (forall j :: 0 <= j <= k ==> OutsideQuiet(run[j])) && run[k].overflows == 0
    requires run[k].gapExits < |run[k].work|
    ensures DrainInv(run[k])
  {
    hide Init, Next, Inv, Clean, DrainInv;
    if k == 0 {
      InitDrains(run[0]);
    } else {
      NextCounters(run[k - 1], run[k - 1 + 1]);
      assert run[k].work.Keys == run[k - 1].work.Keys && |run[k].work| == |run[k].work.Keys|;
      RunDrains(run, k - 1);
      RunInv(run, k - 1);
      RunClean(run, k - 1);
      NextDrains(run[k - 1], run[k - 1 + 1]);
    }
  }

  ghost predicate AllLeft(s: State) { forall t :: t in s.work ==> s.work[t].Left? }

  /** Nothing is left behind: no entry, no token, no counted work, no message of a running actor. */
  ghost predicate Drained(s: State) {
    && (forall q :: 0 <= q < |s.queues| ==> s.queues[q] == [])
    && s.pended == [] && s.pending == 0
    && (forall a :: a in s.sys.actors && a in s.mbox && a !in s.stopped ==> s.mbox[a] == 0)
  }

  lemma NoTokenLeft(s: State)
    requires Core(s) && Clean(s) && Calm(s) && DrainInv(s) && AllLeft(s) && s.gapExits < |s.work|
    ensures s.token == map[] && s.phase.Draining?
    ensures forall t :: t in s.send ==> s.send[t] == NoSend
  {
    WholeSet(s.work);
    forall t | t in s.send ensures s.send[t] == NoSend { assert SendOk(s, t); }
    forall a | a in s.token ensures false { TokenNeedsPlace(s, a); }
  }

  lemma TokenNeedsPlace(s: State, a: Actor)
    requires Core(s) && a in s.token
    ensures QueuedActors(s.token) != {} || s.pended != []
         || (exists t :: t in s.send && s.send[t] != NoSend) || (exists t :: t in s.work && !s.work[t].Left?)
  {
    assert TokenOk(s, a);
    assert s.token[a].Queued? ==> a in QueuedActors(s.token);
  }

  lemma EntryHasToken(s: State, q: nat)
    requires Core(s) && q < |s.queues| && s.queues[q] != []
    ensures s.token != map[]
  {
    assert EntriesOk(s, s.queues[q], Queued(q));
    assert s.queues[q][0] in s.token;
  }

  lemma LeftMeansDrained(s: State)
    requires Inv(s) && Clean(s) && Calm(s) && DrainInv(s) && AllLeft(s) && s.gapExits < |s.work|
    ensures Drained(s)
  {
    NoTokenLeft(s);
    forall q | 0 <= q < |s.queues| ensures s.queues[q] == [] {
      if s.queues[q] != [] { EntryHasToken(s, q); }
    }
    assert QueuedActors(s.token) == {} && Actives(s.work) == {} && SendLag(s.send) == {} && DrainLag(s.work) == {};
    forall a | a in s.sys.actors && a !in s.stopped ensures s.mbox[a] == 0 { assert WakeOk(s, a); }
  }

  /** A run in which only running workers send once the drain has begun. */
  ghost predicate QuietRun(run: seq<State>) {
    IsRun(run) && Attached(run[0].sys.actors) && forall j :: 0 <= j < |run| ==> OutsideQuiet(run[j])
  }

  /** The drain is graceful in every quiet run without overflow in which workers fall into the gap
      between the two stores of beginDrain fewer times than there are workers. */
  lemma GracefulDrain(run: seq<State>)
    requires QuietRun(run) && AllLeft(run[|run| - 1])
    requires run[|run| - 1].overflows == 0 && run[|run| - 1].gapExits < |run[|run| - 1].work|
    ensures Drained(run[|run| - 1])
  {
    hide Init, Next, Inv, Clean, DrainInv;
    RunDrains(run, |run| - 1);
    RunInv(run, |run| - 1);
    RunClean(run, |run| - 1);
    LeftMeansDrained(run[|run| - 1]);
  }

  // ---- Shutdown ----------------------------------------------------------------------------------

  ghost predicate Silenced(s: State, a: Actor) {
    a in s.stopped && a in s.mbox && forall t :: t in s.work && s.work[t].Batch? ==> s.work[t].actor != a
  }

  lemma SettleSilence(s: State, t: Tid, q: nat, fails: bool, a: Actor)
    requires WorkReady(s, t, q, fails) && Settling(s.work[t]) && Silenced(s, a)
    ensures Silenced(SettleStep(s, t, q, fails), a) && SettleStep(s, t, q, fails).mbox == s.mbox
  {
  }

  lemma DrainSilence(s: State, t: Tid, q: nat, fails: bool, a: Actor)
    requires WorkReady(s, t, q, fails) && DrainingPended(s.work[t]) && Silenced(s, a)
    ensures Silenced(DrainStep(s, t, q, fails), a) && DrainStep(s, t, q, fails).mbox == s.mbox
  {
  }

  lemma LoopSilence(s: State, t: Tid, q: nat, fails: bool, a: Actor)
    requires WorkReady(s, t, q, fails) && !Settling(s.work[t]) && !DrainingPended(s.work[t]) && Silenced(s, a)
    requires s.phase.Draining? || t in s.up
    ensures Silenced(LoopStep(s, t, q, fails), a) && LoopStep(s, t, q, fails).mbox == s.mbox
  {
    LoopMoves(s, t);
  }

  lemma StepSilence(s: State, t: Tid, x: Action, a: Actor)
    requires Enabled(s, t, x) && Silenced(s, a) && (x.WorkGo? ==> s.phase.Draining? || t in s.up)
    ensures Silenced(Step(s, t, x), a) && Step(s, t, x).mbox[a] >= s.mbox[a]
  {
    hide SendStep, SettleStep, DrainStep, LoopStep;
    match x
    case SendGo(q, fails) => SendStepSends(s, t, q, fails);
    case WorkGo(q, fails) =>
      if Settling(s.work[t]) { SettleSilence(s, t, q, fails, a); }
      else if DrainingPended(s.work[t]) { DrainSilence(s, t, q, fails, a); }
      else { LoopSilence(s, t, q, fails, a); }
    case _ =>
  }

  lemma NextSilence(s: State, s': State, a: Actor)
    requires Inv(s) && Next(s, s') && Silenced(s, a)
    ensures Silenced(s', a) && s'.mbox[a] >= s.mbox[a]
  {
    var t, x :| Enabled(s, t, x) && s' == Step(s, t, x);
    if x.WorkGo? { UpWhileNotDraining(s, t); }
    StepSilence(s, t, x, a);
  }

  lemma SilenceGoesOn(run: seq<State>, k: nat, a: Actor)
    requires IsRun(run) && Attached(run[0].sys.actors) && k + 1 < |run| && Silenced(run[k], a)
    ensures Silenced(run[k + 1], a) && run[k + 1].mbox[a] >= run[k].mbox[a]
  {
    RunInv(run, k);
    NextSilence(run[k], run[k + 1], a);
  }

  /** Every batch begun after shutdown handles nothing: once an actor is stopped and nobody is in its
      batch, no later batch opens and its mailbox never shrinks again. */
  lemma {:induction false} NothingHandledAfterShutdown(run: seq<State>, j: nat, k: nat, a: Actor)
    requires IsRun(run) && Attached(run[0].sys.actors) && j <= k < |run| && Silenced(run[j], a)
    ensures Silenced(run[k], a) && run[k].mbox[a] >= run[j].mbox[a]
    decreases k - j
  {
    hide Init, Next;
    if j < k {
      SilenceGoesOn(run, j, a);
      NothingHandledAfterShutdown(run, j + 1, k, a);
    }
  }
}
