/** What a failed push of an entry costs: tokens that wait for the shutdown, and a drain that never ends. */
module TokenOverflow {
  import opened Token
  import opened TokenInv
  import opened TokenAccount
  import opened TokenTheorems
  import opened TokenDrain

  /** One overflow of redispatch is one too many in pendingWork, for good: it is at least the drift plus the
      queued entries, up to additions under way in drainPendedActor. */
  lemma DriftStaysCounted(s: State)
    requires Inv(s) && !s.phase.Up? && OutsideQuiet(s)
    ensures s.pending + |DrainLag(s.work)| >= s.drift + |QueuedActors(s.token)|
  {
    forall u | u in SendLag(s.send) ensures u in Actives(s.work) { assert SendOk(s, u); }
    SubsetSize(SendLag(s.send), Actives(s.work));
  }

  // ---- A drain after a redispatch overflow -------------------------------------------------------

  ghost predicate NobodyGaveUp(s: State) { forall t :: t in s.work ==> !Committed(s.work[t]) }

  lemma DriftKeepsPending(s: State)
    requires Inv(s) && !s.phase.Up? && OutsideQuiet(s) && NobodyGaveUp(s) && s.drift > 0
    ensures s.pending > 0
  {
    DriftStaysCounted(s);
    assert DrainLag(s.work) == {};
  }

  lemma LoopGoesOn(s: State, t: Tid, q: nat, fails: bool)
    requires Inv(s) && OutsideQuiet(s) && NobodyGaveUp(s) && s.drift > 0
    requires WorkReady(s, t, q, fails) && !Settling(s.work[t])
    requires LoopStep(s, t, q, fails).gapExits == s.gapExits
    ensures NobodyGaveUp(LoopStep(s, t, q, fails))
  {
    hide Core, Balanced, LoopStep;
    LoopOneWorker(s, t, q, fails);
    CommitsOnlyAtZero(s, t, q, fails);
    if s.work[t].AcqPendingCheck? && s.phase.Draining? { DriftKeepsPending(s); }
  }

  lemma SettleGoesOn(s: State, t: Tid, q: nat, fails: bool)
    requires NobodyGaveUp(s) && WorkReady(s, t, q, fails) && Settling(s.work[t])
    ensures NobodyGaveUp(SettleStep(s, t, q, fails))
  {
    hide SettleStep;
    SettlerSettlesOn(s, t, q, fails);
  }

  lemma StepGoesOn(s: State, t: Tid, x: Action)
    requires Inv(s) && OutsideQuiet(s) && NobodyGaveUp(s) && s.drift > 0 && Enabled(s, t, x)
    requires Step(s, t, x).gapExits == s.gapExits
    ensures NobodyGaveUp(Step(s, t, x))
  {
    hide Inv, SettleStep, LoopStep, SendStep, DrainStep;
    match x
    case SendGo(q, fails) => SendStepSends(s, t, q, fails);
    case WorkGo(q, fails) =>
      if Settling(s.work[t]) { SettleGoesOn(s, t, q, fails); } else { LoopGoesOn(s, t, q, fails); }
    case _ =>
  }

  lemma NextGoesOn(s: State, s': State)
    requires Inv(s) && OutsideQuiet(s) && NobodyGaveUp(s) && s.drift > 0 && Next(s, s') && s'.gapExits == s.gapExits
    ensures NobodyGaveUp(s')
  {
    hide Inv, OutsideQuiet, NobodyGaveUp;
    var t, x :| Enabled(s, t, x) && s' == Step(s, t, x);
    StepGoesOn(s, t, x);
  }

  /** After a redispatch has overflowed, a drain cannot end: in every continuation of a quiet run in which
      no worker falls into the gap, no worker ever leaves, so that stop, which joins them, never returns. */
  lemma {:induction false} OverflowHangsTheDrain(run: seq<State>, j: nat, k: nat)
    requires QuietRun(run) && j <= k < |run|
    requires run[j].drift > 0 && NobodyGaveUp(run[j]) && run[k].gapExits == run[j].gapExits
    ensures NobodyGaveUp(run[k]) && run[k].drift > 0
    decreases k
  {
    hide Init, Next, Inv, NobodyGaveUp;
    if j < k {
      RunCounters(run, j, k - 1);
      NextCounters(run[k - 1], run[k - 1 + 1]);
      OverflowHangsTheDrain(run, j, k - 1);
      RunInv(run, k - 1);
      NextGoesOn(run[k - 1], run[k - 1 + 1]);
    }
  }

  // ---- The pended list while running is set ------------------------------------------------------

  lemma LoopEarly(s: State, t: Tid, q: nat, fails: bool)
    requires Core(s) && Early(s) && s.phase.Up? && WorkReady(s, t, q, fails) && !Settling(s.work[t])
    ensures Early(LoopStep(s, t, q, fails)) && LoopStep(s, t, q, fails).pended == s.pended
  {
    hide Core;
    LoopOneWorker(s, t, q, fails);
    CommitsOnlyAtZero(s, t, q, fails);
  }

  lemma SettleEarly(s: State, t: Tid, q: nat, fails: bool)
    requires Early(s) && WorkReady(s, t, q, fails) && Settling(s.work[t])
    ensures Early(SettleStep(s, t, q, fails))
  {
    hide SettleStep;
    SettlerSettlesOn(s, t, q, fails);
  }

  lemma SettlePends(s: State, t: Tid, q: nat, fails: bool)
    requires WorkReady(s, t, q, fails) && Settling(s.work[t])
    ensures s.pended <= SettleStep(s, t, q, fails).pended
  {
    hide SettleStep;
    SettleStepSettles(s, t, q, fails);
  }

  lemma StepEarly(s: State, t: Tid, x: Action)
    requires Core(s) && Enabled(s, t, x) && s.phase.Up? && Early(s)
    ensures s.pended <= Step(s, t, x).pended && (Step(s, t, x).phase.Up? ==> Early(Step(s, t, x)))
  {
    hide Core, LoopStep, SettleStep, SendStep, DrainStep;
    match x
    case SendGo(q, fails) => SendStepSends(s, t, q, fails);
    case WorkGo(q, fails) =>
      if Settling(s.work[t]) {
        SettleEarly(s, t, q, fails);
        SettlePends(s, t, q, fails);
      } else {
        LoopEarly(s, t, q, fails);
      }
    case _ =>
  }

  lemma NextEarly(s: State, s': State)
    requires Core(s) && Next(s, s') && s.phase.Up? && Early(s)
    ensures s.pended <= s'.pended && (s'.phase.Up? ==> Early(s'))
  {
    hide Core, Early;
    var t, x :| Enabled(s, t, x) && s' == Step(s, t, x);
    StepEarly(s, t, x);
  }

  lemma {:induction false} EarlyWhileUp(run: seq<State>, k: nat)
    requires IsRun(run) && Attached(run[0].sys.actors) && k < |run| && run[k].phase.Up?
    ensures Early(run[k])
  {
    hide Next, Core, Early;
    if k == 0 {
      InitEarly(run[0]);
    } else {
      NextCounters(run[k - 1], run[k - 1 + 1]);
      EarlyWhileUp(run, k - 1);
      RunInv(run, k - 1);
      NextEarly(run[k - 1], run[k - 1 + 1]);
    }
  }

  lemma InitEarly(s: State)
    requires Init(s)
    ensures Early(s)
  {
  }

  /** While running is set, acquire never returns null, so nobody drains the pended list: what is on it
      stays there, in order, until the shutdown. */
  lemma {:induction false} PendedOnlyGrows(run: seq<State>, i: nat, j: nat)
    requires IsRun(run) && Attached(run[0].sys.actors) && i <= j < |run| && run[j].phase.Up?
    ensures run[i].pended <= run[j].pended
    decreases j
  {
    hide Init, Next, Core, Early;
    if i < j {
      NextCounters(run[j - 1], run[j - 1 + 1]);
      PendedOnlyGrows(run, i, j - 1);
      EarlyWhileUp(run, j - 1);
      RunInv(run, j - 1);
      NextEarly(run[j - 1], run[j - 1 + 1]);
    }
  }
}
