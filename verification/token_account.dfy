/** Exact accounting of pendingWork, and when queues can overflow. */
module TokenAccount {
  import opened Basics
  import opened Token
  import opened TokenInv

  /** Between acquire and the end of settleToken. A redispatch whose push failed has ended it. */
  predicate Active(w: Work) { Settling(w) && !w.Overflow? }

  function QueuedActors(token: map<Actor, Loc>): set<Actor> { set a | a in token && token[a].Queued? }

  function Actives(work: map<Tid, Work>): set<Tid> { set t | t in work && Active(work[t]) }

  /** Dispatch calls that have pushed an entry but not yet added to pendingWork. */
  function SendLag(send: map<Tid, Send>): set<Tid> { set t | t in send && send[t].Counting? }

  /** The same for drainPendedActor. */
  function DrainLag(work: map<Tid, Work>): set<Tid> { set t | t in work && work[t].DrainAdd? }

  function One(b: bool): int { if b then 1 else 0 }

  predicate Balanced(s: State) {
    s.pending == |QueuedActors(s.token)| + |Actives(s.work)| - |SendLag(s.send)| - |DrainLag(s.work)| + s.drift
  }

  lemma SetMoves<T>(before: set<T>, after: set<T>, x: T)
    requires forall y :: y != x ==> (y in before <==> y in after)
    ensures |after| == |before| - One(x in before) + One(x in after)
  {
    assert after - {x} == before - {x};
    assert |before - {x}| == |before| - One(x in before);
    assert |after - {x}| == |after| - One(x in after);
  }

  lemma WorkCounts(work: map<Tid, Work>, t: Tid, w: Work)
    requires t in work
    ensures |Actives(work[t := w])| == |Actives(work)| - One(Active(work[t])) + One(Active(w))
    ensures |DrainLag(work[t := w])| == |DrainLag(work)| - One(work[t].DrainAdd?) + One(w.DrainAdd?)
  {
    SetMoves(Actives(work), Actives(work[t := w]), t);
    SetMoves(DrainLag(work), DrainLag(work[t := w]), t);
  }

  lemma SendCounts(send: map<Tid, Send>, t: Tid, p: Send)
    requires t in send
    ensures |SendLag(send[t := p])| == |SendLag(send)| - One(send[t].Counting?) + One(p.Counting?)
  {
    SetMoves(SendLag(send), SendLag(send[t := p]), t);
  }

  lemma TokenCounts(token: map<Actor, Loc>, a: Actor, l: Loc)
    ensures |QueuedActors(token[a := l])|
         == |QueuedActors(token)| - One(a in token && token[a].Queued?) + One(l.Queued?)
    ensures |QueuedActors(token - {a})| == |QueuedActors(token)| - One(a in token && token[a].Queued?)
  {
    SetMoves(QueuedActors(token), QueuedActors(token[a := l]), a);
    SetMoves(QueuedActors(token), QueuedActors(token - {a}), a);
  }

  /** A step of worker t that touches at most actor a's token and pendingWork. */
  lemma WorkBalance(s: State, s': State, t: Tid, w: Work, a: Actor, moved: bool)
    requires Balanced(s) && t in s.work && s'.work == s.work[t := w] && s'.send == s.send
    requires if moved then a in s'.token && s'.token == s.token[a := s'.token[a]]
             else s'.token == s.token || (s'.token == s.token - {a} && (a in s.token ==> !s.token[a].Queued?))
    requires s'.pending - s.pending ==
               (if moved then One(s'.token[a].Queued?) - One(a in s.token && s.token[a].Queued?) else 0)
               + One(Active(w)) - One(Active(s.work[t])) - One(w.DrainAdd?) + One(s.work[t].DrainAdd?)
               + s'.drift - s.drift
    ensures Balanced(s')
  {
    WorkCounts(s.work, t, w);
    if moved { TokenCounts(s.token, a, s'.token[a]); } else { TokenCounts(s.token, a, Pended); }
  }

  lemma SendBalance(s: State, s': State, t: Tid, p: Send, a: Actor, moved: bool)
    requires Balanced(s) && t in s.send && s'.send == s.send[t := p] && s'.work == s.work
    requires if moved then a in s'.token && s'.token == s.token[a := s'.token[a]] else s'.token == s.token
    requires s'.pending - s.pending ==
               (if moved then One(s'.token[a].Queued?) - One(a in s.token && s.token[a].Queued?) else 0)
               - One(p.Counting?) + One(s.send[t].Counting?) + s'.drift - s.drift
    ensures Balanced(s')
  {
    SendCounts(s.send, t, p);
    if moved { TokenCounts(s.token, a, s'.token[a]); }
  }

  lemma SendStepBalanced(s: State, t: Tid, q: nat, fails: bool)
    requires Balanced(s) && SendReady(s, t, q) && SendOk(s, t)
    requires s.send[t].Pushed? ==> SlotOk(s, s.send[t].actor)
    ensures Balanced(SendStep(s, t, q, fails))
  {
    var s' := SendStep(s, t, q, fails);
    match s.send[t]
    case Pushed(a) =>
      if s.held[Slot(a)] { SendBalance(s, s', t, NoSend, a, false); } else { SendBalance(s, s', t, Won(a), a, true); }
    case Won(a) =>
      if PushFails(s, q, fails) { SendBalance(s, s', t, SendOverflow(a), a, false); }
      else { SendBalance(s, s', t, Counting, a, true); }
    case Counting => SendBalance(s, s', t, NoSend, 0, false);
    case SendOverflow(a) => SendBalance(s, s', t, NoSend, a, true);
  }

  lemma SettleTokenBalanced(s: State, t: Tid, q: nat, fails: bool)
    requires Balanced(s) && WorkReady(s, t, q, fails) && WorkOk(s, t)
    requires s.work[t].Reclaim? || s.work[t].Overflow?
    requires s.work[t].Reclaim? ==> SlotOk(s, s.work[t].actor)
    ensures Balanced(SettleStep(s, t, q, fails))
  {
    var s' := SettleStep(s, t, q, fails);
    match s.work[t]
    case Reclaim(a) =>
      if s.held[Slot(a)] { WorkBalance(s, s', t, Retire, a, false); }
      else { WorkBalance(s, s', t, Reissue(a), a, true); }
    case Overflow(a) => WorkBalance(s, s', t, Top, a, true);
  }

  lemma ReissueBalanced(s: State, t: Tid, q: nat, fails: bool)
    requires Balanced(s) && WorkReady(s, t, q, fails) && WorkOk(s, t) && s.work[t].Reissue?
    ensures Balanced(SettleStep(s, t, q, fails))
  {
    var s' := SettleStep(s, t, q, fails);
    var a := s.work[t].actor;
    if PushFails(s, q, fails) { WorkBalance(s, s', t, Overflow(a), a, false); }
    else { WorkBalance(s, s', t, Top, a, true); }
  }

  lemma BatchBalanced(s: State, t: Tid, q: nat, fails: bool)
    requires Balanced(s) && WorkReady(s, t, q, fails) && WorkOk(s, t)
    requires s.work[t].Begin? || s.work[t].Batch? || s.work[t].Settle?
    ensures Balanced(SettleStep(s, t, q, fails))
  {
    hide Slot, PushFails;
    var s' := SettleStep(s, t, q, fails);
    match s.work[t]
    case Begin(a) => WorkBalance(s, s', t, if a in s.stopped then Settle(a) else Batch(a), a, false);
    case Batch(a) => WorkBalance(s, s', t, Settle(a), a, false);
    case Settle(a) => WorkBalance(s, s', t, Released(a), a, false);
  }

  lemma RecheckBalanced(s: State, t: Tid, q: nat, fails: bool)
    requires Balanced(s) && WorkReady(s, t, q, fails)
    requires s.work[t].Released? || s.work[t].Recheck? || s.work[t].Retire?
    ensures Balanced(SettleStep(s, t, q, fails))
  {
    hide Slot, PushFails;
    var s' := SettleStep(s, t, q, fails);
    match s.work[t]
    case Released(a) => WorkBalance(s, s', t, if a in s.stopped then Retire else Recheck(a), a, false);
    case Recheck(a) => WorkBalance(s, s', t, if fails then Retire else Reclaim(a), a, false);
    case Retire => WorkBalance(s, s', t, Top, 0, false);
  }

  lemma SettleStepBalanced(s: State, t: Tid, q: nat, fails: bool)
    requires Balanced(s) && WorkReady(s, t, q, fails) && Settling(s.work[t]) && WorkOk(s, t)
    requires s.work[t].Reclaim? ==> SlotOk(s, s.work[t].actor)
    ensures Balanced(SettleStep(s, t, q, fails))
  {
    hide SettleStep, Balanced;
    match s.work[t]
    case Reissue(_) => ReissueBalanced(s, t, q, fails);
    case Reclaim(_) => SettleTokenBalanced(s, t, q, fails);
    case Overflow(_) => SettleTokenBalanced(s, t, q, fails);
    case Begin(_) => BatchBalanced(s, t, q, fails);
    case Batch(_) => BatchBalanced(s, t, q, fails);
    case Settle(_) => BatchBalanced(s, t, q, fails);
    case _ => RecheckBalanced(s, t, q, fails);
  }

  lemma DrainIterBalanced(s: State, t: Tid, q: nat, fails: bool)
    requires Balanced(s) && WorkReady(s, t, q, fails) && s.work[t].Drain? && EntriesOk(s, s.pended, Pended)
    ensures Balanced(DrainStep(s, t, q, fails))
  {
    var s' := DrainStep(s, t, q, fails);
    var i := s.work[t].next;
    if i >= |s.pended| { WorkBalance(s, s', t, NullDraining, 0, false); }
    else if PushFails(s, q, fails) { WorkBalance(s, s', t, Drain(i + 1), 0, false); }
    else { WorkBalance(s, s', t, DrainAdd(i), s.pended[i], true); }
  }

  lemma DrainStepBalanced(s: State, t: Tid, q: nat, fails: bool)
    requires Balanced(s) && WorkReady(s, t, q, fails) && DrainingPended(s.work[t]) && EntriesOk(s, s.pended, Pended)
    ensures Balanced(DrainStep(s, t, q, fails))
  {
    var s' := DrainStep(s, t, q, fails);
    match s.work[t]
    case GotNull => WorkBalance(s, s', t, Drain(0), 0, false);
    case DrainAdd(i) => WorkBalance(s, s', t, Drain(i), 0, false);
    case Drain(_) => DrainIterBalanced(s, t, q, fails);
  }

  lemma LoopStepBalanced(s: State, t: Tid, q: nat, fails: bool)
    requires Balanced(s) && WorkReady(s, t, q, fails) && !Settling(s.work[t]) && !DrainingPended(s.work[t])
    requires EntriesOk(s, s.queues[q], Queued(q)) && (s.phase.Draining? || t in s.up)
    ensures Balanced(LoopStep(s, t, q, fails))
  {
    var s' := LoopStep(s, t, q, fails);
    if Dequeues(s, t, q, fails) {
      WorkBalance(s, s', t, Begin(s.queues[q][0]), s.queues[q][0], true);
    } else {
      LoopMoves(s, t);
      LoopNeverSettles(s, t);
      WorkBalance(s, s', t, LoopNext(s, t), 0, false);
    }
  }

  lemma LoopNeverSettles(s: State, t: Tid)
    requires t in s.work && !Settling(s.work[t]) && !DrainingPended(s.work[t])
    ensures !Settling(LoopNext(s, t)) && !LoopNext(s, t).DrainAdd? && !LoopNext(s, t).Drain?
  {
  }

  lemma StepBalanced(s: State, t: Tid, x: Action)
    requires Core(s) && Balanced(s) && Enabled(s, t, x)
    ensures Balanced(Step(s, t, x))
  {
    match x
    case OpenSend(a, accepted) => SendCounts(s.send, t, Pushed(a));
    case SendGo(q, fails) =>
      assert SendOk(s, t) && (s.send[t].Pushed? ==> SlotOk(s, s.send[t].actor));
      SendStepBalanced(s, t, q, fails);
    case WorkGo(q, fails) =>
      assert WorkOk(s, t) && EntriesOk(s, s.queues[q], Queued(q));
      assert s.work[t].Reclaim? ==> SlotOk(s, s.work[t].actor);
      if Settling(s.work[t]) { SettleStepBalanced(s, t, q, fails); }
      else if DrainingPended(s.work[t]) { DrainStepBalanced(s, t, q, fails); }
      else { LoopStepBalanced(s, t, q, fails); }
    case _ =>
  }

  // ---- Runs --------------------------------------------------------------------------------------

  ghost predicate Inv(s: State) { Core(s) && Balanced(s) }

  /** attachActor refuses an id that has no slot of its own. */
  predicate Attached(actors: set<Actor>) { forall a :: a in actors ==> a < MAX_ACTORS }

  lemma DrainSameSystem(s: State, t: Tid, q: nat, fails: bool)
    requires WorkReady(s, t, q, fails) && DrainingPended(s.work[t])
    ensures DrainStep(s, t, q, fails).sys == s.sys
  {
    hide PushFails;
  }

  lemma StepSameSystem(s: State, t: Tid, x: Action)
    requires Enabled(s, t, x)
    ensures Step(s, t, x).sys == s.sys
  {
    hide SendStep, SettleStep, DrainStep;
    match x
    case SendGo(q, fails) => SendStepSends(s, t, q, fails);
    case WorkGo(q, fails) =>
      if Settling(s.work[t]) { SettleStepSettles(s, t, q, fails); }
      else if DrainingPended(s.work[t]) { DrainSameSystem(s, t, q, fails); }
    case _ =>
  }

  lemma InitInv(s: State)
    requires Init(s) && Attached(s.sys.actors)
    ensures Inv(s)
  {
    InitCore(s);
    assert QueuedActors(s.token) == {} && Actives(s.work) == {} && SendLag(s.send) == {} && DrainLag(s.work) == {};
  }

  lemma NextInv(s: State, s': State)
    requires Next(s, s')
    ensures s'.sys == s.sys && (Inv(s) ==> Inv(s'))
  {
    var t, x :| Enabled(s, t, x) && s' == Step(s, t, x);
    StepSameSystem(s, t, x);
    if Inv(s) {
      StepCore(s, t, x);
      StepBalanced(s, t, x);
    }
  }

  lemma {:induction false} RunInv(run: seq<State>, k: nat)
    requires IsRun(run) && k < |run|
    ensures run[k].sys == run[0].sys
    ensures Attached(run[0].sys.actors) ==> Inv(run[k])
  {
    if k == 0 {
      if Attached(run[0].sys.actors) { InitInv(run[0]); }
    } else {
      RunInv(run, k - 1);
      NextInv(run[k - 1], run[k - 1 + 1]);
    }
  }

  lemma ReachableInv(s: State)
    requires Reachable(s) && Attached(s.sys.actors)
    ensures Inv(s)
  {
    var run :| IsRun(run) && run[|run| - 1] == s;
    RunInv(run, |run| - 1);
  }
}
