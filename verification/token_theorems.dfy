/** What the execution-token protocol promises between start and stop, over every interleaving. */
module TokenTheorems {
  import opened Basics
  import opened Token
  import opened TokenInv
  import opened TokenAccount

  // ---- Single token ------------------------------------------------------------------------------

  /** A place where a token can be: a dispatching thread, a queue entry, a pended entry, a worker. */
  datatype Place = InSender(tid: Tid) | InQueue(queue: nat, index: nat) | InPended(index: nat) | InWorker(tid: Tid)

  predicate TokenAt(s: State, a: Actor, p: Place) {
    match p
    case InSender(t) => t in s.send && HoldsSend(s.send[t]) && s.send[t].actor == a
    case InQueue(q, i) => q < |s.queues| && i < |s.queues[q]| && s.queues[q][i] == a
    case InPended(i) => i < |s.pended| && s.pended[i] == a
    case InWorker(t) => t in s.work && HoldsWork(s.work[t]) && s.work[t].actor == a
  }

  lemma PlaceIsLoc(s: State, a: Actor, p: Place)
    requires Core(s) && TokenAt(s, a, p)
    ensures a in s.token
    ensures s.token[a] == match p
                          case InSender(t) => Sender(t)
                          case InQueue(q, _) => Queued(q)
                          case InPended(_) => Pended
                          case InWorker(t) => Holder(t)
  {
    match p
    case InSender(t) => assert SendOk(s, t);
    case InQueue(q, i) => assert EntriesOk(s, s.queues[q], Queued(q));
    case InPended(i) => assert EntriesOk(s, s.pended, Pended);
    case InWorker(t) => assert WorkOk(s, t);
  }

  /** A slot is held exactly when its actor's token is somewhere, and a token is in one place only. */
  lemma SingleToken(s: State, a: Actor)
    requires Reachable(s) && Attached(s.sys.actors) && a in s.sys.actors
    ensures |s.held| == MAX_ACTORS
    ensures s.held[Slot(a)] <==> exists p :: TokenAt(s, a, p)
    ensures forall p, p' :: TokenAt(s, a, p) && TokenAt(s, a, p') ==> p == p'
  {
    ReachableInv(s);
    assert SlotOk(s, a);
    if a in s.token {
      assert TokenOk(s, a);
      match s.token[a]
      case Sender(t) => assert TokenAt(s, a, InSender(t));
      case Holder(t) => assert TokenAt(s, a, InWorker(t));
      case Queued(q) => var i :| 0 <= i < |s.queues[q]| && s.queues[q][i] == a; assert TokenAt(s, a, InQueue(q, i));
      case Pended => var i :| 0 <= i < |s.pended| && s.pended[i] == a; assert TokenAt(s, a, InPended(i));
    }
    forall p | TokenAt(s, a, p) ensures a in s.token { PlaceIsLoc(s, a, p); }
    forall p, p' | TokenAt(s, a, p) && TokenAt(s, a, p') ensures p == p' { OnePlace(s, a, p, p'); }
  }

  lemma OnePlace(s: State, a: Actor, p: Place, p': Place)
    requires Core(s) && TokenAt(s, a, p) && TokenAt(s, a, p')
    ensures p == p'
  {
    PlaceIsLoc(s, a, p);
    PlaceIsLoc(s, a, p');
    if p.InQueue? { assert Distinct(s.queues[p.queue]) by { assert EntriesOk(s, s.queues[p.queue], Queued(p.queue)); } }
    if p.InPended? { assert Distinct(s.pended) by { assert EntriesOk(s, s.pended, Pended); } }
  }

  /** Under any stealing and redispatching at most one worker is in an actor's batch, so the mailbox
      has one consumer; and that consumer sends nothing on behalf of another batch. */
  lemma SingleConsumer(s: State, t: Tid, u: Tid)
    requires Reachable(s) && Attached(s.sys.actors) && t in s.work && u in s.work
    requires s.work[t].Batch? && s.work[u].Batch? && s.work[t].actor == s.work[u].actor
    ensures t == u
  {
    ReachableInv(s);
    assert WorkOk(s, t) && WorkOk(s, u);
  }

  // ---- No lost wakeup ----------------------------------------------------------------------------

  ghost predicate OnTheWay(s: State, a: Actor) {
    || (exists t :: t in s.send && s.send[t] == Pushed(a))
    || (exists t :: t in s.work && Waking(s.work[t]) && s.work[t].actor == a)
  }

  /** A non-stopped actor with a waiting message holds its slot, or a producer has pushed and not yet
      exchanged, or a worker is inside settleToken between the release and the recheck or claim. */
  lemma NoLostWakeup(s: State, a: Actor)
    requires Reachable(s) && Attached(s.sys.actors) && a in s.sys.actors
    ensures |s.held| == MAX_ACTORS && a in s.mbox
    ensures a !in s.stopped && s.mbox[a] > 0 ==> s.held[Slot(a)] || OnTheWay(s, a)
  {
    ReachableInv(s);
    assert SlotOk(s, a) && WakeOk(s, a);
  }

  // ---- Accounting --------------------------------------------------------------------------------

  function Entries(queues: seq<seq<Actor>>): nat {
    if queues == [] then 0 else Entries(queues[..|queues| - 1]) + |queues[|queues| - 1]|
  }

  function Members(xs: seq<Actor>): (r: set<Actor>)
    ensures forall x :: x in r <==> x in xs
  {
    set x | x in xs
  }

  lemma MembersSplit(xs: seq<Actor>, rest: seq<Actor>, last: Actor)
    requires xs == rest + [last]
    ensures Members(xs) == Members(rest) + {last}
  {
  }

  lemma {:induction false} DistinctSize(xs: seq<Actor>)
    requires Distinct(xs)
    ensures |Members(xs)| == |xs|
  {
    if xs != [] {
      var rest, last := xs[..|xs| - 1], xs[|xs| - 1];
      DistinctSize(rest);
      MembersSplit(xs, rest, last);
      assert last !in rest;
    }
  }

  function QueuedBelow(token: map<Actor, Loc>, n: nat): set<Actor> {
    set a | a in token && token[a].Queued? && token[a].queue < n
  }

  lemma OneMoreQueue(s: State, n: nat)
    requires n < |s.queues| && EntriesOk(s, s.queues[n], Queued(n))
    requires forall a :: a in s.token ==> TokenOk(s, a)
    ensures |QueuedBelow(s.token, n + 1)| == |QueuedBelow(s.token, n)| + |s.queues[n]|
  {
    var now, before, last := QueuedBelow(s.token, n + 1), QueuedBelow(s.token, n), Members(s.queues[n]);
    DistinctSize(s.queues[n]);
    forall a ensures a in now <==> a in before || a in last { assert a in s.token ==> TokenOk(s, a); }
    assert now == before + last;
    assert before !! last;
  }

  lemma {:induction false} EntriesAreQueued(s: State, n: nat)
    requires Core(s) && n <= |s.queues|
    ensures Entries(s.queues[..n]) == |QueuedBelow(s.token, n)|
  {
    if n == 0 {
      assert QueuedBelow(s.token, n) == {};
    } else {
      EntriesAreQueued(s, n - 1);
      assert EntriesOk(s, s.queues[n - 1], Queued(n - 1));
      OneMoreQueue(s, n - 1);
      assert s.queues[..n][..n - 1] == s.queues[..n - 1];
    }
  }

  /** pendingWork = queue entries + workers from acquire to the end of settleToken - pushed entries not
      yet added, by dispatch or by drainPendedActor, + redispatches that overflowed so far. */
  lemma ExactAccounting(s: State)
    requires Reachable(s) && Attached(s.sys.actors)
    ensures s.pending == Entries(s.queues) + |Actives(s.work)| - |SendLag(s.send)| - |DrainLag(s.work)| + s.drift
  {
    ReachableInv(s);
    EntriesAreQueued(s, |s.queues|);
    assert s.queues[..|s.queues|] == s.queues;
    forall a | a in QueuedActors(s.token) ensures s.token[a].queue < |s.queues| { assert TokenOk(s, a); }
    assert QueuedActors(s.token) == QueuedBelow(s.token, |s.queues|);
  }

  // ---- Overflow ----------------------------------------------------------------------------------

  /** As long as no push has failed, nothing is pended and nobody is about to pend. */
  ghost predicate Clean(s: State) {
    s.overflows == 0 ==>
      && s.pended == [] && s.drift == 0
      && (forall t :: t in s.send ==> !s.send[t].SendOverflow?)
      && (forall t :: t in s.work ==> !s.work[t].Overflow? && !s.work[t].DrainAdd?)
  }

  lemma SendClean(s: State, t: Tid, q: nat, fails: bool)
    requires Clean(s) && SendReady(s, t, q)
    ensures Clean(SendStep(s, t, q, fails))
  {
  }

  lemma SettleClean(s: State, t: Tid, q: nat, fails: bool)
    requires Clean(s) && WorkReady(s, t, q, fails) && Settling(s.work[t])
    ensures Clean(SettleStep(s, t, q, fails))
  {
    hide SettleStep;
    SettleStepSettles(s, t, q, fails);
  }

  lemma DrainClean(s: State, t: Tid, q: nat, fails: bool)
    requires Clean(s) && WorkReady(s, t, q, fails) && DrainingPended(s.work[t])
    ensures Clean(DrainStep(s, t, q, fails))
  {
  }

  lemma LoopClean(s: State, t: Tid, q: nat, fails: bool)
    requires Clean(s) && WorkReady(s, t, q, fails) && !Settling(s.work[t]) && !DrainingPended(s.work[t])
    ensures Clean(LoopStep(s, t, q, fails))
  {
    hide LoopNext;
    LoopNeverSettles(s, t);
  }

  lemma OpenClean(s: State, t: Tid, a: Actor)
    requires Clean(s) && t in s.send && a in s.mbox
    ensures Clean(ToSend(s, t, Pushed(a)).(mbox := s.mbox[a := s.mbox[a] + 1], waker := s.waker[a := t]))
  {
  }

  lemma OtherClean(s: State, t: Tid, x: Action)
    requires Clean(s) && Enabled(s, t, x) && !x.SendGo? && !x.WorkGo? && !x.OpenSend?
    ensures Clean(Step(s, t, x))
  {
    hide SendReady, WorkReady, SendStep, SettleStep, DrainStep, LoopStep;
  }

  lemma StepClean(s: State, t: Tid, x: Action)
    requires Clean(s) && Enabled(s, t, x)
    ensures Clean(Step(s, t, x))
  {
    hide Clean, SendStep, SettleStep, DrainStep, LoopStep;
    match x
    case SendGo(q, fails) => SendClean(s, t, q, fails);
    case WorkGo(q, fails) =>
      if Settling(s.work[t]) { SettleClean(s, t, q, fails); }
      else if DrainingPended(s.work[t]) { DrainClean(s, t, q, fails); }
      else { LoopClean(s, t, q, fails); }
    case OpenSend(a, accepted) => if accepted { OpenClean(s, t, a); }
    case _ => OtherClean(s, t, x);
  }

  /** A push by the holder of a token finds room when queues have a place for every actor. */
  lemma RoomForEveryToken(s: State, q: nat, a: Actor)
    requires Core(s) && q < |s.queues| && |s.sys.actors| <= s.sys.capacity
    requires a in s.token && s.token[a] != Queued(q)
    ensures |s.queues[q]| < s.sys.capacity
  {
    assert EntriesOk(s, s.queues[q], Queued(q));
    DistinctSize(s.queues[q]);
    assert Members(s.queues[q]) <= s.sys.actors - {a};
    SubsetSize(Members(s.queues[q]), s.sys.actors - {a});
  }

  lemma SubsetSize<T>(a: set<T>, b: set<T>)
    requires a <= b
    ensures |a| <= |b|
  {
    assert b == a + (b - a);
    assert |a + (b - a)| == |a| + |b - a|;
  }

  /** The token that a push moves is not yet in a queue. */
  lemma SendFits(s: State, t: Tid, q: nat, fails: bool)
    requires Core(s) && SendReady(s, t, q) && s.overflows == 0
    requires Fits(s)
    ensures SendStep(s, t, q, fails).overflows == 0
  {
    if s.send[t].Won? {
      assert SendOk(s, t);
      RoomForEveryToken(s, q, s.send[t].actor);
    }
  }

  lemma SettleFits(s: State, t: Tid, q: nat, fails: bool)
    requires Core(s) && WorkReady(s, t, q, fails) && s.overflows == 0
    requires Fits(s)
    ensures SettleStep(s, t, q, fails).overflows == 0
  {
    if s.work[t].Reissue? {
      assert WorkOk(s, t);
      RoomForEveryToken(s, q, s.work[t].actor);
    }
  }

  lemma PushFits(s: State, t: Tid, x: Action)
    requires Inv(s) && Clean(s) && Enabled(s, t, x) && s.overflows == 0
    requires Fits(s)
    ensures Step(s, t, x).overflows == 0
  {
    hide Core;
    match x
    case SendGo(q, fails) => SendFits(s, t, q, fails);
    case WorkGo(q, fails) => if Settling(s.work[t]) { SettleFits(s, t, q, fails); }
    case _ =>
  }

  lemma UpWhileNotDraining(s: State, t: Tid)
    requires Core(s) && t in s.work
    ensures s.phase.Draining? || t in s.up
  {
  }

  lemma NextClean(s: State, s': State)
    requires Inv(s) && Clean(s) && Next(s, s')
    ensures Clean(s')
    ensures s.overflows == 0 && Fits(s) ==> s'.overflows == 0
  {
    var t, x :| Enabled(s, t, x) && s' == Step(s, t, x);
    if x.WorkGo? { UpWhileNotDraining(s, t); }
    StepClean(s, t, x);
    if s.overflows == 0 && Fits(s) { PushFits(s, t, x); }
  }

  predicate Fits(s: State) { s.sys.strict && |s.sys.actors| <= s.sys.capacity }

  lemma InitClean(s: State)
    requires Init(s)
    ensures Clean(s) && s.overflows == 0
  {
  }

  lemma {:induction false} RunClean(run: seq<State>, k: nat)
    requires IsRun(run) && k < |run| && Attached(run[0].sys.actors)
    ensures Clean(run[k])
    ensures Fits(run[0]) ==> run[k].overflows == 0
  {
    if k == 0 {
      InitClean(run[0]);
    } else {
      RunClean(run, k - 1);
      RunInv(run, k - 1);
      NextClean(run[k - 1], run[k - 1 + 1]);
    }
  }

  /** With atomic queues and no more actors than places in one queue, as with the default 1024 and
      1024, no push of an entry ever fails and the pended list stays empty. */
  lemma OverflowUnreachable(s: State)
    requires Reachable(s) && Attached(s.sys.actors) && Fits(s)
    ensures s.overflows == 0 && s.drift == 0 && s.pended == []
  {
    var run :| IsRun(run) && run[|run| - 1] == s;
    SystemIsFixed(run);
    RunClean(run, |run| - 1);
  }

  lemma SystemIsFixed(run: seq<State>)
    requires IsRun(run)
    ensures run[0].sys == run[|run| - 1].sys
  {
    RunInv(run, |run| - 1);
  }

  // ---- How a worker leaves -----------------------------------------------------------------------

  /** The worker goes to Left exactly when, after a null from acquire, it reads pendingWork at zero or finds itself
      stopped, and gets a null exactly when it reads pendingWork at zero in a drain or falls between beginDrain's
      two stores. */
  predicate LeavesRightly(s: State, w: Work, w': Work, t: Tid) {
    && (w' == Left <==> (w.NullPending? && s.pending == 0) || (w.NullRunning? && t !in s.up))
    && (w' == Left ==> (s.phase.Draining? && s.pending == 0) || t !in s.up)
    && (w' == GotNull <==> (w.AcqPendingCheck? && s.pending == 0) || (w.AcqDraining? && !s.phase.Draining?))
    && (w' == GotNull ==> (s.phase.Draining? && s.pending == 0) || w.AcqDraining?)
  }

  /** A worker leaves its loop only in a drain with nothing pending, or when it has been stopped. */
  lemma LeavesWhenDone(s: State, t: Tid, q: nat, fails: bool)
    requires Reachable(s) && Attached(s.sys.actors) && WorkReady(s, t, q, fails)
    ensures var r := Step(s, t, WorkGo(q, fails)); t in r.work && LeavesRightly(s, s.work[t], r.work[t], t)
  {
    hide SettleStep, DrainStep, LoopStep, Inv, Reachable, LeavesRightly;
    ReachableInv(s);
    MayPass(s, t);
    if Settling(s.work[t]) {
      SettleStepSettles(s, t, q, fails);
      SettlerStays(s, s.work[t], SettleStep(s, t, q, fails).work[t], t);
    } else if DrainingPended(s.work[t]) {
      DrainerStays(s, t, q, fails);
    } else {
      LoopLeaves(s, t, q, fails);
    }
  }

  lemma MayPass(s: State, t: Tid)
    requires Inv(s) && t in s.work
    ensures s.phase.Draining? || t in s.up
    ensures s.work[t].AcqPendingCheck? || s.work[t].NullPending? || s.work[t].TopDraining? ==> s.phase.Draining?
  {
    hide Lists, Tokens, Wakes, Balanced;
    assert WorkOk(s, t);
  }

  lemma SettlerStays(s: State, w: Work, w': Work, t: Tid)
    requires Settling(w) && (Settling(w') || w'.Top?)
    ensures LeavesRightly(s, w, w', t)
  {
  }

  lemma DrainerStays(s: State, t: Tid, q: nat, fails: bool)
    requires WorkReady(s, t, q, fails) && DrainingPended(s.work[t])
    ensures var r := DrainStep(s, t, q, fails); t in r.work && LeavesRightly(s, s.work[t], r.work[t], t)
  {
    hide PushFails, Unpend, Enqueue;
    UnpendsWork(ToWork(s, t, DrainAdd(if s.work[t].Drain? then s.work[t].next else 0)), q);
  }

  lemma UnpendsWork(s: State, q: nat)
    requires q < |s.queues|
    ensures forall i: nat :: i < |s.pended| ==> Unpend(s, q, i).work == s.work
  {
  }

  lemma NextLeaves(s: State, t: Tid)
    requires t in s.work && !Settling(s.work[t]) && !DrainingPended(s.work[t]) && s.work[t] != Left
    requires s.phase.Draining? || t in s.up
    requires s.work[t].AcqPendingCheck? || s.work[t].NullPending? || s.work[t].TopDraining? ==> s.phase.Draining?
    ensures LeavesRightly(s, s.work[t], LoopNext(s, t), t)
  {
  }

  lemma LoopLeaves(s: State, t: Tid, q: nat, fails: bool)
    requires WorkReady(s, t, q, fails) && !Settling(s.work[t]) && !DrainingPended(s.work[t])
    requires s.phase.Draining? || t in s.up
    requires s.work[t].AcqPendingCheck? || s.work[t].NullPending? || s.work[t].TopDraining? ==> s.phase.Draining?
    ensures var r := LoopStep(s, t, q, fails); t in r.work && LeavesRightly(s, s.work[t], r.work[t], t)
  {
    hide LoopNext;
    NextLeaves(s, t);
  }
}
