/** The dispatcher's queues are first in, first out, in every interleaving: which steps push an entry, which
take one, and that the entries taken from a queue are those pushed into it, in the same order. */
module TokenFifo {
  import opened Basics
  import opened Token
  import opened TokenInv

  // ---- One step ----------------------------------------------------------------------------------

  /** Thread t gets an entry: a worker that was looking for one is about to run an actor. */
  predicate Acquires(s: State, r: State, t: Tid) {
    && t in s.work && t in r.work && (s.work[t].AcqOwn? || s.work[t].AcqTake?) && r.work[t].Begin?
  }

  /** Thread t has pushed an entry: in dispatch, in redispatch, or in drainPendedActor. */
  predicate Pushes(s: State, r: State, t: Tid) {
    || (t in s.send && t in r.send && s.send[t].Won? && r.send[t].Counting?)
    || (t in s.work && t in r.work && s.work[t].Reissue? && r.work[t].Top?)
    || (t in s.work && t in r.work && s.work[t].Drain? && r.work[t].DrainAdd?
        && s.work[t].next < |s.pended|)
  }

  /** Whose entry a pushing thread pushes. */
  function Carried(s: State, r: State, t: Tid): Actor
    requires Pushes(s, r, t)
  {
    if t in s.send && s.send[t].Won? && t in r.send && r.send[t].Counting? then s.send[t].actor
    else if s.work[t].Reissue? then s.work[t].actor
    else s.pended[s.work[t].next]
  }

  /** The queue that a step names. */
  function QueueOf(x: Action): nat {
    match x
    case SendGo(q, _) => q
    case WorkGo(q, _) => q
    case _ => 0
  }

  ghost predicate QueuesStay(s: State, r: State) { r.queues == s.queues }

  ghost predicate AppendsAt(s: State, r: State, q: nat, a: Actor) {
    && q < |s.queues| == |r.queues| && r.queues[q] == s.queues[q] + [a]
    && forall p :: 0 <= p < |s.queues| && p != q ==> r.queues[p] == s.queues[p]
  }

  ghost predicate TakesFirst(s: State, r: State, q: nat, a: Actor) {
    && q < |s.queues| == |r.queues| && s.queues[q] == [a] + r.queues[q]
    && forall p :: 0 <= p < |s.queues| && p != q ==> r.queues[p] == s.queues[p]
  }

  lemma SendQueues(s: State, t: Tid, q: nat, fails: bool)
    requires SendReady(s, t, q)
    ensures var r := SendStep(s, t, q, fails);
            && r.work == s.work
            && if Pushes(s, r, t) then AppendsAt(s, r, q, Carried(s, r, t)) else QueuesStay(s, r)
  {
    hide Slot, PushFails, Claimed, Pend;
    SendStepSends(s, t, q, fails);
    var p := s.send[t];
    if p.Pushed? { ClaimQueues(ToSend(s, t, Won(p.actor)), p.actor, Sender(t)); }
    if p.SendOverflow? { PendQueues(ToSend(s, t, NoSend), p.actor); }
  }

  lemma ClaimQueues(s: State, a: Actor, l: Loc)
    requires |s.held| == MAX_ACTORS
    ensures var r := Claimed(s, a, l); r.queues == s.queues && r.send == s.send && r.work == s.work
  {
    hide Slot;
  }

  lemma PendQueues(s: State, a: Actor)
    ensures var r := Pend(s, a); r.queues == s.queues && r.send == s.send && r.work == s.work
  {
  }

  lemma SettleQueues(s: State, t: Tid, q: nat, fails: bool)
    requires WorkReady(s, t, q, fails) && Settling(s.work[t])
    ensures var r := SettleStep(s, t, q, fails);
            && !Acquires(s, r, t)
            && if Pushes(s, r, t) then AppendsAt(s, r, q, Carried(s, r, t)) else QueuesStay(s, r)
  {
    hide Slot, PushFails;
  }

  lemma DrainQueues(s: State, t: Tid, q: nat, fails: bool)
    requires WorkReady(s, t, q, fails) && DrainingPended(s.work[t])
    ensures var r := DrainStep(s, t, q, fails);
            && !Acquires(s, r, t)
            && if Pushes(s, r, t) then AppendsAt(s, r, q, Carried(s, r, t)) else QueuesStay(s, r)
  {
    hide PushFails;
  }

  lemma LoopQueues(s: State, t: Tid, q: nat, fails: bool)
    requires WorkReady(s, t, q, fails) && !Settling(s.work[t]) && !DrainingPended(s.work[t])
    ensures var r := LoopStep(s, t, q, fails);
            && !Pushes(s, r, t)
            && (Acquires(s, r, t) <==> (s.work[t].AcqOwn? || s.work[t].AcqTake?) && !fails && s.queues[q] != [])
            && if Acquires(s, r, t) then TakesFirst(s, r, q, r.work[t].actor) else QueuesStay(s, r)
  {
  }

  /** A step takes an entry exactly when it looks for one in a queue that has one, unless the pop fails. It is
      then the oldest entry of that queue, and the worker's next actor. Any other step leaves the queues alone, or
      adds the entry it carries at the end of one. */
  lemma TakesTheOldest(s: State, t: Tid, x: Action)
    requires Enabled(s, t, x)
    ensures var r, q := Step(s, t, x), QueueOf(x);
            && (Acquires(s, r, t) <==>
                  x.WorkGo? && (s.work[t].AcqOwn? || s.work[t].AcqTake?) && !x.fails && s.queues[q] != [])
            && (Acquires(s, r, t) ==>
                  TakesFirst(s, r, q, r.work[t].actor) && (s.work[t].AcqOwn? ==> q == t))
            && (Pushes(s, r, t) ==> !Acquires(s, r, t) && AppendsAt(s, r, q, Carried(s, r, t)))
            && (!Acquires(s, r, t) && !Pushes(s, r, t) ==> QueuesStay(s, r))
  {
    hide SendStep, SettleStep, DrainStep, LoopStep, AppendsAt, TakesFirst;
    match x
    case SendGo(q, fails) => SendQueues(s, t, q, fails);
    case WorkGo(q, fails) =>
      if Settling(s.work[t]) { SettleQueues(s, t, q, fails); }
      else if DrainingPended(s.work[t]) { DrainQueues(s, t, q, fails); }
      else { LoopQueues(s, t, q, fails); }
    case _ =>
  }

  // ---- Runs --------------------------------------------------------------------------------------

  datatype Move = Move(tid: Tid, action: Action)

  ghost predicate Follows(s: State, m: Move, r: State) { Enabled(s, m.tid, m.action) && r == Step(s, m.tid, m.action) }

  /** run[k + 1] is run[k] after moves[k]. */
  ghost predicate IsTrace(run: seq<State>, moves: seq<Move>) {
    |run| == |moves| + 1 && Init(run[0]) && forall k :: 0 <= k < |moves| ==> Follows(run[k], moves[k], run[k + 1])
  }

  /** Every run has its moves. */
  lemma {:induction false} RunHasMoves(run: seq<State>, n: nat) returns (moves: seq<Move>)
    requires IsRun(run) && n < |run|
    ensures |moves| == n && forall k :: 0 <= k < n ==> Follows(run[k], moves[k], run[k + 1])
  {
    hide Init, Enabled, Step;
    moves := [];
    if n > 0 {
      moves := RunHasMoves(run, n - 1);
      assert Next(run[n - 1], run[n - 1 + 1]);
      var t, x :| Enabled(run[n - 1], t, x) && run[n - 1 + 1] == Step(run[n - 1], t, x);
      assert Follows(run[n - 1], Move(t, x), run[n]);
      moves := moves + [Move(t, x)];
    }
  }

  /** The actors whose entries the first k moves pushed into queue q. */
  ghost function PushedTo(run: seq<State>, moves: seq<Move>, q: nat, k: nat): seq<Actor>
    requires IsTrace(run, moves) && k <= |moves|
  {
    if k == 0 then []
    else
      var s, r, m := run[k - 1], run[k - 1 + 1], moves[k - 1];
      assert Follows(s, m, r);
      TakesTheOldest(s, m.tid, m.action);
      PushedTo(run, moves, q, k - 1)
      + if Pushes(s, r, m.tid) && QueueOf(m.action) == q then [Carried(s, r, m.tid)] else []
  }

  /** The actors that workers took from queue q in the first k moves. */
  function TakenFrom(run: seq<State>, moves: seq<Move>, q: nat, k: nat): seq<Actor>
    requires |run| == |moves| + 1 && k <= |moves|
  {
    if k == 0 then []
    else
      var r, m := run[k - 1 + 1], moves[k - 1];
      TakenFrom(run, moves, q, k - 1)
      + if Acquires(run[k - 1], r, m.tid) && QueueOf(m.action) == q then [r.work[m.tid].actor] else []
  }

  /** What has been taken from a queue, followed by what is in it, is what was pushed into it: entries are taken
      in the order of their pushes, none is skipped, and none is lost. */
  lemma {:induction false} TakenInOrder(run: seq<State>, moves: seq<Move>, q: nat, k: nat)
    requires IsTrace(run, moves) && k <= |moves| && q < run[0].sys.workers
    ensures q < |run[k].queues|
    ensures PushedTo(run, moves, q, k) == TakenFrom(run, moves, q, k) + run[k].queues[q]
  {
    hide Enabled, Step, Acquires, Pushes, Carried;
    if k > 0 {
      TakenInOrder(run, moves, q, k - 1);
      assert Follows(run[k - 1], moves[k - 1], run[k - 1 + 1]);
      TakesTheOldest(run[k - 1], moves[k - 1].tid, moves[k - 1].action);
    }
  }
}
