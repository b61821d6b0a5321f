/** Runs of any number of workers that lose work at shutdown, and so exactly when a drain is graceful. */
module TokenLosses {
  import opened Basics
  import opened Token
  import opened TokenInv
  import opened TokenAccount
  import opened TokenDrain

  // ---- Building runs -----------------------------------------------------------------------------

  ghost predicate Connects(run: seq<State>, s0: State, s: State) {
    QuietRun(run) && run[0] == s0 && run[|run| - 1] == s
  }

  /** A quiet run leads from s0 to s. */
  ghost predicate Leads(s0: State, s: State) { exists run :: Connects(run, s0, s) }

  lemma Extend(s0: State, s: State, t: Tid, x: Action) returns (r: State)
    requires Leads(s0, s) && Enabled(s, t, x) && OutsideQuiet(Step(s, t, x))
    ensures Leads(s0, r) && r == Step(s, t, x)
  {
    hide Init, Enabled, Step, OutsideQuiet;
    r := Step(s, t, x);
    var run :| Connects(run, s0, s);
    var longer := run + [r];
    assert Next(s, r);
    forall k | 0 <= k < |longer| - 1 ensures Next(longer[k], longer[k + 1]) {
      if k < |run| - 1 { assert Next(run[k], run[k + 1]); }
    }
    assert Connects(longer, s0, r);
  }

  lemma IsQuiet(s0: State, s: State)
    requires Leads(s0, s)
    ensures OutsideQuiet(s)
  {
  }

  lemma QuietWork(s: State, t: Tid, q: nat, fails: bool)
    requires OutsideQuiet(s) && WorkReady(s, t, q, fails)
    ensures OutsideQuiet(Step(s, t, WorkGo(q, fails)))
  {
    hide SettleStep, DrainStep, LoopNext;
    if Settling(s.work[t]) { SettleStepSettles(s, t, q, fails); }
    else if DrainingPended(s.work[t]) { QuietDrain(s, t, q, fails); }
  }

  lemma QuietDrain(s: State, t: Tid, q: nat, fails: bool)
    requires OutsideQuiet(s) && WorkReady(s, t, q, fails) && DrainingPended(s.work[t])
    ensures OutsideQuiet(DrainStep(s, t, q, fails))
  {
    hide PushFails;
  }

  /** A step of worker t. */
  lemma WorkerGoes(s0: State, s: State, t: Tid, q: nat, fails: bool) returns (r: State)
    requires Leads(s0, s) && WorkReady(s, t, q, fails)
    ensures Leads(s0, r) && r == Step(s, t, WorkGo(q, fails))
  {
    IsQuiet(s0, s);
    QuietWork(s, t, q, fails);
    r := Extend(s0, s, t, WorkGo(q, fails));
  }

  /** Worker t can take a step in which it gets no entry. */
  ghost predicate Loops(s: State, t: Tid) {
    t < |s.queues| && WorkReady(s, t, t, true) && !Settling(s.work[t]) && !DrainingPended(s.work[t])
  }

  function Gaps(s: State, t: Tid): nat
    requires t in s.work
  {
    if s.work[t].AcqDraining? && !s.phase.Draining? then 1 else 0
  }

  lemma LoopOn(s0: State, s: State, t: Tid) returns (r: State)
    requires Leads(s0, s) && Loops(s, t)
    ensures Leads(s0, r) && r == ToWork(s, t, LoopNext(s, t)).(gapExits := s.gapExits + Gaps(s, t))
  {
    hide LoopNext, Leads;
    IsQuiet(s0, s);
    r := WorkerGoes(s0, s, t, t, true);
  }

  /** One step of worker t in drainPendedActor when nothing is pended. */
  lemma DrainOn(s0: State, s: State, t: Tid) returns (r: State)
    requires Leads(s0, s) && t < |s.queues| && WorkReady(s, t, t, false)
    requires (s.work[t].GotNull? || s.work[t].Drain?) && s.pended == []
    ensures Leads(s0, r)
    ensures r == if s.work[t].GotNull? then ToWork(s, t, Drain(0)).(mutex := Some(t))
                 else ToWork(s, t, NullDraining).(mutex := None)
  {
    hide Leads;
    IsQuiet(s0, s);
    r := WorkerGoes(s0, s, t, t, false);
  }

  // ---- The system --------------------------------------------------------------------------------

  function Below(n: nat): (r: set<nat>)
    ensures forall t: nat :: t in r <==> t < n
  {
    if n == 0 then {} else Below(n - 1) + {n - 1}
  }

  /** The first i of n workers are at a, the others at b. */
  function Pcs(n: nat, i: nat, a: Work, b: Work): (r: map<Tid, Work>)
    ensures r.Keys == Below(n) && forall t :: t in r ==> r[t] == if t < i then a else b
  {
    if n == 0 then map[] else Pcs(n - 1, i, a, b)[n - 1 := if n - 1 < i then a else b]
  }

  function Silent(n: nat): (r: map<Tid, Send>)
    ensures r.Keys == Below(n) && forall t :: t in r ==> r[t] == NoSend
  {
    if n == 0 then map[] else Silent(n - 1)[n - 1 := NoSend]
  }

  lemma OneMore(n: nat, i: nat, a: Work, b: Work)
    requires i < n
    ensures i in Pcs(n, i, a, b) && Pcs(n, i, a, b)[i] == b && Pcs(n, i, a, b)[i := a] == Pcs(n, i + 1, a, b)
  {
  }

  /** All workers at a, in two ways. */
  lemma AllAt(n: nat, a: Work, b: Work, c: Work)
    ensures Pcs(n, n, a, b) == Pcs(n, 0, c, a)
  {
  }

  /** n workers with queues for one entry each, actors 0 and 1, and one outside sender, thread n. */
  ghost predicate Ground(s: State, n: nat) {
    && n > 0 && s.sys == System(n, 1, true, {0, 1}) && |s.held| == MAX_ACTORS && |s.queues| == n
    && s.mutex == None && s.stopped == {} && s.mbox.Keys == {0, 1}
    && s.work.Keys == Below(n) && s.send.Keys == Below(n + 1)
    && (forall t :: t in s.send && t < n ==> s.send[t] == NoSend)
  }

  lemma Ready(s: State, n: nat, t: Tid, fails: bool)
    requires Ground(s, n) && t < n && t in s.work && s.work[t] != Left && !s.work[t].Recheck? && !s.work[t].Overflow?
    ensures t < |s.queues| && WorkReady(s, t, t, fails)
  {
    hide Below;
  }

  function Start(n: nat): State {
    State(System(n, 1, true, {0, 1}), Up, Below(n), 0, seq(MAX_ACTORS, _ => false), seq(n, _ => []), [], None,
          map[0 := 0, 1 := 0], {}, Pcs(n, 0, AcqRunning, Top), Silent(n + 1), map[], map[], 0, 0, 0)
  }

  lemma StartIsInit(n: nat)
    requires n > 0
    ensures Init(Start(n))
  {
  }

  lemma StartLeads(n: nat)
    requires n > 0
    ensures Leads(Start(n), Start(n)) && Ground(Start(n), n)
  {
    hide Init;
    StartIsInit(n);
    assert Connects([Start(n)], Start(n), Start(n));
  }

  // ---- One worker --------------------------------------------------------------------------------

  lemma Twice(s: State, t: Tid, a: Work, b: Work)
    ensures ToWork(ToWork(s, t, a), t, b) == ToWork(s, t, b)
  {
    assert s.work[t := a][t := b] == s.work[t := b];
  }

  /** A step of worker t from pc a to pc b, which it takes without an entry and outside the gap. */
  lemma Hop(s0: State, s: State, t: Tid, a: Work, b: Work) returns (r: State)
    requires Loops(s, t) && !Settling(a) && !DrainingPended(a) && a != Left && Leads(s0, ToWork(s, t, a))
    requires LoopNext(ToWork(s, t, a), t) == b && Gaps(ToWork(s, t, a), t) == 0
    ensures Leads(s0, r) && r == ToWork(s, t, b)
  {
    hide LoopNext, Leads;
    assert Loops(ToWork(s, t, a), t);
    r := LoopOn(s0, ToWork(s, t, a), t);
    Twice(s, t, a, b);
  }

  /** The worker's queue is empty; it comes to acquire's loop condition. */
  lemma Look(s0: State, s: State, t: Tid) returns (r: State)
    requires Leads(s0, s) && Loops(s, t) && s.work[t] == Top && t in s.up
    ensures Leads(s0, r) && r == ToWork(s, t, AcqRunning)
  {
    hide Leads, Loops;
    Same(s, t);
    r := Hop(s0, s, t, Top, AcqOwn);
    r := Hop(s0, s, t, AcqOwn, AcqRunning);
  }

  lemma Same(s: State, t: Tid)
    requires Loops(s, t)
    ensures t in s.work && ToWork(s, t, s.work[t]) == s
  {
    assert s.work[t := s.work[t]] == s.work;
  }

  /** The worker reads running and draining between the two stores of beginDrain. */
  lemma FallIntoGap(s0: State, s: State, t: Tid) returns (r: State)
    requires Leads(s0, s) && Loops(s, t) && s.work[t] == AcqRunning && s.phase.Gap?
    ensures Leads(s0, r) && r == ToWork(s, t, GotNull).(gapExits := s.gapExits + 1)
  {
    hide Leads;
    Same(s, t);
    r := Hop(s0, s, t, AcqRunning, AcqDraining);
    r := LoopOn(s0, r, t);
    Twice(s, t, AcqDraining, GotNull);
  }

  /** The worker reads pendingWork as zero while draining. */
  lemma GiveUp(s0: State, s: State, t: Tid) returns (r: State)
    requires Leads(s0, s) && Loops(s, t) && s.work[t] == AcqRunning && s.phase.Draining? && s.pending == 0
    ensures Leads(s0, r) && r == ToWork(s, t, GotNull)
  {
    hide Leads, Loops;
    Same(s, t);
    r := Hop(s0, s, t, AcqRunning, AcqDraining);
    r := Hop(s0, s, t, AcqDraining, AcqDrainCheck);
    r := Hop(s0, s, t, AcqDrainCheck, AcqPendingCheck);
    r := Hop(s0, s, t, AcqPendingCheck, GotNull);
  }

  lemma ThroughEmptyDrain(s0: State, s: State, t: Tid) returns (r: State)
    requires Leads(s0, s) && t < |s.queues| && WorkReady(s, t, t, false) && s.work[t].GotNull? && s.pended == []
    ensures Leads(s0, r) && r == ToWork(s, t, NullDraining)
  {
    hide Leads;
    r := DrainOn(s0, s, t);
    r := DrainOn(s0, r, t);
    Twice(s, t, Drain(0), NullDraining);
  }

  /** The worker has been told to stop and leaves, even when work is counted. */
  lemma Leave(s0: State, s: State, t: Tid) returns (r: State)
    requires Leads(s0, s) && Loops(s, t) && s.work[t] == NullDraining && s.phase.Draining? && t !in s.up
    ensures Leads(s0, r) && r == ToWork(s, t, Left)
  {
    hide Leads, Loops;
    Same(s, t);
    r := Hop(s0, s, t, NullDraining, NullPending);
    if s.pending == 0 {
      r := Hop(s0, s, t, NullPending, Left);
    } else {
      r := Hop(s0, s, t, NullPending, NullRunning);
      r := Hop(s0, s, t, NullRunning, Left);
    }
  }

  // ---- All workers, one after the other ----------------------------------------------------------

  function At(base: State, n: nat, i: nat, a: Work, b: Work): State { base.(work := Pcs(n, i, a, b)) }

  /** Worker i can move, and once it has come to a, the first i + 1 workers are at a. */
  lemma Turn(base: State, n: nat, i: nat, a: Work, b: Work)
    requires Ground(base, n) && i < n && (b == Top || b == AcqRunning || b == GotNull)
    ensures var s := At(base, n, i, a, b);
            && i < |s.queues| && WorkReady(s, i, i, true) && WorkReady(s, i, i, false) && s.work[i] == b
            && ToWork(s, i, a) == At(base, n, i + 1, a, b)
  {
    OneMore(n, i, a, b);
    hide Pcs, Below;
    var s := At(base, n, i, a, b);
    assert Ground(s, n);
    Ready(s, n, i, true);
    Ready(s, n, i, false);
  }

  lemma {:induction false} AllLook(s0: State, base: State, n: nat, i: nat) returns (r: State)
    requires Leads(s0, At(base, n, i, AcqRunning, Top)) && Ground(base, n) && i <= n
    requires base.phase.Up? && Below(n) <= base.up
    ensures Leads(s0, r) && r == At(base, n, n, AcqRunning, Top)
    decreases n - i
  {
    hide Leads, Ground, Pcs, ToWork, WorkReady;
    r := At(base, n, i, AcqRunning, Top);
    if i < n {
      Turn(base, n, i, AcqRunning, Top);
      r := Look(s0, r, i);
      r := AllLook(s0, base, n, i + 1);
    }
  }

  lemma {:induction false} AllFallIntoGap(s0: State, base: State, n: nat, i: nat) returns (r: State)
    requires Leads(s0, At(base, n, i, GotNull, AcqRunning).(gapExits := i)) && Ground(base, n) && i <= n
    requires base.phase.Gap?
    ensures Leads(s0, r) && r == At(base, n, n, GotNull, AcqRunning).(gapExits := n)
    decreases n - i
  {
    hide Leads, Ground, Pcs, ToWork, WorkReady;
    r := At(base, n, i, GotNull, AcqRunning).(gapExits := i);
    if i < n {
      var b := base.(gapExits := i);
      assert Ground(b, n) by { GroundWith(base, n, i); }
      Turn(b, n, i, GotNull, AcqRunning);
      r := FallIntoGap(s0, r, i);
      r := AllFallIntoGap(s0, base, n, i + 1);
    }
  }

  lemma GroundWith(base: State, n: nat, exits: nat)
    requires Ground(base, n)
    ensures Ground(base.(gapExits := exits), n)
  {
  }

  lemma {:induction false} AllGiveUp(s0: State, base: State, n: nat, i: nat) returns (r: State)
    requires Leads(s0, At(base, n, i, GotNull, AcqRunning)) && Ground(base, n) && i <= n
    requires base.phase.Draining? && base.pending == 0
    ensures Leads(s0, r) && r == At(base, n, n, GotNull, AcqRunning)
    decreases n - i
  {
    hide Leads, Ground, Pcs, ToWork, WorkReady;
    r := At(base, n, i, GotNull, AcqRunning);
    if i < n {
      Turn(base, n, i, GotNull, AcqRunning);
      r := GiveUp(s0, r, i);
      r := AllGiveUp(s0, base, n, i + 1);
    }
  }

  /** Every worker is told to stop. */
  lemma {:induction false} AllToldToStop(s0: State, base: State, n: nat, i: nat) returns (r: State)
    requires Leads(s0, base.(up := base.up - Below(i))) && i <= n && base.phase.Draining?
    ensures Leads(s0, r) && r == base.(up := base.up - Below(n))
    decreases n - i
  {
    hide Leads;
    r := base.(up := base.up - Below(i));
    if i < n {
      IsQuiet(s0, r);
      assert r.up - {i} == base.up - Below(i + 1);
      r := Extend(s0, r, 0, StopWorker(i));
      r := AllToldToStop(s0, base, n, i + 1);
    }
  }

  /** The workers from i on, told to stop, find nothing pended and leave. */
  lemma {:induction false} AllLeave(s0: State, base: State, n: nat, i: nat) returns (r: State)
    requires Leads(s0, At(base, n, i, Left, GotNull)) && Ground(base, n) && i <= n
    requires base.phase.Draining? && base.pended == [] && base.up !! Below(n)
    ensures Leads(s0, r) && r == At(base, n, n, Left, GotNull)
    decreases n - i
  {
    hide Leads, Ground, Pcs, ToWork, WorkReady, Loops;
    r := At(base, n, i, Left, GotNull);
    if i < n {
      var s := r;
      Turn(base, n, i, Left, GotNull);
      r := ThroughEmptyDrain(s0, s, i);
      AfterDrain(s, i);
      r := Leave(s0, r, i);
      Twice(s, i, NullDraining, Left);
      r := AllLeave(s0, base, n, i + 1);
    }
  }

  lemma AfterDrain(s: State, t: Tid)
    requires t < |s.queues| && WorkReady(s, t, t, true)
    ensures Loops(ToWork(s, t, NullDraining), t) && ToWork(s, t, NullDraining).work[t] == NullDraining
    ensures var r := ToWork(s, t, NullDraining); r.phase == s.phase && r.pending == s.pending && r.up == s.up
  {
  }

  // ---- Senders -----------------------------------------------------------------------------------

  /** The outside sender is idle, running is set, and actor a has no token. */
  ghost predicate CanSend(s: State, n: nat, a: Actor) {
    Ground(s, n) && s.phase.Up? && n in s.send && s.send[n] == NoSend && a < 2 && !s.held[a]
  }

  /** s after actor a's message has come in and its slot has been won by thread n. */
  function Posted(s: State, n: nat, a: Actor): State
    requires |s.held| == MAX_ACTORS && a < 2 && a in s.mbox
  {
    s.(mbox := s.mbox[a := s.mbox[a] + 1], held := s.held[a := true], waker := s.waker[a := n])
  }

  /** A message for actor a, and, when queue 0 has room, its entry there; else on the pended list. */
  function Delivered(s: State, n: nat, a: Actor): State
    requires |s.held| == MAX_ACTORS && |s.queues| > 0 && a < 2 && a in s.mbox
  {
    var p := Posted(s, n, a);
    if |s.queues[0]| < 1
    then p.(queues := s.queues[0 := s.queues[0] + [a]], token := s.token[a := Queued(0)], pending := s.pending + 1)
    else p.(pended := s.pended + [a], token := s.token[a := Pended], overflows := s.overflows + 1)
  }

  /** s after actor a's message has come in from thread n, before its slot has been tried. */
  function Opened(s: State, n: nat, a: Actor): State
    requires a in s.mbox
  {
    s.(mbox := s.mbox[a := s.mbox[a] + 1], waker := s.waker[a := n], send := s.send[n := Pushed(a)])
  }

  lemma Open(s0: State, s: State, n: nat, a: Actor) returns (r: State)
    requires Leads(s0, s) && CanSend(s, n, a)
    ensures Leads(s0, r) && r == Opened(s, n, a) && SendReady(r, n, 0) && OutsideQuiet(r)
  {
    hide Leads, Below;
    r := Extend(s0, s, n, OpenSend(a, true));
  }

  lemma PostIsQuiet(s: State, n: nat, a: Actor)
    requires CanSend(s, n, a)
    ensures |s.held| == MAX_ACTORS && |s.queues| > 0
    ensures OutsideQuiet(SendStep(Opened(s, n, a), n, 0, false))
  {
    hide Below;
  }

  lemma Post(s0: State, s: State, n: nat, a: Actor) returns (r: State)
    requires Leads(s0, s) && CanSend(s, n, a)
    ensures Leads(s0, r) && r == Posted(s, n, a).(send := s.send[n := Won(a)], token := s.token[a := Sender(n)])
  {
    hide Leads, Below, OutsideQuiet, Ground;
    r := Open(s0, s, n, a);
    PostIsQuiet(s, n, a);
    r := Extend(s0, r, n, SendGo(0, false));
    assert r.send == s.send[n := Won(a)];
  }

  lemma Deliver(s0: State, s: State, n: nat, a: Actor) returns (r: State)
    requires Leads(s0, s) && CanSend(s, n, a)
    ensures Leads(s0, r) && r == Delivered(s, n, a) && Ground(r, n)
  {
    hide Leads;
    var p := Post(s0, s, n, a);
    if |s.queues[0]| < 1 { r := PushQueued(s0, s, p, n, a); } else { r := PushPended(s0, s, p, n, a); }
    hide Below;
  }

  ghost predicate IsPosted(s: State, p: State, n: nat, a: Actor) {
    && CanSend(s, n, a) && p == Posted(s, n, a).(send := s.send[n := Won(a)], token := s.token[a := Sender(n)])
  }

  lemma PushQueued(s0: State, s: State, p: State, n: nat, a: Actor) returns (r: State)
    requires Leads(s0, p) && IsPosted(s, p, n, a) && |s.queues[0]| < 1
    ensures Leads(s0, r) && r == Delivered(s, n, a)
  {
    hide Leads, Below;
    r := Extend(s0, p, n, SendGo(0, false));
    r := Extend(s0, r, n, SendGo(0, false));
    assert r.send == s.send && r.token == s.token[a := Queued(0)];
  }

  lemma PushPended(s0: State, s: State, p: State, n: nat, a: Actor) returns (r: State)
    requires Leads(s0, p) && IsPosted(s, p, n, a) && |s.queues[0]| >= 1
    ensures Leads(s0, r) && r == Delivered(s, n, a)
  {
    hide Leads, Below;
    r := Extend(s0, p, n, SendGo(0, false));
    r := Extend(s0, r, n, SendGo(0, false));
    assert r.send == s.send && r.token == s.token[a := Pended];
  }

  // ---- Losing an entry in the gap ----------------------------------------------------------------

  /** All workers have left, but actor a's entry is in queue 0 and its message unread. */
  ghost predicate Loses(s: State, a: Actor) {
    && AllLeft(s) && |s.queues| > 0 && s.queues[0] == [a]
    && a in s.sys.actors && a in s.mbox && s.mbox[a] == 1 && a !in s.stopped
  }

  lemma LostIsNotDrained(s: State, a: Actor)
    requires Loses(s, a)
    ensures !Drained(s)
  {
    assert s.queues[0] != [];
  }

  /** All workers wait in acquire's loop; nothing has been sent. */
  function Waiting(n: nat): State { At(Start(n), n, n, AcqRunning, Top) }

  lemma WaitingLeads(n: nat)
    requires n > 0
    ensures Leads(Start(n), Waiting(n)) && CanSend(Waiting(n), n, 0)
  {
    hide Leads;
    StartLeads(n);
    var s := AllLook(Start(n), Start(n), n, 0);
  }

  /** beginDrain, with every worker in the gap. */
  lemma DrainInGap(s0: State, s: State, n: nat) returns (r: State)
    requires Leads(s0, s) && Ground(s, n) && s.phase.Up? && n in s.send && s.send[n] == NoSend
    requires s.work == Pcs(n, n, AcqRunning, Top) && s.gapExits == 0
    ensures Leads(s0, r) && r == s.(phase := Draining, work := Pcs(n, n, GotNull, AcqRunning), gapExits := n)
  {
    hide Leads, Pcs, Below;
    AllAt(n, AcqRunning, Top, GotNull);
    r := Extend(s0, s, 0, ClearRunning);
    r := AllFallIntoGap(s0, s.(phase := Gap), n, 0);
    IsQuiet(s0, r);
    r := Extend(s0, r, 0, SetDraining);
  }

  /** The workers are told to stop, find an addition to pendingWork, and leave. */
  lemma StopAndLeave(s0: State, s: State, n: nat) returns (r: State)
    requires Leads(s0, s) && Ground(s, n) && s.phase.Draining? && s.work == Pcs(n, n, GotNull, AcqRunning)
    requires s.up == Below(n) && s.pending == 1 && s.pended == []
    ensures Leads(s0, r) && r == s.(up := {}, work := Pcs(n, n, Left, GotNull)) && AllLeft(r)
  {
    hide Leads, Pcs, Below;
    AllAt(n, GotNull, AcqRunning, Left);
    assert s.up - Below(0) == s.up by { EmptyBelow(); }
    assert s.up - Below(n) == {};
    r := AllToldToStop(s0, s, n, 0);
    r := AllLeave(s0, s.(up := {}), n, 0);
  }

  lemma EmptyBelow()
    ensures Below(0) == {}
  {
  }

  /** n workers lose an entry when all of them fall into the gap. */
  lemma GapLosesWork(n: nat) returns (run: seq<State>)
    requires n > 0
    ensures QuietRun(run) && run[0] == Start(n)
    ensures Loses(run[|run| - 1], 0) && run[|run| - 1].gapExits == n && run[|run| - 1].overflows == 0
  {
    var s0 := Start(n);
    hide Leads, Pcs, Below;
    WaitingLeads(n);
    var s := Deliver(s0, Waiting(n), n, 0);
    assert s.queues[0] == [0];
    s := DrainInGap(s0, s, n);
    s := StopAndLeave(s0, s, n);
    run := RunTo(s0, s);
  }

  lemma RunTo(s0: State, s: State) returns (run: seq<State>)
    requires Leads(s0, s)
    ensures Connects(run, s0, s)
  {
    run :| Connects(run, s0, s);
  }

  // ---- Losing an entry from the pended list ------------------------------------------------------

  /** Worker 0 in acquire takes actor 0's entry from queue 0. */
  lemma TakeEntry(s0: State, s: State, n: nat) returns (r: State)
    requires Leads(s0, s) && Ground(s, n) && s.phase.Up? && 0 in s.work && s.work[0] == AcqRunning && s.queues[0] == [0]
    ensures Leads(s0, r)
    ensures r == ToWork(s, 0, Begin(0)).(queues := s.queues[0 := []], token := s.token[0 := Holder(0)])
  {
    hide Leads, Below, OutsideQuiet, Slot;
    Ready(s, n, 0, true);
    Same(s, 0);
    r := Hop(s0, s, 0, AcqRunning, AcqDrainCheck);
    r := Hop(s0, s, 0, AcqDrainCheck, AcqTake);
    assert s.queues[0][1..] == [];
    r := WorkerGoes(s0, r, 0, 0, false);
    Twice(s, 0, AcqTake, Begin(0));
  }

  /** Worker 0 pops a message in its batch. */
  lemma Pops(s0: State, s: State, a: Actor) returns (r: State)
    requires Leads(s0, s) && 0 in s.work && s.work[0] == Batch(a) && 0 in s.send && s.send[0] == NoSend
    requires a in s.mbox && s.mbox[a] > 0
    ensures Leads(s0, r) && r == s.(mbox := s.mbox[a := s.mbox[a] - 1])
  {
    IsQuiet(s0, s);
    r := Extend(s0, s, 0, BatchPop);
  }

  /** Worker 0 handles actor 0's one message. */
  lemma RunBatch(s0: State, s: State, n: nat) returns (r: State)
    requires Leads(s0, s) && Ground(s, n) && 0 in s.work && s.work[0] == Begin(0) && s.mbox[0] == 1
    ensures Leads(s0, r) && r == ToWork(s, 0, Settle(0)).(mbox := s.mbox[0 := 0])
  {
    hide Leads, Below, OutsideQuiet, Slot;
    r := WorkerGoes(s0, s, 0, 0, false);
    r := Pops(s0, r, 0);
    r := WorkerGoes(s0, r, 0, 0, false);
    assert r.work == s.work[0 := Settle(0)];
  }

  /** Worker 0 releases actor 0's slot and finds it still running. */
  lemma Release(s0: State, s: State, n: nat) returns (r: State)
    requires Leads(s0, s) && Ground(s, n) && 0 in s.work && s.work[0] == Settle(0)
    ensures Leads(s0, r) && r == Unclaimed(ToWork(s, 0, Recheck(0)), 0, 0)
    ensures Ground(r, n) && 0 in r.work && r.work[0] == Recheck(0) && r.mbox == s.mbox && r.up == s.up
  {
    hide Leads, Below, OutsideQuiet, Slot;
    r := WorkerGoes(s0, s, 0, 0, false);
    r := WorkerGoes(s0, r, 0, 0, false);
    assert r.work == s.work[0 := Recheck(0)];
  }

  /** Worker 0 finds actor 0's mailbox empty and retires its token. */
  lemma RetireToken(s0: State, s: State, n: nat) returns (r: State)
    requires Leads(s0, s) && Ground(s, n) && 0 in s.work && s.work[0] == Recheck(0) && s.mbox[0] == 0
    ensures Leads(s0, r) && r == ToWork(s, 0, Top).(pending := s.pending - 1)
  {
    hide Leads, Below, OutsideQuiet, Slot;
    r := WorkerGoes(s0, s, 0, 0, true);
    r := WorkerGoes(s0, r, 0, 0, false);
    assert r.work == s.work[0 := Top];
  }

  /** s after worker 0, waiting in acquire, has run actor 0's batch. */
  function Handled(s: State): State
    requires |s.queues| > 0 && |s.held| == MAX_ACTORS
  {
    s.(queues := s.queues[0 := []], mbox := s.mbox[0 := 0], held := s.held[0 := false], token := s.token - {0},
       waker := s.waker[0 := 0], pending := s.pending - 1)
  }

  lemma HandledIs(s: State, n: nat)
    requires Ground(s, n) && 0 in s.work && s.work[0] == AcqRunning
    ensures |s.queues| > 0 && |s.held| == MAX_ACTORS && Ground(Handled(s), n)
    ensures var b := ToWork(s, 0, Settle(0)).(queues := s.queues[0 := []], token := s.token[0 := Holder(0)],
                                              mbox := s.mbox[0 := 0]);
            var r := Unclaimed(ToWork(b, 0, Recheck(0)), 0, 0);
            ToWork(r, 0, AcqRunning).(pending := r.pending - 1) == Handled(s)
  {
    hide Below;
    assert s.work[0 := Settle(0)][0 := Recheck(0)][0 := AcqRunning] == s.work;
    assert s.token[0 := Holder(0)] - {0} == s.token - {0};
  }

  lemma HandleOne(s0: State, s: State, n: nat) returns (r: State)
    requires Leads(s0, s) && Ground(s, n) && s.phase.Up? && 0 in s.work && s.work[0] == AcqRunning && 0 in s.up
    requires s.queues[0] == [0] && s.mbox[0] == 1
    ensures Leads(s0, r) && r == Handled(s) && Ground(r, n)
  {
    hide Leads, Ground, ToWork, Unclaimed, Handled, Loops;
    HandledIs(s, n);
    r := BatchDone(s0, s, n);
    r := Release(s0, r, n);
    r := RetireAndLook(s0, r, n);
  }

  lemma RetireAndLook(s0: State, s: State, n: nat) returns (r: State)
    requires Leads(s0, s) && Ground(s, n) && 0 in s.work && s.work[0] == Recheck(0) && s.mbox[0] == 0 && 0 in s.up
    ensures Leads(s0, r) && Ground(r, n) && r == ToWork(s, 0, AcqRunning).(pending := s.pending - 1)
  {
    hide Leads, Below, Loops;
    r := RetireToken(s0, s, n);
    LoopsAgain(r, n);
    r := Look(s0, r, 0);
    Twice(s, 0, Top, AcqRunning);
  }

  lemma BatchDone(s0: State, s: State, n: nat) returns (r: State)
    requires Leads(s0, s) && Ground(s, n) && s.phase.Up? && 0 in s.work && s.work[0] == AcqRunning
    requires s.queues[0] == [0] && s.mbox[0] == 1
    ensures Leads(s0, r) && Ground(r, n) && 0 in r.work && r.work[0] == Settle(0) && r.mbox[0] == 0 && r.up == s.up
    ensures r == ToWork(s, 0, Settle(0)).(queues := s.queues[0 := []], token := s.token[0 := Holder(0)],
                                          mbox := s.mbox[0 := 0])
  {
    hide Leads, Below;
    r := TakeEntry(s0, s, n);
    r := RunBatch(s0, r, n);
    Twice(s, 0, Begin(0), Settle(0));
  }

  lemma LoopsAgain(s: State, n: nat)
    requires Ground(s, n) && 0 in s.work && s.work[0] == Top
    ensures Loops(s, 0)
  {
    Ready(s, n, 0, true);
  }

  /** Before the shutdown: a message of actor 1 waits, its token is pended, and pendingWork is zero. */
  lemma OverflowedEarlier(n: nat) returns (r: State)
    requires n > 0
    ensures Leads(Start(n), r) && Ground(r, n) && r.phase.Up? && n in r.send && r.send[n] == NoSend
    ensures r.work == Pcs(n, n, AcqRunning, Top) && r.up == Below(n) && r.pending == 0 && r.pended == [1]
    ensures r.queues[0] == [] && r.mbox[1] == 1 && r.overflows == 1 && r.gapExits == 0
  {
    hide Leads, Below, Pcs;
    WaitingLeads(n);
    r := Deliver(Start(n), Waiting(n), n, 0);
    assert r.queues[0] == [0];
    r := Deliver(Start(n), r, n, 1);
    FirstWaits(n);
    r := HandleOne(Start(n), r, n);
  }

  lemma FirstWaits(n: nat)
    requires n > 0
    ensures var w := Pcs(n, n, AcqRunning, Top); 0 in w && w[0] == AcqRunning && 0 in Below(n)
  {
  }

  /** beginDrain and Worker::stop; every worker reads pendingWork as zero. */
  lemma DrainAtZero(s0: State, s: State, n: nat) returns (r: State)
    requires Leads(s0, s) && Ground(s, n) && s.phase.Up? && n in s.send && s.send[n] == NoSend
    requires s.work == Pcs(n, n, AcqRunning, Top) && s.up == Below(n) && s.pending == 0
    ensures Leads(s0, r) && r == s.(phase := Draining, up := {}, work := Pcs(n, n, GotNull, AcqRunning))
  {
    hide Leads, Pcs, Below;
    AllAt(n, AcqRunning, Top, GotNull);
    EmptyBelow();
    r := Extend(s0, s, 0, ClearRunning);
    r := Extend(s0, r, 0, SetDraining);
    assert s.up - Below(0) == s.up && s.up - Below(n) == {};
    r := AllToldToStop(s0, s.(phase := Draining), n, 0);
    r := AllGiveUp(s0, s.(phase := Draining, up := {}), n, 0);
  }

  /** s after worker 0 has moved actor 1's token from the pended list into queue 0. */
  function Moved(s: State): State
    requires |s.queues| > 0
  {
    s.(queues := s.queues[0 := [1]], pended := [], token := s.token[1 := Queued(0)])
  }

  lemma Locked(s0: State, s: State, n: nat) returns (r: State)
    requires Leads(s0, s) && Ground(s, n) && 0 in s.work && s.work[0] == GotNull
    ensures Leads(s0, r) && r == ToWork(s, 0, Drain(0)).(mutex := Some(0)) && OutsideQuiet(r)
  {
    hide Leads;
    IsQuiet(s0, s);
    r := WorkerGoes(s0, s, 0, 0, false);
  }

  lemma Unpended(s0: State, s: State, n: nat) returns (r: State)
    requires Leads(s0, s) && Ground(s, n) && 0 in s.work && s.work[0] == GotNull && s.pended == [1] && s.queues[0] == []
    ensures Leads(s0, r) && r == Moved(ToWork(s, 0, DrainAdd(0))).(mutex := Some(0))
  {
    hide Leads, Below, OutsideQuiet, Slot;
    assert [] + [1] == [1] && s.pended[..0] + s.pended[1..] == [];
    r := Locked(s0, s, n);
    r := WorkerGoes(s0, r, 0, 0, false);
    Twice(s, 0, Drain(0), DrainAdd(0));
  }

  lemma DrainOnePended(s0: State, s: State, n: nat) returns (r: State)
    requires Leads(s0, s) && Ground(s, n) && 0 in s.work && s.work[0] == GotNull && s.pended == [1] && s.queues[0] == []
    ensures Leads(s0, r) && r == ToWork(Moved(s).(pending := s.pending + 1), 0, NullDraining)
  {
    hide Leads;
    r := Unpended(s0, s, n);
    r := AddedAndUnlocked(s0, r, n);
    assert s.work[0 := DrainAdd(0)][0 := NullDraining] == s.work[0 := NullDraining];
  }

  lemma AddedAndUnlocked(s0: State, s: State, n: nat) returns (r: State)
    requires Leads(s0, s) && Ground(s.(mutex := None), n) && 0 in s.work && s.work[0] == DrainAdd(0) && s.pended == []
    ensures Leads(s0, r) && r == ToWork(s, 0, NullDraining).(mutex := None, pending := s.pending + 1)
  {
    hide Leads, Below, OutsideQuiet, Slot;
    r := WorkerGoes(s0, s, 0, 0, false);
    assert r == ToWork(s, 0, Drain(0)).(pending := s.pending + 1);
    r := WorkerGoes(s0, r, 0, 0, false);
    Twice(s, 0, Drain(0), NullDraining);
  }

  /** Worker 0 drains the pended list, and all leave. */
  lemma MoveAndLeave(s0: State, s: State, n: nat) returns (r: State)
    requires Leads(s0, s) && Ground(s, n) && s.phase.Draining? && s.up == {} && s.work == Pcs(n, n, GotNull, AcqRunning)
    requires s.pending == 0 && s.pended == [1] && s.queues[0] == []
    ensures Leads(s0, r) && AllLeft(r)
    ensures r == Moved(s).(work := Pcs(n, n, Left, GotNull), pending := 1)
  {
    hide Leads, Pcs, Below;
    r := FirstLeaves(s0, s, n);
    r := AllLeave(s0, Moved(s).(pending := 1), n, 1);
  }

  lemma FirstLeaves(s0: State, s: State, n: nat) returns (r: State)
    requires Leads(s0, s) && Ground(s, n) && s.phase.Draining? && s.up == {} && s.work == Pcs(n, n, GotNull, AcqRunning)
    requires s.pending == 0 && s.pended == [1] && s.queues[0] == []
    ensures Leads(s0, r) && r == At(Moved(s).(pending := 1), n, 1, Left, GotNull)
  {
    FirstCanLeave(s, n);
    r := FirstDrains(s0, s, n);
    hide *;
    r := Leave(s0, r, 0);
  }

  lemma FirstDrains(s0: State, s: State, n: nat) returns (r: State)
    requires Leads(s0, s) && Ground(s, n) && 0 in s.work && s.work[0] == GotNull
    requires s.pending == 0 && s.pended == [1] && s.queues[0] == []
    ensures Leads(s0, r) && r == ToWork(Moved(s).(pending := 1), 0, NullDraining)
  {
    hide Leads, Ground, ToWork, Moved;
    r := DrainOnePended(s0, s, n);
  }

  lemma FirstCanLeave(s: State, n: nat)
    requires Ground(s, n) && s.work == Pcs(n, n, GotNull, AcqRunning)
    ensures 0 in s.work && s.work[0] == GotNull && |s.queues| > 0
    ensures var r := ToWork(Moved(s).(pending := 1), 0, NullDraining);
            && Loops(r, 0) && r.work[0] == NullDraining && r.phase == s.phase && r.pending == 1 && r.up == s.up
            && ToWork(r, 0, Left) == At(Moved(s).(pending := 1), n, 1, Left, GotNull)
  {
    AllAt(n, GotNull, AcqRunning, Left);
    OneMore(n, 0, Left, GotNull);
    var m := Moved(s).(pending := 1);
    Twice(m, 0, NullDraining, Left);
    hide Pcs, Below;
    MovedLoops(s, m, n);
  }

  lemma MovedLoops(s: State, m: State, n: nat)
    requires Ground(s, n) && 0 in s.work && m == Moved(s).(pending := 1)
    ensures Loops(ToWork(m, 0, NullDraining), 0)
  {
    hide Below;
    assert Ground(ToWork(m, 0, NullDraining), n);
    Ready(ToWork(m, 0, NullDraining), n, 0, true);
  }

  /** n workers lose actor 1's entry: they all read pendingWork as zero, then the first one moves the entry
      into its queue and leaves, as do the others. */
  lemma PendedLosesWork(n: nat) returns (run: seq<State>)
    requires n > 0
    ensures QuietRun(run) && run[0] == Start(n)
    ensures Loses(run[|run| - 1], 1) && run[|run| - 1].gapExits == 0 && run[|run| - 1].overflows == 1
  {
    hide Leads, Pcs, Below;
    var s := OverflowedEarlier(n);
    s := DrainAtZero(Start(n), s, n);
    s := MoveAndLeave(Start(n), s, n);
    run := RunTo(Start(n), s);
  }

  // ---- Exactly when a drain is graceful ----------------------------------------------------------

  /** Every quiet run of n workers that ends with all of them gone has drained, if workers fell into the
      gap at most exits times and at most overflows pushes failed. */
  ghost predicate DrainsWith(n: nat, exits: nat, overflows: nat) {
    forall run: seq<State> :: EndsWithin(run, n, exits, overflows) ==> Drained(run[|run| - 1])
  }

  ghost predicate EndsWithin(run: seq<State>, n: nat, exits: nat, overflows: nat) {
    && QuietRun(run) && |run[0].work| == n && AllLeft(run[|run| - 1])
    && run[|run| - 1].gapExits <= exits && run[|run| - 1].overflows <= overflows
  }

  /** The drain is graceful exactly as long as workers fall into the gap fewer times than there are
      workers, and no push of an entry has failed. */
  lemma GracefulExactly(n: nat, exits: nat, overflows: nat)
    requires n > 0
    ensures DrainsWith(n, exits, overflows) <==> exits < n && overflows == 0
  {
    hide Drained, AllLeft, OutsideQuiet, Init, Next, Attached, Start;
    StartSize(n);
    if exits < n && overflows == 0 {
      forall run: seq<State> | EndsWithin(run, n, exits, overflows) ensures Drained(run[|run| - 1]) {
        SameWorkers(run);
        GracefulDrain(run);
      }
    } else if exits >= n {
      var run := GapLosesWork(n);
      LostIsNotDrained(run[|run| - 1], 0);
      assert EndsWithin(run, n, exits, overflows);
    } else {
      var run := PendedLosesWork(n);
      LostIsNotDrained(run[|run| - 1], 1);
      assert EndsWithin(run, n, exits, overflows);
    }
  }

  lemma StartSize(n: nat)
    ensures |Start(n).work| == n
  {
    BelowSize(n);
    assert Start(n).work.Keys == Below(n);
  }

  lemma {:induction false} BelowSize(n: nat)
    ensures |Below(n)| == n
  {
    if n > 0 { BelowSize(n - 1); }
  }

  lemma SameWorkers(run: seq<State>)
    requires QuietRun(run)
    ensures |run[|run| - 1].work| == |run[0].work|
  {
    hide Init, Next;
    RunCounters(run, 0, |run| - 1);
    var a, b := run[0].work, run[|run| - 1].work;
    assert |a| == |a.Keys| && |b| == |b.Keys|;
  }

  // ---- Sending after the drain -------------------------------------------------------------------

  /** n workers drain an idle system and leave. */
  lemma IdleDrain(n: nat) returns (s: State)
    requires n > 0
    ensures Leads(Start(n), s) && AllLeft(s) && Drained(s) && s.overflows == 0 && s.gapExits == 0
    ensures s.stopped == {} && 0 in s.mbox && 0 in s.sys.actors && n in s.send && n !in s.work && s.send[n] == NoSend
  {
    hide Leads, Pcs, Below;
    WaitingLeads(n);
    s := DrainAtZero(Start(n), Waiting(n), n);
    AllAt(n, GotNull, AcqRunning, Left);
    s := AllLeave(Start(n), s, n, 0);
  }

  /** Why the others must be quiet: from the start of n workers, through a drain that leaves nothing behind, a
      message is accepted that nobody is left to read. */
  lemma LateSendIsLost(n: nat) returns (run: seq<State>)
    requires n > 0
    ensures IsRun(run) && |run| >= 2 && run[0] == Start(n) && AllLeft(run[|run| - 2]) && Drained(run[|run| - 2])
    ensures var s := run[|run| - 1];
            && AllLeft(s) && s.overflows == 0 && s.gapExits == 0
            && 0 in s.mbox && s.mbox[0] == 1 && 0 !in s.stopped && !Drained(s)
  {
    var s := IdleDrain(n);
    run := RunTo(Start(n), s);
    var late := OpenSend(0, true);
    assert Enabled(s, n, late);
    hide Init, Start;
    assert Next(s, Step(s, n, late));
    forall k | 0 <= k < |run| ensures Next((run + [Step(s, n, late)])[k], (run + [Step(s, n, late)])[k + 1]) {
      if k < |run| - 1 { assert Next(run[k], run[k + 1]); }
    }
    run := run + [Step(s, n, late)];
  }
}
