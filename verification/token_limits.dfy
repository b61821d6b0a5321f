/** Two attached actors that share an in-flight slot: why attachActor must refuse larger ids. */
module TokenLimits {
  import opened Basics
  import opened Token
  import opened TokenTheorems

  lemma Extend(run: seq<State>, t: Tid, x: Action) returns (longer: seq<State>)
    requires IsRun(run) && Enabled(run[|run| - 1], t, x)
    ensures IsRun(longer) && |longer| > 0 && longer[|longer| - 1] == Step(run[|run| - 1], t, x)
  {
    hide Init, Enabled, Step;
    var s := run[|run| - 1];
    longer := run + [Step(s, t, x)];
    assert Next(s, Step(s, t, x));
    forall k | 0 <= k < |longer| - 1 ensures Next(longer[k], longer[k + 1]) {
      if k < |run| - 1 { assert Next(run[k], run[k + 1]); }
    }
  }

  /** Actors 0 and 1024 share slot 0. */
  function SharedStart(): State {
    State(System(1, 1, true, {0, MAX_ACTORS}), Up, {0}, 0, seq(MAX_ACTORS, _ => false), [[]], [], None,
          map[0 := 0, MAX_ACTORS := 0], {}, map[0 := Top], map[0 := NoSend, 1 := NoSend], map[], map[], 0, 0, 0)
  }

  ghost predicate Shared(s: State) {
    && s.sys == SharedStart().sys && |s.held| == MAX_ACTORS && |s.queues| == 1 && s.phase.Up? && s.overflows == 0
    && 0 in s.mbox && MAX_ACTORS in s.mbox && s.stopped == {} && 0 in s.up
    && s.work.Keys == {0} && s.send.Keys == {0, 1} && s.send[0] == NoSend
  }

  lemma StartIsRun()
    ensures IsRun([SharedStart()]) && Shared(SharedStart())
  {
    assert Init(SharedStart());
  }

  /** Thread 1 sends to actor a, and finds the slot free. */
  lemma Posts(s: State, a: Actor)
    requires Shared(s) && s.send[1] == NoSend && a in s.sys.actors && !s.held[0]
    ensures Enabled(s, 1, OpenSend(a, true))
    ensures var p := Step(s, 1, OpenSend(a, true));
            && Enabled(p, 1, SendGo(0, false))
            && var r := Step(p, 1, SendGo(0, false));
            && Shared(r) && r.send[1] == Won(a) && r.work == s.work && r.queues == s.queues && r.held[0]
            && r.mbox == s.mbox[a := s.mbox[a] + 1]
  {
    assert Slot(a) == 0;
  }

  lemma FirstPosted() returns (run: seq<State>)
    ensures IsRun(run) && |run| > 0
    ensures var s := run[|run| - 1];
            && Shared(s) && s.work[0] == Top && s.send[1] == Won(0) && s.queues[0] == [] && s.held[0]
            && s.mbox[0] == 1 && s.mbox[MAX_ACTORS] == 0
  {
    hide IsRun, Enabled, Step, Shared;
    StartIsRun();
    run := [SharedStart()];
    Posts(SharedStart(), 0);
    run := Extend(run, 1, OpenSend(0, true));
    run := Extend(run, 1, SendGo(0, false));
  }

  lemma BothSend() returns (run: seq<State>)
    ensures IsRun(run)
    ensures var s := run[|run| - 1];
            && Shared(s) && s.work[0] == Top && s.send[1] == NoSend && s.queues[0] == [0]
            && s.mbox[0] == 1 && s.mbox[MAX_ACTORS] == 1
  {
    run := FirstPosted();
    hide IsRun;
    run := Extend(run, 1, SendGo(0, false));
    assert Shared(run[|run| - 1]) && run[|run| - 1].send[1] == Counting && run[|run| - 1].queues[0] == [0];
    run := SecondLoses(run);
  }

  lemma SecondLoses(run: seq<State>) returns (next: seq<State>)
    requires IsRun(run)
    requires var s := run[|run| - 1];
             && Shared(s) && s.work[0] == Top && s.send[1] == Counting && s.queues[0] == [0]
             && s.mbox[0] == 1 && s.mbox[MAX_ACTORS] == 0 && s.held[0]
    ensures IsRun(next)
    ensures var s := next[|next| - 1];
            && Shared(s) && s.work[0] == Top && s.send[1] == NoSend && s.queues[0] == [0]
            && s.mbox[0] == 1 && s.mbox[MAX_ACTORS] == 1
  {
    next := Extend(run, 1, SendGo(0, false));
    next := Extend(next, 1, OpenSend(MAX_ACTORS, true));
    next := Extend(next, 1, SendGo(0, false));
  }

  lemma FirstIsPopped(run: seq<State>) returns (next: seq<State>)
    requires IsRun(run)
    requires var s := run[|run| - 1];
             && Shared(s) && s.work[0] == AcqOwn && s.send[1] == NoSend && s.queues[0] == [0]
             && s.mbox[0] == 1 && s.mbox[MAX_ACTORS] == 1
    ensures IsRun(next)
    ensures var s := next[|next| - 1];
            && Shared(s) && s.work[0] == Begin(0) && s.send[1] == NoSend && s.mbox[0] == 1 && s.mbox[MAX_ACTORS] == 1
  {
    next := Extend(run, 0, WorkGo(0, false));
  }

  lemma FirstIsHandled(run: seq<State>) returns (next: seq<State>)
    requires IsRun(run)
    requires var s := run[|run| - 1];
             && Shared(s) && s.work[0] == Top && s.send[1] == NoSend && s.queues[0] == [0]
             && s.mbox[0] == 1 && s.mbox[MAX_ACTORS] == 1
    ensures IsRun(next)
    ensures var s := next[|next| - 1];
            && Shared(s) && s.work[0] == Settle(0) && s.send[1] == NoSend && s.mbox[0] == 0 && s.mbox[MAX_ACTORS] == 1
  {
    next := Extend(run, 0, WorkGo(0, false));
    next := FirstIsPopped(next);
    next := HandledAlone(next);
  }

  /** Worker 0 goes through actor 0's batch with its one message. */
  lemma Handles(s: State)
    requires Shared(s) && s.work[0] == Batch(0) && s.send[1] == NoSend && s.mbox[0] == 1 && s.mbox[MAX_ACTORS] == 1
    ensures Enabled(s, 0, BatchPop)
    ensures var p := Step(s, 0, BatchPop);
            && Enabled(p, 0, WorkGo(0, false))
            && var r := Step(p, 0, WorkGo(0, false));
            && Shared(r) && r.work[0] == Settle(0) && r.send[1] == NoSend && r.mbox[0] == 0 && r.mbox[MAX_ACTORS] == 1
  {
    hide Slot;
  }

  lemma Begins(s: State)
    requires Shared(s) && s.work[0] == Begin(0) && s.send[1] == NoSend && s.mbox[0] == 1 && s.mbox[MAX_ACTORS] == 1
    ensures Enabled(s, 0, WorkGo(0, false))
    ensures var r := Step(s, 0, WorkGo(0, false));
            Shared(r) && r.work[0] == Batch(0) && r.send == s.send && r.mbox == s.mbox
  {
    hide Slot;
  }

  lemma HandledAlone(run: seq<State>) returns (next: seq<State>)
    requires IsRun(run)
    requires var s := run[|run| - 1];
             && Shared(s) && s.work[0] == Begin(0) && s.send[1] == NoSend && s.mbox[0] == 1 && s.mbox[MAX_ACTORS] == 1
    ensures IsRun(next)
    ensures var s := next[|next| - 1];
            && Shared(s) && s.work[0] == Settle(0) && s.send[1] == NoSend && s.mbox[0] == 0 && s.mbox[MAX_ACTORS] == 1
  {
    hide Enabled, Step, Init, Next;
    Begins(run[|run| - 1]);
    next := Extend(run, 0, WorkGo(0, false));
    Handles(next[|next| - 1]);
    next := Extend(next, 0, BatchPop);
    next := Extend(next, 0, WorkGo(0, false));
  }

  /** Worker 0 releases the slot that both actors share. */
  lemma Releases(s: State)
    requires Shared(s) && s.work[0] == Settle(0) && s.send[1] == NoSend
    ensures Enabled(s, 0, WorkGo(0, false))
    ensures var r := Step(s, 0, WorkGo(0, false));
            && Shared(r) && r.mbox == s.mbox && !r.held[0] && r.work == map[0 := Released(0)] && r.send == s.send
  {
    assert s.work[0 := Released(0)] == map[0 := Released(0)];
  }

  lemma NobodyOnTheWay(s: State)
    requires Shared(s) && s.work == map[0 := Released(0)] && s.send[1] == NoSend
    ensures !OnTheWay(s, MAX_ACTORS)
  {
  }

  lemma SlotIsReleased(run: seq<State>) returns (next: seq<State>)
    requires IsRun(run)
    requires var s := run[|run| - 1];
             && Shared(s) && s.work[0] == Settle(0) && s.send[1] == NoSend && s.mbox[MAX_ACTORS] == 1
    ensures IsRun(next)
    ensures var s := next[|next| - 1];
            && Shared(s) && s.mbox[MAX_ACTORS] == 1 && !s.held[Slot(MAX_ACTORS)] && !OnTheWay(s, MAX_ACTORS)
  {
    hide Enabled, Step, Init, Next, OnTheWay;
    Releases(run[|run| - 1]);
    next := Extend(run, 0, WorkGo(0, false));
    NobodyOnTheWay(next[|next| - 1]);
  }

  /** Why attachActor must refuse ids without a slot of their own: with actors 0 and 1024 attached,
      the message of the second is left with nobody to run it. */
  lemma SharedSlotLosesWakeup() returns (run: seq<State>)
    ensures IsRun(run)
    ensures var s := run[|run| - 1];
            && s.sys.actors == {0, MAX_ACTORS} && MAX_ACTORS in s.mbox && s.mbox[MAX_ACTORS] == 1 && s.stopped == {}
            && |s.held| == MAX_ACTORS && !s.held[Slot(MAX_ACTORS)] && !OnTheWay(s, MAX_ACTORS)
  {
    run := BothSend();
    run := FirstIsHandled(run);
    run := SlotIsReleased(run);
  }
}
