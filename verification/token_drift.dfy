/** Runs in which a redispatch overflows, so that what TokenOverflow says of them is about something. */
module TokenDrift {
  import opened Token
  import opened TokenDrain
  import opened TokenLosses
  import opened TokenOverflow

  /** A second message for actor a, which has a token already. */
  lemma SendAgain(s0: State, s: State, n: nat, a: Actor) returns (r: State)
    requires Leads(s0, s) && Ground(s, n) && s.phase.Up? && n in s.send && s.send[n] == NoSend
    requires a < 2 && a in s.mbox && s.held[a]
    ensures Leads(s0, r) && Ground(r, n) && r == s.(mbox := s.mbox[a := s.mbox[a] + 1], waker := s.waker[a := n])
  {
    hide Leads, Below;
    r := Extend(s0, s, n, OpenSend(a, true));
    r := Extend(s0, r, n, SendGo(0, false));
    assert r.send == s.send;
  }

  /** Worker 0 handles one of actor 0's two messages. */
  lemma RunHalf(s0: State, s: State, n: nat) returns (r: State)
    requires Leads(s0, s) && Ground(s, n) && 0 in s.work && s.work[0] == Begin(0) && s.mbox[0] == 2
    ensures Leads(s0, r) && Ground(r, n) && r == ToWork(s, 0, Settle(0)).(mbox := s.mbox[0 := 1])
  {
    hide Leads, Below, OutsideQuiet, Slot;
    r := WorkerGoes(s0, s, 0, 0, false);
    r := Pops(s0, r, 0);
    r := WorkerGoes(s0, r, 0, 0, false);
    assert r.work == s.work[0 := Settle(0)];
  }

  /** Worker 0, with a message of actor 0 left, takes its slot back. */
  lemma Reclaim(s0: State, s: State, n: nat) returns (r: State)
    requires Leads(s0, s) && Ground(s, n) && 0 in s.work && s.work[0] == Recheck(0) && s.mbox[0] > 0 && !s.held[0]
    ensures Leads(s0, r) && Ground(r, n) && r == Claimed(ToWork(s, 0, Reissue(0)), 0, Holder(0))
  {
    hide Leads, Below, OutsideQuiet;
    r := WorkerGoes(s0, s, 0, 0, false);
    r := WorkerGoes(s0, r, 0, 0, false);
    assert r.work == s.work[0 := Reissue(0)];
  }

  /** The push of its entry fails: one more in the drift. */
  lemma OverflowAt(s0: State, s: State, n: nat) returns (r: State)
    requires Leads(s0, s) && Ground(s, n) && 0 in s.work && s.work[0] == Reissue(0) && s.queues[0] != []
    ensures Leads(s0, r) && r == ToWork(s, 0, Overflow(0)).(overflows := s.overflows + 1, drift := s.drift + 1)
  {
    hide Leads, Below;
    IsQuiet(s0, s);
    r := WorkerGoes(s0, s, 0, 0, false);
  }

  lemma BeginDrain(s0: State, s: State, n: nat) returns (r: State)
    requires Leads(s0, s) && s.phase.Up? && forall t :: t in s.send && t !in s.work ==> s.send[t] == NoSend
    ensures Leads(s0, r) && r == s.(phase := Draining)
  {
    hide Leads;
    r := Extend(s0, s, 0, ClearRunning);
    r := Extend(s0, r, 0, SetDraining);
  }

  /** Worker 0 has run half of actor 0's batch, and actor 1's entry has come into its queue in the meantime. */
  lemma QueueIsFull(n: nat) returns (r: State)
    requires n > 0
    ensures Leads(Start(n), r) && Ground(r, n) && r.phase.Up? && n in r.send && r.send[n] == NoSend
    ensures 0 in r.work && r.work == Pcs(n, n, AcqRunning, Top)[0 := Settle(0)] && r.mbox[0] == 1
    ensures r.queues[0] == [1] && r.drift == 0
  {
    hide Leads, Pcs, Below;
    WaitingLeads(n);
    r := Deliver(Start(n), Waiting(n), n, 0);
    assert r.queues[0] == [0];
    r := SendAgain(Start(n), r, n, 0);
    FirstWaits(n);
    r := HalfDone(Start(n), r, n);
    r := Deliver(Start(n), r, n, 1);
  }

  lemma HalfDone(s0: State, s: State, n: nat) returns (r: State)
    requires Leads(s0, s) && Ground(s, n) && s.phase.Up? && 0 in s.work && s.work[0] == AcqRunning
    requires s.queues[0] == [0] && s.mbox[0] == 2
    ensures Leads(s0, r) && Ground(r, n)
    ensures r == ToWork(s, 0, Settle(0)).(queues := s.queues[0 := []], token := s.token[0 := Holder(0)],
                                          mbox := s.mbox[0 := 1])
  {
    hide Leads, Below;
    r := TakeEntry(s0, s, n);
    r := RunHalf(s0, r, n);
    Twice(s, 0, Begin(0), Settle(0));
  }

  lemma Overflows(s0: State, s: State, n: nat) returns (r: State)
    requires Leads(s0, s) && Ground(s, n) && 0 in s.work && s.work[0] == Settle(0)
    requires s.mbox[0] > 0 && s.queues[0] != []
    ensures Leads(s0, r) && r.drift == s.drift + 1 && r.phase == s.phase && r.send == s.send
    ensures r.work == s.work[0 := Overflow(0)] && r.gapExits == s.gapExits
  {
    hide Leads, Below, OutsideQuiet, WorkReady;
    r := Release(s0, s, n);
    r := Reclaim(s0, r, n);
    r := OverflowAt(s0, r, n);
    assert s.work[0 := Recheck(0)][0 := Reissue(0)][0 := Overflow(0)] == s.work[0 := Overflow(0)];
  }

  /** For every number of workers a quiet run comes to a drain that cannot end: a redispatch has overflowed
      and nobody has given up. */
  lemma DriftHappens(n: nat) returns (run: seq<State>)
    requires n > 0
    ensures QuietRun(run) && run[0] == Start(n)
    ensures var s := run[|run| - 1]; s.drift == 1 && s.phase.Draining? && NobodyGaveUp(s)
  {
    hide Leads, Ground, Pcs, Start, Loops, QuietRun, NobodyGaveUp;
    var s := QueueIsFull(n);
    SendersIdle(s, n);
    BusyAt(s, n);
    s := Overflows(Start(n), s, n);
    s := BeginDrain(Start(n), s, n);
    run := RunTo(Start(n), s);
  }

  lemma BusyAt(s: State, n: nat)
    requires s.work == Pcs(n, n, AcqRunning, Top)[0 := Settle(0)]
    ensures forall r: State :: r.work == s.work[0 := Overflow(0)] ==> NobodyGaveUp(r)
  {
  }

  lemma SendersIdle(s: State, n: nat)
    requires Ground(s, n) && n in s.send && s.send[n] == NoSend
    ensures forall t :: t in s.send ==> s.send[t] == NoSend
  {
  }
}
