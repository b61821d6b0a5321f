/** Where the rings' promises end: runs that show each assumption is needed. */
module RingLimits {
  import opened Basics
  import opened Ring
  import opened RingProofs
  import opened RingTheorems

  ghost function Fresh(cap: nat, single: bool, threads: set<Tid>): State {
    State(cap, single, 0, 0, seq(cap, i requires 0 <= i < cap => Cell(i, None)), map t | t in threads :: Ready,
          [], map[], {}, map[], map[], None)
  }

  lemma FreshIsReachable(cap: nat, single: bool, threads: set<Tid>)
    requires cap > 0
    ensures Reachable(Fresh(cap, single, threads))
  {
    assert IsRun([Fresh(cap, single, threads)]);
  }

  lemma Advance(s: State, t: Tid, a: Action) returns (s': State)
    requires Reachable(s) && Enabled(s, t, a)
    ensures Reachable(s') && s' == Step(s, t, a)
  {
    s' := Step(s, t, a);
    var run :| IsRun(run) && run[|run| - 1] == s;
    assert Next(s, s');
    var longer := run + [s'];
    assert forall k :: 0 <= k < |longer| - 1 ==> Next(longer[k], longer[k + 1]) by {
      forall k | 0 <= k < |longer| - 1 ensures Next(longer[k], longer[k + 1]) {
        if k < |run| - 1 { assert Next(run[k], run[k + 1]); }
      }
    }
    assert IsRun(longer) && longer[|longer| - 1] == s';
  }

  lemma CallPushStep(s: State, t: Tid, x: Elem) returns (s': State)
    requires Reachable(s) && s.cap > 0 && |s.cells| == s.cap && t in s.pc && AtRest(s.pc[t])
    ensures Reachable(s') && s' == Goto(s, t, PushSeq(x, s.tail))
  {
    s' := Advance(s, t, CallPush(x));
  }

  lemma PushStep(s: State, t: Tid) returns (s': State)
    requires Reachable(s) && s.cap > 0 && |s.cells| == s.cap && t in s.pc
    requires Producing(s.pc[t]) || s.pc[t].PushSeq? || s.pc[t].PushCas?
    ensures Reachable(s') && s' == StepPush(s, t, false)
  {
    hide Reachable, StepPush, StepPop;
    s' := Advance(s, t, Go(false));
  }

  lemma PopStep(s: State, t: Tid) returns (s': State)
    requires Reachable(s) && s.cap > 0 && |s.cells| == s.cap && t in s.pc && Popping(s.pc[t])
    requires s.pc[t].PopTake? ==> s.cells[At(s, s.pc[t].pos)].storage.Some?
    ensures Reachable(s') && s' == StepPop(s, t, false)
  {
    s' := Advance(s, t, Go(false));
  }

  /** Thread t wins the next position, uninterrupted, where the slot is free. */
  lemma WinAlone(s: State, t: Tid, x: Elem) returns (s': State)
    requires Reachable(s) && s.cap > 0 && |s.cells| == s.cap && t in s.pc && AtRest(s.pc[t])
    requires s.cells[At(s, s.tail)].sequence == s.tail
    ensures Reachable(s')
    ensures s' == s.(tail := s.tail + 1, put := s.put + [x], pc := s.pc[t := PushWrite(x, s.tail)],
                     writer := s.writer[s.tail := t])
  {
    hide Reachable;
    var s1 := CallPushStep(s, t, x);
    var s2 := PushStep(s1, t);
    s' := PushStep(s2, t);
    assert s'.pc == s.pc[t := PushWrite(x, s.tail)];
  }

  /** One whole uninterrupted push. */
  lemma PushAlone(s: State, t: Tid, x: Elem) returns (s': State)
    requires Reachable(s) && s.cap > 0 && |s.cells| == s.cap && t in s.pc && AtRest(s.pc[t])
    requires s.cells[At(s, s.tail)].sequence == s.tail
    ensures Reachable(s')
    ensures var i := At(s, s.tail);
            s' == s.(tail := s.tail + 1, put := s.put + [x], cells := s.cells[i := Cell(s.tail + 1, Some(x))],
                     pc := s.pc[t := Pushed(true)], writer := s'.writer)
  {
    hide Reachable;
    var s1 := WinAlone(s, t, x);
    var s2 := PushStep(s1, t);
    s' := PushStep(s2, t);
    assert s'.pc == s.pc[t := Pushed(true)];
  }

  /** Thread t wins and empties position `head` of a multi-consumer ring, up to handing back its slot. */
  lemma PopUpTo(s: State, t: Tid, x: Elem, stopBeforeTake: bool) returns (s': State)
    requires Reachable(s) && s.cap > 0 && !s.single && |s.cells| == s.cap && t in s.pc && s.pc[t] == Ready
    requires s.cells[At(s, s.head)] == Cell(s.head + 1, Some(x))
    ensures Reachable(s') && s'.cap == s.cap && !s'.single && s'.head == s.head + 1 && s'.tail == s.tail
    ensures s'.pc == s.pc[t := if stopBeforeTake then PopTake(s.head) else PopRelease(s.head, x)]
    ensures |s'.cells| == |s.cells|
    ensures forall i :: 0 <= i < |s.cells| && i != At(s, s.head) ==> s'.cells[i] == s.cells[i]
    ensures s'.cells[At(s, s.head)].sequence == s.head + 1
  {
    hide Reachable;
    var s1 := Advance(s, t, CallPop);
    assert s1.cells == s.cells && s1.head == s.head && s1.pc == s.pc[t := PopSeq(s.head)];
    var s2 := PopStep(s1, t);
    assert s2.cells == s.cells && s2.head == s.head && s2.pc == s.pc[t := PopCas(s.head)];
    s' := PopStep(s2, t);
    assert s'.pc == s.pc[t := PopTake(s.head)];
    if !stopBeforeTake {
      s' := PopStep(s', t);
      assert s'.pc == s.pc[t := PopRelease(s.head, x)];
    }
  }

  ghost predicate NeverOverfull(cap: nat, single: bool) {
    forall s :: Reachable(s) && s.cap == cap && s.single == single ==> s.tail <= s.head + s.cap
  }

  ghost predicate NeverOverwrites(cap: nat, single: bool) {
    forall s, t :: Reachable(s) && s.cap == cap && s.single == single && t in s.pc && s.pc[t].PushWrite?
      ==> |s.cells| == s.cap > 0 && s.cells[At(s, s.pc[t].pos)].storage == None
  }

  /** The constructors accept capacity 1, but there "published" and "free for the next lap" are the
      same sequence number: a second push is accepted over an unread element. The rings keep their
      bound, and never construct over a live element, exactly when the capacity is at least 2. */
  lemma CapacityTwoIsNeeded(cap: nat, single: bool, x: Elem)
    requires cap > 0
    ensures NeverOverfull(cap, single) <==> cap >= 2
    ensures NeverOverwrites(cap, single) <==> cap >= 2
  {
    if cap >= 2 {
      forall s | Reachable(s) && s.cap == cap ensures s.tail <= s.head + s.cap { ReachableInv(s); }
      forall s, t | Reachable(s) && s.cap == cap && t in s.pc && s.pc[t].PushWrite?
        ensures |s.cells| == s.cap > 0 && s.cells[At(s, s.pc[t].pos)].storage == None
      {
        ReachableInv(s);
        TakesEachPositionOnce(s, t);
      }
    } else {
      var s := OverfullRun(single, x);
    }
  }

  lemma OverfullRun(single: bool, x: Elem) returns (s: State)
    ensures Reachable(s) && s.cap == 1 && s.single == single && s.tail == 2 && s.head == 0
    ensures 0 in s.pc && s.pc[0] == PushWrite(x, 1) && |s.cells| == 1 && s.cells[At(s, 1)].storage == Some(x)
  {
    FreshIsReachable(1, single, {0});
    s := PushAlone(Fresh(1, single, {0}), 0, x);
    s := WinAlone(s, 0, x);
  }

  /** A consumer stalled between winning a position and handing its slot back makes a push fail on a
      queue that is empty: "full" means "one lap back is not handed back", not "cap elements". */
  lemma StalledConsumerRefusesPush(x: Elem) returns (s: State)
    ensures Reachable(s) && s.cap == 2 && !s.single && Inv(s)
    ensures 1 in s.pc && s.pc[1] == Pushed(false) && Queue(s) == []
  {
    hide ThreadsOk, Reachable;
    FreshIsReachable(2, false, {0, 1, 2});
    s := PushAlone(Fresh(2, false, {0, 1, 2}), 1, x);
    s := PopUpTo(s, 0, x, true);
    s := PushAlone(s, 1, x);
    s := PopUpTo(s, 2, x, false);
    assert At(s, 2) == 0 && s.cells[0].sequence == 1;
    s := CallPushStep(s, 1, x);
    s := PushStep(s, 1);
    ReachableInv(s);
  }

  /** Threads 1 and 2 are both let into pop, whatever the rule says. */
  function BothInPop(s: State): State
    requires 1 in s.pc && 2 in s.pc
  {
    Goto(Goto(s, 1, PopSeq(s.head)), 2, PopSeq(s.head))
  }

  /** s' is s after thread t's next step in pop. */
  predicate PopsTo(s: State, t: Tid, s': State) {
    && s.cap > 0 && |s.cells| == s.cap && t in s.pc && Popping(s.pc[t])
    && (s.pc[t].PopTake? ==> s.cells[At(s, s.pc[t].pos)].storage.Some?)
    && s' == StepPop(s, t, false)
  }

  /** Why the mailbox needs its single-consumer rule: two threads in the single-consumer pop see the one
      published slot. The first has taken its element when the second is about to move an element out of the
      same slot, which by then holds none. */
  lemma TwoPoppersTakeOneElement(cap: nat, x: Elem) returns (s: State, s1: State, s2: State, s3: State)
    requires cap >= 2
    ensures Reachable(s) && s.single && s.cap == cap && 1 in s.pc && 2 in s.pc && s.put == [x]
    ensures PopsTo(BothInPop(s), 1, s1) && PopsTo(s1, 2, s2) && PopsTo(s2, 1, s3)
    ensures 1 in s2.pc && 2 in s2.pc && s2.pc[1] == s2.pc[2] == PopTake(0)
    ensures |s2.cells| == cap && s2.cells[0].storage == Some(x)
    ensures 1 in s3.pc && 2 in s3.pc && s3.pc[1] == PopAdvance(0, x) && s3.pc[2] == PopTake(0)
    ensures |s3.cells| == cap && s3.cells[0].storage == None
  {
    hide Reachable;
    FreshIsReachable(cap, true, {0, 1, 2});
    s := PushAlone(Fresh(cap, true, {0, 1, 2}), 0, x);
    s1 := StepPop(BothInPop(s), 1, false);
    s2 := StepPop(s1, 2, false);
    s3 := StepPop(s2, 1, false);
  }
}
