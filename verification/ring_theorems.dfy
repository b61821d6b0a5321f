/** What the rings promise, over every interleaving of any number of threads. */
module RingTheorems {
  import opened Basics
  import opened Ring
  import opened RingProofs
  import opened SlotIndex

  /** The abstract queue: the positions won at the tail and not yet at the head, oldest first. */
  ghost function Queue(s: State): seq<Elem>
    requires Sized(s)
  {
    s.put[s.head..s.tail]
  }

  ghost predicate PushWins(s: State, t: Tid, a: Action)
    requires t in s.pc
  {
    a.Go? && !a.spurious && s.pc[t].PushCas? && s.tail == s.pc[t].pos
  }

  ghost predicate PopWins(s: State, t: Tid, a: Action)
    requires t in s.pc
  {
    a.Go? && (s.pc[t].PopAdvance? || (!a.spurious && s.pc[t].PopCas? && s.head == s.pc[t].pos))
  }

  /** A ring of two or more slots is a FIFO queue of at most `cap` elements, for all interleavings. */
  lemma RefinesFifo(s: State, t: Tid, a: Action)
    requires Reachable(s) && s.cap >= 2 && Enabled(s, t, a)
    ensures Sized(s) && Sized(Step(s, t, a))
    ensures PushWins(s, t, a) ==>
              |Queue(s)| < s.cap && Queue(Step(s, t, a)) == Queue(s) + [s.pc[t].item]
    ensures PopWins(s, t, a) ==>
              Queue(s) != [] && Queue(Step(s, t, a)) == Queue(s)[1..]
              && (s.pc[t].PopAdvance? ==> s.single && Queue(s)[0] == s.pc[t].out)
              && (!s.pc[t].PopAdvance? ==> Step(s, t, a).pc[t] == PopTake(s.head) && Queue(s)[0] == s.put[s.head])
    ensures !PushWins(s, t, a) && !PopWins(s, t, a) ==> Queue(Step(s, t, a)) == Queue(s)
  {
    ReachableInv(s);
    StepKeeps(s, t, a);
    WinIsLegal(s, t, a);
    WinsMoveEnds(s, t, a);
    QueueMoves(s, Step(s, t, a), if PushWins(s, t, a) then [s.pc[t].item] else [], if PopWins(s, t, a) then 1 else 0);
  }

  lemma WinIsLegal(s: State, t: Tid, a: Action)
    requires Inv(s) && Enabled(s, t, a)
    ensures s.pc[t].PopAdvance? ==> s.pc[t].pos == s.head && s.single && Queue(s) != [] && Queue(s)[0] == s.pc[t].out
    ensures PopWins(s, t, a) && !s.pc[t].PopAdvance? ==> Queue(s) != [] && Step(s, t, a).pc[t] == PopTake(s.head)
    ensures PopWins(s, t, a) ==> !PushWins(s, t, a)
    ensures PushWins(s, t, a) ==> |Queue(s)| < s.cap
  {
    assert ThreadOk(s, t, s.pc[t]);
    if PopWins(s, t, a) { HeadSlot(s); }
    if PushWins(s, t, a) { assert CellOk(s, At(s, s.tail)); }
  }

  lemma QueueMoves(s: State, s': State, pushed: seq<Elem>, popped: nat)
    requires Sized(s) && Sized(s') && EndsMove(s, s', pushed, popped) && popped <= |Queue(s)|
    ensures Queue(s') == (Queue(s) + pushed)[popped..]
  {
  }

  ghost predicate EndsMove(s: State, s': State, pushed: seq<Elem>, popped: nat) {
    s'.tail == s.tail + |pushed| && s'.put == s.put + pushed && s'.head == s.head + popped
  }

  lemma PushMovesTail(s: State, t: Tid, spurious: bool)
    requires s.cap > 0 && |s.cells| == s.cap && t in s.pc
    requires Producing(s.pc[t]) || s.pc[t].PushSeq? || s.pc[t].PushCas? || s.pc[t].PushReload?
    ensures EndsMove(s, StepPush(s, t, spurious), if PushWins(s, t, Go(spurious)) then [s.pc[t].item] else [], 0)
  {
  }

  lemma PopMovesHead(s: State, t: Tid, spurious: bool)
    requires s.cap > 0 && |s.cells| == s.cap && t in s.pc && Popping(s.pc[t])
    requires s.pc[t].PopTake? ==> s.cells[At(s, s.pc[t].pos)].storage.Some?
    requires s.pc[t].PopAdvance? ==> s.pc[t].pos == s.head
    ensures EndsMove(s, StepPop(s, t, spurious), [], if PopWins(s, t, Go(spurious)) then 1 else 0)
  {
  }

  lemma WinsMoveEnds(s: State, t: Tid, a: Action)
    requires Enabled(s, t, a) && (s.pc[t].PopAdvance? ==> s.pc[t].pos == s.head)
    ensures EndsMove(s, Step(s, t, a), if PushWins(s, t, a) then [s.pc[t].item] else [],
                     if PopWins(s, t, a) then 1 else 0)
  {
    if a.Go? {
      if Popping(s.pc[t]) { PopMovesHead(s, t, a.spurious); }
      else if !(s.pc[t].CountTail? || s.pc[t].EmptySeq?) { PushMovesTail(s, t, a.spurious); }
    }
  }

  /** A consumer moves out exactly the element put at its position, always finds it there, and no
      position is ever taken twice. */
  lemma TakesEachPositionOnce(s: State, t: Tid)
    requires Reachable(s) && s.cap >= 2 && t in s.pc
    ensures Sized(s)
    ensures s.pc[t].PopTake? ==>
              var p := s.pc[t].pos;
              p < s.tail && p !in s.taken && s.cells[At(s, p)].storage == Some(s.put[p])
    ensures s.pc[t].PopAdvance? || s.pc[t].PopRelease? ==>
              s.pc[t].pos < s.tail && s.pc[t].out == s.put[s.pc[t].pos]
    ensures s.pc[t].PushWrite? ==> s.cells[At(s, s.pc[t].pos)].storage == None
  {
    ReachableInv(s);
    assert ThreadOk(s, t, s.pc[t]);
  }

  // ---- What push and pop report ------------------------------------------------------------------

  /** A pop that has taken a position goes on with it, and, on the step that hands the slot back, returns the
      element put there. A pop takes the position at the head, or returns nothing and changes nothing. */
  ghost predicate PopReports(s: State, r: State, t: Tid) {
    && Sized(s) && t in s.pc && t in r.pc && var pc, pc' := s.pc[t], r.pc[t];
    && (Consuming(pc) && !pc.PopRelease? ==> Consuming(pc') && pc'.pos == pc.pos)
    && (pc.PopRelease? ==> pc.pos < s.tail && pc' == Popped(Some(s.put[pc.pos])) && pc.pos in r.released)
    && (!Consuming(pc) && Consuming(pc') ==> pc' == PopTake(s.head))
    && (!Consuming(pc) && pc'.Popped? ==> pc.PopSeq? && r == Goto(s, t, Popped(None)))
  }

  /** A push that has won a position goes on with it, and returns true on the step that publishes its element
      there. A push wins the position at the tail, or returns false and changes nothing; its item is never
      exchanged for another. */
  ghost predicate PushReports(s: State, r: State, t: Tid) {
    && Sized(s) && t in s.pc && t in r.pc && var pc, pc' := s.pc[t], r.pc[t];
    && (pc.PushWrite? ==> pc' == PushPublish(pc.pos))
    && (pc.PushPublish? ==>
          && pc.pos < s.tail && pc' == Pushed(true)
          && |r.cells| == s.cap && r.cells[At(s, pc.pos)] == Cell(pc.pos + 1, Some(s.put[pc.pos])))
    && (!Producing(pc) && Producing(pc') ==> WaitsToWin(pc) && pc' == PushWrite(pc.item, s.tail))
    && (!Producing(pc) && pc'.Pushed? ==> pc.PushSeq? && r == Goto(s, t, Pushed(false)))
    && (WaitsToWin(pc) && !pc'.Pushed? ==> (WaitsToWin(pc') || pc'.PushWrite?) && pc'.item == pc.item)
    && (!AtRest(pc) && WaitsToWin(pc') ==> WaitsToWin(pc))
  }

  predicate WaitsToWin(pc: Pc) { pc.PushSeq? || pc.PushCas? || pc.PushReload? }

  lemma StepPopReports(s: State, t: Tid, spurious: bool)
    requires Inv(s) && t in s.pc && Popping(s.pc[t])
    requires s.pc[t].PopTake? ==> s.cells[At(s, s.pc[t].pos)].storage.Some?
    ensures PopReports(s, StepPop(s, t, spurious), t)
  {
    hide CellsOk, HistoryOk, Index;
    assert ThreadOk(s, t, s.pc[t]);
  }

  lemma StepPushReports(s: State, t: Tid, spurious: bool)
    requires Inv(s) && t in s.pc && (Producing(s.pc[t]) || WaitsToWin(s.pc[t]))
    ensures PushReports(s, StepPush(s, t, spurious), t)
  {
    hide CellsOk, HistoryOk, Index;
    assert ThreadOk(s, t, s.pc[t]);
  }

  /** A step moves the thread that takes it. */
  ghost predicate MovesOnly(s: State, r: State, t: Tid) { t in r.pc && r.pc == s.pc[t := r.pc[t]] }

  /** In every interleaving a pop that takes a position returns the element put there, and any other pop that
      returns has found nothing and taken nothing. */
  lemma PopReturnsTheElement(s: State, t: Tid, a: Action)
    requires Reachable(s) && s.cap >= 2 && Enabled(s, t, a)
    ensures PopReports(s, Step(s, t, a), t) && MovesOnly(s, Step(s, t, a), t)
    ensures a.CallPop? ==> Step(s, t, a).pc == s.pc[t := PopSeq(s.head)]
  {
    hide StepPush, StepPop, Inv, Reachable;
    ReachableInv(s);
    assert Sized(s) by { InvSized(s); }
    if a.Go? && Popping(s.pc[t]) {
      StepPopReports(s, t, a.spurious);
      PopMovesOne(s, t, a.spurious);
    } else if a.Go? && (Producing(s.pc[t]) || WaitsToWin(s.pc[t])) {
      PushMovesOne(s, t, a.spurious);
    }
  }

  /** In every interleaving a push returns true on the step that publishes its item, and false only without
      having won a position. */
  lemma PushReportsTheWin(s: State, t: Tid, a: Action)
    requires Reachable(s) && s.cap >= 2 && Enabled(s, t, a)
    ensures PushReports(s, Step(s, t, a), t)
    ensures a.CallPush? ==> Step(s, t, a).pc == s.pc[t := PushSeq(a.item, s.tail)]
  {
    hide StepPush, StepPop, Inv, Reachable;
    ReachableInv(s);
    assert Sized(s) by { InvSized(s); }
    if a.Go? && Popping(s.pc[t]) {
      PopMovesOne(s, t, a.spurious);
    } else if a.Go? && (Producing(s.pc[t]) || WaitsToWin(s.pc[t])) {
      StepPushReports(s, t, a.spurious);
    }
  }

  lemma InvSized(s: State)
    requires Inv(s)
    ensures Sized(s)
  {
  }

  lemma PopMovesOne(s: State, t: Tid, spurious: bool)
    requires s.cap > 0 && |s.cells| == s.cap && t in s.pc && Popping(s.pc[t])
    requires s.pc[t].PopTake? ==> s.cells[At(s, s.pc[t].pos)].storage.Some?
    ensures var r := StepPop(s, t, spurious);
            MovesOnly(s, r, t) && !Producing(r.pc[t]) && !WaitsToWin(r.pc[t]) && !r.pc[t].Pushed?
  {
    hide Index, At;
    if Consuming(s.pc[t]) { ConsumerMovesOne(s, t, spurious); }
    else if s.pc[t].PopCas? { WinnerTakesOne(s, t, spurious); }
  }

  lemma WinnerTakesOne(s: State, t: Tid, spurious: bool)
    requires s.cap > 0 && |s.cells| == s.cap && t in s.pc && s.pc[t].PopCas?
    ensures var r := StepPop(s, t, spurious);
            MovesOnly(s, r, t) && !Producing(r.pc[t]) && !WaitsToWin(r.pc[t]) && !r.pc[t].Pushed?
  {
    hide Index, At;
  }

  lemma ConsumerMovesOne(s: State, t: Tid, spurious: bool)
    requires s.cap > 0 && |s.cells| == s.cap && t in s.pc && Consuming(s.pc[t])
    requires s.pc[t].PopTake? ==> s.cells[At(s, s.pc[t].pos)].storage.Some?
    ensures var r := StepPop(s, t, spurious);
            MovesOnly(s, r, t) && !Producing(r.pc[t]) && !WaitsToWin(r.pc[t]) && !r.pc[t].Pushed?
  {
    hide Index, At;
  }

  lemma PushMovesOne(s: State, t: Tid, spurious: bool)
    requires s.cap > 0 && |s.cells| == s.cap && t in s.pc
    requires Producing(s.pc[t]) || WaitsToWin(s.pc[t])
    ensures var r := StepPush(s, t, spurious);
            MovesOnly(s, r, t) && !Consuming(r.pc[t]) && !r.pc[t].Popped?
  {
    hide Index, At;
    if !s.pc[t].PushSeq? { WinnerMovesOne(s, t, spurious); }
  }

  lemma WinnerMovesOne(s: State, t: Tid, spurious: bool)
    requires s.cap > 0 && |s.cells| == s.cap && t in s.pc
    requires Producing(s.pc[t]) || s.pc[t].PushCas? || s.pc[t].PushReload?
    ensures var r := StepPush(s, t, spurious);
            MovesOnly(s, r, t) && !Consuming(r.pc[t]) && !r.pc[t].Popped?
  {
    hide Index, At;
  }

  /** The elements taken so far are elements of the put sequence at their own positions; when no
      thread is inside a slot they are exactly its first `head` ones, and the rest is published. */
  lemma TakenArePrefixOfPut(s: State)
    requires Reachable(s) && s.cap >= 2
    ensures Sized(s)
    ensures forall p: nat :: p in s.taken ==> p <= s.head && p < s.tail && s.taken[p] == s.put[p]
    ensures (forall t :: t in s.pc ==> !Owning(s.pc[t])) ==>
              && (forall p: nat :: p in s.taken <==> p < s.head)
              && (forall p :: s.head <= p < s.tail ==> s.cells[At(s, p)] == Cell(p + 1, Some(s.put[p])))
  {
    ReachableInv(s);
    forall p: nat | p in s.taken ensures p <= s.head && p < s.tail && s.taken[p] == s.put[p] {
      assert TakenOk(s, p);
    }
    if forall t :: t in s.pc ==> !Owning(s.pc[t]) {
      forall p: nat ensures p in s.taken <==> p < s.head {
        assert TakenOk(s, p);
        if p in s.reader { InsideSomeSlot(s, p); }
      }
      forall p | s.head <= p < s.tail ensures s.cells[At(s, p)] == Cell(p + 1, Some(s.put[p])) {
        QueuedSlot(s, p);
        if p in s.writer { InsideSomeSlot(s, p); }
      }
    }
  }

  lemma InsideSomeSlot(s: State, p: nat)
    requires Inv(s) && (p in s.reader || p in s.writer)
    ensures exists t :: t in s.pc && Owning(s.pc[t])
  {
    if p in s.reader { assert ReaderOk(s, p); } else { assert WriterOk(s, p); }
  }

  /** The slot of a queued position is either still being written or holds the element. */
  lemma QueuedSlot(s: State, p: nat)
    requires Inv(s) && s.head <= p < s.tail
    ensures if p in s.writer then s.cells[At(s, p)].sequence == p
            else s.cells[At(s, p)] == Cell(p + 1, if p in s.taken then None else Some(s.put[p]))
  {
    var i := At(s, p);
    assert CellOk(s, i);
    var q := if Free(s, i) then s.cells[i].sequence else s.cells[i].sequence - 1;
    if q < p { LapGap(q, p, s.cap); }
    if p < q { LapGap(p, q, s.cap); }
    if p in s.writer { assert WriterOk(s, p) && ThreadOk(s, s.writer[p], s.pc[s.writer[p]]); }
  }

  /** The slot of the next position to win is free, or one lap behind. */
  lemma TailSlot(s: State)
    requires Inv(s)
    ensures var n := s.cells[At(s, s.tail)].sequence;
            if s.tail >= s.cap && s.tail - s.cap !in s.released then n < s.tail else n == s.tail
  {
    var i := At(s, s.tail);
    assert CellOk(s, i);
    var q := if Free(s, i) then s.cells[i].sequence else s.cells[i].sequence - 1;
    if q < s.tail {
      LapGap(q, s.tail, s.cap);
      assert TakenOk(s, q);
    }
    if s.tail < q { LapGap(s.tail, q, s.cap); }
  }

  /** push returns false exactly when its tail is current and position tail - cap, one lap back in
      the same slot, has not been handed back by a consumer at that moment. */
  lemma PushRefusesOnlyWhenFull(s: State, t: Tid, spurious: bool)
    requires Reachable(s) && s.cap >= 2 && t in s.pc && s.pc[t].PushSeq?
    ensures Sized(s)
    ensures StepPush(s, t, spurious).pc[t] == Pushed(false) <==>
              s.pc[t].pos == s.tail && s.tail >= s.cap && s.tail - s.cap !in s.released
  {
    ReachableInv(s);
    var p := s.pc[t].pos;
    assert ThreadOk(s, t, s.pc[t]);
    TailSlot(s);
    if p < s.tail { OldSlot(s, p); }
  }

  /** A stale tail never makes a slot look full. */
  lemma OldSlot(s: State, p: nat)
    requires Inv(s) && p < s.tail
    ensures s.cells[At(s, p)].sequence >= p
  {
    var i := At(s, p);
    assert CellOk(s, i);
    var q := if Free(s, i) then s.cells[i].sequence else s.cells[i].sequence - 1;
    if q < p { LapGap(q, p, s.cap); }
  }

  /** pop reports an empty queue exactly when its head is current and the queue is empty, or its oldest
      element has been given a position but is not published yet. */
  lemma PopReportsEmptyHonestly(s: State, t: Tid, spurious: bool)
    requires Reachable(s) && s.cap >= 2 && t in s.pc && s.pc[t].PopSeq?
    ensures Sized(s)
    ensures StepPop(s, t, spurious).pc[t] == Popped(None) <==>
              s.pc[t].pos == s.head && (Queue(s) == [] || s.head in s.writer)
  {
    ReachableInv(s);
    assert ThreadOk(s, t, s.pc[t]);
    HeadSlot(s);
    if s.pc[t].pos < s.head { PassedSlot(s, s.pc[t].pos); }
  }

  lemma HeadSlot(s: State)
    requires Inv(s)
    ensures var n := s.cells[At(s, s.head)].sequence;
            if s.head == s.tail || s.head in s.writer then n < s.head + 1 else n == s.head + 1
  {
    if s.head < s.tail {
      QueuedSlot(s, s.head);
    } else {
      var i := At(s, s.head);
      assert CellOk(s, i);
      if !Free(s, i) { LapGap(s.cells[i].sequence - 1, s.head, s.cap); }
      else if s.head < s.cells[i].sequence { LapGap(s.head, s.cells[i].sequence, s.cap); }
    }
  }

  /** Once the head has passed a position its slot never looks unpublished for it again. */
  lemma PassedSlot(s: State, p: nat)
    requires Inv(s) && p < s.head
    ensures s.cells[At(s, p)].sequence >= p + 1
  {
    var i := At(s, p);
    assert CellOk(s, i);
    var q := if Free(s, i) then s.cells[i].sequence else s.cells[i].sequence - 1;
    if q < p { LapGap(q, p, s.cap); }
  }

  /** count() never wraps, never reports fewer elements than the queue holds at its second load, and
      so a count of zero means that the queue was empty then: what settleToken's recheck rests on. It reports
      at most what has been pushed since its head was current, and is exact when no pop came in between. */
  lemma CountNeverUnderestimates(s: State, t: Tid)
    requires Reachable(s) && s.cap >= 2 && t in s.pc && s.pc[t].CountTail?
    ensures Sized(s) && s.tail >= s.pc[t].first
    ensures StepProbe(s, t).pc[t].Counted? && |Queue(s)| <= StepProbe(s, t).pc[t].n <= s.cap
    ensures StepProbe(s, t).pc[t].n == 0 ==> Queue(s) == []
    ensures StepProbe(s, t).pc[t].n <= s.tail - s.pc[t].first
    ensures s.pc[t].first == s.head ==> StepProbe(s, t).pc[t].n == |Queue(s)|
  {
    ReachableInv(s);
    assert ThreadOk(s, t, s.pc[t]);
  }

  /** empty() is exact about the head it loaded: when that head is current, it answers true exactly
      when a pop would. */
  lemma EmptyAgreesWithPop(s: State, t: Tid)
    requires Reachable(s) && s.cap >= 2 && t in s.pc && s.pc[t].EmptySeq?
    ensures Sized(s)
    ensures s.pc[t].pos == s.head ==>
              (StepProbe(s, t).pc[t] == ProbedEmpty(true) <==> Queue(s) == [] || s.head in s.writer)
    ensures Queue(s) == [] ==> StepProbe(s, t).pc[t] == ProbedEmpty(true) || s.pc[t].pos < s.head
  {
    ReachableInv(s);
    assert ThreadOk(s, t, s.pc[t]);
    HeadSlot(s);
  }

  /** No two threads of a reachable ring are inside one slot's storage. */
  lemma StorageIsExclusive(s: State, t: Tid, u: Tid)
    requires Reachable(s) && s.cap >= 2 && t in s.pc && u in s.pc && t != u
    requires Owning(s.pc[t]) && Owning(s.pc[u])
    ensures At(s, s.pc[t].pos) != At(s, s.pc[u].pos)
  {
    ReachableInv(s);
    SlotsExclusive(s, t, u);
  }
}
