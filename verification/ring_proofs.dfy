/** What every step of the rings keeps, and what that means for their callers. */
module RingProofs {
  import opened Basics
  import opened Ring
  import opened SlotIndex

  // ---- The invariant ---------------------------------------------------------------------------

  /** Slot i waits for the producer of position `sequence`; otherwise it holds position sequence - 1. */
  ghost predicate Free(s: State, i: nat)
    requires s.cap > 0 && i < |s.cells|
  {
    Index(s.cells[i].sequence, s.cap) == i
  }

  ghost predicate CellOk(s: State, i: nat)
    requires s.cap > 0 && i < |s.cells| && |s.put| == s.tail
  {
    var q := s.cells[i].sequence;
    if Free(s, i) then
      && s.head <= q < s.head + s.cap
      && (q >= s.cap ==> q - s.cap in s.released)
      && (if q < s.tail then q in s.writer else s.cells[i].storage == None)
    else
      && q >= 1 && Index(q - 1, s.cap) == i
      && q - 1 < s.tail <= q - 1 + s.cap
      && q - 1 !in s.released
      && s.cells[i].storage == (if q - 1 in s.taken then None else Some(s.put[q - 1]))
  }

  ghost predicate Sized(s: State) {
    && s.cap >= 2 && |s.cells| == s.cap && |s.put| == s.tail
    && s.head <= s.tail <= s.head + s.cap
  }

  ghost predicate ProducerOk(s: State, t: Tid, pc: Pc)
    requires Sized(s) && Producing(pc)
  {
    && pc.pos in s.writer && s.writer[pc.pos] == t && pc.pos < s.tail
    && s.cells[At(s, pc.pos)] == Cell(pc.pos, if pc.PushWrite? then None else Some(s.put[pc.pos]))
    && (pc.PushWrite? ==> s.put[pc.pos] == pc.item)
  }

  ghost predicate ConsumerOk(s: State, t: Tid, pc: Pc)
    requires Sized(s) && Consuming(pc)
  {
    && pc.pos in s.reader && s.reader[pc.pos] == t && pc.pos < s.tail
    && s.cells[At(s, pc.pos)] == Cell(pc.pos + 1, if pc.PopTake? then Some(s.put[pc.pos]) else None)
    && (pc.PopTake? <==> pc.pos !in s.taken)
    && (!pc.PopTake? ==> s.put[pc.pos] == pc.out)
    && (if s.single && !pc.PopRelease? then pc.pos == s.head else pc.pos < s.head)
    && (pc.PopAdvance? ==> s.single)
  }

  ghost predicate ThreadOk(s: State, t: Tid, pc: Pc)
    requires Sized(s)
  {
    && (Producing(pc) ==> ProducerOk(s, t, pc))
    && (Consuming(pc) ==> ConsumerOk(s, t, pc))
    && (s.single && Popping(pc) ==> s.popper == Some(t))
    && (pc.PushSeq? ==> pc.pos <= s.tail)
    && (pc.PushCas? ==> pc.pos <= s.tail && (pc.pos == s.tail ==> s.cells[At(s, pc.pos)].sequence == pc.pos))
    && (pc.PopSeq? ==> pc.pos <= s.head && (s.single ==> pc.pos == s.head && pc.pos !in s.taken))
    && (pc.PopCas? ==> !s.single)
    && (pc.PopCas? ==> pc.pos <= s.head && (pc.pos == s.head ==> s.cells[At(s, pc.pos)].sequence == pc.pos + 1))
    && (pc.PopReload? ==> !s.single)
    && (pc.CountTail? ==> pc.first <= s.head)
    && (pc.EmptySeq? ==> pc.pos <= s.head)
  }

  ghost predicate WriterOk(s: State, p: nat)
    requires p in s.writer
  {
    s.writer[p] in s.pc && Producing(s.pc[s.writer[p]]) && s.pc[s.writer[p]].pos == p
  }

  ghost predicate ReaderOk(s: State, p: nat)
    requires p in s.reader
  {
    s.reader[p] in s.pc && Consuming(s.pc[s.reader[p]]) && s.pc[s.reader[p]].pos == p
  }

  ghost predicate TakenOk(s: State, p: nat)
    requires Sized(s)
  {
    && (p in s.taken ==> p < s.tail && s.taken[p] == s.put[p])
    && (p in s.taken ==> p < s.head || (s.single && p == s.head && p in s.reader))
    && (p in s.released ==> p < s.head)
    && (p < s.head && p !in s.taken ==> p in s.reader)
  }

  ghost predicate CellsOk(s: State)
    requires Sized(s)
  {
    forall i :: 0 <= i < s.cap ==> CellOk(s, i)
  }

  ghost predicate ThreadsOk(s: State)
    requires Sized(s)
  {
    forall t :: t in s.pc ==> ThreadOk(s, t, s.pc[t])
  }

  ghost predicate HistoryOk(s: State)
    requires Sized(s)
  {
    && (forall p :: p in s.writer ==> WriterOk(s, p))
    && (forall p :: p in s.reader ==> ReaderOk(s, p))
    && (forall p: nat :: TakenOk(s, p))
  }

  ghost predicate Inv(s: State) {
    Sized(s) && CellsOk(s) && ThreadsOk(s) && HistoryOk(s)
  }

  lemma InitInv(s: State)
    requires Init(s) && s.cap >= 2
    ensures Inv(s)
  {
  }

  /** No two threads are ever inside the storage of one slot. */
  lemma SlotsExclusive(s: State, t: Tid, u: Tid)
    requires Inv(s) && t in s.pc && u in s.pc && t != u
    requires Owning(s.pc[t]) && Owning(s.pc[u])
    ensures At(s, s.pc[t].pos) != At(s, s.pc[u].pos)
  {
    assert ThreadOk(s, t, s.pc[t]) && ThreadOk(s, u, s.pc[u]);
    NeighbourSlot(s.pc[t].pos, s.cap);
    NeighbourSlot(s.pc[u].pos, s.cap);
  }

  // ---- Each step keeps it ----------------------------------------------------------------------

  /** Time passes from s to s' without touching what thread u, at pc, relies on. */
  ghost predicate Undisturbed(s: State, s': State, pc: Pc)
    requires Sized(s) && Sized(s')
  {
    && s'.cap == s.cap && s'.single == s.single
    && s.head <= s'.head && s.tail <= s'.tail && s.put <= s'.put
    && (Producing(pc) ==> pc.pos in s.writer ==> pc.pos in s'.writer && s'.writer[pc.pos] == s.writer[pc.pos])
    && (Consuming(pc) ==> pc.pos in s.reader ==> pc.pos in s'.reader && s'.reader[pc.pos] == s.reader[pc.pos])
    && (Consuming(pc) ==> (pc.pos in s.taken <==> pc.pos in s'.taken))
    && (Owning(pc) ==> s'.cells[At(s, pc.pos)] == s.cells[At(s, pc.pos)])
    && (pc.PushCas? && pc.pos == s'.tail ==> s'.cells[At(s, pc.pos)].sequence == s.cells[At(s, pc.pos)].sequence)
    && (pc.PopCas? && pc.pos == s'.head ==> s'.cells[At(s, pc.pos)].sequence == s.cells[At(s, pc.pos)].sequence)
    && (s.single && Popping(pc) ==>
          s'.popper == s.popper && s'.head == s.head && (s.head in s.taken <==> s.head in s'.taken))
  }

  lemma ThreadStays(s: State, s': State, u: Tid, pc: Pc)
    requires Sized(s) && Sized(s') && ThreadOk(s, u, pc) && Undisturbed(s, s', pc)
    ensures ThreadOk(s', u, pc)
  {
  }

  lemma CellStays(s: State, s': State, j: nat)
    requires Sized(s) && Sized(s') && s'.cap == s.cap && j < s.cap && CellOk(s, j) && s'.cells[j] == s.cells[j]
    requires s.put <= s'.put && s.head <= s'.head
    requires Free(s, j) ==>
               var q := s.cells[j].sequence;
               s'.head <= q && s.tail <= s'.tail && (q < s'.tail ==> q in s'.writer) && s.released <= s'.released
    requires !Free(s, j) ==>
               var q := s.cells[j].sequence - 1;
               s'.tail <= q + s.cap && q !in s'.released && (q in s.taken <==> q in s'.taken)
    ensures CellOk(s', j)
  {
  }

  /** Steps that only move a thread between pcs outside any slot. */
  lemma QuietMoveKeeps(s: State, t: Tid, pc: Pc, popper: Option<Tid>)
    requires Inv(s) && t in s.pc && !Owning(s.pc[t]) && !Owning(pc)
    requires ThreadOk(s.(popper := popper), t, pc)
    requires popper == s.popper || (forall u :: u in s.pc && s.single ==> !Popping(s.pc[u]))
    ensures Inv(Goto(s, t, pc).(popper := popper))
  {
    hide ThreadOk, Free;
    var s' := Goto(s, t, pc).(popper := popper);
    forall j | 0 <= j < s.cap ensures CellOk(s', j) { assert CellOk(s, j); CellStays(s, s', j); }
    forall u | u in s'.pc ensures ThreadOk(s', u, s'.pc[u]) {
      if u != t { ThreadStays(s, s', u, s.pc[u]); } else { ThreadStays(s.(popper := popper), s', t, pc); }
    }
    forall p: nat ensures TakenOk(s', p) { assert TakenOk(s, p); }
    forall p | p in s.writer ensures WriterOk(s', p) { assert WriterOk(s, p); }
    forall p | p in s.reader ensures ReaderOk(s', p) { assert ReaderOk(s, p); }
  }

  lemma QuietGotoKeeps(s: State, t: Tid, pc: Pc)
    requires Inv(s) && t in s.pc && !Owning(s.pc[t]) && !Owning(pc) && ThreadOk(s, t, pc)
    ensures Inv(Goto(s, t, pc))
  {
    assert s.(popper := s.popper) == s;
    QuietMoveKeeps(s, t, pc, s.popper);
    assert Goto(s, t, pc).(popper := s.popper) == Goto(s, t, pc);
  }

  lemma PushCasCell(s: State, t: Tid, j: nat)
    requires Inv(s) && t in s.pc && s.pc[t].PushCas? && s.tail == s.pc[t].pos && j < s.cap
    ensures Sized(StepPush(s, t, false)) && CellOk(StepPush(s, t, false), j)
  {
    hide HistoryOk, Index;
    assert ThreadOk(s, t, s.pc[t]) && CellOk(s, At(s, s.tail)) && CellOk(s, j);
    if !Free(s, j) { NextLap(s.cells[j].sequence - 1, s.cap); }
    CellStays(s, StepPush(s, t, false), j);
  }

  lemma PushCasHistory(s: State, t: Tid)
    requires Inv(s) && t in s.pc && s.pc[t].PushCas? && s.tail == s.pc[t].pos
    requires Sized(StepPush(s, t, false))
    ensures HistoryOk(StepPush(s, t, false))
  {
    var s' := StepPush(s, t, false);
    forall p: nat ensures TakenOk(s', p) { assert TakenOk(s, p); }
    forall p | p in s'.writer ensures WriterOk(s', p) { assert p != s.tail ==> WriterOk(s, p); }
    forall p | p in s.reader ensures ReaderOk(s', p) { assert ReaderOk(s, p); }
  }

  lemma PushCasKeeps(s: State, t: Tid)
    requires Inv(s) && t in s.pc && s.pc[t].PushCas? && s.tail == s.pc[t].pos
    ensures Inv(StepPush(s, t, false))
  {
    hide HistoryOk, ConsumerOk;
    var s' := StepPush(s, t, false);
    forall j | 0 <= j < s.cap ensures Sized(s') && CellOk(s', j) { PushCasCell(s, t, j); }
    assert ThreadOk(s, t, s.pc[t]) && CellOk(s, At(s, s.tail));
    forall u | u in s'.pc && u != t ensures ThreadOk(s', u, s'.pc[u]) { ThreadStays(s, s', u, s.pc[u]); }
    PushCasHistory(s, t);
  }

  /** The slot a thread owns is nobody else's, nor one that a compare-exchange could still win. */
  lemma OwnSlot(s: State, t: Tid, u: Tid)
    requires Inv(s) && t in s.pc && u in s.pc && t != u && Owning(s.pc[t])
    ensures Owning(s.pc[u]) ==> At(s, s.pc[u].pos) != At(s, s.pc[t].pos)
    ensures s.pc[u].PushCas? && s.pc[u].pos == s.tail && s.cells[At(s, s.tail)].sequence == s.tail
            ==> At(s, s.tail) != At(s, s.pc[t].pos)
  {
    if Owning(s.pc[u]) { SlotsExclusive(s, t, u); }
    assert ThreadOk(s, t, s.pc[t]);
    NeighbourSlot(s.pc[t].pos, s.cap);
  }

  /** A position being written was never taken nor released. */
  lemma WrittenIsNew(s: State, t: Tid)
    requires Inv(s) && t in s.pc && Producing(s.pc[t])
    ensures ProducerOk(s, t, s.pc[t]) && s.pc[t].pos !in s.taken && s.pc[t].pos !in s.released
    ensures s.head <= s.pc[t].pos
  {
    var p := s.pc[t].pos;
    assert ThreadOk(s, t, s.pc[t]) && CellOk(s, At(s, p)) && TakenOk(s, p);
    if p in s.reader { BeingReadIsPublished(s, p); }
  }

  lemma BeingReadIsPublished(s: State, p: nat)
    requires Inv(s) && p in s.reader
    ensures s.cells[At(s, p)].sequence == p + 1
  {
    assert ReaderOk(s, p) && ThreadOk(s, s.reader[p], s.pc[s.reader[p]]);
  }

  lemma FillOwnCell(s: State, t: Tid)
    requires Inv(s) && t in s.pc && Producing(s.pc[t])
    ensures CellOk(StepPush(s, t, false), At(s, s.pc[t].pos))
  {
    hide Index;
    WrittenIsNew(s, t);
    NeighbourSlot(s.pc[t].pos, s.cap);
    assert CellOk(s, At(s, s.pc[t].pos));
  }

  lemma FillCell(s: State, t: Tid, j: nat)
    requires Inv(s) && t in s.pc && Producing(s.pc[t]) && j < s.cap && j != At(s, s.pc[t].pos)
    ensures CellOk(StepPush(s, t, false), j)
  {
    assert CellOk(s, j);
    assert Free(s, j) ==> s.cells[j].sequence != s.pc[t].pos;
    CellStays(s, StepPush(s, t, false), j);
  }

  lemma FillThread(s: State, t: Tid, u: Tid)
    requires Inv(s) && t in s.pc && Producing(s.pc[t]) && u in s.pc && u != t
    ensures ThreadOk(StepPush(s, t, false), u, s.pc[u])
  {
    hide HistoryOk;
    assert ThreadOk(s, t, s.pc[t]) && ThreadOk(s, u, s.pc[u]);
    OwnSlot(s, t, u);
    if s.pc[u].PopCas? { NeighbourSlot(s.pc[u].pos, s.cap); }
    ThreadStays(s, StepPush(s, t, false), u, s.pc[u]);
  }

  lemma FillOwnThread(s: State, t: Tid)
    requires Inv(s) && t in s.pc && Producing(s.pc[t])
    ensures ThreadOk(StepPush(s, t, false), t, StepPush(s, t, false).pc[t])
  {
    assert ThreadOk(s, t, s.pc[t]);
  }

  lemma FillHistory(s: State, t: Tid)
    requires Inv(s) && t in s.pc && Producing(s.pc[t])
    ensures HistoryOk(StepPush(s, t, false))
  {
    var s' := StepPush(s, t, false);
    forall p: nat ensures TakenOk(s', p) { assert TakenOk(s, p); }
    forall p | p in s'.writer ensures WriterOk(s', p) { assert WriterOk(s, p); }
    forall p | p in s.reader ensures ReaderOk(s', p) { assert ReaderOk(s, p); }
  }

  lemma FillKeeps(s: State, t: Tid)
    requires Inv(s) && t in s.pc && Producing(s.pc[t])
    ensures Inv(StepPush(s, t, false))
  {
    var s' := StepPush(s, t, false);
    FillOwnCell(s, t);
    forall j | 0 <= j < s.cap && j != At(s, s.pc[t].pos) ensures CellOk(s', j) { FillCell(s, t, j); }
    forall u | u in s'.pc && u != t ensures ThreadOk(s', u, s'.pc[u]) { FillThread(s, t, u); }
    FillOwnThread(s, t);
    FillHistory(s, t);
  }

  ghost predicate Claims(s: State, t: Tid)
    requires Sized(s) && t in s.pc
  {
    if s.single then s.pc[t].PopSeq? && s.cells[At(s, s.pc[t].pos)].sequence == s.pc[t].pos + 1
    else s.pc[t].PopCas? && s.head == s.pc[t].pos
  }

  lemma ClaimCell(s: State, t: Tid, j: nat)
    requires Inv(s) && t in s.pc && Claims(s, t) && j < s.cap
    ensures Sized(StepPop(s, t, false)) && CellOk(StepPop(s, t, false), j)
  {
    NeighbourSlot(s.head, s.cap);
    assert ThreadOk(s, t, s.pc[t]) && CellOk(s, At(s, s.head)) && CellOk(s, j);
    CellStays(s, StepPop(s, t, false), j);
  }

  lemma ClaimHistory(s: State, t: Tid)
    requires Inv(s) && t in s.pc && Claims(s, t) && Sized(StepPop(s, t, false))
    ensures HistoryOk(StepPop(s, t, false))
  {
    var s' := StepPop(s, t, false);
    assert ThreadOk(s, t, s.pc[t]);
    forall q: nat ensures TakenOk(s', q) { assert TakenOk(s, q); }
    forall q | q in s.writer ensures WriterOk(s', q) { assert WriterOk(s, q); }
    forall q | q in s'.reader ensures ReaderOk(s', q) { assert q != s.head ==> ReaderOk(s, q); }
  }

  lemma ClaimThread(s: State, t: Tid, u: Tid)
    requires Inv(s) && t in s.pc && Claims(s, t) && Sized(StepPop(s, t, false)) && u in s.pc
    ensures var s' := StepPop(s, t, false); ThreadOk(s', u, s'.pc[u])
  {
    hide ReaderOk, WriterOk, Index, Consuming;
    var s' := StepPop(s, t, false);
    NeighbourSlot(s.head, s.cap);
    assert ThreadOk(s, t, s.pc[t]) && ThreadOk(s, u, s.pc[u]) && CellOk(s, At(s, s.head)) && TakenOk(s, s.head);
    if u != t {
      ThreadStays(s, s', u, s.pc[u]);
    }
  }

  /** A consumer wins position p: by the head compare-exchange, or alone by seeing it published. */
  lemma ClaimKeeps(s: State, t: Tid)
    requires Inv(s) && t in s.pc && Claims(s, t)
    ensures Inv(StepPop(s, t, false))
  {
    var s' := StepPop(s, t, false);
    ClaimCell(s, t, 0);
    forall j | 0 <= j < s.cap ensures CellOk(s', j) { ClaimCell(s, t, j); }
    forall u | u in s'.pc ensures ThreadOk(s', u, s'.pc[u]) { ClaimThread(s, t, u); }
    ClaimHistory(s, t);
  }

  lemma DrainOwnCell(s: State, t: Tid)
    requires Inv(s) && t in s.pc && Consuming(s.pc[t])
    ensures s.pc[t].PopTake? ==> s.cells[At(s, s.pc[t].pos)].storage.Some?
    ensures Sized(StepPop(s, t, false)) && CellOk(StepPop(s, t, false), At(s, s.pc[t].pos))
  {
    hide HistoryOk, ProducerOk, Index;
    var p := s.pc[t].pos;
    assert ThreadOk(s, t, s.pc[t]) && CellOk(s, At(s, p));
    NeighbourSlot(p, s.cap);
    NextLap(p, s.cap);
  }

  lemma DrainCell(s: State, t: Tid, j: nat)
    requires Inv(s) && t in s.pc && Consuming(s.pc[t]) && j < s.cap && j != At(s, s.pc[t].pos)
    requires s.pc[t].PopTake? ==> s.cells[At(s, s.pc[t].pos)].storage.Some?
    requires Sized(StepPop(s, t, false))
    ensures CellOk(StepPop(s, t, false), j)
  {
    assert ThreadOk(s, t, s.pc[t]) && CellOk(s, j);
    CellStays(s, StepPop(s, t, false), j);
  }

  lemma DrainThread(s: State, t: Tid, u: Tid)
    requires Inv(s) && t in s.pc && Consuming(s.pc[t]) && u in s.pc && u != t
    requires s.pc[t].PopTake? ==> s.cells[At(s, s.pc[t].pos)].storage.Some?
    ensures ThreadOk(StepPop(s, t, false), u, s.pc[u])
  {
    assert ThreadOk(s, t, s.pc[t]) && ThreadOk(s, u, s.pc[u]);
    OwnSlot(s, t, u);
    ThreadStays(s, StepPop(s, t, false), u, s.pc[u]);
  }

  lemma DrainOwnThread(s: State, t: Tid)
    requires Inv(s) && t in s.pc && Consuming(s.pc[t])
    requires s.pc[t].PopTake? ==> s.cells[At(s, s.pc[t].pos)].storage.Some?
    requires Sized(StepPop(s, t, false))
    ensures ThreadOk(StepPop(s, t, false), t, StepPop(s, t, false).pc[t])
  {
    assert ThreadOk(s, t, s.pc[t]);
  }

  lemma DrainTaken(s: State, t: Tid, q: nat)
    requires Inv(s) && t in s.pc && Consuming(s.pc[t])
    requires s.pc[t].PopTake? ==> s.cells[At(s, s.pc[t].pos)].storage.Some?
    ensures Sized(StepPop(s, t, false)) && TakenOk(StepPop(s, t, false), q)
  {
    hide CellsOk, At;
    assert ThreadOk(s, t, s.pc[t]) && TakenOk(s, q);
  }

  lemma DrainReaders(s: State, t: Tid, q: nat)
    requires Inv(s) && t in s.pc && Consuming(s.pc[t])
    requires s.pc[t].PopTake? ==> s.cells[At(s, s.pc[t].pos)].storage.Some?
    ensures var r := StepPop(s, t, false); q in r.reader ==> ReaderOk(r, q)
  {
    hide CellsOk, At, TakenOk, WriterOk;
    assert ThreadOk(s, t, s.pc[t]) && (q in s.reader ==> ReaderOk(s, q));
  }

  lemma DrainWriters(s: State, t: Tid, q: nat)
    requires Inv(s) && t in s.pc && Consuming(s.pc[t])
    requires s.pc[t].PopTake? ==> s.cells[At(s, s.pc[t].pos)].storage.Some?
    ensures var r := StepPop(s, t, false); q in r.writer ==> WriterOk(r, q)
  {
    hide CellsOk, ThreadsOk, At, TakenOk, ReaderOk;
    assert q in s.writer ==> WriterOk(s, q);
  }

  lemma DrainHistory(s: State, t: Tid)
    requires Inv(s) && t in s.pc && Consuming(s.pc[t])
    requires s.pc[t].PopTake? ==> s.cells[At(s, s.pc[t].pos)].storage.Some?
    ensures Sized(StepPop(s, t, false)) && HistoryOk(StepPop(s, t, false))
  {
    hide TakenOk, ReaderOk, WriterOk, StepPop, CellsOk, ThreadsOk;
    var s' := StepPop(s, t, false);
    forall q: nat ensures Sized(s') && TakenOk(s', q) { DrainTaken(s, t, q); }
    forall q: nat ensures q in s'.reader ==> ReaderOk(s', q) { DrainReaders(s, t, q); }
    forall q: nat ensures q in s'.writer ==> WriterOk(s', q) { DrainWriters(s, t, q); }
    DrainTaken(s, t, 0);
  }

  lemma DrainKeeps(s: State, t: Tid)
    requires Inv(s) && t in s.pc && Consuming(s.pc[t])
    ensures s.pc[t].PopTake? ==> s.cells[At(s, s.pc[t].pos)].storage.Some?
    ensures Inv(StepPop(s, t, false))
  {
    DrainOwnCell(s, t);
    var s' := StepPop(s, t, false);
    forall j | 0 <= j < s.cap && j != At(s, s.pc[t].pos) ensures CellOk(s', j) { DrainCell(s, t, j); }
    forall u | u in s'.pc && u != t ensures ThreadOk(s', u, s'.pc[u]) { DrainThread(s, t, u); }
    DrainOwnThread(s, t);
    DrainHistory(s, t);
  }

  lemma ProbeKeeps(s: State, t: Tid)
    requires Inv(s) && t in s.pc && (s.pc[t].CountTail? || s.pc[t].EmptySeq?)
    ensures Inv(StepProbe(s, t))
  {
    QuietGotoKeeps(s, t, StepProbe(s, t).pc[t]);
  }

  lemma PushLooksOk(s: State, t: Tid, spurious: bool)
    requires Inv(s) && t in s.pc
    requires s.pc[t].PushSeq? || s.pc[t].PushReload? || (s.pc[t].PushCas? && (spurious || s.tail != s.pc[t].pos))
    ensures var s' := StepPush(s, t, spurious);
            s' == Goto(s, t, s'.pc[t]) && !Owning(s'.pc[t]) && ThreadOk(s, t, s'.pc[t])
  {
    assert ThreadOk(s, t, s.pc[t]);
  }

  lemma PushKeeps(s: State, t: Tid, spurious: bool)
    requires Inv(s) && t in s.pc
    requires Producing(s.pc[t]) || s.pc[t].PushSeq? || s.pc[t].PushCas? || s.pc[t].PushReload?
    ensures Inv(StepPush(s, t, spurious))
  {
    if Producing(s.pc[t]) {
      FillKeeps(s, t);
      assert StepPush(s, t, spurious) == StepPush(s, t, false);
    } else if s.pc[t].PushCas? && s.tail == s.pc[t].pos && !spurious {
      PushCasKeeps(s, t);
    } else {
      PushLooksOk(s, t, spurious);
      QuietGotoKeeps(s, t, StepPush(s, t, spurious).pc[t]);
    }
  }

  lemma PopKeeps(s: State, t: Tid, spurious: bool)
    requires Inv(s) && t in s.pc && Popping(s.pc[t])
    requires s.pc[t].PopTake? ==> s.cells[At(s, s.pc[t].pos)].storage.Some?
    ensures Inv(StepPop(s, t, spurious))
  {
    hide CellsOk, HistoryOk, At, Index;
    assert ThreadOk(s, t, s.pc[t]);
    if Consuming(s.pc[t]) {
      DrainKeeps(s, t);
    } else if Claims(s, t) && !(spurious && s.pc[t].PopCas?) {
      ClaimKeeps(s, t);
    } else {
      QuietGotoKeeps(s, t, StepPop(s, t, spurious).pc[t]);
    }
  }

  lemma TakenHead(s: State)
    requires Inv(s)
    ensures s.head in s.taken ==> TakenOk(s, s.head) && ReaderOk(s, s.head)
  {
  }

  lemma CallKeeps(s: State, t: Tid, a: Action)
    requires Inv(s) && Enabled(s, t, a) && !a.Go?
    ensures Inv(Step(s, t, a))
  {
    var s' := Step(s, t, a);
    TakenHead(s);
    QuietMoveKeeps(s, t, s'.pc[t], s'.popper);
    assert s' == Goto(s, t, s'.pc[t]).(popper := s'.popper);
  }

  /** Every step of every thread keeps the invariant. */
  lemma StepKeeps(s: State, t: Tid, a: Action)
    requires Inv(s) && Enabled(s, t, a)
    ensures Inv(Step(s, t, a))
  {
    if !a.Go? { CallKeeps(s, t, a); }
    else if Popping(s.pc[t]) { PopKeeps(s, t, a.spurious); }
    else if s.pc[t].CountTail? || s.pc[t].EmptySeq? { ProbeKeeps(s, t); }
    else { PushKeeps(s, t, a.spurious); }
  }

  lemma StepFixesCap(s: State, t: Tid, a: Action)
    requires Enabled(s, t, a)
    ensures Step(s, t, a).cap == s.cap && Step(s, t, a).single == s.single
  {
    hide StepPop, StepPush;
    if a.Go? && Popping(s.pc[t]) { PopFixesCap(s, t, a.spurious); }
    else if a.Go? && !(s.pc[t].CountTail? || s.pc[t].EmptySeq?) { PushFixesCap(s, t, a.spurious); }
  }

  lemma PopFixesCap(s: State, t: Tid, spurious: bool)
    requires t in s.pc && Popping(s.pc[t]) && Enabled(s, t, Go(spurious))
    ensures StepPop(s, t, spurious).cap == s.cap && StepPop(s, t, spurious).single == s.single
  {
    hide Index, At, Goto;
  }

  lemma PushFixesCap(s: State, t: Tid, spurious: bool)
    requires t in s.pc && !Popping(s.pc[t]) && !s.pc[t].CountTail? && !s.pc[t].EmptySeq? && Enabled(s, t, Go(spurious))
    ensures StepPush(s, t, spurious).cap == s.cap && StepPush(s, t, spurious).single == s.single
  {
    hide Index, At, Goto;
  }

  lemma NextKeeps(s: State, s': State)
    requires Next(s, s')
    ensures s'.cap == s.cap
    ensures Inv(s) ==> Inv(s')
  {
    var t, a :| Enabled(s, t, a) && s' == Step(s, t, a);
    StepFixesCap(s, t, a);
    if Inv(s) { StepKeeps(s, t, a); }
  }

  /** The invariant holds in every state of every run of a ring of two or more slots. */
  lemma {:induction false} RunKeeps(run: seq<State>, k: nat)
    requires IsRun(run) && k < |run|
    ensures run[k].cap == run[0].cap
    ensures run[0].cap >= 2 ==> Inv(run[k])
  {
    hide Inv, Init, Next;
    if k == 0 {
      if run[0].cap >= 2 { InitInv(run[0]); }
    } else {
      RunKeeps(run, k - 1);
      NextKeeps(run[k - 1], run[k - 1 + 1]);
    }
  }

  lemma ReachableInv(s: State)
    requires Reachable(s) && s.cap >= 2
    ensures Inv(s)
  {
    var run :| IsRun(run) && run[|run| - 1] == s;
    RunKeeps(run, |run| - 1);
  }
}
