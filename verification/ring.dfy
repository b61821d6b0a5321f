/** The slot of a position, pos % capacity, and the facts about laps that the rings rest on. */
module SlotIndex {
  import opened Basics

  /** pos % n, counted down lap by lap so that proofs about it stay linear. */
  function Index(pos: nat, n: nat): (i: nat)
    requires n > 0
    ensures i < n
  {
    if pos < n then pos else Index(pos - n, n)
  }

  lemma {:induction false} IndexIsRemainder(pos: nat, n: nat)
    requires n > 0
    ensures Index(pos, n) == pos % n
  {
    if pos < n {
      Remainder(pos, n, 0, pos);
    } else {
      IndexIsRemainder(pos - n, n);
      Remainder(pos, n, (pos - n) / n + 1, (pos - n) % n);
    }
  }

  lemma NextLap(p: nat, n: nat)
    requires n > 0
    ensures Index(p + n, n) == Index(p, n)
  {
  }

  /** Two positions of one slot are at least a lap apart. */
  lemma {:induction false} LapGap(a: nat, b: nat, n: nat)
    requires n > 0 && a < b && Index(a, n) == Index(b, n)
    ensures a + n <= b
  {
    if a >= n { LapGap(a - n, b - n, n); }
  }

  lemma NeighbourSlot(p: nat, n: nat)
    requires n >= 2
    ensures Index(p + 1, n) != Index(p, n)
  {
    if Index(p + 1, n) == Index(p, n) { LapGap(p, p + 1, n); }
  }
}

/**
The two bounded lock-free rings, LockFreeMpmcQueue and LockFreeMpscQueue, as one step machine.
Every load, compare-exchange, element construction, element move-out and store is its own step, and
the steps of any number of threads interleave freely. The machine is multi-consumer when `single` is
false and follows the single-consumer `pop` when `single` is true; `push` is the same code in both.
Positions are unbounded naturals.
*/
module Ring {
  import opened Basics
  import opened SlotIndex

  /** What a ring carries: actor runtimes in the dispatcher, messages in a mailbox. */
  type Elem(!new)

  type Tid = nat

  /** One slot: its sequence number, and its storage, which holds a live element or raw bytes. */
  datatype Cell = Cell(sequence: nat, storage: Option<Elem>)

  /** Where a thread is: the constructor names the step it takes next, or the result it returned. */
  datatype Pc =
    | Ready
    | PushSeq(item: Elem, pos: nat)      // tail loaded: load the slot's sequence
    | PushCas(item: Elem, pos: nat)      // sequence was pos: compare-exchange tail
    | PushReload(item: Elem)             // sequence was ahead: load tail again
    | PushWrite(item: Elem, pos: nat)    // position won: construct the element
    | PushPublish(pos: nat)           // element constructed: store sequence pos + 1
    | PopSeq(pos: nat)                // head loaded: load the slot's sequence
    | PopCas(pos: nat)                // multi-consumer, sequence was pos + 1: compare-exchange head
    | PopReload                       // multi-consumer, sequence was ahead: load head again
    | PopTake(pos: nat)               // move the element out and destroy it
    | PopAdvance(pos: nat, out: Elem)    // single-consumer: store head
    | PopRelease(pos: nat, out: Elem)    // store sequence pos + capacity
    | CountTail(first: nat)           // count(): head loaded, load tail
    | EmptySeq(pos: nat)              // empty(): head loaded, load the slot's sequence
    | Pushed(ok: bool)
    | Popped(result: Option<Elem>)
    | Counted(n: nat)
    | ProbedEmpty(isEmpty: bool)

  datatype Action = CallPush(item: Elem) | CallPop | CallCount | CallEmpty | Go(spurious: bool)

  /**
  Shared memory, the threads, and history variables that no step reads: the elements in the order
  their positions were won at the tail (put), the element moved out of each position (taken), the
  positions whose slot was handed back to producers (released), and which thread is inside each
  position's slot (writer, reader) or inside pop (popper).
  */
  datatype State = State(
    cap: nat, single: bool,
    head: nat, tail: nat, cells: seq<Cell>,
    pc: map<Tid, Pc>,
    put: seq<Elem>, taken: map<nat, Elem>, released: set<nat>,
    writer: map<nat, Tid>, reader: map<nat, Tid>, popper: Option<Tid>)

  predicate AtRest(pc: Pc) {
    pc.Ready? || pc.Pushed? || pc.Popped? || pc.Counted? || pc.ProbedEmpty?
  }

  predicate Producing(pc: Pc) { pc.PushWrite? || pc.PushPublish? }

  predicate Consuming(pc: Pc) { pc.PopTake? || pc.PopAdvance? || pc.PopRelease? }

  predicate Popping(pc: Pc) { pc.PopSeq? || pc.PopCas? || pc.PopReload? || Consuming(pc) }

  predicate Owning(pc: Pc) { Producing(pc) || Consuming(pc) }

  function At(s: State, pos: nat): (i: nat)
    requires s.cap > 0
    ensures i < s.cap
  {
    Index(pos, s.cap)
  }

  ghost predicate Init(s: State) {
    && s.cap > 0 && s.head == 0 && s.tail == 0
    && |s.cells| == s.cap
    && (forall i :: 0 <= i < s.cap ==> s.cells[i] == Cell(i, None))
    && (forall t :: t in s.pc ==> s.pc[t] == Ready)
    && s.put == [] && s.taken == map[] && s.released == {}
    && s.writer == map[] && s.reader == map[] && s.popper == None
  }

  ghost predicate Enabled(s: State, t: Tid, a: Action) {
    && s.cap > 0 && |s.cells| == s.cap && t in s.pc
    && (a.Go? <==> !AtRest(s.pc[t]))
    // the single-consumer ring is used by one popping thread at a time
    && (a.CallPop? && s.single ==> forall u :: u in s.pc ==> !Popping(s.pc[u]))
    // an element is moved out of constructed storage only
    && (s.pc[t].PopTake? ==> s.cells[At(s, s.pc[t].pos)].storage.Some?)
  }

  function Goto(s: State, t: Tid, pc: Pc): (r: State)
    ensures r.cap == s.cap && r.single == s.single
  {
    s.(pc := s.pc[t := pc])
  }

  function StepPush(s: State, t: Tid, spurious: bool): State
    requires s.cap > 0 && |s.cells| == s.cap && t in s.pc
    requires Producing(s.pc[t]) || s.pc[t].PushSeq? || s.pc[t].PushCas? || s.pc[t].PushReload?
  {
    match s.pc[t]
    case PushSeq(item, pos) =>
      var seqno := s.cells[At(s, pos)].sequence;
      if seqno == pos then Goto(s, t, PushCas(item, pos))
      else if seqno < pos then Goto(s, t, Pushed(false))
      else Goto(s, t, PushReload(item))
    case PushReload(item) => Goto(s, t, PushSeq(item, s.tail))
    case PushCas(item, pos) =>
      if s.tail == pos && !spurious
      then Goto(s, t, PushWrite(item, pos))
        .(tail := pos + 1, put := s.put + [item], writer := s.writer[pos := t])
      else Goto(s, t, PushSeq(item, s.tail))
    case PushWrite(item, pos) =>
      var c := s.cells[At(s, pos)];
      Goto(s, t, PushPublish(pos)).(cells := s.cells[At(s, pos) := c.(storage := Some(item))])
    case PushPublish(pos) =>
      var c := s.cells[At(s, pos)];
      Goto(s, t, Pushed(true))
        .(cells := s.cells[At(s, pos) := c.(sequence := pos + 1)], writer := s.writer - {pos})
  }

  function StepPop(s: State, t: Tid, spurious: bool): State
    requires s.cap > 0 && |s.cells| == s.cap && t in s.pc
    requires Popping(s.pc[t])
    requires s.pc[t].PopTake? ==> s.cells[At(s, s.pc[t].pos)].storage.Some?
  {
    match s.pc[t]
    case PopSeq(pos) =>
      var seqno := s.cells[At(s, pos)].sequence;
      if seqno == pos + 1 then
        if s.single then Goto(s, t, PopTake(pos)).(reader := s.reader[pos := t])
        else Goto(s, t, PopCas(pos))
      else if s.single || seqno < pos + 1 then Goto(s, t, Popped(None))
      else Goto(s, t, PopReload)
    case PopReload => Goto(s, t, PopSeq(s.head))
    case PopCas(pos) =>
      if s.head == pos && !spurious
      then Goto(s, t, PopTake(pos)).(head := pos + 1, reader := s.reader[pos := t])
      else Goto(s, t, PopSeq(s.head))
    case PopTake(pos) =>
      var c := s.cells[At(s, pos)];
      var v := c.storage.value;
      Goto(s, t, if s.single then PopAdvance(pos, v) else PopRelease(pos, v))
        .(cells := s.cells[At(s, pos) := c.(storage := None)], taken := s.taken[pos := v])
    case PopAdvance(pos, v) => Goto(s, t, PopRelease(pos, v)).(head := pos + 1)
    case PopRelease(pos, v) =>
      var c := s.cells[At(s, pos)];
      Goto(s, t, Popped(Some(v)))
        .(cells := s.cells[At(s, pos) := c.(sequence := pos + s.cap)],
          released := s.released + {pos}, reader := s.reader - {pos})
  }

  function StepProbe(s: State, t: Tid): State
    requires s.cap > 0 && |s.cells| == s.cap && t in s.pc
    requires s.pc[t].CountTail? || s.pc[t].EmptySeq?
  {
    match s.pc[t]
    case CountTail(first) =>
      // t - h is unsigned in the source; the invariant shows that it never wraps
      var reserved := if s.tail >= first then s.tail - first else s.cap;
      Goto(s, t, Counted(if reserved < s.cap then reserved else s.cap))
    case EmptySeq(pos) => Goto(s, t, ProbedEmpty(s.cells[At(s, pos)].sequence != pos + 1))
  }

  ghost function Step(s: State, t: Tid, a: Action): State
    requires Enabled(s, t, a)
  {
    match a
    case CallPush(item) => Goto(s, t, PushSeq(item, s.tail))
    case CallPop => Goto(s, t, PopSeq(s.head)).(popper := Some(t))
    case CallCount => Goto(s, t, CountTail(s.head))
    case CallEmpty => Goto(s, t, EmptySeq(s.head))
    case Go(spurious) =>
      if Popping(s.pc[t]) then StepPop(s, t, spurious)
      else if s.pc[t].CountTail? || s.pc[t].EmptySeq? then StepProbe(s, t)
      else StepPush(s, t, spurious)
  }

  ghost predicate Next(s: State, s': State) {
    exists t: Tid, a: Action :: Enabled(s, t, a) && s' == Step(s, t, a)
  }

  ghost predicate IsRun(run: seq<State>) {
    && |run| > 0 && Init(run[0])
    && forall k :: 0 <= k < |run| - 1 ==> Next(run[k], run[k + 1])
  }

  ghost predicate Reachable(s: State) {
    exists run :: IsRun(run) && run[|run| - 1] == s
  }
}
