/**
The execution-token protocol of WorkDispatcher, ActorRuntime and Worker as a step machine: one step
for each atomic load, store, exchange, fetch-add, queue push or pop, and each locked list operation,
by any number of producer threads and workers, in any interleaving.

Dispatcher queues and mailboxes are atomic bounded queues here (module RingTheorems says how far the
rings are that). A push may also fail although there is room, unless `strict` is set; a pop may fail
although there is an element; a count of a non-empty answer may be stale, a count of zero may not.
*/
module Token {
  import opened Basics

  type Tid = nat
  type Actor = nat

  function Slot(a: Actor): (i: nat)
    ensures i < MAX_ACTORS
  {
    a % MAX_ACTORS
  }

  /** Where a thread is inside ActorRuntime::enqueue and WorkDispatcher::dispatch. */
  datatype Send =
    | NoSend
    | Pushed(actor: Actor)        // message in the mailbox: exchange the slot
    | Won(actor: Actor)           // slot exchanged 0 -> 1: push an entry
    | Counting                    // entry pushed: add to pendingWork
    | SendOverflow(actor: Actor)  // push failed: append to the pended list

  /** Where a worker is inside runLoop, acquire, run, settleToken and drainPendedActor. */
  datatype Work =
    | Top                         // loop condition: load the worker's running flag
    | TopDraining                 // loop condition: load draining
    | AcqOwn                      // acquire: pop the own queue
    | AcqRunning                  // acquire loop condition: load running
    | AcqDraining                 // acquire loop condition: load draining
    | AcqDrainCheck               // acquire loop body: load draining
    | AcqPendingCheck             // acquire loop body: load pendingWork
    | AcqTake                     // spin, park or steal: try a pop
    | Begin(actor: Actor)         // run: load stopped
    | Batch(actor: Actor)         // processBatch: pop and handle messages
    | Settle(actor: Actor)        // settleToken: release the slot
    | Released(actor: Actor)      // load stopped
    | Recheck(actor: Actor)       // read the mailbox count
    | Reclaim(actor: Actor)       // exchange the slot again
    | Reissue(actor: Actor)       // redispatch: push an entry
    | Overflow(actor: Actor)      // redispatch push failed: append to the pended list
    | Retire                      // subtract from pendingWork
    | GotNull                     // acquire returned null: lock for drainPendedActor
    | Drain(next: nat)            // drainPendedActor: the list entry at the iterator
    | DrainAdd(next: nat)         // entry pushed and erased: add to pendingWork
    | NullDraining                // after the drain: load draining
    | NullPending                 // load pendingWork
    | NullRunning                 // load the worker's running flag
    | Left                        // out of runLoop

  /** ActorSystem::stop: beginDrain clears running, then sets draining. */
  datatype Phase = Up | Gap | Draining

  /** Where the token of an actor is; history only. */
  datatype Loc = Sender(tid: Tid) | Queued(queue: nat) | Pended | Holder(tid: Tid)

  /** What is fixed for a run: number of workers and of queues, queue capacity, attached actors. */
  datatype System = System(workers: nat, capacity: nat, strict: bool, actors: set<Actor>)

  datatype State = State(
    sys: System,
    phase: Phase, up: set<Tid>,
    pending: int, held: seq<bool>, queues: seq<seq<Actor>>, pended: seq<Actor>, mutex: Option<Tid>,
    mbox: map<Actor, nat>, stopped: set<Actor>,
    work: map<Tid, Work>, send: map<Tid, Send>,
    // history: read by no step
    token: map<Actor, Loc>, waker: map<Actor, Tid>, drift: nat, overflows: nat, gapExits: nat)

  /** One step: who moves, and how the choices that the model leaves open come out. */
  datatype Action =
    | OpenSend(actor: Actor, accepted: bool)  // ActorRuntime::enqueue; a full mailbox drops the message
    | SendGo(queue: nat, fails: bool)
    | WorkGo(queue: nat, fails: bool)
    | BatchPop                                // pop a message: to handle it, or as a dead letter
    | BatchShutdown                           // the supervisor shuts the failing actor down
    | ClearRunning                            // beginDrain, first store
    | SetDraining                             // beginDrain, second store
    | StopWorker(worker: Tid)                 // Worker::stop, after beginDrain

  ghost predicate Init(s: State) {
    && s.sys.workers > 0 && s.sys.capacity > 0 && s.phase == Up
    && s.up == s.work.Keys
    && s.pending == 0 && |s.held| == MAX_ACTORS && (forall i :: 0 <= i < MAX_ACTORS ==> !s.held[i])
    && |s.queues| == s.sys.workers && (forall q :: 0 <= q < s.sys.workers ==> s.queues[q] == [])
    && s.pended == [] && s.mutex == None
    && s.mbox.Keys == s.sys.actors && (forall a :: a in s.mbox ==> s.mbox[a] == 0) && s.stopped == {}
    && (forall t: Tid :: t in s.work <==> t < s.sys.workers) && (forall t :: t in s.work ==> s.work[t] == Top)
    && s.work.Keys <= s.send.Keys && (forall t :: t in s.send ==> s.send[t] == NoSend)
    && s.token == map[] && s.waker == map[] && s.drift == 0 && s.overflows == 0 && s.gapExits == 0
  }

  function ToSend(s: State, t: Tid, p: Send): State { s.(send := s.send[t := p]) }

  function ToWork(s: State, t: Tid, p: Work): State { s.(work := s.work[t := p]) }

  /** Does a push into queue q fail: always when full, and otherwise only if not strict. */
  predicate PushFails(s: State, q: nat, fails: bool)
    requires q < |s.queues|
  {
    |s.queues[q]| >= s.sys.capacity || (fails && !s.sys.strict)
  }

  function Enqueue(s: State, q: nat, a: Actor): State
    requires q < |s.queues|
  {
    s.(queues := s.queues[q := s.queues[q] + [a]], token := s.token[a := Queued(q)])
  }

  function Claimed(s: State, a: Actor, l: Loc): State
    requires |s.held| == MAX_ACTORS
  {
    s.(held := s.held[Slot(a) := true], token := s.token[a := l])
  }

  function Unclaimed(s: State, a: Actor, t: Tid): State
    requires |s.held| == MAX_ACTORS
  {
    s.(held := s.held[Slot(a) := false], token := s.token - {a}, waker := s.waker[a := t])
  }

  function Pend(s: State, a: Actor): State {
    s.(pended := s.pended + [a], token := s.token[a := Pended])
  }

  /** Push the pended entry at i and erase it from the list, which only the lock holder sees. */
  function Unpend(s: State, q: nat, i: nat): State
    requires q < |s.queues| && i < |s.pended|
  {
    Enqueue(s, q, s.pended[i]).(pended := s.pended[..i] + s.pended[i + 1..])
  }

  predicate SendReady(s: State, t: Tid, q: nat) {
    && |s.held| == MAX_ACTORS && q < |s.queues| && t in s.send && s.send[t] != NoSend
    && (s.send[t].SendOverflow? ==> s.mutex == None)
  }

  function SendStep(s: State, t: Tid, q: nat, fails: bool): State
    requires SendReady(s, t, q)
  {
    match s.send[t]
    case Pushed(a) =>
      if s.held[Slot(a)] then ToSend(s, t, NoSend)
      else Claimed(ToSend(s, t, Won(a)), a, Sender(t))
    case Won(a) =>
      if PushFails(s, q, fails) then ToSend(s, t, SendOverflow(a)).(overflows := s.overflows + 1)
      else Enqueue(ToSend(s, t, Counting), q, a)
    case Counting => ToSend(s, t, NoSend).(pending := s.pending + 1)
    case SendOverflow(a) =>
      Pend(ToSend(s, t, NoSend), a)
  }

  predicate WorkReady(s: State, t: Tid, q: nat, fails: bool) {
    && |s.held| == MAX_ACTORS && q < |s.queues| && t in s.work && t in s.send && s.work[t] != Left
    && s.send[t] == NoSend
    && (s.work[t].AcqOwn? ==> q == t)
    && (s.work[t].Overflow? || s.work[t].GotNull? ==> s.mutex == None)
    // a count of zero is true when it is read
    && (s.work[t].Recheck? ==> s.work[t].actor in s.mbox && (fails ==> s.mbox[s.work[t].actor] == 0))
  }

  function Dequeue(s: State, t: Tid, q: nat): State
    requires q < |s.queues| && s.queues[q] != []
  {
    var a := s.queues[q][0];
    ToWork(s, t, Begin(a)).(queues := s.queues[q := s.queues[q][1..]], token := s.token[a := Holder(t)])
  }

  /** Where a worker in runLoop or acquire goes next when it does not get an entry. */
  function LoopNext(s: State, t: Tid): Work
    requires t in s.work
  {
    match s.work[t]
    case Top => if t in s.up then AcqOwn else TopDraining
    case TopDraining => if s.phase.Draining? then AcqOwn else Left
    case AcqOwn => AcqRunning
    case AcqRunning => if s.phase.Up? then AcqDrainCheck else AcqDraining
    case AcqDraining => if s.phase.Draining? then AcqDrainCheck else GotNull
    case AcqDrainCheck => if s.phase.Draining? then AcqPendingCheck else AcqTake
    case AcqPendingCheck => if s.pending == 0 then GotNull else AcqTake
    case AcqTake => AcqRunning
    case NullDraining => if s.phase.Draining? then NullPending else NullRunning
    case NullPending => if s.pending == 0 then Left else NullRunning
    case NullRunning => if t in s.up then Top else Left
    case w => w
  }

  /** Does the step get an entry: from the worker's own queue, or in a steal from a victim's. */
  predicate Dequeues(s: State, t: Tid, q: nat, fails: bool)
    requires t in s.work && q < |s.queues|
  {
    (s.work[t].AcqOwn? || s.work[t].AcqTake?) && !fails && s.queues[q] != []
  }

  function LoopStep(s: State, t: Tid, q: nat, fails: bool): State
    requires WorkReady(s, t, q, fails)
  {
    if Dequeues(s, t, q, fails) then Dequeue(s, t, q)
    else
      var gap := if s.work[t].AcqDraining? && !s.phase.Draining? then 1 else 0;
      ToWork(s, t, LoopNext(s, t)).(gapExits := s.gapExits + gap)
  }

  function SettleStep(s: State, t: Tid, q: nat, fails: bool): State
    requires WorkReady(s, t, q, fails)
  {
    match s.work[t]
    case Begin(a) => ToWork(s, t, if a in s.stopped then Settle(a) else Batch(a))
    case Batch(a) => ToWork(s, t, Settle(a))
    case Settle(a) => Unclaimed(ToWork(s, t, Released(a)), a, t)
    case Released(a) => ToWork(s, t, if a in s.stopped then Retire else Recheck(a))
    case Recheck(a) => ToWork(s, t, if fails then Retire else Reclaim(a))
    case Reclaim(a) =>
      if s.held[Slot(a)] then ToWork(s, t, Retire) else Claimed(ToWork(s, t, Reissue(a)), a, Holder(t))
    case Reissue(a) =>
      if PushFails(s, q, fails)
      then ToWork(s, t, Overflow(a)).(overflows := s.overflows + 1, drift := s.drift + 1)
      else Enqueue(ToWork(s, t, Top), q, a)
    case Overflow(a) => Pend(ToWork(s, t, Top), a)
    case Retire => ToWork(s, t, Top).(pending := s.pending - 1)
    case _ => s
  }

  function DrainStep(s: State, t: Tid, q: nat, fails: bool): State
    requires WorkReady(s, t, q, fails)
  {
    match s.work[t]
    case GotNull => ToWork(s, t, Drain(0)).(mutex := Some(t))
    case Drain(i) =>
      if i >= |s.pended| then ToWork(s, t, NullDraining).(mutex := None)
      else if PushFails(s, q, fails) then ToWork(s, t, Drain(i + 1)).(overflows := s.overflows + 1)
      else Unpend(ToWork(s, t, DrainAdd(i)), q, i)
    case DrainAdd(i) => ToWork(s, t, Drain(i)).(pending := s.pending + 1)
    case _ => s
  }

  predicate Settling(w: Work) {
    || w.Begin? || w.Batch? || w.Settle? || w.Released? || w.Recheck? || w.Reclaim? || w.Reissue? || w.Overflow?
    || w.Retire?
  }

  predicate DrainingPended(w: Work) { w.GotNull? || w.Drain? || w.DrainAdd? }

  predicate Enabled(s: State, t: Tid, x: Action) {
    match x
    case OpenSend(a, _) =>
      // an idle thread sends; a worker sends only from inside a batch
      a in s.sys.actors && a in s.mbox && t in s.send && s.send[t] == NoSend && (t in s.work ==> s.work[t].Batch?)
    case SendGo(q, _) => SendReady(s, t, q)
    case WorkGo(q, fails) => WorkReady(s, t, q, fails)
    case BatchPop =>
      t in s.work && s.work[t].Batch? && t in s.send && s.send[t] == NoSend
      && s.work[t].actor in s.mbox && s.mbox[s.work[t].actor] > 0
    case BatchShutdown => t in s.work && s.work[t].Batch? && t in s.send && s.send[t] == NoSend
    case ClearRunning => s.phase == Up
    case SetDraining => s.phase == Gap
    case StopWorker(w) => s.phase == Draining
  }

  function Step(s: State, t: Tid, x: Action): State
    requires Enabled(s, t, x)
  {
    match x
    case OpenSend(a, accepted) =>
      if accepted then ToSend(s, t, Pushed(a)).(mbox := s.mbox[a := s.mbox[a] + 1], waker := s.waker[a := t])
      else s
    case SendGo(q, fails) => SendStep(s, t, q, fails)
    case WorkGo(q, fails) =>
      if Settling(s.work[t]) then SettleStep(s, t, q, fails)
      else if DrainingPended(s.work[t]) then DrainStep(s, t, q, fails)
      else LoopStep(s, t, q, fails)
    case BatchPop => s.(mbox := s.mbox[s.work[t].actor := s.mbox[s.work[t].actor] - 1])
    case BatchShutdown => s.(stopped := s.stopped + {s.work[t].actor})
    case ClearRunning => s.(phase := Gap)
    case SetDraining => s.(phase := Draining)
    case StopWorker(w) => s.(up := s.up - {w})
  }

  ghost predicate Next(s: State, s': State) {
    exists t: Tid, x: Action :: Enabled(s, t, x) && s' == Step(s, t, x)
  }

  ghost predicate IsRun(run: seq<State>) {
    && |run| > 0 && Init(run[0])
    && forall k :: 0 <= k < |run| - 1 ==> Next(run[k], run[k + 1])
  }

  ghost predicate Reachable(s: State) {
    exists run :: IsRun(run) && run[|run| - 1] == s
  }
}
