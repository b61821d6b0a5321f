/** Whole runs of the rings, as their callers see them: what all the pops together have returned is what all the
pushes together have accepted, but for what is still queued or under way. */
module RingRuns {
  import opened Basics
  import opened Ring
  import opened RingProofs
  import opened RingTheorems
  import opened SlotIndex

  datatype Move = Move(tid: Tid, action: Action)

  ghost predicate Follows(s: State, m: Move, r: State) { Enabled(s, m.tid, m.action) && r == Step(s, m.tid, m.action) }

  /** run[k + 1] is run[k] after moves[k]. */
  ghost predicate IsTrace(run: seq<State>, moves: seq<Move>) {
    |run| == |moves| + 1 && Init(run[0]) && forall k :: 0 <= k < |moves| ==> Follows(run[k], moves[k], run[k + 1])
  }

  lemma {:induction false} TraceInv(run: seq<State>, moves: seq<Move>, k: nat)
    requires IsTrace(run, moves) && run[0].cap >= 2 && k <= |moves|
    ensures Inv(run[k]) && run[k].cap == run[0].cap && run[k].single == run[0].single && Reachable(run[k])
  {
    hide Inv, Init, Enabled, Step;
    if k == 0 {
      InitInv(run[0]);
      assert IsRun([run[0]]);
    } else {
      TraceInv(run, moves, k - 1);
      var s, m := run[k - 1], moves[k - 1];
      assert Follows(s, m, run[k - 1 + 1]);
      StepKeeps(s, m.tid, m.action);
      StepFixesCap(s, m.tid, m.action);
      ReachableNext(s, m.tid, m.action);
    }
  }

  lemma ReachableNext(s: State, t: Tid, a: Action)
    requires Reachable(s) && Enabled(s, t, a)
    ensures Reachable(Step(s, t, a))
  {
    hide Init, Enabled, Step;
    var run :| IsRun(run) && run[|run| - 1] == s;
    var longer := run + [Step(s, t, a)];
    forall k | 0 <= k < |longer| - 1 ensures Next(longer[k], longer[k + 1]) {
      if k < |run| - 1 { assert Next(run[k], run[k + 1]); }
    }
    assert IsRun(longer) && longer[|longer| - 1] == Step(s, t, a);
  }

  // ---- What callers see --------------------------------------------------------------------------

  /** What the pop that returns with this step returns. */
  function Returns(s: State, r: State, t: Tid): seq<Elem> {
    if t in s.pc && !AtRest(s.pc[t]) && t in r.pc && r.pc[t].Popped? && r.pc[t].result.Some? then [r.pc[t].result.value]
    else []
  }

  /** The item of the last push that thread t has called in the first k moves. */
  function ItemOf(moves: seq<Move>, t: Tid, k: nat): Option<Elem>
    requires k <= |moves|
  {
    if k == 0 then None
    else if moves[k - 1].tid == t && moves[k - 1].action.CallPush? then Some(moves[k - 1].action.item)
    else ItemOf(moves, t, k - 1)
  }

  predicate Accepts(s: State, r: State, t: Tid) {
    t in s.pc && !AtRest(s.pc[t]) && t in r.pc && r.pc[t] == Pushed(true)
  }

  /** What the pops have returned in the first k moves, in the order of their returns. */
  function Returned(run: seq<State>, moves: seq<Move>, k: nat): seq<Elem>
    requires |run| == |moves| + 1 && k <= |moves|
  {
    if k == 0 then [] else Returned(run, moves, k - 1) + Returns(run[k - 1], run[k - 1 + 1], moves[k - 1].tid)
  }

  /** The items of the pushes that have returned true in the first k moves. */
  function Accepted(run: seq<State>, moves: seq<Move>, k: nat): seq<Elem>
    requires |run| == |moves| + 1 && k <= |moves|
  {
    if k == 0 then []
    else
      var item := ItemOf(moves, moves[k - 1].tid, k - 1);
      Accepted(run, moves, k - 1)
      + if Accepts(run[k - 1], run[k - 1 + 1], moves[k - 1].tid) && item.Some? then [item.value] else []
  }

  // ---- The positions behind it -------------------------------------------------------------------

  function ReturnedAt(run: seq<State>, moves: seq<Move>, k: nat): seq<nat>
    requires |run| == |moves| + 1 && k <= |moves|
  {
    if k == 0 then []
    else
      var s, t := run[k - 1], moves[k - 1].tid;
      ReturnedAt(run, moves, k - 1) + if t in s.pc && s.pc[t].PopRelease? then [s.pc[t].pos] else []
  }

  function AcceptedAt(run: seq<State>, moves: seq<Move>, k: nat): seq<nat>
    requires |run| == |moves| + 1 && k <= |moves|
  {
    if k == 0 then []
    else
      var s, t := run[k - 1], moves[k - 1].tid;
      AcceptedAt(run, moves, k - 1) + if t in s.pc && s.pc[t].PushPublish? then [s.pc[t].pos] else []
  }

  /** xs are the elements put at the positions at, no position twice. */
  ghost predicate PutAt(xs: seq<Elem>, at: seq<nat>, put: seq<Elem>) {
    |xs| == |at| && Distinct(at) && forall i :: 0 <= i < |at| ==> at[i] < |put| && put[at[i]] == xs[i]
  }

  lemma PutAtNothing(put: seq<Elem>)
    ensures PutAt([], [], put)
  {
  }

  lemma PutAtMore(xs: seq<Elem>, at: seq<nat>, put: seq<Elem>, put': seq<Elem>, p: nat)
    requires PutAt(xs, at, put) && put <= put' && p < |put'| && p !in at
    ensures PutAt(xs, at, put') && PutAt(xs + [put'[p]], at + [p], put')
  {
  }

  lemma PutAtStays(xs: seq<Elem>, at: seq<nat>, put: seq<Elem>, put': seq<Elem>)
    requires PutAt(xs, at, put) && put <= put'
    ensures PutAt(xs, at, put')
  {
  }

  function Except<T>(xs: seq<T>, i: nat): (r: seq<T>)
    requires i < |xs|
    ensures |r| == |xs| - 1 && forall j :: 0 <= j < |r| ==> r[j] == if j < i then xs[j] else xs[j + 1]
    ensures multiset(xs) == multiset(r) + multiset{xs[i]}
  {
    assert xs == xs[..i] + [xs[i]] + xs[i + 1..];
    xs[..i] + xs[i + 1..]
  }

  /** All positions below n, and no other. */
  ghost predicate Covers(at: seq<nat>, n: nat) { forall p: nat :: p in at <==> p < n }

  lemma CoversNothing(xs: seq<Elem>, at: seq<nat>, put: seq<Elem>)
    requires PutAt(xs, at, put) && Covers(at, 0)
    ensures xs == []
  {
    FirstIsIn(at);
  }

  lemma FirstIsIn(at: seq<nat>)
    ensures at == [] || exists p: nat :: p in at
  {
    if at != [] { assert at[0] in at; }
  }

  /** Position n - 1 is left out. */
  lemma LeaveOut(xs: seq<Elem>, at: seq<nat>, put: seq<Elem>, n: nat) returns (i: nat)
    requires PutAt(xs, at, put) && Covers(at, n) && 0 < n <= |put|
    ensures i < |xs| == |at| && xs[i] == put[n - 1]
    ensures PutAt(Except(xs, i), Except(at, i), put) && Covers(Except(at, i), n - 1)
  {
    assert n - 1 in at;
    i :| 0 <= i < |at| && at[i] == n - 1;
    OthersCover(at, i, n);
  }

  lemma OthersCover(at: seq<nat>, i: nat, n: nat)
    requires i < |at| && Distinct(at) && n > 0 && at[i] == n - 1 && Covers(at, n)
    ensures Covers(Except(at, i), n - 1)
  {
    var at1 := Except(at, i);
    forall p: nat | p in at1 ensures p < n - 1 {
      var j :| 0 <= j < |at1| && at1[j] == p;
      assert p == at[if j < i then j else j + 1] && p in at;
    }
    forall p: nat | p < n - 1 ensures p in at1 {
      assert p in at;
      var j :| 0 <= j < |at| && at[j] == p;
      assert at1[if j < i then j else j - 1] == p;
    }
  }

  /** If they are all the positions below n, xs is a permutation of the first n elements. */
  lemma {:induction false} AllPutAt(xs: seq<Elem>, at: seq<nat>, put: seq<Elem>, n: nat)
    requires PutAt(xs, at, put) && n <= |put| && Covers(at, n)
    ensures multiset(xs) == multiset(put[..n])
  {
    hide PutAt, Covers;
    if n == 0 {
      CoversNothing(xs, at, put);
    } else {
      var i := LeaveOut(xs, at, put, n);
      AllPutAt(Except(xs, i), Except(at, i), put, n - 1);
      assert put[..n] == put[..n - 1] + [put[n - 1]];
    }
  }

  // ---- What one step adds ------------------------------------------------------------------------

  /** The slots handed back, and the positions being written. */
  ghost predicate Accounts(s: State, r: State, t: Tid) {
    && t in s.pc && s.put <= r.put && s.tail <= r.tail
    && r.released == s.released + (if s.pc[t].PopRelease? then {s.pc[t].pos} else {})
    && (forall p: nat :: p < r.tail && p !in r.writer
          <==> (p < s.tail && p !in s.writer) || (s.pc[t].PushPublish? && p == s.pc[t].pos))
  }

  lemma PushAccounts(s: State, t: Tid, spurious: bool)
    requires Inv(s) && t in s.pc && (Producing(s.pc[t]) || WaitsToWin(s.pc[t]))
    ensures Accounts(s, StepPush(s, t, spurious), t)
  {
    hide CellsOk, HistoryOk, Index, At, ConsumerOk;
    if s.pc[t].PushCas? { WinAccounts(s, t, spurious); }
    assert ThreadOk(s, t, s.pc[t]);
  }

  lemma WinAccounts(s: State, t: Tid, spurious: bool)
    requires Inv(s) && t in s.pc && s.pc[t].PushCas?
    ensures Accounts(s, StepPush(s, t, spurious), t)
  {
    hide CellsOk, Index, At, TakenOk, ReaderOk;
    assert s.tail in s.writer ==> WriterOk(s, s.tail);
    assert s.tail in s.writer ==> ThreadOk(s, s.writer[s.tail], s.pc[s.writer[s.tail]]);
  }

  lemma PopAccounts(s: State, t: Tid, spurious: bool)
    requires Inv(s) && t in s.pc && Popping(s.pc[t])
    requires s.pc[t].PopTake? ==> s.cells[At(s, s.pc[t].pos)].storage.Some?
    ensures Accounts(s, StepPop(s, t, spurious), t)
  {
    hide CellsOk, ThreadsOk, HistoryOk, Index, At;
  }

  lemma StepAccounts(s: State, t: Tid, a: Action)
    requires Inv(s) && Enabled(s, t, a)
    ensures Accounts(s, Step(s, t, a), t)
  {
    hide StepPush, StepPop, Inv;
    if a.Go? && Popping(s.pc[t]) { PopAccounts(s, t, a.spurious); }
    else if a.Go? && !(s.pc[t].CountTail? || s.pc[t].EmptySeq?) { PushAccounts(s, t, a.spurious); }
  }

  /** A slot is handed back once, and published once. */
  lemma NewPosition(s: State, t: Tid)
    requires Inv(s) && t in s.pc
    ensures s.pc[t].PopRelease? ==> s.pc[t].pos < s.tail && s.pc[t].pos !in s.released
    ensures s.pc[t].PushPublish? ==> s.pc[t].pos < s.tail && s.pc[t].pos in s.writer
  {
    assert ThreadOk(s, t, s.pc[t]);
    if s.pc[t].PopRelease? {
      assert CellOk(s, At(s, s.pc[t].pos));
      NeighbourSlot(s.pc[t].pos, s.cap);
    }
  }

  // ---- Slots that are taken and not handed back --------------------------------------------------

  /** A position whose element has been taken is handed back, or its consumer is still inside. */
  ghost predicate TakenAndReleased(s: State, p: nat) { p in s.taken ==> p in s.released || p in s.reader }

  lemma PopTakenAndReleased(s: State, t: Tid, spurious: bool, p: nat)
    requires Inv(s) && t in s.pc && Popping(s.pc[t]) && TakenAndReleased(s, p)
    requires s.pc[t].PopTake? ==> s.cells[At(s, s.pc[t].pos)].storage.Some?
    ensures TakenAndReleased(StepPop(s, t, spurious), p)
  {
    hide CellsOk, HistoryOk, Index, At;
    assert ThreadOk(s, t, s.pc[t]);
  }

  lemma StepTakenAndReleased(s: State, t: Tid, a: Action, p: nat)
    requires Inv(s) && Enabled(s, t, a) && TakenAndReleased(s, p)
    ensures TakenAndReleased(Step(s, t, a), p)
  {
    hide StepPop, Inv, Index, At;
    if a.Go? && Popping(s.pc[t]) { PopTakenAndReleased(s, t, a.spurious, p); }
  }

  lemma {:induction false} RunTakenAndReleased(run: seq<State>, moves: seq<Move>, k: nat, p: nat)
    requires IsTrace(run, moves) && run[0].cap >= 2 && k <= |moves|
    ensures TakenAndReleased(run[k], p)
  {
    hide Inv, Enabled, Step;
    if k > 0 {
      RunTakenAndReleased(run, moves, k - 1, p);
      TraceInv(run, moves, k - 1);
      assert Follows(run[k - 1], moves[k - 1], run[k - 1 + 1]);
      StepTakenAndReleased(run[k - 1], moves[k - 1].tid, moves[k - 1].action, p);
    }
  }

  /** The head passes a position, and unless a consumer is inside its slot, the slot is handed back. */
  lemma PassedIsReleased(run: seq<State>, moves: seq<Move>, k: nat, p: nat)
    requires IsTrace(run, moves) && run[0].cap >= 2 && k <= |moves|
    ensures p in run[k].released ==> p < run[k].head
    ensures p < run[k].head ==> p in run[k].released || p in run[k].reader
    ensures p in run[k].reader ==>
              exists t :: t in run[k].pc && Consuming(run[k].pc[t]) && run[k].pc[t].pos == p
  {
    hide Init, Follows, CellsOk, ThreadsOk;
    TraceInv(run, moves, k);
    RunTakenAndReleased(run, moves, k, p);
    assert TakenOk(run[k], p);
    if p in run[k].reader { assert ReaderOk(run[k], p); }
  }

  // ---- Runs --------------------------------------------------------------------------------------

  /** The k-th move, with what the theorems say of it. */
  lemma MoveReports(run: seq<State>, moves: seq<Move>, k: nat)
    requires IsTrace(run, moves) && run[0].cap >= 2 && k < |moves|
    ensures var s, r, t := run[k], run[k + 1], moves[k].tid;
            Inv(s) && Accounts(s, r, t) && PopReports(s, r, t) && PushReports(s, r, t) && MovesOnly(s, r, t)
    ensures moves[k].action.Go? <==> !AtRest(run[k].pc[moves[k].tid])
    ensures moves[k].action.CallPush? ==>
              run[k + 1].pc == run[k].pc[moves[k].tid := PushSeq(moves[k].action.item, run[k].tail)]
    ensures !moves[k].action.Go? && !moves[k].action.CallPush? ==>
              moves[k].tid in run[k + 1].pc && !WaitsToWin(run[k + 1].pc[moves[k].tid])
  {
    hide Inv, Init, Accounts, PopReports, PushReports, StepPush, StepPop, Reachable;
    TraceInv(run, moves, k);
    var s, m := run[k], moves[k];
    assert Follows(s, m, run[k + 1]);
    StepAccounts(s, m.tid, m.action);
    PopReturnsTheElement(s, m.tid, m.action);
    PushReportsTheWin(s, m.tid, m.action);
  }

  lemma Start(run: seq<State>, moves: seq<Move>)
    requires IsTrace(run, moves)
    ensures run[0].released == {} && run[0].head == run[0].tail == 0 && run[0].put == []
    ensures forall t :: t in run[0].pc ==> run[0].pc[t] == Ready
  {
  }

  lemma ReturnsTheElement(s: State, r: State, t: Tid)
    requires PopReports(s, r, t) && s.put <= r.put && s.tail == |s.put|
    ensures s.pc[t].PopRelease? ==> s.pc[t].pos < s.tail && Returns(s, r, t) == [r.put[s.pc[t].pos]]
    ensures !s.pc[t].PopRelease? ==> Returns(s, r, t) == []
  {
  }

  /** What has been returned are the elements of the positions handed back. */
  lemma {:induction false} ReturnedAreReleased(run: seq<State>, moves: seq<Move>, k: nat)
    requires IsTrace(run, moves) && run[0].cap >= 2 && k <= |moves|
    ensures PutAt(Returned(run, moves, k), ReturnedAt(run, moves, k), run[k].put)
    ensures forall p: nat :: p in ReturnedAt(run, moves, k) <==> p in run[k].released
  {
    hide Inv, Init, Follows, PutAt, PushReports, MovesOnly;
    if k == 0 {
      Start(run, moves);
      PutAtNothing(run[0].put);
    } else {
      ReturnedAreReleased(run, moves, k - 1);
      MoveReports(run, moves, k - 1);
      var s, r, t := run[k - 1], run[k - 1 + 1], moves[k - 1].tid;
      NewPosition(s, t);
      var xs, at := Returned(run, moves, k - 1), ReturnedAt(run, moves, k - 1);
      ReturnsTheElement(s, r, t);
      if s.pc[t].PopRelease? {
        PutAtMore(xs, at, s.put, r.put, s.pc[t].pos);
      } else {
        PutAtStays(xs, at, s.put, r.put);
        assert xs + [] == xs && at + [] == at;
      }
    }
  }

  /** The item that a push carries is the one it was called with. */
  ghost predicate Carries(s: State, t: Tid, item: Option<Elem>) {
    t in s.pc ==>
      && (WaitsToWin(s.pc[t]) || s.pc[t].PushWrite? ==> item == Some(s.pc[t].item))
      && (Producing(s.pc[t]) ==> s.pc[t].pos < |s.put| && item == Some(s.put[s.pc[t].pos]))
  }

  lemma MoverCarries(s: State, r: State, t: Tid, item: Option<Elem>)
    requires Inv(s) && Inv(r) && PushReports(s, r, t) && s.put <= r.put && Carries(s, t, item)
    requires !AtRest(s.pc[t])
    ensures Carries(r, t, item)
  {
    hide CellsOk, HistoryOk, Index, At, ConsumerOk;
    assert ThreadOk(r, t, r.pc[t]);
  }

  lemma OtherCarries(s: State, r: State, t: Tid, u: Tid, item: Option<Elem>)
    requires MovesOnly(s, r, t) && s.put <= r.put && Carries(s, u, item) && u != t
    ensures Carries(r, u, item)
  {
  }

  lemma {:induction false} RunCarries(run: seq<State>, moves: seq<Move>, u: Tid, k: nat)
    requires IsTrace(run, moves) && run[0].cap >= 2 && k <= |moves|
    ensures Carries(run[k], u, ItemOf(moves, u, k))
  {
    hide Inv, Init, Follows, Carries, PopReports, MovesOnly;
    if k == 0 {
      Start(run, moves);
      RestCarries(run[0], u, None);
    } else {
      RunCarries(run, moves, u, k - 1);
      MoveReports(run, moves, k - 1);
      TraceInv(run, moves, k);
      var s, r, m := run[k - 1], run[k - 1 + 1], moves[k - 1];
      var item := ItemOf(moves, u, k - 1);
      if u != m.tid { OtherCarries(s, r, m.tid, u, item); }
      else if m.action.Go? { MoverCarries(s, r, u, item); }
      else { CallCarries(s, r, m, ItemOf(moves, u, k)); }
    }
  }

  lemma RestCarries(s: State, u: Tid, item: Option<Elem>)
    requires u in s.pc ==> s.pc[u] == Ready
    ensures Carries(s, u, item)
  {
  }

  lemma CallCarries(s: State, r: State, m: Move, item: Option<Elem>)
    requires PushReports(s, r, m.tid) && AtRest(s.pc[m.tid])
    requires m.action.CallPush? ==> item == Some(m.action.item) && r.pc[m.tid] == PushSeq(m.action.item, s.tail)
    requires !m.action.CallPush? ==> !WaitsToWin(r.pc[m.tid])
    ensures Carries(r, m.tid, item)
  {
  }

  lemma AcceptsTheElement(s: State, r: State, t: Tid, item: Option<Elem>)
    requires t in s.pc && PushReports(s, r, t) && s.put <= r.put && s.tail == |s.put| && Carries(s, t, item)
    ensures Accepts(s, r, t) <==> s.pc[t].PushPublish?
    ensures s.pc[t].PushPublish? ==> s.pc[t].pos < s.tail && item == Some(r.put[s.pc[t].pos])
  {
  }

  /** What has been accepted are the elements put at the positions that are published. */
  lemma {:induction false} AcceptedArePublished(run: seq<State>, moves: seq<Move>, k: nat)
    requires IsTrace(run, moves) && run[0].cap >= 2 && k <= |moves|
    ensures PutAt(Accepted(run, moves, k), AcceptedAt(run, moves, k), run[k].put)
    ensures forall p: nat :: p in AcceptedAt(run, moves, k) <==> p < run[k].tail && p !in run[k].writer
  {
    hide Inv, Init, Follows, PutAt, PushReports, PopReports, MovesOnly, Carries;
    if k == 0 {
      Start(run, moves);
      PutAtNothing(run[0].put);
    } else {
      AcceptedArePublished(run, moves, k - 1);
      MoveReports(run, moves, k - 1);
      var s, r, t := run[k - 1], run[k - 1 + 1], moves[k - 1].tid;
      RunCarries(run, moves, t, k - 1);
      NewPosition(s, t);
      InvSized(s);
      var xs, at := Accepted(run, moves, k - 1), AcceptedAt(run, moves, k - 1);
      AcceptsTheElement(s, r, t, ItemOf(moves, t, k - 1));
      if s.pc[t].PushPublish? {
        PutAtMore(xs, at, s.put, r.put, s.pc[t].pos);
      } else {
        PutAtStays(xs, at, s.put, r.put);
        assert xs + [] == xs && at + [] == at;
      }
    }
  }

  lemma NobodyInside(run: seq<State>, moves: seq<Move>, k: nat, p: nat)
    requires IsTrace(run, moves) && run[0].cap >= 2 && k <= |moves|
    requires forall t :: t in run[k].pc ==> !Owning(run[k].pc[t])
    ensures p in ReturnedAt(run, moves, k) <==> p < run[k].head
    ensures p in AcceptedAt(run, moves, k) <==> p < run[k].tail
  {
    hide Init, Follows, CellsOk, ThreadsOk;
    TraceInv(run, moves, k);
    ReturnedAreReleased(run, moves, k);
    AcceptedArePublished(run, moves, k);
    PassedIsReleased(run, moves, k, p);
    if p in run[k].writer { InsideSomeSlot(run[k], p); }
  }

  lemma QuietPops(run: seq<State>, moves: seq<Move>, k: nat)
    requires IsTrace(run, moves) && run[0].cap >= 2 && k <= |moves|
    requires forall t :: t in run[k].pc ==> !Owning(run[k].pc[t])
    ensures Sized(run[k]) && multiset(Returned(run, moves, k)) == multiset(run[k].put[..run[k].head])
  {
    hide Init, Follows, CellsOk, ThreadsOk, HistoryOk, PutAt, Owning;
    TraceInv(run, moves, k);
    ReturnedAreReleased(run, moves, k);
    forall p: nat ensures p in ReturnedAt(run, moves, k) <==> p < run[k].head { NobodyInside(run, moves, k, p); }
    AllPutAt(Returned(run, moves, k), ReturnedAt(run, moves, k), run[k].put, run[k].head);
  }

  lemma QuietPushes(run: seq<State>, moves: seq<Move>, k: nat)
    requires IsTrace(run, moves) && run[0].cap >= 2 && k <= |moves|
    requires forall t :: t in run[k].pc ==> !Owning(run[k].pc[t])
    ensures Sized(run[k]) && multiset(Accepted(run, moves, k)) == multiset(run[k].put[..run[k].tail])
  {
    hide Init, Follows, CellsOk, ThreadsOk, HistoryOk, PutAt, Owning;
    TraceInv(run, moves, k);
    AcceptedArePublished(run, moves, k);
    forall p: nat ensures p in AcceptedAt(run, moves, k) <==> p < run[k].tail { NobodyInside(run, moves, k, p); }
    AllPutAt(Accepted(run, moves, k), AcceptedAt(run, moves, k), run[k].put, run[k].tail);
  }

  /** When no thread is inside a slot, the pushes that returned true have together put in exactly what the pops
      have returned and what is queued: nothing is lost, doubled or invented. */
  lemma NothingIsLost(run: seq<State>, moves: seq<Move>, k: nat)
    requires IsTrace(run, moves) && run[0].cap >= 2 && k <= |moves|
    requires forall t :: t in run[k].pc ==> !Owning(run[k].pc[t])
    ensures Sized(run[k])
    ensures multiset(Accepted(run, moves, k)) == multiset(Returned(run, moves, k)) + multiset(Queue(run[k]))
  {
    hide Init, Follows, Owning;
    QuietPops(run, moves, k);
    QuietPushes(run, moves, k);
    var s := run[k];
    assert s.put[..s.tail] == s.put[..s.head] + s.put[s.head..s.tail];
  }

  // ---- One consumer ------------------------------------------------------------------------------

  /** n elements have been returned, and a consumer that is about to return has the next one. */
  ghost predicate InOrder(s: State, n: nat) {
    && (forall t :: t in s.pc && s.pc[t].PopRelease? ==> s.pc[t].pos == n && s.head == n + 1)
    && ((forall t :: t in s.pc ==> !s.pc[t].PopRelease?) ==> s.head == n)
  }

  lemma OrderMoves(s: State, r: State, t: Tid, n: nat)
    requires Inv(s) && Inv(r) && s.single && r.single && InOrder(s, n) && MovesOnly(s, r, t) && PopReports(s, r, t)
    requires r.head == s.head + if s.pc[t].PopAdvance? then 1 else 0
    ensures s.pc[t].PopRelease? ==> s.pc[t].pos == n
    ensures InOrder(r, if s.pc[t].PopRelease? then n + 1 else n)
  {
    hide CellsOk, HistoryOk, Index, At, ProducerOk;
    assert ThreadOk(s, t, s.pc[t]) && ThreadOk(r, t, r.pc[t]);
    forall u | u in s.pc && u != t && Consuming(s.pc[u]) ensures !Popping(s.pc[t]) {
      assert ThreadOk(s, u, s.pc[u]);
    }
    if s.pc[t].PopAdvance? {
      assert r.pc[t].PopRelease? && r.pc[t].pos == s.head == n;
    } else {
      assert !r.pc[t].PopRelease?;
      assert forall u :: u in r.pc && r.pc[u].PopRelease? ==> u != t && u in s.pc && s.pc[u] == r.pc[u];
      assert forall u :: u in s.pc && s.pc[u].PopRelease? && u != t ==> r.pc[u] == s.pc[u];
    }
  }

  lemma HeadMoves(s: State, t: Tid, a: Action)
    requires Inv(s) && s.single && Enabled(s, t, a)
    ensures Step(s, t, a).head == s.head + if s.pc[t].PopAdvance? then 1 else 0
  {
    hide CellsOk, HistoryOk, Index, At, ProducerOk;
    assert ThreadOk(s, t, s.pc[t]);
    WinsMoveEnds(s, t, a);
  }

  lemma MoveInOrder(run: seq<State>, moves: seq<Move>, k: nat, n: nat)
    requires IsTrace(run, moves) && run[0].cap >= 2 && run[0].single && k < |moves| && InOrder(run[k], n)
    ensures var s, t := run[k], moves[k].tid;
            && t in s.pc && (s.pc[t].PopRelease? ==> s.pc[t].pos == n)
            && InOrder(run[k + 1], if s.pc[t].PopRelease? then n + 1 else n)
  {
    hide Inv, Init, Enabled, Step, PopReports, MovesOnly, InOrder;
    MoveReports(run, moves, k);
    TraceInv(run, moves, k);
    TraceInv(run, moves, k + 1);
    assert Follows(run[k], moves[k], run[k + 1]);
    HeadMoves(run[k], moves[k].tid, moves[k].action);
    OrderMoves(run[k], run[k + 1], moves[k].tid, n);
  }

  lemma {:induction false} RunInOrder(run: seq<State>, moves: seq<Move>, k: nat)
    requires IsTrace(run, moves) && run[0].cap >= 2 && run[0].single && k <= |moves|
    ensures InOrder(run[k], |ReturnedAt(run, moves, k)|)
    ensures forall i :: 0 <= i < |ReturnedAt(run, moves, k)| ==> ReturnedAt(run, moves, k)[i] == i
  {
    hide Init, Follows, InOrder;
    if k == 0 {
      Start(run, moves);
      StartsInOrder(run[0]);
    } else {
      RunInOrder(run, moves, k - 1);
      MoveInOrder(run, moves, k - 1, |ReturnedAt(run, moves, k - 1)|);
    }
  }

  lemma StartsInOrder(s: State)
    requires s.head == 0 && forall t :: t in s.pc ==> s.pc[t] == Ready
    ensures InOrder(s, 0)
  {
  }

  /** The single-consumer ring returns the elements in the very order of their positions, and lags behind the
      head by at most the one that is being returned. */
  lemma MailboxReturnsInOrder(run: seq<State>, moves: seq<Move>, k: nat)
    requires IsTrace(run, moves) && run[0].cap >= 2 && run[0].single && k <= |moves|
    ensures Returned(run, moves, k) <= run[k].put
    ensures |Returned(run, moves, k)| <= run[k].head <= |Returned(run, moves, k)| + 1
    ensures (forall t :: t in run[k].pc ==> !Consuming(run[k].pc[t])) ==> |Returned(run, moves, k)| == run[k].head
  {
    hide Init, Follows, Inv;
    RunInOrder(run, moves, k);
    ReturnedAreReleased(run, moves, k);
    var at := ReturnedAt(run, moves, k);
    assert |at| > 0 ==> at[|at| - 1] == |at| - 1;
  }
}
