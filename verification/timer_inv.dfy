/** What every step of the timer system keeps: how often each timer has fired, when it fires next, and
which ids the scheduler still answers for. */
module TimerInv {
  import opened Basics
  import opened TimerHeap
  import opened Timer
  import opened TimerRuns

  // ---- What every step keeps ---------------------------------------------------------------------

  /** n intervals, one at a time. */
  function Times(n: nat, interval: nat): nat {
    if n == 0 then 0 else Times(n - 1, interval) + interval
  }

  lemma {:induction false} TimesIsProduct(n: nat, interval: nat)
    ensures Times(n, interval) == n * interval
  {
    if n > 0 { TimesIsProduct(n - 1, interval); }
  }

  /** A repeating timer's expiry after n completed rounds is birth + (n + 1) intervals; in the middle of
      a round that fires it, its count is one ahead. A one-shot timer that waits has never fired. */
  ghost predicate LifeOk(s: System, id: int) {
    id in s.timers.ids ==>
      && id in s.born && id in s.fires && s.timers.ids[id] < |s.timers.pool|
      && var node := s.timers.pool[s.timers.ids[id]];
         var b := s.born[id];
         && node.interval == b.interval && node.repeating == b.repeating
         && node.expiry == b.at + Times(s.fires[id] + (if id in s.round then 0 else 1), b.interval)
         && (!b.repeating ==> s.fires[id] == (if id in s.round then 1 else 0))
  }

  ghost predicate FiresOk(s: System, id: int) {
    && (id in s.born <==> id in s.fires)
    && (id in s.born ==> 1 <= id < s.timers.nextId && (!s.born[id].repeating ==> s.fires[id] <= 1))
  }

  ghost predicate CtxOk(s: System, id: int) {
    && (id in s.ctxs ==> id in s.scheduled && id !in s.cancelled)
    && (id in s.scheduled && id in s.timers.ids ==> id in s.ctxs)
    && (id in s.scheduled ==> id in s.born)
  }

  ghost predicate Inv(s: System) {
    && Valid(s.timers, Ids(s.round)) && Distinct(s.round) && (s.round != [] ==> s.firing)
    && (forall id :: LifeOk(s, id)) && (forall id :: FiresOk(s, id)) && (forall id :: CtxOk(s, id))
    && (forall id :: id in s.cancelled ==> id !in s.timers.ids && id < s.timers.nextId)
  }

  lemma InitInv(s: System)
    requires Init(s)
    ensures Inv(s)
  {
  }

  lemma FreshId(s: System)
    requires Inv(s)
    ensures var n := s.timers.nextId;
            && n !in s.timers.ids && n !in s.born && n !in s.round
            && n !in s.ctxs && n !in s.scheduled && n !in s.cancelled
  {
    var n := s.timers.nextId;
    assert FiresOk(s, n) && CtxOk(s, n);
    assert n in s.timers.ids ==> IdOk(s.timers, Ids(s.round), n);
  }

  lemma LifeStays(s: System, r: System, id: int)
    requires LifeOk(s, id) && id in s.timers.ids && id in r.timers.ids
    requires s.timers.ids[id] < |s.timers.pool| && r.timers.ids[id] < |r.timers.pool|
    requires r.timers.pool[r.timers.ids[id]] == s.timers.pool[s.timers.ids[id]]
    requires id in r.born && id in r.fires && r.born[id] == s.born[id] && r.fires[id] == s.fires[id]
    requires id in r.round <==> id in s.round
    ensures LifeOk(r, id)
  {
  }

  lemma NewbornLife(r: System, id: int, b: Birth)
    requires id in r.timers.ids ==>
               && r.timers.ids[id] < |r.timers.pool|
               && r.timers.pool[r.timers.ids[id]] == Node(b.at + b.interval, b.interval, id, b.repeating, true)
    requires id in r.born && id in r.fires && r.born[id] == b && r.fires[id] == 0 && id !in r.round
    ensures LifeOk(r, id)
  {
    assert Times(0 + 1, b.interval) == b.interval;
  }

  lemma AddedLife(s: System, at: int, delay: nat, repeating: bool, id: int)
    requires Inv(s)
    ensures LifeOk(Added(s, at, delay, repeating), id)
  {
    var r := Added(s, at, delay, repeating);
    assert LifeOk(s, id);
    AddPutsNode(s.timers, Ids(s.round), at, delay, repeating);
    FreshId(s);
    if id == s.timers.nextId {
      NewbornLife(r, id, Birth(at, delay, repeating));
    } else if id in s.timers.ids {
      AddLeavesNode(s.timers, Ids(s.round), at, delay, repeating, id);
      LifeStays(s, r, id);
    }
  }

  lemma AddPutsNode(t: Timers, round: set<int>, now: int, delay: nat, repeating: bool)
    requires Valid(t, round)
    ensures NextSlot(t) !in t.heap
    ensures var r := Add(t, now, delay, repeating);
            && t.nextId in r.ids && r.ids[t.nextId] < |r.pool|
            && r.pool[r.ids[t.nextId]] == Node(now + delay, delay, t.nextId, repeating, true)
  {
    AddKeeps(t, round, now, delay, repeating);
  }

  lemma AddedKeeps(s: System, at: int, delay: nat, repeating: bool)
    requires Inv(s)
    ensures var r := Added(s, at, delay, repeating);
            && Valid(r.timers, Ids(r.round)) && (forall id :: LifeOk(r, id)) && (forall id :: FiresOk(r, id))
            && r.timers.ids.Keys == s.timers.ids.Keys + {s.timers.nextId} && r.timers.nextId == s.timers.nextId + 1
  {
    var r := Added(s, at, delay, repeating);
    AddKeeps(s.timers, Ids(s.round), at, delay, repeating);
    FreshId(s);
    forall id ensures LifeOk(r, id) { AddedLife(s, at, delay, repeating, id); }
    forall id ensures FiresOk(r, id) { assert FiresOk(s, id); }
  }

  lemma AddLeavesNode(t: Timers, round: set<int>, now: int, delay: nat, repeating: bool, id: int)
    requires Valid(t, round) && id in t.ids
    ensures NextSlot(t) !in t.heap
    ensures var r := Add(t, now, delay, repeating);
            id in r.ids && r.ids[id] == t.ids[id] && t.ids[id] < |t.pool| && r.pool[r.ids[id]] == t.pool[t.ids[id]]
  {
    AddKeeps(t, round, now, delay, repeating);
    assert IdOk(t, round, id);
    assert t.free != [] ==> NextSlot(t) in t.free;
  }

  lemma {:induction false} PurgeLeavesNode(t: Timers, round: set<int>, id: int)
    requires Valid(t, round) && id in t.ids
    ensures var r := Purge(t);
            id in r.ids && r.ids[id] == t.ids[id] < |t.pool| == |r.pool| && r.pool[r.ids[id]] == t.pool[t.ids[id]]
    decreases |t.heap|
  {
    assert IdOk(t, round, id);
    if t.heap != [] && !t.pool[t.heap[0]].alive {
      DropTopKeeps(t, round);
      PurgeLeavesNode(DropTop(t), round, id);
    }
  }

  lemma CancelledLife(s: System, id: int, x: int)
    requires Inv(s)
    ensures LifeOk(Cancelled(s, id), x)
  {
    var r := Cancelled(s, id);
    CancelKeeps(s.timers, Ids(s.round), id);
    assert LifeOk(s, x);
    if id in s.timers.ids && x in r.timers.ids {
      CancelLeavesNode(s.timers, Ids(s.round), id, x);
      LifeStays(s, r, x);
    }
  }

  lemma CancelLeavesNode(t: Timers, round: set<int>, id: int, x: int)
    requires Valid(t, round) && id in t.ids && x in t.ids && x != id
    ensures t.ids[id] < |t.pool|
    ensures var r := Cancel(t, id);
            x in r.ids && r.ids[x] == t.ids[x] < |t.pool| == |r.pool| && r.pool[r.ids[x]] == t.pool[t.ids[x]]
  {
    KillKeeps(t, round, id);
    assert IdOk(t, round, x) && IdOk(t, round, id);
    PurgeLeavesNode(Kill(t, id), round, x);
  }

  lemma CancelledKeeps(s: System, id: int)
    requires Inv(s)
    ensures var r := Cancelled(s, id);
            && Valid(r.timers, Ids(r.round)) && (forall x :: LifeOk(r, x)) && (forall x :: FiresOk(r, x))
            && r.timers.ids == s.timers.ids - {id} && r.timers.nextId == s.timers.nextId
  {
    var r := Cancelled(s, id);
    CancelKeeps(s.timers, Ids(s.round), id);
    forall x ensures LifeOk(r, x) { CancelledLife(s, id, x); }
    forall x ensures FiresOk(r, x) { assert FiresOk(s, x); }
  }

  lemma BeginKeeps(s: System, at: int)
    requires Inv(s) && s.round == []
    ensures Inv(Begun(s, at))
  {
    var r := Begun(s, at);
    CollectExact(s.timers, {}, at);
    CollectKeeps(s.timers, {}, at);
    assert Ids(s.round) == {} && {} + Ids(r.round) == Ids(r.round);
    forall id ensures LifeOk(r, id) && FiresOk(r, id) { BegunLife(s, at, id); }
    forall id ensures CtxOk(r, id) { assert CtxOk(s, id); }
  }

  lemma BegunLife(s: System, at: int, id: int)
    requires Inv(s) && s.round == []
    ensures LifeOk(Begun(s, at), id) && FiresOk(Begun(s, at), id)
  {
    var r := Begun(s, at);
    assert LifeOk(s, id) && FiresOk(s, id);
    CollectExact(s.timers, {}, at);
    if id in s.timers.ids { assert IdOk(s.timers, Ids(s.round), id); }
    assert id in r.round <==> Due(s.timers, {}, at, id);
  }

  // ---- The end of a round ------------------------------------------------------------------------

  function Later(node: Node): Node { node.(expiry := node.expiry + node.interval) }

  lemma RefireOneNode(t: Timers, round: set<int>, id: int, x: int)
    requires Valid(t, round) && id in round
    ensures id in t.ids ==> t.ids[id] < |t.pool| && t.ids[id] !in t.heap
    ensures x in t.ids ==> t.ids[x] < |t.pool|
    ensures var r := RefireOne(t, id);
            && |r.pool| == |t.pool| && r.nextId == t.nextId
            && (x in r.ids <==> x in t.ids && (x == id ==> t.pool[t.ids[x]].repeating))
            && (x in r.ids ==> r.ids[x] == t.ids[x])
            && (x in r.ids ==> r.pool[r.ids[x]] == if x == id then Later(t.pool[t.ids[x]]) else t.pool[t.ids[x]])
  {
    if id in t.ids { assert IdOk(t, round, id); }
    if x in t.ids { assert IdOk(t, round, x); }
  }

  lemma {:induction false} RefireAllNode(t: Timers, round: seq<int>, x: int)
    requires Valid(t, Ids(round)) && Distinct(round)
    ensures x in t.ids ==> t.ids[x] < |t.pool|
    ensures var r := RefireAll(t, round);
            && |r.pool| == |t.pool| && r.nextId == t.nextId
            && (x in r.ids <==> x in t.ids && (x in round ==> t.pool[t.ids[x]].repeating))
            && (x in r.ids ==> r.ids[x] == t.ids[x])
            && (x in r.ids ==> r.pool[r.ids[x]] == if x in round then Later(t.pool[t.ids[x]]) else t.pool[t.ids[x]])
    decreases |round|
  {
    if x in t.ids { assert IdOk(t, Ids(round), x); }
    if round != [] {
      RefireOneKeeps(t, Ids(round), round[0]);
      assert Ids(round) - {round[0]} == Ids(round[1..]);
      RefireOneNode(t, Ids(round), round[0], x);
      RefireAllNode(RefireOne(t, round[0]), round[1..], x);
      assert x in round <==> x == round[0] || x in round[1..];
    }
  }

  lemma {:induction false} RefireAllKeeps(t: Timers, round: seq<int>)
    requires Valid(t, Ids(round)) && Distinct(round)
    ensures Valid(RefireAll(t, round), {}) && RefireAll(t, round).nextId == t.nextId
    decreases |round|
  {
    if round == [] {
      assert Ids(round) == {};
    } else {
      RefireOneKeeps(t, Ids(round), round[0]);
      assert Ids(round) - {round[0]} == Ids(round[1..]);
      RefireAllKeeps(RefireOne(t, round[0]), round[1..]);
    }
  }

  lemma EndedLife(s: System, id: int)
    requires Inv(s)
    ensures LifeOk(Ended(s), id) && (id in Ended(s).timers.ids ==> id in s.timers.ids)
  {
    assert LifeOk(s, id);
    RefireAllNode(s.timers, s.round, id);
  }

  lemma EndKeeps(s: System)
    requires Inv(s)
    ensures Inv(Ended(s))
  {
    var r := Ended(s);
    RefireAllKeeps(s.timers, s.round);
    assert Ids(r.round) == {};
    forall id ensures LifeOk(r, id) && FiresOk(r, id) && CtxOk(r, id) {
      EndedLife(s, id);
      assert FiresOk(s, id) && CtxOk(s, id);
    }
    forall id | id in r.cancelled ensures id !in r.timers.ids { EndedLife(s, id); }
  }

  // ---- Every step --------------------------------------------------------------------------------

  lemma TimerAddKeeps(s: System, at: int, delay: nat, repeating: bool)
    requires Inv(s)
    ensures Inv(Added(s, at, delay, repeating))
  {
    var r := Added(s, at, delay, repeating);
    AddedKeeps(s, at, delay, repeating);
    FreshId(s);
    forall id ensures CtxOk(r, id) { assert CtxOk(s, id); }
  }

  lemma SchedAddKeeps(s: System, at: int, delay: nat, repeating: bool, swept: set<int>)
    requires Inv(s) && swept <= s.ctxs && forall id :: id in swept ==> id !in s.timers.ids
    ensures Inv(Registered(s, at, delay, repeating, swept))
  {
    var r := Registered(s, at, delay, repeating, swept);
    AddedKeeps(s, at, delay, repeating);
    FreshId(s);
    forall id ensures LifeOk(r, id) && FiresOk(r, id) {
      assert LifeOk(Added(s, at, delay, repeating), id) && FiresOk(Added(s, at, delay, repeating), id);
    }
    forall id ensures CtxOk(r, id) { assert CtxOk(s, id); }
  }

  lemma TimerCancelKeeps(s: System, id: int)
    requires Inv(s)
    ensures Inv(Cancelled(s, id))
  {
    var r := Cancelled(s, id);
    CancelledKeeps(s, id);
    forall x ensures CtxOk(r, x) { assert CtxOk(s, x); }
  }

  lemma SchedCancelKeeps(s: System, id: int)
    requires Inv(s)
    ensures Inv(Unregistered(s, id))
  {
    var r := Unregistered(s, id);
    CancelledKeeps(s, id);
    forall x ensures LifeOk(r, x) && FiresOk(r, x) {
      assert LifeOk(Cancelled(s, id), x) && FiresOk(Cancelled(s, id), x);
    }
    forall x ensures CtxOk(r, x) { assert CtxOk(s, x); }
  }

  lemma ClearKeeps(s: System)
    requires Inv(s)
    ensures Inv(s.(timers := Clear(s.timers)))
  {
    var r := s.(timers := Clear(s.timers));
    forall id ensures FiresOk(r, id) && CtxOk(r, id) { assert FiresOk(s, id) && CtxOk(s, id); }
  }

  lemma TickKeeps(s: System, passed: nat)
    requires Inv(s)
    ensures Inv(s.(clock := s.clock + passed))
  {
    var r := s.(clock := s.clock + passed);
    forall id ensures LifeOk(r, id) && FiresOk(r, id) && CtxOk(r, id) {
      assert LifeOk(s, id) && FiresOk(s, id) && CtxOk(s, id);
    }
  }

  lemma CallbackKeeps(s: System)
    requires Inv(s) && s.called < |s.round|
    ensures Inv(Called(s))
  {
    var r := Called(s);
    forall id ensures LifeOk(r, id) && FiresOk(r, id) && CtxOk(r, id) {
      assert LifeOk(s, id) && FiresOk(s, id) && CtxOk(s, id);
    }
  }

  lemma StepKeeps(s: System, x: Action)
    requires Inv(s) && Enabled(s, x)
    ensures Inv(Step(s, x))
  {
    match x
    case Tick(passed) => TickKeeps(s, passed);
    case TimerAdd(at, delay, repeating) => TimerAddKeeps(s, at, delay, repeating);
    case TimerCancel(id) => TimerCancelKeeps(s, id);
    case TimerClear => ClearKeeps(s);
    case SchedAdd(at, delay, repeating, swept) => SchedAddKeeps(s, at, delay, repeating, swept);
    case SchedCancel(id) => SchedCancelKeeps(s, id);
    case BeginRound(at) => BeginKeeps(s, at);
    case Callback => CallbackKeeps(s);
    case EndRound => EndKeeps(s);
  }

  lemma {:induction false} RunInv(run: seq<System>, acts: seq<Action>, k: nat)
    requires IsRun(run, acts) && k < |run|
    ensures Inv(run[k])
  {
    if k == 0 {
      InitInv(run[0]);
    } else {
      RunInv(run, acts, k - 1);
      assert Follows(run, acts, k - 1);
      StepKeeps(run[k - 1], acts[k - 1]);
    }
  }
}
