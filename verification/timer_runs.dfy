/**
Whole runs of a TimerBase under a Scheduler: any interleaving of locked operations by any threads,
among them the callbacks of a firing round, which may add, cancel and clear timers.
*/
module TimerRuns {
  import opened Basics
  import opened TimerHeap
  import opened Timer

  function Ids(xs: seq<int>): (r: set<int>)
    ensures forall x :: x in r <==> x in xs
  {
    set x | x in xs
  }

  function Expiry(t: Timers, id: int): int
    requires id in t.ids && t.ids[id] < |t.pool|
  {
    t.pool[t.ids[id]].expiry
  }

  ghost predicate ByExpiry(t: Timers, xs: seq<int>) {
    && (forall i :: 0 <= i < |xs| ==> xs[i] in t.ids && t.ids[xs[i]] < |t.pool|)
    && (forall i, j :: 0 <= i < j < |xs| ==> Expiry(t, xs[i]) <= Expiry(t, xs[j]))
  }

  /** The same live timers with the same nodes. */
  ghost predicate SameLive(t: Timers, r: Timers) {
    r.ids == t.ids && r.nextId == t.nextId && |r.pool| == |t.pool|
    && forall id :: id in t.ids && t.ids[id] < |t.pool| ==> r.pool[t.ids[id]] == t.pool[t.ids[id]]
  }

  lemma TakeTopSameLive(t: Timers, round: set<int>)
    requires Valid(t, round) && t.heap != []
    ensures SameLive(t, TakeTop(t))
    ensures forall id :: id in t.ids && id !in round ==>
              t.ids[id] < |t.pool| && t.pool[t.heap[0]].expiry <= Expiry(t, id)
  {
    hide Pop;
    forall id | id in t.ids && id !in round
      ensures t.ids[id] < |t.pool| && t.pool[t.heap[0]].expiry <= Expiry(t, id)
    {
      assert IdOk(t, round, id);
      var i :| 0 <= i < |t.heap| && t.heap[i] == t.ids[id];
      TopIsEarliest(t.heap, t.pool, i);
    }
    forall id | id in t.ids ensures TakeTop(t).pool[t.ids[id]] == t.pool[t.ids[id]] { assert IdOk(t, round, id); }
  }

  /** Due: live, not already in the round, and expired. */
  ghost predicate Due(t: Timers, round: set<int>, now: int, id: int) {
    id in t.ids && id !in round && t.ids[id] < |t.pool| && Expiry(t, id) <= now
  }

  ghost predicate IsRound(t: Timers, round: set<int>, now: int, ready: seq<int>) {
    (forall id :: id in ready <==> Due(t, round, now, id)) && Distinct(ready) && ByExpiry(t, ready)
  }

  lemma OneMore(round: set<int>, id: int, rest: seq<int>)
    ensures round + Ids([id] + rest) == (round + {id}) + Ids(rest)
  {
  }

  lemma {:induction false} CollectKeeps(t: Timers, round: set<int>, now: int)
    requires Valid(t, round)
    ensures Valid(Collect(t, now).0, round + Ids(Collect(t, now).1))
    decreases |t.heap|
  {
    if !IsDue(t, now) {
      assert round + Ids([]) == round;
    } else {
      var top, r := t.pool[t.heap[0]], TakeTop(t);
      var round' := if top.alive then round + {top.id} else round;
      TakeTopKeeps(t, round);
      CollectKeeps(r, round', now);
      var rest := Collect(r, now).1;
      if top.alive { OneMore(round, top.id, rest); }
    }
  }

  /** The first section of a firing round collects exactly the live timers that are due and not already
      in the round, each once, in nondecreasing expiry, and leaves their nodes alone. */
  lemma {:induction false} CollectExact(t: Timers, round: set<int>, now: int)
    requires Valid(t, round)
    ensures SameLive(t, Collect(t, now).0) && IsRound(t, round, now, Collect(t, now).1)
    decreases |t.heap|
  {
    if !IsDue(t, now) {
      NothingDue(t, round, now);
    } else {
      var top, r := t.pool[t.heap[0]], TakeTop(t);
      var rest := Collect(r, now).1;
      TakeTopKeeps(t, round);
      TakeTopSameLive(t, round);
      if top.alive {
        CollectExact(r, round + {top.id}, now);
        LiveTopJoins(t, r, round, now, rest);
      } else {
        CollectExact(r, round, now);
        DeadTopIsSkipped(t, r, round, now, rest);
      }
    }
  }

  lemma NothingDue(t: Timers, round: set<int>, now: int)
    requires Valid(t, round) && !IsDue(t, now)
    ensures forall id :: !Due(t, round, now, id)
  {
    forall id | id in t.ids && id !in round ensures !Due(t, round, now, id) {
      assert IdOk(t, round, id);
      var i :| 0 <= i < |t.heap| && t.heap[i] == t.ids[id];
      TopIsEarliest(t.heap, t.pool, i);
    }
  }

  lemma LiveTopJoins(t: Timers, r: Timers, round: set<int>, now: int, rest: seq<int>)
    requires Valid(t, round) && IsDue(t, now) && t.pool[t.heap[0]].alive && SameLive(t, r)
    requires forall id :: Due(t, round, now, id) ==> t.pool[t.heap[0]].expiry <= Expiry(t, id)
    requires IsRound(r, round + {t.pool[t.heap[0]].id}, now, rest)
    ensures IsRound(t, round, now, [t.pool[t.heap[0]].id] + rest)
  {
    var top := t.pool[t.heap[0]].id;
    assert HeapedOk(t, t.heap[0]) && IdOk(t, round, top);
    forall i | 0 <= i < |rest| ensures Due(t, round, now, rest[i]) && rest[i] != top {
      assert rest[i] in rest;
      assert Due(r, round + {top}, now, rest[i]);
    }
    RoundGrows(t, r, round, now, top, rest);
  }

  lemma DeadTopIsSkipped(t: Timers, r: Timers, round: set<int>, now: int, rest: seq<int>)
    requires SameLive(t, r) && IsRound(r, round, now, rest)
    ensures IsRound(t, round, now, rest)
  {
    forall id ensures id in rest <==> Due(t, round, now, id) { assert id in rest <==> Due(r, round, now, id); }
  }

  lemma RoundGrows(t: Timers, r: Timers, round: set<int>, now: int, top: int, rest: seq<int>)
    requires SameLive(t, r) && IsRound(r, round + {top}, now, rest) && Due(t, round, now, top)
    requires forall id :: Due(t, round, now, id) ==> Expiry(t, top) <= Expiry(t, id)
    requires forall i :: 0 <= i < |rest| ==> Due(t, round, now, rest[i]) && rest[i] != top
    ensures IsRound(t, round, now, [top] + rest)
  {
    var ready := [top] + rest;
    forall id ensures id in ready <==> Due(t, round, now, id) {
      assert id in rest <==> Due(r, round + {top}, now, id);
      assert id in ready <==> id == top || id in rest;
    }
    assert forall i :: 0 <= i < |rest| ==> Expiry(r, rest[i]) == Expiry(t, rest[i]);
  }

  // ---- The system --------------------------------------------------------------------------------

  /** When a timer was added, its interval, and whether it repeats. */
  datatype Birth = Birth(at: int, interval: nat, repeating: bool)

  datatype System = System(
    timers: Timers, clock: int,
    firing: bool, round: seq<int>, called: nat,           // the firing round in progress
    ctxs: set<int>,                                       // Scheduler::timerCtxs_
    // history: read by no step
    born: map<int, Birth>, fires: map<int, nat>, scheduled: set<int>, cancelled: set<int>, delivered: seq<int>)

  datatype Action =
    | Tick(passed: nat)
    | TimerAdd(at: int, delay: nat, repeating: bool)      // TimerBase::add, by any thread; at: its clock reading
    | TimerCancel(id: int)
    | TimerClear
    | SchedAdd(at: int, delay: nat, repeating: bool, swept: set<int>) // Scheduler::addTimer; swept: contexts cleaned
    | SchedCancel(id: int)
    | BeginRound(at: int)                                 // first section of executeExpiredTimers
    | Callback                                            // the next callback of the round, unlocked
    | EndRound                                            // second section

  ghost predicate Init(s: System) {
    && s.timers.pool == [] && s.timers.heap == [] && s.timers.free == []
    && s.timers.ids == map[] && s.timers.nextId == 1
    && !s.firing && s.round == [] && s.called == 0 && s.ctxs == {}
    && s.born == map[] && s.fires == map[] && s.scheduled == {} && s.cancelled == {} && s.delivered == []
  }

  /** The first line holds in every reachable state (TimerInv.RunInv) and so forbids nothing. */
  ghost predicate Enabled(s: System, x: Action) {
    && Valid(s.timers, Ids(s.round)) && Distinct(s.round)
    && match x
       case TimerAdd(at, _, _) => at <= s.clock
       case SchedAdd(at, _, _, swept) =>
         at <= s.clock && swept <= s.ctxs && forall id :: id in swept ==> id !in s.timers.ids
       case BeginRound(at) => !s.firing && s.round == [] && at <= s.clock
       case Callback => s.firing && s.called < |s.round|
       case EndRound => s.firing && s.called == |s.round|
       case _ => true
  }

  ghost function RefireAll(t: Timers, round: seq<int>): Timers
    requires Valid(t, Ids(round)) && Distinct(round)
    decreases |round|
  {
    if round == [] then t
    else
      RefireOneKeeps(t, Ids(round), round[0]);
      assert Ids(round) - {round[0]} == Ids(round[1..]);
      RefireAll(RefireOne(t, round[0]), round[1..])
  }

  ghost function Added(s: System, at: int, delay: nat, repeating: bool): System
    requires Valid(s.timers, Ids(s.round))
  {
    AddKeeps(s.timers, Ids(s.round), at, delay, repeating);
    s.(timers := Add(s.timers, at, delay, repeating),
       born := s.born[s.timers.nextId := Birth(at, delay, repeating)],
       fires := s.fires[s.timers.nextId := 0])
  }

  ghost function Cancelled(s: System, id: int): System
    requires Valid(s.timers, Ids(s.round))
  {
    CancelKeeps(s.timers, Ids(s.round), id);
    s.(timers := Cancel(s.timers, id))
  }

  ghost function Begun(s: System, at: int): System
    requires Valid(s.timers, Ids(s.round))
  {
    var (t, ready) := Collect(s.timers, at);
    s.(timers := t, firing := true, round := ready, called := 0,
       fires := map id | id in s.fires :: s.fires[id] + (if id in ready then 1 else 0))
  }

  ghost function Registered(s: System, at: int, delay: nat, repeating: bool, swept: set<int>): System
    requires Valid(s.timers, Ids(s.round))
  {
    var id := s.timers.nextId;
    Added(s, at, delay, repeating).(ctxs := s.ctxs - swept + {id}, scheduled := s.scheduled + {id})
  }

  ghost function Unregistered(s: System, id: int): System
    requires Valid(s.timers, Ids(s.round))
  {
    Cancelled(s, id).(ctxs := s.ctxs - {id},
                      cancelled := if id < s.timers.nextId then s.cancelled + {id} else s.cancelled)
  }

  function Called(s: System): System
    requires s.called < |s.round|
  {
    var id := s.round[s.called];
    s.(called := s.called + 1, delivered := if id in s.ctxs then s.delivered + [id] else s.delivered)
  }

  ghost function Ended(s: System): System
    requires Valid(s.timers, Ids(s.round)) && Distinct(s.round)
  {
    s.(timers := RefireAll(s.timers, s.round), firing := false, round := [], called := 0)
  }

  ghost function Step(s: System, x: Action): System
    requires Enabled(s, x)
  {
    match x
    case Tick(passed) => s.(clock := s.clock + passed)
    case TimerAdd(at, delay, repeating) => Added(s, at, delay, repeating)
    case TimerCancel(id) => Cancelled(s, id)
    case TimerClear => s.(timers := Clear(s.timers))
    case SchedAdd(at, delay, repeating, swept) => Registered(s, at, delay, repeating, swept)
    case SchedCancel(id) => Unregistered(s, id)
    case BeginRound(at) => Begun(s, at)
    case Callback => Called(s)
    case EndRound => Ended(s)
  }

  ghost predicate Follows(run: seq<System>, acts: seq<Action>, k: nat)
    requires |run| == |acts| + 1 && k < |acts|
  {
    Enabled(run[k], acts[k]) && run[k + 1] == Step(run[k], acts[k])
  }

  /** run[k + 1] is run[k] after acts[k]. */
  ghost predicate IsRun(run: seq<System>, acts: seq<Action>) {
    |run| == |acts| + 1 && Init(run[0]) && forall k :: 0 <= k < |acts| ==> Follows(run, acts, k)
  }
}
