/** Which pool slots are lost: neither heaped, nor free, nor any live timer's. */
module TimerLeak {
  import opened Basics
  import opened TimerHeap
  import opened Timer
  import opened TimerRuns
  import opened TimerInv

  ghost predicate Lost(t: Timers, idx: nat) { idx < |t.pool| && Unused(t, idx) }

  lemma AddLoses(t: Timers, round: set<int>, now: int, delay: nat, repeating: bool, idx: nat)
    requires Valid(t, round)
    ensures NextSlot(t) !in t.heap
    ensures Lost(Add(t, now, delay, repeating), idx) <==> Lost(t, idx)
  {
    hide Push;
    AddKeeps(t, round, now, delay, repeating);
    var slot, r := NextSlot(t), Add(t, now, delay, repeating);
    OrderSurvives(t.heap, t.pool, r.pool);
    PushMembers(t.heap, r.pool, slot);
    assert t.nextId in r.ids && t.nextId !in t.ids by {
      assert t.nextId in t.ids ==> IdOk(t, round, t.nextId);
    }
    assert forall id :: id in t.ids ==> id in r.ids && r.ids[id] == t.ids[id];
    if t.free != [] {
      assert slot in t.free;
      assert t.free == r.free + [slot];
    }
  }

  lemma DropTopLoses(t: Timers, idx: nat)
    requires Ordered(t.heap, t.pool) && Distinct(t.heap) && t.heap != []
    ensures Lost(DropTop(t), idx) <==> Lost(t, idx)
  {
    var r := DropTop(t);
    ResetTopKeepsRest(t.heap, t.pool, r.pool);
    PopMembers(t.heap, r.pool);
    assert t.heap[0] in t.heap && t.heap[0] in r.free;
  }

  lemma {:induction false} PurgeLoses(t: Timers, idx: nat)
    requires Ordered(t.heap, t.pool) && Distinct(t.heap)
    ensures Lost(Purge(t), idx) <==> Lost(t, idx)
    decreases |t.heap|
  {
    if t.heap != [] && !t.pool[t.heap[0]].alive {
      DropTopLoses(t, idx);
      PurgeLoses(DropTop(t), idx);
    }
  }

  /** Cancelling a live timer loses its slot exactly when the timer is in the round. */
  lemma CancelLoses(t: Timers, round: set<int>, id: int, idx: nat)
    requires Valid(t, round)
    ensures id in t.ids ==> t.ids[id] < |t.pool|
    ensures Lost(Cancel(t, id), idx) <==> Lost(t, idx) || (id in t.ids && id in round && idx == t.ids[id])
  {
    hide Purge, EdgeOk;
    if id in t.ids {
      assert IdOk(t, round, id);
      KillKeeps(t, round, id);
      var r := Kill(t, id);
      PurgeLoses(r, idx);
      forall x | x in t.ids && x != id ensures x in r.ids && r.ids[x] == t.ids[x] != t.ids[id] {
        assert IdOk(t, round, x);
      }
    }
  }

  lemma TakeTopLoses(t: Timers, round: set<int>, idx: nat)
    requires Valid(t, round) && t.heap != []
    ensures Lost(TakeTop(t), idx) <==> Lost(t, idx)
  {
    PopMembers(t.heap, t.pool);
    assert HeapedOk(t, t.heap[0]) && t.heap[0] in t.heap;
    var r := TakeTop(t);
    if !t.pool[t.heap[0]].alive { assert t.heap[0] in r.free; }
  }

  lemma {:induction false} CollectLoses(t: Timers, round: set<int>, now: int, idx: nat)
    requires Valid(t, round)
    ensures Lost(Collect(t, now).0, idx) <==> Lost(t, idx)
    decreases |t.heap|
  {
    if IsDue(t, now) {
      var top := t.pool[t.heap[0]];
      TakeTopKeeps(t, round);
      TakeTopLoses(t, round, idx);
      CollectLoses(TakeTop(t), if top.alive then round + {top.id} else round, now, idx);
    }
  }

  lemma RefireOneLoses(t: Timers, round: set<int>, id: int, idx: nat)
    requires Valid(t, round) && id in round
    ensures id in t.ids ==> t.ids[id] < |t.pool| && t.ids[id] !in t.heap
    ensures Lost(RefireOne(t, id), idx) <==> Lost(t, idx)
  {
    RefireOneKeeps(t, round, id);
    if id in t.ids {
      assert IdOk(t, round, id);
      var slot, r := t.ids[id], RefireOne(t, id);
      if t.pool[slot].repeating {
        OrderSurvives(t.heap, t.pool, r.pool);
        PushMembers(t.heap, r.pool, slot);
      } else {
        assert slot in r.free;
        assert forall x :: x in t.ids && x != id ==> x in r.ids && r.ids[x] == t.ids[x];
      }
    }
  }

  lemma {:induction false} RefireAllLoses(t: Timers, round: seq<int>, idx: nat)
    requires Valid(t, Ids(round)) && Distinct(round)
    ensures Lost(RefireAll(t, round), idx) <==> Lost(t, idx)
    decreases |round|
  {
    if round != [] {
      RefireOneKeeps(t, Ids(round), round[0]);
      assert Ids(round) - {round[0]} == Ids(round[1..]);
      RefireOneLoses(t, Ids(round), round[0], idx);
      RefireAllLoses(RefireOne(t, round[0]), round[1..], idx);
    }
  }

  /** x cancels a timer that is in the round that is firing, and idx is its slot. */
  ghost predicate CancelsInRound(s: System, x: Action, idx: nat) {
    && (x.TimerCancel? || x.SchedCancel?)
    && x.id in s.timers.ids && x.id in s.round && idx == s.timers.ids[x.id]
  }

  /** A slot is lost by cancelling a timer that is in the firing round, by nothing else, and it stays
      lost until the whole timer is cleared. */
  lemma LostExactly(run: seq<System>, acts: seq<Action>, k: nat, idx: nat)
    requires IsRun(run, acts) && k < |acts|
    ensures Lost(run[k + 1].timers, idx) <==>
              !acts[k].TimerClear? && (Lost(run[k].timers, idx) || CancelsInRound(run[k], acts[k], idx))
  {
    RunInv(run, acts, k);
    assert Follows(run, acts, k);
    StepLoses(run[k], acts[k], idx);
  }

  lemma StepLoses(s: System, x: Action, idx: nat)
    requires Inv(s) && Enabled(s, x)
    ensures Lost(Step(s, x).timers, idx) <==> !x.TimerClear? && (Lost(s.timers, idx) || CancelsInRound(s, x, idx))
  {
    hide Valid, Add, Cancel, Collect, RefireAll;
    match x
    case TimerAdd(at, delay, repeating) => AddLoses(s.timers, Ids(s.round), at, delay, repeating, idx);
    case SchedAdd(at, delay, repeating, _) => AddLoses(s.timers, Ids(s.round), at, delay, repeating, idx);
    case TimerCancel(id) => CancelLoses(s.timers, Ids(s.round), id, idx);
    case SchedCancel(id) => CancelLoses(s.timers, Ids(s.round), id, idx);
    case BeginRound(at) => CollectLoses(s.timers, Ids(s.round), at, idx);
    case EndRound => RefireAllLoses(s.timers, s.round, idx);
    case _ =>
  }
}
