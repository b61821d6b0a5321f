/** TimerBase with its fields updated in place; every method does what the functions of Timer say. */
module TimerClass {
  import opened Basics
  import opened TimerHeap
  import opened TimerRuns

  class TimerBase {
    var pool: seq<Node>
    var heap: seq<nat>      // the array under the priority queue
    var free: seq<nat>
    var ids: map<int, nat>
    var nextId: int

    function View(): Timer.Timers
      reads this
    {
      Timer.Timers(pool, heap, free, ids, nextId)
    }

    ghost predicate Valid(round: set<int>)
      reads this
    {
      Timer.Valid(View(), round)
    }

    constructor ()
      ensures Valid({}) && View() == Timer.Timers([], [], [], map[], 1)
    {
      pool, heap, free, ids, nextId := [], [], [], map[], 1;
    }

    /** The slot is nobody's: it is not heaped, no id leads to it, and taking it disturbs no timer. */
    method AllocNode() returns (idx: nat)
      requires InPool(free, pool)
      modifies this`free, this`pool
      ensures View() == Timer.AllocNode(old(View())) && idx == Timer.NextSlot(old(View())) < |pool|
      ensures forall round :: old(Valid(round)) ==> Valid(round) && Timer.Unused(View(), idx)
    {
      ghost var t := View();
      forall round | Valid(round)
        ensures Timer.Valid(Timer.AllocNode(t), round) && Timer.Unused(Timer.AllocNode(t), Timer.NextSlot(t))
      {
        Timer.AllocNodeKeeps(t, round);
      }
      if |free| > 0 {
        idx := free[|free| - 1];
        free := free[..|free| - 1];
        pool := pool[idx := Timer.BLANK];
      } else {
        pool := pool + [Timer.BLANK];
        idx := |pool| - 1;
      }
    }

    /** Giving back a slot that nothing uses disturbs no timer, and the next timer takes that slot. */
    method FreeNode(idx: nat)
      requires idx < |pool|
      modifies this`free, this`pool
      ensures View() == Timer.FreeNode(old(View()), idx) && Timer.NextSlot(View()) == idx
      ensures forall round :: old(Valid(round) && Timer.Unused(View(), idx)) ==> Valid(round)
    {
      ghost var t := View();
      forall round | Valid(round) && Timer.Unused(t, idx) ensures Timer.Valid(Timer.FreeNode(t, idx), round) {
        Timer.FreeNodeKeeps(t, round, idx);
      }
      pool := pool[idx := Timer.BLANK];
      free := free + [idx];
    }

    /** rearm: the wake-up has to move, since the new timer is earlier than every heaped one. */
    method Add(now: int, delay: nat, repeating: bool, ghost round: set<int>) returns (id: int, rearm: bool)
      requires Valid(round)
      modifies this
      ensures Valid(round) && id == old(nextId) && id !in old(ids) && Timer.NextSlot(old(View())) !in old(heap)
      ensures View() == Timer.Add(old(View()), now, delay, repeating)
      ensures rearm <==> forall i :: 0 <= i < |old(heap)| ==> now + delay < old(pool)[old(heap)[i]].expiry
    {
      ghost var t := View();
      NewSlot(t, round);
      EarlierThanAll(heap, pool, now + delay);
      id, rearm := Insert(now, delay, repeating);
      Timer.AddKeeps(t, round, now, delay, repeating);
    }

    /** add, under the lock. */
    method Insert(now: int, delay: nat, repeating: bool) returns (id: int, rearm: bool)
      requires Ordered(heap, pool) && InPool(free, pool) && Timer.NextSlot(View()) !in heap
      modifies this
      ensures View() == Timer.Add(old(View()), now, delay, repeating) && id == old(nextId)
      ensures rearm <==> old(heap) == [] || now + delay < old(pool)[old(heap)[0]].expiry
    {
      hide Push, EdgeOk;
      ghost var before := pool;
      var idx := AllocNode();
      id := nextId;
      nextId := nextId + 1;
      pool := pool[idx := Node(now + delay, delay, id, repeating, true)];
      assert forall i :: 0 <= i < |heap| ==> pool[heap[i]] == before[heap[i]];
      rearm := |heap| == 0 || now + delay < pool[heap[0]].expiry;
      OrderSurvives(heap, before, pool);
      heap := Push(heap, pool, idx);
      ids := ids[id := idx];
    }

    method PurgeDeadEntries()
      requires Ordered(heap, pool) && Distinct(heap)
      modifies this`free, this`pool, this`heap
      ensures View() == Timer.Purge(old(View()))
    {
      while |heap| > 0 && !pool[heap[0]].alive
        invariant Ordered(heap, pool) && Distinct(heap) && ids == old(ids) && nextId == old(nextId)
        invariant Timer.Purge(View()) == Timer.Purge(old(View()))
        decreases |heap|
      {
        DropTop();
      }
    }

    /** The body of purgeDeadEntries' loop. */
    method DropTop()
      requires Ordered(heap, pool) && Distinct(heap) && heap != []
      modifies this`free, this`pool, this`heap
      ensures View() == Timer.DropTop(old(View()))
    {
      ghost var before := pool;
      FreeNode(heap[0]);
      Timer.ResetTopKeepsRest(heap, before, pool);
      heap := Pop(heap, pool);
    }

    method Cancel(id: int, ghost round: set<int>)
      requires Valid(round)
      modifies this
      ensures Valid(round) && ids == old(ids) - {id} && nextId == old(nextId)
      ensures id in old(ids) ==> old(ids)[id] < |old(pool)|
      ensures View() == Timer.Cancel(old(View()), id)
      ensures id in old(ids) ==> heap == [] || pool[heap[0]].alive
    {
      Timer.CancelKeeps(View(), round, id);
      if id in ids {
        Timer.KillKeeps(View(), round, id);
        Timer.PurgeKeeps(Timer.Kill(View(), id), round);
        var idx := ids[id];
        pool := pool[idx := pool[idx].(alive := false)];
        ids := ids - {id};
        PurgeDeadEntries();
      }
    }

    method Clear()
      modifies this
      ensures View() == Timer.Clear(old(View()))
      ensures forall round: set<int> :: (forall x :: x in round ==> x < nextId) && nextId >= 1 ==> Valid(round)
    {
      heap, pool, free, ids := [], [], [], map[];
    }

    method IsAlive(id: int, ghost round: set<int>) returns (alive: bool)
      requires Valid(round)
      ensures alive <==> id in ids
    {
      assert id in ids ==> Timer.IdOk(View(), round, id);
      alive := id in ids && pool[ids[id]].alive;
    }

    /** First locked section of executeExpiredTimers; TimerRuns.CollectExact says what ready is. */
    method TakeReady(now: int) returns (ready: seq<int>)
      requires Ordered(heap, pool) && Distinct(heap)
      modifies this`heap, this`pool, this`free
      ensures (View(), ready) == Timer.Collect(old(View()), now)
    {
      ghost var t := View();
      OntoEnds(Timer.Collect(t, now).0, Timer.Collect(t, now).1);
      ready := [];
      while |heap| > 0 && pool[heap[0]].expiry <= now
        invariant Ordered(heap, pool) && Distinct(heap) && ids == old(ids) && nextId == old(nextId)
        invariant Onto(ready, Timer.Collect(View(), now)) == Timer.Collect(t, now)
        decreases |heap|
      {
        Unwind(View(), now, ready);
        var node := TakeTop();
        if node.alive {
          ready := ready + [node.id];
        }
      }
      OntoEnds(View(), ready);
    }

    /** The body of the first section's loop, up to the ready list. */
    method TakeTop() returns (node: Node)
      requires Ordered(heap, pool) && Distinct(heap) && heap != []
      modifies this`heap, this`pool, this`free
      ensures node == old(pool)[old(heap)[0]] && View() == Timer.TakeTop(old(View()))
    {
      var idx := heap[0];
      Timer.ResetTopKeepsRest(heap, pool, pool);
      heap := Pop(heap, pool);
      node := pool[idx];
      if !node.alive {
        FreeNode(idx);
      }
    }

    /** Second locked section of executeExpiredTimers. */
    method Refire(ready: seq<int>)
      requires Valid(Ids(ready)) && Distinct(ready)
      modifies this
      ensures View() == RefireAll(old(View()), ready)
    {
      var i := 0;
      while i < |ready|
        invariant 0 <= i <= |ready| && Valid(Ids(ready[i..]))
        invariant RefireAll(View(), ready[i..]) == RefireAll(old(View()), ready)
      {
        RefireStep(View(), ready[i..]);
        assert ready[i..][1..] == ready[i + 1..];
        RefireOne(ready[i]);
        i := i + 1;
      }
    }

    /** The body of the second section's loop. */
    method RefireOne(id: int)
      requires Ordered(heap, pool) && Distinct(heap)
      requires id in ids ==> ids[id] < |pool| && ids[id] !in heap
      modifies this
      ensures View() == Timer.RefireOne(old(View()), id)
    {
      hide Timer.Valid, Timer.Unused, EdgeOk, Push;
      if id in ids {
        var idx := ids[id];
        if pool[idx].repeating && pool[idx].alive {
          ghost var before := pool;
          pool := pool[idx := pool[idx].(expiry := pool[idx].expiry + pool[idx].interval)];
          OrderSurvives(heap, before, pool);
          heap := Push(heap, pool, idx);
        } else {
          ids := ids - {id};
          FreeNode(idx);
        }
      }
    }
  }

  lemma NewSlot(t: Timer.Timers, round: set<int>)
    requires Timer.Valid(t, round)
    ensures Timer.NextSlot(t) !in t.heap && t.nextId !in t.ids
  {
    assert t.free != [] ==> Timer.NextSlot(t) in t.free;
    assert t.nextId in t.ids ==> Timer.IdOk(t, round, t.nextId);
  }

  lemma RefireStep(t: Timer.Timers, ready: seq<int>)
    requires Timer.Valid(t, Ids(ready)) && Distinct(ready) && ready != []
    ensures ready[0] in t.ids ==> t.ids[ready[0]] < |t.pool| && t.ids[ready[0]] !in t.heap
    ensures Timer.Valid(Timer.RefireOne(t, ready[0]), Ids(ready[1..]))
    ensures RefireAll(Timer.RefireOne(t, ready[0]), ready[1..]) == RefireAll(t, ready)
  {
    Timer.RefireOneKeeps(t, Ids(ready), ready[0]);
    assert Ids(ready) - {ready[0]} == Ids(ready[1..]);
  }

  function Onto(ready: seq<int>, rest: (Timer.Timers, seq<int>)): (Timer.Timers, seq<int>) {
    (rest.0, ready + rest.1)
  }

  lemma OntoEnds(t: Timer.Timers, ready: seq<int>)
    ensures Onto([], (t, ready)) == (t, ready) && Onto(ready, (t, [])) == (t, ready)
  {
    assert [] + ready == ready && ready + [] == ready;
  }

  lemma Unwind(t: Timer.Timers, now: int, ready: seq<int>)
    requires Ordered(t.heap, t.pool) && Distinct(t.heap) && Timer.IsDue(t, now)
    ensures var top := t.pool[t.heap[0]];
            Onto(ready, Timer.Collect(t, now))
            == Onto(if top.alive then ready + [top.id] else ready, Timer.Collect(Timer.TakeTop(t), now))
  {
    var top, rest := t.pool[t.heap[0]], Timer.Collect(Timer.TakeTop(t), now).1;
    assert ready + ([top.id] + rest) == (ready + [top.id]) + rest;
  }

  /** Earlier than the top is earlier than everything in the heap. */
  lemma EarlierThanAll(h: seq<nat>, pool: seq<Node>, at: int)
    requires Ordered(h, pool)
    ensures (h == [] || at < pool[h[0]].expiry) <==> forall i :: 0 <= i < |h| ==> at < pool[h[i]].expiry
  {
    forall i | 0 <= i < |h| ensures h != [] && pool[h[0]].expiry <= pool[h[i]].expiry { TopIsEarliest(h, pool, i); }
  }
}
