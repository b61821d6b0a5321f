/**
TimerBase: what each locked operation does to the pool, the heap, the free list and the id map, as
functions on their values, and what they keep. Class TimerBase in module TimerClass carries them out
in place. Callbacks and payloads are opaque to the timer and are left out of the node.
*/
module Timer {
  import opened Basics
  import opened TimerHeap

  /** TimerNode{} */
  const BLANK := Node(0, 0, -1, false, true)

  datatype Timers = Timers(pool: seq<Node>, heap: seq<nat>, free: seq<nat>, ids: map<int, nat>, nextId: int)

  // ---- The structure invariant -------------------------------------------------------------------

  /** id is live: its node carries it, is not free, and is heaped unless id is in the firing round. */
  predicate IdOk(t: Timers, round: set<int>, id: int)
    requires id in t.ids
  {
    var idx := t.ids[id];
    && 1 <= id < t.nextId && idx < |t.pool| && t.pool[idx].id == id && t.pool[idx].alive
    && idx !in t.free && (id in round <==> idx !in t.heap)
  }

  /** A heaped node that is alive belongs to a live id. */
  predicate HeapedOk(t: Timers, idx: nat) {
    idx < |t.pool| && idx !in t.free
    && (t.pool[idx].alive ==> t.pool[idx].id in t.ids && t.ids[t.pool[idx].id] == idx)
  }

  ghost predicate Valid(t: Timers, round: set<int>) {
    && Ordered(t.heap, t.pool) && Distinct(t.heap)
    && InPool(t.free, t.pool) && Distinct(t.free)
    && t.nextId >= 1
    && (forall id :: id in t.ids ==> IdOk(t, round, id))
    && (forall idx :: idx in t.heap ==> HeapedOk(t, idx))
    && (forall id :: id in round ==> id < t.nextId)
  }

  // ---- Operations --------------------------------------------------------------------------------

  function FreeNode(t: Timers, idx: nat): Timers
    requires idx < |t.pool|
  {
    t.(pool := t.pool[idx := BLANK], free := t.free + [idx])
  }

  /** The slot that the next timer takes: the last freed one, or a new one. */
  function NextSlot(t: Timers): nat {
    if t.free != [] then t.free[|t.free| - 1] else |t.pool|
  }

  function AllocNode(t: Timers): Timers
    requires InPool(t.free, t.pool)
  {
    if t.free != [] then t.(free := t.free[..|t.free| - 1], pool := t.pool[NextSlot(t) := BLANK])
    else t.(pool := t.pool + [BLANK])
  }

  /** A slot that is not heaped, not free, and that no id leads to. */
  predicate Unused(t: Timers, idx: nat) {
    idx !in t.heap && idx !in t.free && forall id :: id in t.ids ==> t.ids[id] != idx
  }

  lemma AllocNodeKeeps(t: Timers, round: set<int>)
    requires Valid(t, round)
    ensures Valid(AllocNode(t), round) && Unused(AllocNode(t), NextSlot(t))
  {
    hide EdgeOk;
    var u, idx := AllocNode(t), NextSlot(t);
    assert t.free != [] ==> idx in t.free;
    assert forall i :: i in u.free ==> i in t.free && i != idx;
    forall i | 0 <= i < |t.heap| ensures t.heap[i] < |t.pool| && u.pool[t.heap[i]] == t.pool[t.heap[i]] {
      assert HeapedOk(t, t.heap[i]);
    }
    OrderSurvives(t.heap, t.pool, u.pool);
    forall id | id in t.ids ensures IdOk(u, round, id) && t.ids[id] != idx { assert IdOk(t, round, id); }
    forall i | i in t.heap ensures HeapedOk(u, i) { assert HeapedOk(t, i); }
  }

  lemma FreeNodeKeeps(t: Timers, round: set<int>, idx: nat)
    requires Valid(t, round) && idx < |t.pool| && Unused(t, idx)
    ensures Valid(FreeNode(t, idx), round) && AllocNode(FreeNode(t, idx)) == t.(pool := t.pool[idx := BLANK])
  {
    hide EdgeOk;
    var u := FreeNode(t, idx);
    assert forall i :: i in u.free ==> i in t.free || i == idx;
    FreeUnheaped(t, idx);
    forall id | id in t.ids ensures IdOk(u, round, id) { assert IdOk(t, round, id); }
    forall i | i in t.heap ensures HeapedOk(u, i) { assert HeapedOk(t, i); }
  }

  ghost function Add(t: Timers, now: int, delay: nat, repeating: bool): Timers
    requires Ordered(t.heap, t.pool) && InPool(t.free, t.pool) && NextSlot(t) !in t.heap
  {
    var idx := NextSlot(t);
    var t1 := AllocNode(t);
    var pool := t1.pool[idx := Node(now + delay, delay, t.nextId, repeating, true)];
    OrderSurvives(t.heap, t.pool, pool);
    Timers(pool, Push(t.heap, pool, idx), t1.free, t.ids[t.nextId := idx], t.nextId + 1)
  }

  /** Free the top and pop it; its key is reset before the pop. */
  ghost function DropTop(t: Timers): (r: Timers)
    requires Ordered(t.heap, t.pool) && Distinct(t.heap) && t.heap != []
    ensures Ordered(r.heap, r.pool) && Distinct(r.heap) && |r.heap| < |t.heap|
  {
    var t1 := FreeNode(t, t.heap[0]);
    ResetTopKeepsRest(t.heap, t.pool, t1.pool);
    PopMembers(t.heap, t1.pool);
    t1.(heap := Pop(t.heap, t1.pool))
  }

  lemma ResetTopKeepsRest(h: seq<nat>, pool: seq<Node>, pool': seq<Node>)
    requires Ordered(h, pool) && Distinct(h) && h != [] && |pool'| == |pool|
    requires forall i :: 0 <= i < |pool| && i != h[0] ==> pool'[i] == pool[i]
    ensures OrderedBelowRoot(h, pool')
    ensures |Pop(h, pool')| == |h| - 1
  {
    forall j | 0 < j < |h| && Parent(j) > 0 ensures EdgeOk(h, pool', j) { assert EdgeOk(h, pool, j); }
    assert |multiset(Pop(h, pool'))| == |h| - 1;
  }

  ghost function Purge(t: Timers): (r: Timers)
    requires Ordered(t.heap, t.pool) && Distinct(t.heap)
    ensures Ordered(r.heap, r.pool) && Distinct(r.heap)
    decreases |t.heap|
  {
    if t.heap != [] && !t.pool[t.heap[0]].alive then Purge(DropTop(t)) else t
  }

  function Kill(t: Timers, id: int): Timers
    requires id in t.ids && t.ids[id] < |t.pool|
  {
    var idx := t.ids[id];
    t.(pool := t.pool[idx := t.pool[idx].(alive := false)], ids := t.ids - {id})
  }

  ghost function Cancel(t: Timers, id: int): Timers
    requires Ordered(t.heap, t.pool) && Distinct(t.heap) && (id in t.ids ==> t.ids[id] < |t.pool|)
  {
    if id !in t.ids then t
    else OrderSurvives(t.heap, t.pool, Kill(t, id).pool); Purge(Kill(t, id))
  }

  function Clear(t: Timers): Timers { Timers([], [], [], map[], t.nextId) }

  predicate IsDue(t: Timers, now: int)
    requires InPool(t.heap, t.pool)
  {
    t.heap != [] && t.pool[t.heap[0]].expiry <= now
  }

  /** The top is popped; a dead one is freed. */
  ghost function TakeTop(t: Timers): (r: Timers)
    requires Ordered(t.heap, t.pool) && Distinct(t.heap) && t.heap != []
    ensures Ordered(r.heap, r.pool) && Distinct(r.heap) && |r.heap| < |t.heap|
  {
    ResetTopKeepsRest(t.heap, t.pool, t.pool);
    PopMembers(t.heap, t.pool);
    var t1 := t.(heap := Pop(t.heap, t.pool));
    FreeUnheaped(t1, t.heap[0]);
    if t.pool[t.heap[0]].alive then t1 else FreeNode(t1, t.heap[0])
  }

  lemma FreeUnheaped(t: Timers, idx: nat)
    requires Ordered(t.heap, t.pool) && idx < |t.pool| && idx !in t.heap
    ensures Ordered(t.heap, FreeNode(t, idx).pool)
  {
    OrderSurvives(t.heap, t.pool, FreeNode(t, idx).pool);
  }

  /** First locked section of executeExpiredTimers: the ids to fire, in firing order. */
  ghost function Collect(t: Timers, now: int): (r: (Timers, seq<int>))
    requires Ordered(t.heap, t.pool) && Distinct(t.heap)
    ensures Ordered(r.0.heap, r.0.pool) && Distinct(r.0.heap)
    decreases |t.heap|
  {
    if !IsDue(t, now) then (t, [])
    else
      var top := t.pool[t.heap[0]];
      var rest := Collect(TakeTop(t), now);
      (rest.0, if top.alive then [top.id] + rest.1 else rest.1)
  }

  /** Second locked section, for one fired id: a repeating timer goes back, any other ends. */
  ghost function RefireOne(t: Timers, id: int): (r: Timers)
    requires Ordered(t.heap, t.pool) && Distinct(t.heap)
    requires id in t.ids ==> t.ids[id] < |t.pool| && t.ids[id] !in t.heap
    ensures Ordered(r.heap, r.pool)
  {
    if id !in t.ids then t
    else
      var idx := t.ids[id];
      if t.pool[idx].repeating && t.pool[idx].alive then
        var pool := t.pool[idx := t.pool[idx].(expiry := t.pool[idx].expiry + t.pool[idx].interval)];
        OrderSurvives(t.heap, t.pool, pool);
        t.(pool := pool, heap := Push(t.heap, pool, idx))
      else
        OrderSurvives(t.heap, t.pool, t.pool[idx := BLANK]);
        FreeNode(t.(ids := t.ids - {id}), idx)
  }

  // ---- Every operation keeps the invariant -------------------------------------------------------

  lemma AddKeeps(t: Timers, round: set<int>, now: int, delay: nat, repeating: bool)
    requires Valid(t, round)
    ensures NextSlot(t) !in t.heap && Valid(Add(t, now, delay, repeating), round)
  {
    hide Pop, Push;
    var idx := NextSlot(t);
    assert t.free != [] ==> idx in t.free;
    var r := Add(t, now, delay, repeating);
    OrderSurvives(t.heap, t.pool, r.pool);
    PushMembers(t.heap, r.pool, idx);
    assert idx !in r.free;
    forall id | id in r.ids ensures IdOk(r, round, id) {
      if id != t.nextId { assert IdOk(t, round, id); }
    }
    forall x | x in r.heap ensures HeapedOk(r, x) {
      if x != idx { assert HeapedOk(t, x); }
    }
  }

  lemma DropTopKeeps(t: Timers, round: set<int>)
    requires Valid(t, round) && t.heap != [] && !t.pool[t.heap[0]].alive
    ensures Valid(DropTop(t), round)
  {
    hide Pop, Push;
    var r := DropTop(t);
    var top := t.heap[0];
    ResetTopKeepsRest(t.heap, t.pool, r.pool);
    PopMembers(t.heap, r.pool);
    assert HeapedOk(t, top);
    forall id | id in r.ids ensures IdOk(r, round, id) { assert IdOk(t, round, id); }
    forall x | x in r.heap ensures HeapedOk(r, x) { assert HeapedOk(t, x); }
  }

  /** Purging keeps the invariant and leaves no dead top. */
  lemma {:induction false} PurgeKeeps(t: Timers, round: set<int>)
    requires Valid(t, round)
    ensures Valid(Purge(t), round) && Purge(t).ids == t.ids && Purge(t).nextId == t.nextId
    ensures Purge(t).heap == [] || Purge(t).pool[Purge(t).heap[0]].alive
    decreases |t.heap|
  {
    if t.heap != [] && !t.pool[t.heap[0]].alive {
      DropTopKeeps(t, round);
      PurgeKeeps(DropTop(t), round);
    }
  }

  lemma KillKeeps(t: Timers, round: set<int>, id: int)
    requires Valid(t, round) && id in t.ids
    ensures t.ids[id] < |t.pool| && Valid(Kill(t, id), round)
  {
    assert IdOk(t, round, id);
    var r := Kill(t, id);
    OrderSurvives(t.heap, t.pool, r.pool);
    forall x | x in r.ids ensures IdOk(r, round, x) { assert IdOk(t, round, x); }
    forall x | x in r.heap ensures HeapedOk(r, x) { assert HeapedOk(t, x); }
  }

  lemma CancelKeeps(t: Timers, round: set<int>, id: int)
    requires Valid(t, round)
    ensures id in t.ids ==> t.ids[id] < |t.pool|
    ensures Valid(Cancel(t, id), round)
    ensures Cancel(t, id).ids == t.ids - {id} && Cancel(t, id).nextId == t.nextId
  {
    if id in t.ids {
      KillKeeps(t, round, id);
      PurgeKeeps(Kill(t, id), round);
    }
  }

  lemma TakeTopKeeps(t: Timers, round: set<int>)
    requires Valid(t, round) && t.heap != []
    ensures var top := t.pool[t.heap[0]];
            && Valid(TakeTop(t), if top.alive then round + {top.id} else round)
            && (top.alive ==> top.id in t.ids && top.id !in round)
  {
    hide Pop, Push;
    var r := TakeTop(t);
    var top := t.heap[0];
    ResetTopKeepsRest(t.heap, t.pool, t.pool);
    PopMembers(t.heap, t.pool);
    assert HeapedOk(t, top);
    var round' := if t.pool[top].alive then round + {t.pool[top].id} else round;
    if t.pool[top].alive { assert IdOk(t, round, t.pool[top].id); }
    forall id | id in r.ids ensures IdOk(r, round', id) { assert IdOk(t, round, id); }
    forall x | x in r.heap ensures HeapedOk(r, x) { assert HeapedOk(t, x); }
  }

  lemma RefireOneKeeps(t: Timers, round: set<int>, id: int)
    requires Valid(t, round) && id in round
    ensures id in t.ids ==> t.ids[id] < |t.pool| && t.ids[id] !in t.heap
    ensures Valid(RefireOne(t, id), round - {id})
  {
    hide Pop, Push;
    if id in t.ids {
      assert IdOk(t, round, id);
      var idx := t.ids[id];
      var r := RefireOne(t, id);
      if t.pool[idx].repeating {
        OrderSurvives(t.heap, t.pool, r.pool);
        PushMembers(t.heap, r.pool, idx);
      } else {
        assert idx !in t.free;
      }
      forall x | x in r.ids ensures IdOk(r, round - {id}, x) { assert IdOk(t, round, x); }
      forall x | x in r.heap ensures HeapedOk(r, x) { if x != idx { assert HeapedOk(t, x); } }
    } else {
      forall x | x in t.ids ensures IdOk(t, round - {id}, x) { assert IdOk(t, round, x); }
    }
  }
}
