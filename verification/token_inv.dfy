/** What every step of the token protocol keeps about tokens, slots and wakeups. */
module TokenInv {
  import opened Basics
  import opened Token

  predicate HoldsSend(p: Send) { p.Won? || p.SendOverflow? }

  predicate HoldsWork(w: Work) { w.Begin? || w.Batch? || w.Settle? || w.Reissue? || w.Overflow? }

  predicate Waking(w: Work) { w.Released? || w.Recheck? || w.Reclaim? }

  predicate InDrain(w: Work) { w.Drain? || w.DrainAdd? }

  predicate Shape(s: State) {
    && s.sys.workers > 0 && |s.queues| == s.sys.workers && |s.held| == MAX_ACTORS
    && (forall a :: a in s.sys.actors ==> a < MAX_ACTORS)   // attachActor refuses larger ids
    && s.mbox.Keys == s.sys.actors && s.token.Keys <= s.sys.actors
    && (forall t :: t in s.work ==> t < s.sys.workers) && s.work.Keys <= s.send.Keys
    && (s.phase.Draining? || s.work.Keys <= s.up)
  }

  predicate SendOk(s: State, t: Tid)
    requires t in s.send
  {
    var p := s.send[t];
    && (p.Pushed? ==> p.actor in s.sys.actors)
    && (HoldsSend(p) ==> p.actor in s.token && s.token[p.actor] == Sender(t))
    && (t in s.work && p != NoSend ==> s.work[t].Batch?)
  }

  predicate WorkOk(s: State, t: Tid)
    requires t in s.work
  {
    var w := s.work[t];
    && (Waking(w) ==> w.actor in s.sys.actors)
    && (HoldsWork(w) ==> w.actor in s.token && s.token[w.actor] == Holder(t))
    && (InDrain(w) <==> s.mutex == Some(t))
    && (w.AcqPendingCheck? || w.NullPending? || w.TopDraining? ==> s.phase.Draining?)
  }

  predicate TokenOk(s: State, a: Actor)
    requires a in s.token
  {
    match s.token[a]
    case Sender(t) => t in s.send && HoldsSend(s.send[t]) && s.send[t].actor == a
    case Holder(t) => t in s.work && HoldsWork(s.work[t]) && s.work[t].actor == a
    case Queued(q) => q < |s.queues| && a in s.queues[q]
    case Pended => a in s.pended
  }

  predicate SlotOk(s: State, a: Actor)
    requires |s.held| == MAX_ACTORS
  {
    s.held[Slot(a)] <==> a in s.token
  }

  /** A list of entries holds tokens located there, once each. */
  predicate EntriesOk(s: State, xs: seq<Actor>, l: Loc) {
    Distinct(xs) && forall i :: 0 <= i < |xs| ==> xs[i] in s.token && s.token[xs[i]] == l
  }

  /** A waiting message has a token, or somebody on the way to make one. */
  predicate WakeOk(s: State, a: Actor)
    requires a in s.mbox
  {
    a !in s.stopped && s.mbox[a] > 0 && a !in s.token ==>
      && a in s.waker
      && var t := s.waker[a];
         || (t in s.send && s.send[t] == Pushed(a))
         || (t in s.work && Waking(s.work[t]) && s.work[t].actor == a)
  }

  ghost predicate Threads(s: State) {
    && (forall t :: t in s.send ==> SendOk(s, t))
    && (forall t :: t in s.work ==> WorkOk(s, t))
  }

  ghost predicate Tokens(s: State)
    requires |s.held| == MAX_ACTORS
  {
    && (forall a :: a in s.token ==> TokenOk(s, a))
    && (forall a :: a in s.sys.actors ==> SlotOk(s, a))
  }

  ghost predicate Lists(s: State) {
    && (forall q :: 0 <= q < |s.queues| ==> EntriesOk(s, s.queues[q], Queued(q)))
    && EntriesOk(s, s.pended, Pended)
  }

  ghost predicate Wakes(s: State)
    requires s.mbox.Keys == s.sys.actors
  {
    forall a :: a in s.sys.actors ==> WakeOk(s, a)
  }

  ghost predicate Core(s: State) {
    Shape(s) && Threads(s) && Tokens(s) && Lists(s) && Wakes(s)
  }

  lemma InitCore(s: State)
    requires Init(s) && forall a :: a in s.sys.actors ==> a < MAX_ACTORS
    ensures Core(s)
  {
  }

  // ---- Steps that leave every token where it is -------------------------------------------------

  /** s' is s up to counters, the mutex and what thread t is doing. */
  ghost predicate SameTokens(s: State, s': State, work: map<Tid, Work>, send: map<Tid, Send>) {
    s' == s.(work := work, send := send, mutex := s'.mutex, pending := s'.pending,
             drift := s'.drift, overflows := s'.overflows, gapExits := s'.gapExits)
  }

  lemma ListsStay(s: State, s': State)
    requires Lists(s) && s'.queues == s.queues && s'.pended == s.pended && s'.token == s.token
    ensures Lists(s')
  {
    forall q | 0 <= q < |s'.queues| ensures EntriesOk(s', s'.queues[q], Queued(q)) {
      assert EntriesOk(s, s.queues[q], Queued(q));
    }
  }

  lemma WorkMovesThreads(s: State, s': State, t: Tid, w: Work)
    requires Core(s) && t in s.work && SameTokens(s, s', s.work[t := w], s.send) && s.send[t] == NoSend
    requires forall u :: u in s.work && u != t ==> (s'.mutex == Some(u) <==> s.mutex == Some(u))
    requires WorkOk(s', t)
    ensures Shape(s') && Threads(s')
  {
    hide Lists, Wakes, Tokens;
    forall u | u in s'.send ensures SendOk(s', u) { assert SendOk(s, u); }
    forall u | u in s'.work ensures WorkOk(s', u) { assert WorkOk(s, u); }
  }

  lemma WorkMovesWakes(s: State, s': State, t: Tid, w: Work)
    requires Core(s) && t in s.work && SameTokens(s, s', s.work[t := w], s.send)
    requires Waking(s.work[t]) && (!Waking(w) || w.actor != s.work[t].actor) ==>
               var a := s.work[t].actor; a in s.stopped || a in s.token || (a in s.mbox ==> s.mbox[a] == 0)
    ensures forall a :: a in s.sys.actors ==> a in s'.mbox && WakeOk(s', a)
  {
    hide Threads, Tokens, Lists;
    forall a | a in s.sys.actors ensures WakeOk(s', a) { assert WakeOk(s, a); }
  }

  lemma WorkMoves(s: State, s': State, t: Tid, w: Work)
    requires Core(s) && t in s.work && SameTokens(s, s', s.work[t := w], s.send)
    requires HoldsWork(s.work[t]) <==> HoldsWork(w)
    requires HoldsWork(w) ==> w.actor == s.work[t].actor
    requires Waking(w) ==> Waking(s.work[t]) && w.actor == s.work[t].actor
    requires Waking(s.work[t]) && !Waking(w) ==>
               var a := s.work[t].actor; a in s.stopped || a in s.token || s.mbox[a] == 0
    requires s.send[t] == NoSend
    requires forall u :: u in s.work && u != t ==> (s'.mutex == Some(u) <==> s.mutex == Some(u))
    requires WorkOk(s', t)
    ensures Core(s')
  {
    hide SendOk, WorkOk, EntriesOk, WakeOk;
    WorkMovesThreads(s, s', t, w);
    forall a | a in s'.token ensures TokenOk(s', a) { assert TokenOk(s, a); }
    forall a | a in s'.sys.actors ensures SlotOk(s', a) { assert SlotOk(s, a); }
    ListsStay(s, s');
    WorkMovesWakes(s, s', t, w);
  }

  lemma SendMoves(s: State, s': State, t: Tid, p: Send)
    requires Core(s) && t in s.send && SameTokens(s, s', s.work, s.send[t := p]) && s'.mutex == s.mutex
    requires HoldsSend(s.send[t]) <==> HoldsSend(p)
    requires HoldsSend(p) ==> p.actor == s.send[t].actor
    requires s.send[t].Pushed? ==> s.send[t].actor in s.token
    requires s.send[t] != NoSend && !p.Pushed?
    ensures Core(s')
  {
    assert SendOk(s, t);
    forall u | u in s'.send ensures SendOk(s', u) { assert SendOk(s, u); }
    forall u | u in s'.work ensures WorkOk(s', u) { assert WorkOk(s, u); }
    forall a | a in s'.token ensures TokenOk(s', a) { assert TokenOk(s, a); }
    forall a | a in s'.sys.actors ensures SlotOk(s', a) { assert SlotOk(s, a); }
    forall q | 0 <= q < |s'.queues| ensures EntriesOk(s', s'.queues[q], Queued(q)) {
      assert EntriesOk(s, s.queues[q], Queued(q));
    }
    forall a | a in s'.sys.actors ensures WakeOk(s', a) { assert WakeOk(s, a); }
  }

  // ---- Steps that create, move or end a token ---------------------------------------------------

  lemma SlotsStay(s: State, s': State)
    requires Shape(s) && Shape(s') && Tokens(s) && s'.sys.actors == s.sys.actors && s'.held == s.held
    requires s'.token.Keys == s.token.Keys
    ensures forall b :: b in s'.sys.actors ==> SlotOk(s', b)
  {
    forall b | b in s'.sys.actors ensures SlotOk(s', b) { assert SlotOk(s, b); }
  }

  /** One actor's slot is taken or freed, along with its token. */
  lemma OneSlotChanges(s: State, s': State, a: Actor, held: bool)
    requires Shape(s) && Tokens(s) && a in s.sys.actors && s'.sys == s.sys && s'.held == s.held[Slot(a) := held]
    requires s'.token.Keys == if held then s.token.Keys + {a} else s.token.Keys - {a}
    ensures forall b :: b in s.sys.actors ==> SlotOk(s', b)
  {
    hide TokenOk;
    forall b | b in s.sys.actors ensures SlotOk(s', b) { assert SlotOk(s, b); }
  }

  lemma NotHeld(s: State, a: Actor)
    requires Shape(s) && Tokens(s) && a in s.sys.actors && !s.held[Slot(a)]
    ensures a !in s.token
  {
    assert SlotOk(s, a);
  }

  lemma SendClaimsThreads(s: State, t: Tid, a: Actor)
    requires Core(s) && t in s.send && s.send[t] == Pushed(a) && !s.held[Slot(a)]
    ensures forall b :: b in s.sys.actors ==> SlotOk(Claimed(ToSend(s, t, Won(a)), a, Sender(t)), b)
    ensures Shape(Claimed(ToSend(s, t, Won(a)), a, Sender(t))) && Threads(Claimed(ToSend(s, t, Won(a)), a, Sender(t)))
  {
    hide TokenOk, SlotOk, Lists, Wakes;
    var s' := Claimed(ToSend(s, t, Won(a)), a, Sender(t));
    assert SendOk(s, t) && (t in s.work ==> WorkOk(s, t));
    NotHeld(s, a);
    OneSlotChanges(s, s', a, true);
    forall u | u in s'.send ensures SendOk(s', u) { assert SendOk(s, u); }
    forall u | u in s'.work ensures WorkOk(s', u) { assert WorkOk(s, u); }
  }

  lemma SendClaims(s: State, t: Tid, a: Actor)
    requires Core(s) && t in s.send && s.send[t] == Pushed(a) && !s.held[Slot(a)]
    ensures Core(Claimed(ToSend(s, t, Won(a)), a, Sender(t)))
  {
    hide SlotOk;
    var s' := Claimed(ToSend(s, t, Won(a)), a, Sender(t));
    NotHeld(s, a);
    SendClaimsThreads(s, t, a);
    assert SendOk(s, t) && (t in s.work ==> WorkOk(s, t));
    assert EntriesOk(s, s.pended, Pended);
    forall r | 0 <= r < |s'.queues| ensures EntriesOk(s', s'.queues[r], Queued(r)) {
      assert EntriesOk(s, s.queues[r], Queued(r));
    }
    forall b | b in s'.token ensures TokenOk(s', b) { assert b != a ==> TokenOk(s, b); }
    forall b | b in s'.sys.actors ensures WakeOk(s', b) { assert WakeOk(s, b); }
  }

  lemma WorkClaimsThreads(s: State, t: Tid, a: Actor)
    requires Core(s) && t in s.work && s.work[t] == Reclaim(a) && s.send[t] == NoSend && !s.held[Slot(a)]
    ensures forall b :: b in s.sys.actors ==> SlotOk(Claimed(ToWork(s, t, Reissue(a)), a, Holder(t)), b)
    ensures Shape(Claimed(ToWork(s, t, Reissue(a)), a, Holder(t)))
    ensures Threads(Claimed(ToWork(s, t, Reissue(a)), a, Holder(t)))
  {
    hide TokenOk, SlotOk, Lists, Wakes;
    var s' := Claimed(ToWork(s, t, Reissue(a)), a, Holder(t));
    assert WorkOk(s, t) && SendOk(s, t);
    NotHeld(s, a);
    OneSlotChanges(s, s', a, true);
    forall u | u in s'.send ensures SendOk(s', u) { assert SendOk(s, u); }
    forall u | u in s'.work ensures WorkOk(s', u) { assert WorkOk(s, u); }
  }

  lemma WorkClaims(s: State, t: Tid, a: Actor)
    requires Core(s) && t in s.work && s.work[t] == Reclaim(a) && s.send[t] == NoSend && !s.held[Slot(a)]
    ensures Core(Claimed(ToWork(s, t, Reissue(a)), a, Holder(t)))
  {
    hide SendOk, SlotOk;
    var s' := Claimed(ToWork(s, t, Reissue(a)), a, Holder(t));
    NotHeld(s, a);
    WorkClaimsThreads(s, t, a);
    assert WorkOk(s, t);
    assert EntriesOk(s, s.pended, Pended);
    forall r | 0 <= r < |s'.queues| ensures EntriesOk(s', s'.queues[r], Queued(r)) {
      assert EntriesOk(s, s.queues[r], Queued(r));
    }
    forall b | b in s'.token ensures TokenOk(s', b) { assert b != a ==> TokenOk(s, b); }
    forall b | b in s'.sys.actors ensures WakeOk(s', b) { assert WakeOk(s, b); }
  }

  /** The lists after actor a's token, held by a thread, becomes an entry of queue q. */
  lemma EnqueueLists(s: State, s': State, q: nat, a: Actor)
    requires Core(s) && q < |s.queues| && a in s.token && !s.token[a].Queued? && !s.token[a].Pended?
    requires s'.queues == s.queues[q := s.queues[q] + [a]] && s'.token == s.token[a := Queued(q)]
    requires s'.pended == s.pended
    ensures Lists(s')
  {
    assert EntriesOk(s, s.pended, Pended);
    forall r | 0 <= r < |s'.queues| ensures EntriesOk(s', s'.queues[r], Queued(r)) {
      assert EntriesOk(s, s.queues[r], Queued(r));
    }
  }

  lemma SendEnqueuesThreads(s: State, t: Tid, a: Actor, q: nat)
    requires Core(s) && t in s.send && s.send[t] == Won(a) && q < |s.queues|
    ensures Shape(Enqueue(ToSend(s, t, Counting), q, a)) && Threads(Enqueue(ToSend(s, t, Counting), q, a))
  {
    var s' := Enqueue(ToSend(s, t, Counting), q, a);
    assert SendOk(s, t) && (t in s.work ==> WorkOk(s, t)) && (a in s.sys.actors ==> SlotOk(s, a));
    forall u | u in s'.send ensures SendOk(s', u) { assert SendOk(s, u); }
    forall u | u in s'.work ensures WorkOk(s', u) { assert WorkOk(s, u); }
  }

  lemma SendEnqueues(s: State, t: Tid, a: Actor, q: nat)
    requires Core(s) && t in s.send && s.send[t] == Won(a) && q < |s.queues|
    ensures Core(Enqueue(ToSend(s, t, Counting), q, a))
  {
    var s' := Enqueue(ToSend(s, t, Counting), q, a);
    SendEnqueuesThreads(s, t, a, q);
    assert SendOk(s, t) && (t in s.work ==> WorkOk(s, t));
    EnqueueLists(s, s', q, a);
    assert s'.queues[q][|s.queues[q]|] == a;
    forall b | b in s'.token ensures TokenOk(s', b) { assert b != a ==> TokenOk(s, b); }
    SlotsStay(s, s');
    forall b | b in s'.sys.actors ensures WakeOk(s', b) { assert WakeOk(s, b); }
  }

  lemma WorkEnqueuesThreads(s: State, t: Tid, a: Actor, q: nat)
    requires Core(s) && t in s.work && s.work[t] == Reissue(a) && s.send[t] == NoSend && q < |s.queues|
    ensures Shape(Enqueue(ToWork(s, t, Top), q, a)) && Threads(Enqueue(ToWork(s, t, Top), q, a))
  {
    var s' := Enqueue(ToWork(s, t, Top), q, a);
    assert WorkOk(s, t) && SendOk(s, t) && (a in s.sys.actors ==> SlotOk(s, a));
    forall u | u in s'.send ensures SendOk(s', u) { assert SendOk(s, u); }
    forall u | u in s'.work ensures WorkOk(s', u) { assert WorkOk(s, u); }
  }

  lemma WorkEnqueues(s: State, t: Tid, a: Actor, q: nat)
    requires Core(s) && t in s.work && s.work[t] == Reissue(a) && s.send[t] == NoSend && q < |s.queues|
    ensures Core(Enqueue(ToWork(s, t, Top), q, a))
  {
    hide SendOk, SlotOk;
    var s' := Enqueue(ToWork(s, t, Top), q, a);
    WorkEnqueuesThreads(s, t, a, q);
    assert WorkOk(s, t);
    EnqueueLists(s, s', q, a);
    assert s'.queues[q][|s.queues[q]|] == a;
    forall b | b in s'.token ensures TokenOk(s', b) { assert b != a ==> TokenOk(s, b); }
    SlotsStay(s, s');
    forall b | b in s'.sys.actors ensures WakeOk(s', b) { assert WakeOk(s, b); }
  }

  lemma ErasedAt(xs: seq<Actor>, i: nat)
    requires i < |xs| && Distinct(xs)
    ensures Distinct(xs[..i] + xs[i + 1..]) && xs[i] !in xs[..i] + xs[i + 1..]
    ensures forall b :: b in xs && b != xs[i] <==> b in xs[..i] + xs[i + 1..]
  {
    var ys := xs[..i] + xs[i + 1..];
    forall b | b in xs && b != xs[i] ensures b in ys {
      var k :| 0 <= k < |xs| && xs[k] == b;
      assert ys[if k < i then k else k - 1] == b;
    }
  }

  lemma DrainLists(s: State, s': State, q: nat, i: nat)
    requires Core(s) && q < |s.queues| && i < |s.pended|
    requires var a := s.pended[i];
             && s'.queues == s.queues[q := s.queues[q] + [a]] && s'.token == s.token[a := Queued(q)]
             && s'.pended == s.pended[..i] + s.pended[i + 1..]
    ensures Lists(s')
  {
    assert EntriesOk(s, s.pended, Pended);
    ErasedAt(s.pended, i);
    forall k | 0 <= k < |s'.pended| ensures s'.pended[k] in s'.token && s'.token[s'.pended[k]] == Pended {
      assert s'.pended[k] in s'.pended;
    }
    forall r | 0 <= r < |s'.queues| ensures EntriesOk(s', s'.queues[r], Queued(r)) {
      assert EntriesOk(s, s.queues[r], Queued(r));
    }
  }

  lemma DrainEnqueuesThreads(s: State, t: Tid, a: Actor, q: nat, i: nat)
    requires Core(s) && t in s.work && s.work[t] == Drain(i) && s.send[t] == NoSend
    requires q < |s.queues| && i < |s.pended| && a == s.pended[i]
    ensures Shape(Unpend(ToWork(s, t, DrainAdd(i)), q, i)) && Threads(Unpend(ToWork(s, t, DrainAdd(i)), q, i))
  {
    var s' := Unpend(ToWork(s, t, DrainAdd(i)), q, i);
    assert WorkOk(s, t) && SendOk(s, t) && EntriesOk(s, s.pended, Pended) && (a in s.sys.actors ==> SlotOk(s, a));
    forall u | u in s'.send ensures SendOk(s', u) { assert SendOk(s, u); }
    forall u | u in s'.work ensures WorkOk(s', u) { assert WorkOk(s, u); }
  }

  lemma DrainEnqueues(s: State, t: Tid, a: Actor, q: nat, i: nat)
    requires Core(s) && t in s.work && s.work[t] == Drain(i) && s.send[t] == NoSend
    requires q < |s.queues| && i < |s.pended| && a == s.pended[i]
    ensures Core(Unpend(ToWork(s, t, DrainAdd(i)), q, i))
  {
    hide SlotOk, WorkOk, SendOk;
    var s' := Unpend(ToWork(s, t, DrainAdd(i)), q, i);
    DrainEnqueuesThreads(s, t, a, q, i);
    assert WorkOk(s, t) && SendOk(s, t) && EntriesOk(s, s.pended, Pended);
    DrainLists(s, s', q, i);
    ErasedAt(s.pended, i);
    assert s'.queues[q][|s.queues[q]|] == a;
    forall b | b in s'.token ensures TokenOk(s', b) { assert b != a ==> TokenOk(s, b); }
    SlotsStay(s, s');
    forall b | b in s'.sys.actors ensures WakeOk(s', b) { assert WakeOk(s, b); }
  }

  /** The lists after actor a's token, held by a thread, is appended to the pended list. */
  lemma PendLists(s: State, s': State, a: Actor)
    requires Core(s) && a in s.token && !s.token[a].Queued? && !s.token[a].Pended?
    requires s'.queues == s.queues && s'.token == s.token[a := Pended] && s'.pended == s.pended + [a]
    ensures Lists(s') && a in s'.pended && forall b :: b in s.pended ==> b in s'.pended
  {
    assert EntriesOk(s, s.pended, Pended);
    assert s'.pended[|s.pended|] == a;
    forall r | 0 <= r < |s'.queues| ensures EntriesOk(s', s'.queues[r], Queued(r)) {
      assert EntriesOk(s, s.queues[r], Queued(r));
    }
  }

  lemma SendPendsThreads(s: State, t: Tid, a: Actor)
    requires Core(s) && t in s.send && s.send[t] == SendOverflow(a)
    ensures Shape(Pend(ToSend(s, t, NoSend), a)) && Threads(Pend(ToSend(s, t, NoSend), a))
  {
    var s' := Pend(ToSend(s, t, NoSend), a);
    assert SendOk(s, t) && (t in s.work ==> WorkOk(s, t)) && (a in s.sys.actors ==> SlotOk(s, a));
    forall u | u in s'.send ensures SendOk(s', u) { assert SendOk(s, u); }
    forall u | u in s'.work ensures WorkOk(s', u) { assert WorkOk(s, u); }
  }

  lemma SendPends(s: State, t: Tid, a: Actor)
    requires Core(s) && t in s.send && s.send[t] == SendOverflow(a)
    ensures Core(Pend(ToSend(s, t, NoSend), a))
  {
    var s' := Pend(ToSend(s, t, NoSend), a);
    SendPendsThreads(s, t, a);
    assert SendOk(s, t) && (t in s.work ==> WorkOk(s, t));
    PendLists(s, s', a);
    forall b | b in s'.token ensures TokenOk(s', b) { assert b != a ==> TokenOk(s, b); }
    SlotsStay(s, s');
    forall b | b in s'.sys.actors ensures WakeOk(s', b) { assert WakeOk(s, b); }
  }

  lemma WorkPendsThreads(s: State, t: Tid, a: Actor)
    requires Core(s) && t in s.work && s.work[t] == Overflow(a) && s.send[t] == NoSend
    ensures Shape(Pend(ToWork(s, t, Top), a)) && Threads(Pend(ToWork(s, t, Top), a))
  {
    var s' := Pend(ToWork(s, t, Top), a);
    assert WorkOk(s, t) && SendOk(s, t) && (a in s.sys.actors ==> SlotOk(s, a));
    forall u | u in s'.send ensures SendOk(s', u) { assert SendOk(s, u); }
    forall u | u in s'.work ensures WorkOk(s', u) { assert WorkOk(s, u); }
  }

  lemma WorkPends(s: State, t: Tid, a: Actor)
    requires Core(s) && t in s.work && s.work[t] == Overflow(a) && s.send[t] == NoSend
    ensures Core(Pend(ToWork(s, t, Top), a))
  {
    var s' := Pend(ToWork(s, t, Top), a);
    WorkPendsThreads(s, t, a);
    assert WorkOk(s, t) && SendOk(s, t);
    PendLists(s, s', a);
    forall b | b in s'.token ensures TokenOk(s', b) { assert b != a ==> TokenOk(s, b); }
    SlotsStay(s, s');
    forall b | b in s'.sys.actors ensures WakeOk(s', b) { assert WakeOk(s, b); }
  }

  lemma DequeueKeepsThreads(s: State, t: Tid, a: Actor, q: nat)
    requires Core(s) && t in s.work && (s.work[t].AcqOwn? || s.work[t].AcqTake?) && s.send[t] == NoSend
    requires q < |s.queues| && s.queues[q] != [] && a == s.queues[q][0]
    ensures Shape(Dequeue(s, t, q)) && Threads(Dequeue(s, t, q))
  {
    var s' := Dequeue(s, t, q);
    assert WorkOk(s, t) && SendOk(s, t) && EntriesOk(s, s.queues[q], Queued(q)) && (a in s.sys.actors ==> SlotOk(s, a));
    forall u | u in s'.send ensures SendOk(s', u) { assert SendOk(s, u); }
    forall u | u in s'.work ensures WorkOk(s', u) { assert WorkOk(s, u); }
  }

  lemma DequeueKeeps(s: State, t: Tid, a: Actor, q: nat)
    requires Core(s) && t in s.work && (s.work[t].AcqOwn? || s.work[t].AcqTake?) && s.send[t] == NoSend
    requires q < |s.queues| && s.queues[q] != [] && a == s.queues[q][0]
    ensures Core(Dequeue(s, t, q))
  {
    hide WorkOk, SendOk;
    var s' := Dequeue(s, t, q);
    DequeueKeepsThreads(s, t, a, q);
    assert WorkOk(s, t) && SendOk(s, t) && EntriesOk(s, s.queues[q], Queued(q));
    assert EntriesOk(s, s.pended, Pended);
    forall r | 0 <= r < |s'.queues| ensures EntriesOk(s', s'.queues[r], Queued(r)) {
      assert EntriesOk(s, s.queues[r], Queued(r));
    }
    forall b | b in s'.token ensures TokenOk(s', b) { assert b != a ==> TokenOk(s, b); }
    SlotsStay(s, s');
    forall b | b in s'.sys.actors ensures WakeOk(s', b) { assert WakeOk(s, b); }
  }

  lemma ReleaseKeepsThreads(s: State, t: Tid, a: Actor)
    requires Core(s) && t in s.work && s.work[t] == Settle(a) && s.send[t] == NoSend
    ensures forall b :: b in s.sys.actors ==> SlotOk(Unclaimed(ToWork(s, t, Released(a)), a, t), b)
    ensures Shape(Unclaimed(ToWork(s, t, Released(a)), a, t)) && Threads(Unclaimed(ToWork(s, t, Released(a)), a, t))
  {
    hide TokenOk, SlotOk, Lists, Wakes;
    var s' := Unclaimed(ToWork(s, t, Released(a)), a, t);
    assert WorkOk(s, t) && SendOk(s, t);
    OneSlotChanges(s, s', a, false);
    forall u | u in s'.send ensures SendOk(s', u) { assert SendOk(s, u); }
    forall u | u in s'.work ensures WorkOk(s', u) { assert WorkOk(s, u); }
  }

  lemma ReleaseKeeps(s: State, t: Tid, a: Actor)
    requires Core(s) && t in s.work && s.work[t] == Settle(a) && s.send[t] == NoSend
    ensures Core(Unclaimed(ToWork(s, t, Released(a)), a, t))
  {
    hide SendOk, SlotOk;
    var s' := Unclaimed(ToWork(s, t, Released(a)), a, t);
    ReleaseKeepsThreads(s, t, a);
    assert WorkOk(s, t);
    assert EntriesOk(s, s.pended, Pended);
    forall r | 0 <= r < |s'.queues| ensures EntriesOk(s', s'.queues[r], Queued(r)) {
      assert EntriesOk(s, s.queues[r], Queued(r));
    }
    forall b | b in s'.token ensures TokenOk(s', b) { assert b != a ==> TokenOk(s, b); }
    forall b | b in s'.sys.actors ensures WakeOk(s', b) { assert WakeOk(s, b); }
  }

  lemma OpenSendThreads(s: State, t: Tid, a: Actor)
    requires Core(s) && Enabled(s, t, OpenSend(a, true))
    ensures Shape(Step(s, t, OpenSend(a, true))) && Threads(Step(s, t, OpenSend(a, true)))
  {
    hide Lists, Wakes, Tokens;
    var s' := Step(s, t, OpenSend(a, true));
    forall u | u in s'.send ensures SendOk(s', u) { assert SendOk(s, u); }
    forall u | u in s'.work ensures WorkOk(s', u) { assert WorkOk(s, u); }
  }

  lemma OpenSendWakes(s: State, t: Tid, a: Actor)
    requires Core(s) && Enabled(s, t, OpenSend(a, true))
    ensures var r := Step(s, t, OpenSend(a, true)); forall b :: b in s.sys.actors ==> b in r.mbox && WakeOk(r, b)
  {
    hide Tokens, Lists;
    var r := Step(s, t, OpenSend(a, true));
    forall b | b in s.sys.actors ensures b in r.mbox && WakeOk(r, b) { assert WakeOk(s, b); }
  }

  lemma OpenSendKeeps(s: State, t: Tid, a: Actor, accepted: bool)
    requires Core(s) && Enabled(s, t, OpenSend(a, accepted))
    ensures Core(Step(s, t, OpenSend(a, accepted)))
  {
    hide SendOk, WorkOk, EntriesOk, WakeOk;
    if accepted {
      var s' := Step(s, t, OpenSend(a, true));
      OpenSendThreads(s, t, a);
      forall b | b in s'.token ensures TokenOk(s', b) { assert TokenOk(s, b); }
      forall b | b in s'.sys.actors ensures SlotOk(s', b) { assert SlotOk(s, b); }
      ListsStay(s, s');
      OpenSendWakes(s, t, a);
    }
  }

  /** The phase, a mailbox or the set of stopped actors has changed, and nothing else. */
  lemma ThreadsAndTokensStay(s: State, s': State)
    requires Core(s) && s' == s.(phase := s'.phase, up := s'.up, mbox := s'.mbox, stopped := s'.stopped)
    requires s.phase.Draining? ==> s'.phase.Draining?
    ensures Threads(s') && |s'.held| == MAX_ACTORS && Tokens(s') && Lists(s')
  {
    hide Wakes;
    forall u | u in s'.send ensures SendOk(s', u) { assert SendOk(s, u); }
    forall u | u in s'.work ensures WorkOk(s', u) { assert WorkOk(s, u); }
    forall b | b in s'.token ensures TokenOk(s', b) { assert TokenOk(s, b); }
    forall b | b in s'.sys.actors ensures SlotOk(s', b) { assert SlotOk(s, b); }
    ListsStay(s, s');
  }

  lemma BatchHoldsToken(s: State, t: Tid)
    requires Core(s) && t in s.work && s.work[t].Batch?
    ensures s.work[t].actor in s.token
  {
    assert WorkOk(s, t);
  }

  lemma OtherKeeps(s: State, t: Tid, x: Action)
    requires Core(s) && Enabled(s, t, x) && !x.OpenSend? && !x.SendGo? && !x.WorkGo?
    ensures Core(Step(s, t, x))
  {
    hide Threads, Tokens, Lists;
    var s' := Step(s, t, x);
    if x.BatchPop? || x.BatchShutdown? { BatchHoldsToken(s, t); }
    ThreadsAndTokensStay(s, s');
    forall b | b in s'.sys.actors ensures WakeOk(s', b) { assert WakeOk(s, b); }
  }

  // ---- All steps ---------------------------------------------------------------------------------

  lemma SendStepCore(s: State, t: Tid, q: nat, fails: bool)
    requires Core(s) && SendReady(s, t, q)
    ensures Core(SendStep(s, t, q, fails))
  {
    var s' := SendStep(s, t, q, fails);
    assert SendOk(s, t);
    match s.send[t]
    case Pushed(a) =>
      assert SlotOk(s, a);
      if s.held[Slot(a)] { SendMoves(s, s', t, NoSend); } else { SendClaims(s, t, a); }
    case Won(a) =>
      if PushFails(s, q, fails) { SendMoves(s, s', t, SendOverflow(a)); } else { SendEnqueues(s, t, a, q); }
    case Counting => SendMoves(s, s', t, NoSend);
    case SendOverflow(a) => SendPends(s, t, a);
  }

  predicate Plain(w: Work) { !HoldsWork(w) && !Waking(w) && !InDrain(w) }

  lemma PlainMoves(s: State, s': State, t: Tid, w: Work)
    requires Core(s) && t in s.work && SameTokens(s, s', s.work[t := w], s.send) && s'.mutex == s.mutex
    requires Plain(s.work[t]) && Plain(w) && s.send[t] == NoSend
    requires w.AcqPendingCheck? || w.NullPending? || w.TopDraining? ==> s.phase.Draining?
    ensures Core(s')
  {
    assert WorkOk(s, t);
    WorkMoves(s, s', t, w);
  }

  lemma BatchMoves(s: State, s': State, t: Tid, w: Work)
    requires Core(s) && t in s.work && SameTokens(s, s', s.work[t := w], s.send) && s'.mutex == s.mutex
    requires HoldsWork(s.work[t]) && HoldsWork(w) && w.actor == s.work[t].actor && s.send[t] == NoSend
    ensures Core(s')
  {
    assert WorkOk(s, t);
    WorkMoves(s, s', t, w);
  }

  lemma WakingFacts(s: State, t: Tid)
    requires Core(s) && t in s.work && Waking(s.work[t])
    ensures var a := s.work[t].actor;
            WorkOk(s, t) && a in s.mbox && |s.held| == MAX_ACTORS && (s.held[Slot(a)] ==> a in s.token)
  {
    assert WorkOk(s, t) && SlotOk(s, s.work[t].actor);
  }

  lemma RecheckMoves(s: State, t: Tid, q: nat, fails: bool)
    requires Core(s) && WorkReady(s, t, q, fails) && Waking(s.work[t])
    requires s.work[t].Reclaim? ==> s.held[Slot(s.work[t].actor)]
    ensures Core(SettleStep(s, t, q, fails))
  {
    hide Core, Slot, Claimed;
    WakingFacts(s, t);
    WorkMoves(s, SettleStep(s, t, q, fails), t, SettleStep(s, t, q, fails).work[t]);
  }

  /** What sending leaves alone. */
  ghost predicate Sends(s: State, r: State) {
    && r.sys == s.sys && r.phase == s.phase && r.up == s.up && r.mbox == s.mbox && r.stopped == s.stopped
    && r.work == s.work && r.gapExits == s.gapExits && s.pended <= r.pended
  }

  lemma ClaimSends(s: State, a: Actor, l: Loc)
    requires |s.held| == MAX_ACTORS
    ensures Sends(s, Claimed(s, a, l))
  {
    hide Slot;
  }

  lemma EnqueueSends(s: State, q: nat, a: Actor)
    requires q < |s.queues|
    ensures Sends(s, Enqueue(s, q, a))
  {
  }

  lemma PendSends(s: State, a: Actor)
    ensures Sends(s, Pend(s, a))
  {
  }

  lemma SendStepSends(s: State, t: Tid, q: nat, fails: bool)
    requires SendReady(s, t, q)
    ensures Sends(s, SendStep(s, t, q, fails))
  {
    hide Slot, PushFails, Claimed, Enqueue, Pend;
    var p := s.send[t];
    if p.Pushed? { ClaimSends(ToSend(s, t, Won(p.actor)), p.actor, Sender(t)); }
    if p.Won? { EnqueueSends(ToSend(s, t, Counting), q, p.actor); }
    if p.SendOverflow? { PendSends(ToSend(s, t, NoSend), p.actor); }
  }

  /** What settling a token leaves alone. */
  ghost predicate Settles(s: State, r: State, t: Tid) {
    && t in s.work && t in r.work && r.work == s.work[t := r.work[t]] && r.sys == s.sys && r.phase == s.phase
    && r.send == s.send && r.mbox == s.mbox && r.stopped == s.stopped && r.gapExits == s.gapExits
    && (Settling(r.work[t]) || r.work[t].Top?) && s.overflows <= r.overflows && s.drift <= r.drift
    && s.pended <= r.pended && (!s.work[t].Overflow? ==> r.pended == s.pended)
    && (r.overflows == s.overflows ==> r.drift == s.drift && !r.work[t].Overflow?)
  }

  lemma ClaimsSettle(s: State, t: Tid, q: nat, fails: bool)
    requires WorkReady(s, t, q, fails) && (s.work[t].Settle? || s.work[t].Reclaim?)
    ensures Settles(s, SettleStep(s, t, q, fails), t)
  {
    hide Slot;
  }

  lemma PushesSettle(s: State, t: Tid, q: nat, fails: bool)
    requires WorkReady(s, t, q, fails) && (s.work[t].Reissue? || s.work[t].Overflow?)
    ensures Settles(s, SettleStep(s, t, q, fails), t)
  {
    hide PushFails;
  }

  lemma SettleStepSettles(s: State, t: Tid, q: nat, fails: bool)
    requires WorkReady(s, t, q, fails) && Settling(s.work[t])
    ensures Settles(s, SettleStep(s, t, q, fails), t)
  {
    hide Slot, PushFails, Claimed, Unclaimed, Enqueue, Pend;
    var w := s.work[t];
    if w.Settle? || w.Reclaim? { ClaimsSettle(s, t, q, fails); }
    else if w.Reissue? || w.Overflow? { PushesSettle(s, t, q, fails); }
  }

  lemma SettleStepCore(s: State, t: Tid, q: nat, fails: bool)
    requires Core(s) && WorkReady(s, t, q, fails) && Settling(s.work[t])
    ensures Core(SettleStep(s, t, q, fails))
  {
    hide Core, Slot;
    var s' := SettleStep(s, t, q, fails);
    match s.work[t]
    case Settle(a) => ReleaseKeeps(s, t, a);
    case Overflow(a) => WorkPends(s, t, a);
    case Reissue(a) =>
      if PushFails(s, q, fails) { BatchMoves(s, s', t, Overflow(a)); } else { WorkEnqueues(s, t, a, q); }
    case Reclaim(a) =>
      if s.held[Slot(a)] { RecheckMoves(s, t, q, fails); } else { WorkClaims(s, t, a); }
    case Retire => PlainMoves(s, s', t, Top);
    case Released(_) => RecheckMoves(s, t, q, fails);
    case Recheck(_) => RecheckMoves(s, t, q, fails);
    case Begin(a) => BatchMoves(s, s', t, if a in s.stopped then Settle(a) else Batch(a));
    case Batch(a) => BatchMoves(s, s', t, Settle(a));
  }

  lemma LockKeeps(s: State, t: Tid)
    requires Core(s) && t in s.work && s.work[t] == GotNull && s.send[t] == NoSend && s.mutex == None
    ensures Core(ToWork(s, t, Drain(0)).(mutex := Some(t)))
  {
    assert WorkOk(s, t);
    WorkMoves(s, ToWork(s, t, Drain(0)).(mutex := Some(t)), t, Drain(0));
  }

  lemma UnlockKeeps(s: State, t: Tid)
    requires Core(s) && t in s.work && s.work[t].Drain? && s.send[t] == NoSend
    ensures Core(ToWork(s, t, NullDraining).(mutex := None))
  {
    assert WorkOk(s, t);
    WorkMoves(s, ToWork(s, t, NullDraining).(mutex := None), t, NullDraining);
  }

  lemma DrainGoesOn(s: State, s': State, t: Tid, i: nat)
    requires Core(s) && t in s.work && InDrain(s.work[t]) && s.send[t] == NoSend
    requires SameTokens(s, s', s.work[t := Drain(i)], s.send) && s'.mutex == s.mutex
    ensures Core(s')
  {
    assert WorkOk(s, t);
    WorkMoves(s, s', t, Drain(i));
  }

  lemma DrainIterCore(s: State, t: Tid, q: nat, fails: bool)
    requires Core(s) && WorkReady(s, t, q, fails) && s.work[t].Drain?
    ensures Core(DrainStep(s, t, q, fails))
  {
    hide Core, Threads;
    var i := s.work[t].next;
    if i >= |s.pended| { UnlockKeeps(s, t); }
    else if PushFails(s, q, fails) { DrainGoesOn(s, DrainStep(s, t, q, fails), t, i + 1); }
    else { DrainEnqueues(s, t, s.pended[i], q, i); }
  }

  lemma DrainStepCore(s: State, t: Tid, q: nat, fails: bool)
    requires Core(s) && WorkReady(s, t, q, fails) && DrainingPended(s.work[t])
    ensures Core(DrainStep(s, t, q, fails))
  {
    match s.work[t]
    case GotNull => LockKeeps(s, t);
    case DrainAdd(i) => DrainGoesOn(s, DrainStep(s, t, q, fails), t, i);
    case Drain(_) => DrainIterCore(s, t, q, fails);
  }

  lemma LoopMoves(s: State, t: Tid)
    requires t in s.work && !Settling(s.work[t]) && !DrainingPended(s.work[t])
    requires s.phase.Draining? || t in s.up
    ensures var w := LoopNext(s, t);
            Plain(w) && (w.AcqPendingCheck? || w.NullPending? || w.TopDraining? ==> s.phase.Draining? || s.work[t] == w)
  {
  }

  lemma LoopStepCore(s: State, t: Tid, q: nat, fails: bool)
    requires Core(s) && WorkReady(s, t, q, fails) && !Settling(s.work[t]) && !DrainingPended(s.work[t])
    ensures Core(LoopStep(s, t, q, fails))
  {
    if Dequeues(s, t, q, fails) {
      DequeueKeeps(s, t, s.queues[q][0], q);
    } else {
      LoopMoves(s, t);
      assert WorkOk(s, t);
      PlainMoves(s, LoopStep(s, t, q, fails), t, LoopNext(s, t));
    }
  }

  /** Every step keeps slots, tokens, lists and wakeups in agreement. */
  lemma StepCore(s: State, t: Tid, x: Action)
    requires Core(s) && Enabled(s, t, x)
    ensures Core(Step(s, t, x))
  {
    match x
    case OpenSend(a, accepted) => OpenSendKeeps(s, t, a, accepted);
    case SendGo(q, fails) => SendStepCore(s, t, q, fails);
    case WorkGo(q, fails) =>
      if Settling(s.work[t]) { SettleStepCore(s, t, q, fails); }
      else if DrainingPended(s.work[t]) { DrainStepCore(s, t, q, fails); }
      else { LoopStepCore(s, t, q, fails); }
    case _ => OtherKeeps(s, t, x);
  }
}
