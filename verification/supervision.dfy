/**
ActorRuntime and Supervisor: a batch of messages, what becomes of each message, and the recursion from a
failed restart back into failure handling. An actor's open, close and handle are foreign code: they may
throw and leave the actor in any state. Producers push messages at any moment.
*/
module Supervision {
  import opened Basics

  datatype Kind = EnableRequest | DisableRequest | RestartRequest | Ordinary

  datatype Msg = Msg(kind: Kind, payload: int)

  datatype ActorState = Closed | Closing | Opening | Opened | Inherited

  datatype Strategy = OneForOne | OneForAll | Never

  /** What became of a popped message: handled or consumed, or, after an exception, kept as a dead letter,
      dropped on a full dead-letter queue, or only logged, for want of a supervisor. */
  datatype Fate = Handled | Consumed | DeadLetter | Dropped | Logged

  predicate Died(f: Fate) { f.DeadLetter? || f.Dropped? }

  /** A letter carries the failed message, or an empty one when it was open that failed. */
  datatype Letter = Letter(actor: nat, msg: Option<Msg>)

  // ---- What is logged ----------------------------------------------------------------------------

  datatype Callee = ToHandle(position: nat) | ToOpen | ToClose

  /** One call of the actor, with its state before and after. */
  datatype Call = Call(callee: Callee, before: ActorState, after: ActorState, threw: bool)

  /** One pass through a batch's try block: the message popped at position, the budget left before, and the
      calls that it made, which the runtime's log of calls has at start. */
  datatype Try = Try(position: nat, before: ActorState, left: nat, start: nat, calls: seq<Call>, failed: bool)

  /** What an actor is handled by; without a supervisor there is no strategy. */
  datatype Policy = Policy(essential: bool, strategy: Option<Strategy>)

  predicate OneCall(t: Try, callee: Callee) {
    |t.calls| == 1 && t.calls[0].callee == callee && t.calls[0].before == t.before && t.failed == t.calls[0].threw
  }

  predicate NoCall(t: Try) { t.calls == [] && !t.failed }

  predicate IsShutdown(before: ActorState, calls: seq<Call>) {
    |calls| == 1 && calls[0].callee == ToClose && calls[0].before == before
  }

  /** close, and then, exactly when that has left the actor closed, open; and what follows an open that threw. */
  predicate IsRestart(strategy: Option<Strategy>, left: nat, before: ActorState, calls: seq<Call>)
    decreases |calls|, 0
  {
    && |calls| >= 1 && calls[0].callee == ToClose && calls[0].before == before
    && if calls[0].after == Closed then IsReopening(strategy, left, calls[1..]) else |calls| == 1
  }

  predicate IsReopening(strategy: Option<Strategy>, left: nat, calls: seq<Call>)
    decreases |calls|, 2
  {
    && |calls| >= 1 && calls[0].callee == ToOpen && calls[0].before == Closed
    && if calls[0].threw then IsAftermath(strategy, left, calls[0].after, calls[1..]) else |calls| == 1
  }

  /** The calls that answer a failure, with so much budget left: none without a supervisor, and none from a
      broadcast; a shutdown when there is no budget; else a restart. */
  predicate IsAftermath(strategy: Option<Strategy>, left: nat, before: ActorState, calls: seq<Call>)
    decreases |calls|, 1
  {
    match strategy
    case None => calls == []
    case Some(s) =>
      if s.Never? || left == 0 then IsShutdown(before, calls)
      else if s.OneForAll? then calls == []
      else IsRestart(strategy, left - 1, before, calls)
  }

  predicate IsAnswer(strategy: Option<Strategy>, left: nat, calls: seq<Call>) {
    IsAftermath(strategy, left, if calls == [] then Closed else calls[0].before, calls)
  }

  lemma AftermathIsAnswer(strategy: Option<Strategy>, left: nat, before: ActorState, calls: seq<Call>)
    requires IsAftermath(strategy, left, before, calls)
    ensures IsAnswer(strategy, left, calls)
  {
  }

  /** The exception that leaves failure handling comes from a close that threw, the last call made. */
  predicate EndsInClose(calls: seq<Call>) {
    calls != [] && calls[|calls| - 1].callee == ToClose && calls[|calls| - 1].threw
  }

  /** What the try block does for a message of each kind. */
  predicate TryOk(t: Try, kind: Kind, policy: Policy) {
    match kind
    case Ordinary => OneCall(t, ToHandle(t.position))
    case EnableRequest => if t.before == Closed then OneCall(t, ToOpen) else NoCall(t)
    case DisableRequest => if t.before == Opened && !policy.essential then OneCall(t, ToClose) else NoCall(t)
    case RestartRequest =>
      if t.before == Opened
      then IsRestart(policy.strategy, t.left, t.before, t.calls) && (t.failed ==> EndsInClose(t.calls))
      else NoCall(t)
  }

  predicate TryFate(t: Try, kind: Kind, fate: Fate) {
    if t.failed then Died(fate) || fate.Logged? else fate == if kind.Ordinary? then Handled else Consumed
  }

  // ---- Counting failures -------------------------------------------------------------------------

  /** The calls of open that threw. */
  function ThrownOpens(calls: seq<Call>): nat {
    if calls == [] then 0
    else ThrownOpens(calls[..|calls| - 1])
         + if calls[|calls| - 1].callee == ToOpen && calls[|calls| - 1].threw then 1 else 0
  }

  lemma OneMoreCall(calls: seq<Call>, c: Call)
    ensures ThrownOpens(calls + [c]) == ThrownOpens(calls) + if c.callee == ToOpen && c.threw then 1 else 0
  {
    assert (calls + [c])[..|calls|] == calls;
  }

  /** A try that failed, but not by its own open, which is counted with the opens. */
  predicate FailedOtherwise(t: Try) { t.failed && !(t.calls != [] && t.calls[0].callee == ToOpen) }

  lemma FailedByKind(t: Try, kind: Kind, policy: Policy)
    requires TryOk(t, kind, policy)
    ensures FailedOtherwise(t) == (t.failed && !kind.EnableRequest?)
  {
  }

  function FailedTries(tries: seq<Try>): nat {
    if tries == [] then 0
    else FailedTries(tries[..|tries| - 1]) + if FailedOtherwise(tries[|tries| - 1]) then 1 else 0
  }

  lemma OneMoreTry(tries: seq<Try>, t: Try)
    ensures FailedTries(tries + [t]) == FailedTries(tries) + if FailedOtherwise(t) then 1 else 0
  {
    assert (tries + [t])[..|tries|] == tries;
  }

  // ---- What the logs say -------------------------------------------------------------------------

  /** Messages are tried in the order of popping, once each, and every try did what its message asks for;
      the fate of a message follows from its try, and without a try it is neither handled nor consumed. */
  ghost predicate TriedIn(popped: seq<Msg>, fates: map<nat, Fate>, tries: seq<Try>, tryOf: map<nat, nat>,
                          policy: Policy) {
    && (forall i :: 0 <= i < |tries| ==> TriedOne(popped, fates, tries[i], policy))
    && (forall i :: 0 <= i < |tries| ==> tries[i].position in tryOf && tryOf[tries[i].position] == i)
    && (forall i, j :: 0 <= i < j < |tries| ==> tries[i].position < tries[j].position)
    && (forall k :: k in tryOf ==> tryOf[k] < |tries| && tries[tryOf[k]].position == k)
    && (forall k :: k in fates && k !in tryOf ==> Died(fates[k]))
  }

  predicate TriedOne(popped: seq<Msg>, fates: map<nat, Fate>, t: Try, policy: Policy) {
    && t.position < |popped| && TryOk(t, popped[t.position].kind, policy)
    && (t.position in fates ==> TryFate(t, popped[t.position].kind, fates[t.position]))
  }

  lemma TriedMore(popped: seq<Msg>, fates: map<nat, Fate>, tries: seq<Try>, tryOf: map<nat, nat>, policy: Policy,
                  t: Try)
    requires TriedIn(popped, fates, tries, tryOf, policy) && t.position !in tryOf && t.position !in fates
    requires t.position < |popped| && TryOk(t, popped[t.position].kind, policy)
    requires forall i :: 0 <= i < |tries| ==> tries[i].position < t.position
    ensures TriedIn(popped, fates, tries + [t], tryOf[t.position := |tries|], policy)
  {
    hide TryOk, TryFate;
  }

  lemma TriedAndPopped(popped: seq<Msg>, fates: map<nat, Fate>, tries: seq<Try>, tryOf: map<nat, nat>, policy: Policy,
                       m: Msg)
    requires TriedIn(popped, fates, tries, tryOf, policy)
    ensures TriedIn(popped + [m], fates, tries, tryOf, policy)
    ensures |popped| !in tryOf && forall i :: 0 <= i < |tries| ==> tries[i].position < |popped|
  {
    hide TryOk, TryFate;
    forall i | 0 <= i < |tries| ensures TriedOne(popped + [m], fates, tries[i], policy) {
      assert TriedOne(popped, fates, tries[i], policy);
    }
  }

  lemma TriedAndSettled(popped: seq<Msg>, fates: map<nat, Fate>, tries: seq<Try>, tryOf: map<nat, nat>, policy: Policy,
                        k: nat, fate: Fate)
    requires TriedIn(popped, fates, tries, tryOf, policy) && k < |popped|
    requires if k in tryOf then tryOf[k] < |tries| && TryFate(tries[tryOf[k]], popped[k].kind, fate) else Died(fate)
    ensures TriedIn(popped, fates[k := fate], tries, tryOf, policy)
  {
    hide TryOk, TryFate;
    forall i | 0 <= i < |tries| ensures TriedOne(popped, fates[k := fate], tries[i], policy) {
      assert TriedOne(popped, fates, tries[i], policy);
    }
  }

  /** The calls of a try are in the log of calls, and each of the first n calls of handle is that of the one
      try of its message. */
  predicate CalledIn(calls: seq<Call>, tries: seq<Try>, tryOf: map<nat, nat>, n: nat) {
    && n <= |calls|
    && (forall i :: 0 <= i < |tries| ==> CalledBy(calls, tries[i]))
    && (forall c :: 0 <= c < n && calls[c].callee.ToHandle? ==> HandledOnce(calls, tries, tryOf, c))
  }

  predicate CalledBy(calls: seq<Call>, t: Try) {
    t.start + |t.calls| <= |calls| && forall j :: 0 <= j < |t.calls| ==> calls[t.start + j] == t.calls[j]
  }

  predicate HandledOnce(calls: seq<Call>, tries: seq<Try>, tryOf: map<nat, nat>, c: nat)
    requires c < |calls| && calls[c].callee.ToHandle?
  {
    var k := calls[c].callee.position;
    k in tryOf && tryOf[k] < |tries| && tries[tryOf[k]].start == c && tries[tryOf[k]].calls == [calls[c]]
  }

  lemma CalledMore(calls: seq<Call>, tries: seq<Try>, tryOf: map<nat, nat>, t: Try, kind: Kind, policy: Policy)
    requires CalledIn(calls, tries, tryOf, if kind.Ordinary? then t.start else |calls|)
    requires t.position !in tryOf && t.start <= |calls| && t.calls == calls[t.start..] && TryOk(t, kind, policy)
    ensures CalledIn(calls, tries + [t], tryOf[t.position := |tries|], |calls|)
  {
    hide IsRestart, EndsInClose;
    forall c | 0 <= c < |calls| && calls[c].callee.ToHandle?
      ensures HandledOnce(calls, tries + [t], tryOf[t.position := |tries|], c)
    {
      assert c < t.start ==> HandledOnce(calls, tries, tryOf, c);
    }
  }

  function Letters(actor: nat, msgs: seq<Msg>): (r: seq<Letter>)
    ensures |r| == |msgs|
  {
    seq(|msgs|, i requires 0 <= i < |msgs| => Letter(actor, Some(msgs[i])))
  }

  /** A bounded queue after pushes of xs, each refused when it is full. */
  function Fill(queue: seq<Letter>, xs: seq<Letter>, capacity: nat): (r: seq<Letter>)
    requires |queue| <= capacity
    ensures |r| <= capacity && queue <= r && |r| == if |queue| + |xs| <= capacity then |queue| + |xs| else capacity
  {
    if |queue| + |xs| <= capacity then queue + xs else queue + xs[..capacity - |queue|]
  }

  lemma FillMore(queue: seq<Letter>, xs: seq<Letter>, ys: seq<Letter>, capacity: nat)
    requires |queue| <= capacity
    ensures Fill(Fill(queue, xs, capacity), ys, capacity) == Fill(queue, xs + ys, capacity)
  {
  }

  lemma FillNothing(queue: seq<Letter>, xs: seq<Letter>, capacity: nat)
    requires |queue| <= capacity && xs == []
    ensures Fill(queue, xs, capacity) == queue
  {
  }

  lemma LettersMore(actor: nat, msgs: seq<Msg>, m: Msg)
    ensures Letters(actor, msgs + [m]) == Letters(actor, msgs) + [Letter(actor, Some(m))]
  {
  }

  /** The messages kept as dead letters are in the dead-letter queue, once each; messages are dropped only
      when it is full. */
  ghost predicate BuriedIn(id: nat, popped: seq<Msg>, fates: map<nat, Fate>, letterOf: map<nat, nat>,
                           originOf: map<nat, nat>, queue: seq<Letter>, full: bool) {
    && (forall k :: k in fates ==> (fates[k].DeadLetter? <==> k in letterOf))
    && (forall k :: k in letterOf ==> k in fates && k < |popped| && letterOf[k] < |queue|)
    && (forall k :: k in letterOf ==> queue[letterOf[k]] == Letter(id, Some(popped[k])))
    && (forall k :: k in letterOf ==> letterOf[k] in originOf && originOf[letterOf[k]] == k)
    && (forall k :: k in fates && fates[k].Dropped? ==> full)
  }

  lemma BuriedAndKept(id: nat, popped: seq<Msg>, fates: map<nat, Fate>, letterOf: map<nat, nat>,
                      originOf: map<nat, nat>, queue: seq<Letter>, k: nat, full: bool)
    requires BuriedIn(id, popped, fates, letterOf, originOf, queue, false) && k < |popped| && k !in fates
    ensures BuriedIn(id, popped, fates[k := DeadLetter], letterOf[k := |queue|], originOf[|queue| := k],
                     queue + [Letter(id, Some(popped[k]))], full)
  {
  }

  lemma BuriedAndSettled(id: nat, popped: seq<Msg>, fates: map<nat, Fate>, letterOf: map<nat, nat>,
                         originOf: map<nat, nat>, queue: seq<Letter>, full: bool, k: nat, fate: Fate)
    requires BuriedIn(id, popped, fates, letterOf, originOf, queue, full) && k !in fates
    requires !fate.DeadLetter? && (fate.Dropped? ==> full)
    ensures BuriedIn(id, popped, fates[k := fate], letterOf, originOf, queue, full)
  {
  }

  /** More messages and more letters do no harm. */
  lemma BuriedStays(id: nat, popped: seq<Msg>, fates: map<nat, Fate>, letterOf: map<nat, nat>,
                    originOf: map<nat, nat>, queue: seq<Letter>, full: bool, popped': seq<Msg>, queue': seq<Letter>,
                    full': bool)
    requires BuriedIn(id, popped, fates, letterOf, originOf, queue, full)
    requires popped <= popped' && queue <= queue' && (full ==> full')
    ensures BuriedIn(id, popped', fates, letterOf, originOf, queue', full')
  {
  }

  /** The fate of a message whose letter is the i-th to come to the queue. */
  function FateAt(i: nat, capacity: nat): (f: Fate)
    ensures Died(f)
  {
    if i < capacity then DeadLetter else Dropped
  }

  /** What has been popped stays so, and what waited is popped in order. */
  lemma PoppedInOrder(sent: seq<Msg>, popped: seq<Msg>, mailbox: seq<Msg>, rest: seq<Msg>,
                      popped': seq<Msg>, rest': seq<Msg>)
    requires popped + mailbox + rest == sent == popped' + rest' && |popped| <= |popped'|
    ensures popped <= popped'
    ensures |popped'| >= |popped| + |mailbox| ==> popped + mailbox <= popped'
  {
    assert popped == sent[..|popped|] && popped' == sent[..|popped'|];
    assert popped + mailbox == sent[..|popped| + |mailbox|];
  }

  lemma Prefixes(sent: seq<Msg>, popped: seq<Msg>, mailbox: seq<Msg>, rest: seq<Msg>, gone: seq<Msg>,
                 popped': seq<Msg>, rest': seq<Msg>)
    requires popped + mailbox + rest == sent == popped' + rest' && gone <= sent
    requires |popped| + |mailbox| <= |gone| <= |popped'|
    ensures popped'[..|gone|] == gone && popped + mailbox <= gone
    ensures popped'[|popped|..|gone|] == gone[|popped|..]
  {
    assert popped' == sent[..|popped'|] && popped + mailbox == sent[..|popped| + |mailbox|];
  }

  /** The actor is given up, restarted, or restarted with all others. */
  predicate Outcome(strategy: Strategy, givesUp: bool, wasStopped: bool, stopped: bool, restarts: int, charged: int,
                    broadcasts: int) {
    if givesUp then stopped && restarts == 0 && charged == 0 && broadcasts == 0
    else if strategy.OneForOne? then restarts > 0
    else stopped == wasStopped && restarts == 0 && charged == 1 && broadcasts == 1
  }

  // ---- The actor's side --------------------------------------------------------------------------

  class Runtime {
    const supervisor: Supervisor?
    const id: nat
    const essential: bool
    ghost const sent: seq<Msg>          // all that producers ever get accepted
    var supply: seq<Msg>                // what of it is still to come
    var mailbox: seq<Msg>
    var restartCount: int
    var stopped: bool
    var state: ActorState
    ghost var popped: seq<Msg>
    ghost var fates: map<nat, Fate>     // by position in popped
    ghost var calls: seq<Call>
    ghost var tries: seq<Try>
    ghost var tryOf: map<nat, nat>      // position in popped to index in tries
    ghost var letterOf: map<nat, nat>   // position in popped to index in the dead-letter queue
    ghost var originOf: map<nat, nat>   // and back
    ghost var failures: nat             // calls of onActorFailed for this actor
    ghost var late: nat                 // those of them made when it was already stopped

    constructor (supervisor: Supervisor?, id: nat, essential: bool, sent: seq<Msg>)
      requires supervisor != null ==>
                 id !in supervisor.oneForAllRestartCount && |supervisor.deadLetters| <= supervisor.capacity
      ensures Good({}) && this.supervisor == supervisor && this.id == id && this.essential == essential
      ensures this.sent == supply == sent && !stopped
    {
      this.supervisor, this.id, this.essential, this.sent, supply := supervisor, id, essential, sent, sent;
      mailbox, restartCount, stopped, state := [], 0, false, Closed;
      popped, fates, calls, tries, tryOf := [], map[], [], [], map[];
      letterOf, originOf, failures, late := map[], map[], 0, 0;
      new;
      assert popped + mailbox + supply == this.sent;
    }

    function Rules(): Policy {
      Policy(essential, if supervisor == null then None else Some(supervisor.StrategyOf(id)))
    }

    /** The budget that the strategy has left for this actor after so many restarts. */
    function LeftAfter(restarts: int): nat
      reads (if supervisor == null then {} else {supervisor})`oneForAllRestartCount
    {
      if supervisor == null then 0
      else match supervisor.StrategyOf(id)
           case OneForOne => Max0(supervisor.maxRestarts - restarts)
           case OneForAll => Max0(supervisor.maxRestarts - supervisor.Broadcasts(id))
           case Never => 0
    }

    function Left(): nat
      reads this`restartCount, (if supervisor == null then {} else {supervisor})`oneForAllRestartCount
    {
      LeftAfter(restartCount)
    }

    // ---- Invariants ------------------------------------------------------------------------------

    /** What is sent is popped in order, nothing is lost or invented, and every popped message but the pending
        has one fate. */
    ghost predicate Settled(pending: set<nat>)
      reads this`supply, this`popped, this`mailbox, this`fates
    {
      && popped + mailbox + supply == sent
      && (forall k :: k in pending ==> k < |popped|)
      && (forall k: nat :: k in fates <==> k < |popped| && k !in pending)
    }

    ghost predicate Tried()
      reads this`popped, this`fates, this`tries, this`tryOf
    {
      TriedIn(popped, fates, tries, tryOf, Rules())
    }

    ghost predicate TriedBefore(k: nat)
      reads this`tries, this`tryOf
    {
      k !in tryOf && forall i :: 0 <= i < |tries| ==> tries[i].position < k
    }

    ghost predicate Called(n: nat)
      reads this`calls, this`tries, this`tryOf
    {
      CalledIn(calls, tries, tryOf, n)
    }

    ghost predicate Buried()
      reads this`popped, this`fates, this`letterOf, this`originOf
      reads (if supervisor == null then {} else {supervisor})`deadLetters
    {
      if supervisor == null then BuriedIn(id, popped, fates, letterOf, originOf, [], false)
      else && |supervisor.deadLetters| <= supervisor.capacity
           && BuriedIn(id, popped, fates, letterOf, originOf, supervisor.deadLetters,
                       |supervisor.deadLetters| == supervisor.capacity)
           && forall k :: k in fates ==> !fates[k].Logged?
    }

    /** The budget that this actor's failures have used up. */
    function Spent(): int
      reads this`restartCount, (if supervisor == null then {} else {supervisor})`oneForAllRestartCount
    {
      restartCount + if supervisor == null then 0 else supervisor.Broadcasts(id)
    }

    /** Each failure has used up one of the budget, but for the owed ones, the one that stopped the actor and
        those after it; the budget is never overdrawn; an actor is stopped only when its strategy has none left. */
    ghost predicate Bounded(owed: nat)
      reads this`restartCount, this`stopped, this`failures, this`late,
            (if supervisor == null then {} else {supervisor})`oneForAllRestartCount
    {
      && 0 <= restartCount
      && (supervisor == null ==> failures == 0 && !stopped)
      && (supervisor != null ==>
            && restartCount <= Max0(supervisor.maxRestarts)
            && 0 <= supervisor.Broadcasts(id) <= Max0(supervisor.maxRestarts)
            && (stopped ==> supervisor.GivesUpOn(this))
            && failures == Spent() + late + owed + if stopped then 1 else 0)
    }

    /** Every open that threw, and every try that failed otherwise, has been reported to the supervisor once,
        but for the owed ones. */
    ghost predicate Reported(owed: nat)
      reads this`calls, this`tries, this`failures
    {
      supervisor != null ==> failures + owed == ThrownOpens(calls) + FailedTries(tries)
    }

    ghost predicate Sound(pending: set<nat>)
      reads this, supervisor
    {
      Settled(pending) && Tried() && Called(|calls|) && Buried()
    }

    ghost predicate Good(pending: set<nat>)
      reads this, supervisor
    {
      Sound(pending) && Bounded(0) && Reported(0)
    }

    /** Failures of this actor that the supervisor has not counted, or counted for others. */
    ghost function Uncounted(): int
      reads this`failures, (if supervisor == null then {} else {supervisor})`totalFailures
    {
      failures - if supervisor == null then 0 else supervisor.totalFailures
    }

    /** Restarts of this actor that the supervisor has not counted in totalRestarts. */
    ghost function Uncredited(): int
      reads this`restartCount, (if supervisor == null then {} else {supervisor})`totalRestarts
    {
      restartCount - if supervisor == null then 0 else supervisor.totalRestarts
    }

    /** A one-for-one restart is counted, unless an exception passes through. */
    twostate predicate Credited(threw: bool)
      reads this`restartCount, (if supervisor == null then {} else {supervisor})`totalRestarts
    {
      supervisor != null && supervisor.StrategyOf(id).OneForOne? && !threw ==> Uncredited() == old(Uncredited())
    }

    /** Nothing that was settled or logged is undone. What is popped is a prefix of what was sent, so that its
        length says all. */
    twostate predicate Onward()
      reads this, supervisor
    {
      && old(|popped|) <= |popped| && old(|popped| + |mailbox|) <= |popped| + |mailbox|
      && old(calls) <= calls && old(tries) <= tries
      && (forall k :: k in old(fates) ==> k in fates && fates[k] == old(fates)[k])
      && |mailbox| + |supply| <= old(|mailbox| + |supply|)
      && old(restartCount) <= restartCount && (old(stopped) ==> stopped)
      && (supervisor != null ==> old(supervisor.deadLetters) <= supervisor.deadLetters)
      && Uncounted() == old(Uncounted())
    }

    /** Messages settled since then became dead letters, kept or dropped. */
    twostate predicate NewOnesDied()
      reads this`fates
    {
      forall k :: k in fates && k !in old(fates) ==> Died(fates[k])
    }

    /** What everything outside the try block keeps. */
    twostate predicate Kept(pending: set<nat>)
      reads this, supervisor
    {
      Sound(pending) && Onward() && NewOnesDied() && tries == old(tries) && tryOf == old(tryOf)
    }

    /** The mailbox has been emptied of what was in it, and either budget has been used up or the actor is
        stopped. */
    twostate predicate Reacted()
      reads this, supervisor
    {
      |popped| >= old(|popped| + |mailbox|) && (stopped || Spent() > old(Spent()))
    }

    /** The strategy's calls have been made. */
    twostate predicate Replied()
      reads this, supervisor
    {
      old(|calls|) <= |calls| && IsAftermath(Rules().strategy, old(Left()), old(state), calls[old(|calls|)..])
    }

    twostate predicate Answered()
      reads this, supervisor
    {
      Replied() && (supervisor != null ==> Reacted())
    }

    lemma SumIsSent(pending: set<nat>)
      requires Settled(pending)
      ensures popped + mailbox + supply == sent
    {
    }

    lemma StoppedHasNoneLeft()
      requires Bounded(0) && stopped
      ensures Left() == 0
    {
    }

    // ---- Single steps ----------------------------------------------------------------------------

    /** Any number of pushes by producers. */
    method Arrive(ghost pending: set<nat>)
      requires Settled(pending)
      modifies this`supply, this`mailbox
      ensures Settled(pending) && old(mailbox) <= mailbox
      ensures |mailbox| + |supply| == old(|mailbox| + |supply|)
    {
      var n :| 0 <= n <= |supply|;
      assert popped + mailbox + supply == popped + (mailbox + supply[..n]) + supply[n..];
      mailbox := mailbox + supply[..n];
      supply := supply[n..];
    }

    method CallActor(ghost callee: Callee, ghost pending: set<nat>) returns (threw: bool)
      requires Settled(pending) && Called(|calls|)
      modifies this`supply, this`mailbox, this`state, this`calls
      ensures Settled(pending) && old(mailbox) <= mailbox
      ensures |mailbox| + |supply| == old(|mailbox| + |supply|)
      ensures calls == old(calls) + [Call(callee, old(state), state, threw)]
      ensures Called(if callee.ToHandle? then |old(calls)| else |calls|)
      ensures ThrownOpens(calls) == ThrownOpens(old(calls)) + if callee == ToOpen && threw then 1 else 0
    {
      hide ThrownOpens;
      Arrive(pending);
      ghost var before := state;
      state := *;
      threw := *;
      OneMoreCall(calls, Call(callee, before, state, threw));
      calls := calls + [Call(callee, before, state, threw)];
      assert forall c :: 0 <= c < |calls| - 1 && calls[c].callee.ToHandle? ==>
               HandledOnce(old(calls), tries, tryOf, c);
    }

    method Pop(ghost pending: set<nat>) returns (msg: Msg)
      requires Settled(pending) && Tried() && Buried() && mailbox != []
      modifies this`mailbox, this`popped
      ensures Settled(pending + {|old(popped)|}) && Tried() && Buried() && TriedBefore(|old(popped)|)
      ensures popped == old(popped) + [msg] && [msg] + mailbox == old(mailbox)
    {
      hide TriedIn, BuriedIn;
      msg := mailbox[0];
      TriedAndPopped(popped, fates, tries, tryOf, Rules(), msg);
      if supervisor == null {
        BuriedStays(id, popped, fates, letterOf, originOf, [], false, popped + [msg], [], false);
      } else {
        ghost var queue, full := supervisor.deadLetters, |supervisor.deadLetters| == supervisor.capacity;
        BuriedStays(id, popped, fates, letterOf, originOf, queue, full, popped + [msg], queue, full);
      }
      mailbox := mailbox[1..];
      popped := popped + [msg];
    }

    // ---- Restarting ------------------------------------------------------------------------------

    method Shutdown(ghost pending: set<nat>) returns (threw: bool)
      requires Sound(pending)
      modifies this`stopped, this`supply, this`mailbox, this`state, this`calls
      ensures Kept(pending) && stopped
      ensures IsShutdown(old(state), calls[|old(calls)|..]) && (threw ==> EndsInClose(calls[|old(calls)|..]))
      ensures ThrownOpens(calls) == ThrownOpens(old(calls))
    {
      hide Settled, Tried, Called, Buried;
      stopped := true;
      threw := CallActor(ToClose, pending);
    }

    /** The second half of performRestart: an open that throws is a new failure. */
    method Reopen(ghost pending: set<nat>) returns (threw: bool)
      requires Good(pending) && state == Closed
      modifies this, supervisor
      ensures Kept(pending) && Bounded(0) && Reported(0) && (threw ==> stopped) && Spent() >= old(Spent())
      ensures IsReopening(Rules().strategy, old(Left()), calls[|old(calls)|..]) && Credited(threw)
      ensures supervisor != null && calls[|old(calls)|].threw ==> Reacted()
      ensures !old(stopped) ==> late == old(late)
      ensures threw ==> EndsInClose(calls[|old(calls)|..])
      decreases if supervisor == null then 0 else Max0(supervisor.maxRestarts - restartCount), 5
    {
      hide Settled, Tried, Called, Buried, Bounded, Uncounted, ThrownOpens, FailedTries, LeftAfter, Spent, Died;
      ghost var n := |calls|;
      threw := CallActor(ToOpen, pending);
      if threw {
        threw := false;
        if supervisor != null {
          ghost var drained;
          threw, drained := supervisor.OnActorFailed(this, None, None, pending);
        }
        assert calls[n..][1..] == calls[n + 1..];
      }
    }

    /** close, then, if the actor is closed, open. */
    method PerformRestart(ghost pending: set<nat>) returns (threw: bool)
      requires Good(pending)
      modifies this, supervisor
      ensures Kept(pending) && Bounded(0) && Reported(0) && (threw ==> stopped) && Spent() >= old(Spent())
      ensures IsRestart(Rules().strategy, old(Left()), old(state), calls[|old(calls)|..]) && Credited(threw)
      ensures supervisor != null && |calls| > |old(calls)| + 1 && calls[|old(calls)| + 1].threw ==> Reacted()
      ensures !old(stopped) ==> late == old(late)
      ensures threw ==> EndsInClose(calls[|old(calls)|..])
      decreases if supervisor == null then 0 else Max0(supervisor.maxRestarts - restartCount), 6
    {
      hide Settled, Tried, Called, Buried, Bounded, Uncounted, ThrownOpens, FailedTries, LeftAfter, Spent, Died;
      hide IsReopening;
      ghost var n := |calls|;
      var closeThrew := CallActor(ToClose, pending);
      threw := false;
      if state == Closed {
        threw := Reopen(pending);
        assert calls[n..][1..] == calls[n + 1..];
      }
    }

    /** threw: performRestart's shutdown threw, and the exception passes through. */
    method TryRestart(limit: int, ghost pending: set<nat>) returns (restarted: bool, threw: bool)
      requires supervisor != null && limit == supervisor.maxRestarts && (stopped ==> restartCount >= limit)
      requires Sound(pending) && Bounded(if stopped then 0 else 1) && Reported(0)
      modifies this, supervisor
      ensures Kept(pending) && Reported(0) && restarted == (old(restartCount) < limit) && late == old(late)
      ensures threw ==> restarted && stopped
      ensures restarted ==> restartCount > old(restartCount) && Bounded(0) && Spent() > old(Spent())
      ensures restarted ==>
                IsRestart(Rules().strategy, old(LeftAfter(restartCount + 1)), old(state), calls[|old(calls)|..])
      ensures restarted && !threw && supervisor.StrategyOf(id).OneForOne? ==> Uncredited() == old(Uncredited()) + 1
      ensures threw ==> EndsInClose(calls[|old(calls)|..])
      ensures !restarted ==> calls == old(calls) && state == old(state) && Uncredited() == old(Uncredited())
      ensures !restarted ==> Bounded(if stopped then 0 else 1) && Spent() == old(Spent()) && stopped == old(stopped)
      ensures !restarted ==>
                && restartCount == old(restartCount)
                && supervisor.oneForAllBroadcasts == old(supervisor.oneForAllBroadcasts)
      decreases Max0(supervisor.maxRestarts - restartCount), 1, 0
    {
      hide Settled, Tried, Called, Buried, IsRestart, ThrownOpens, FailedTries, LeftAfter;
      if restartCount >= limit {
        return false, false;
      }
      restartCount := restartCount + 1;
      threw := PerformRestart(pending);
      restarted := true;
    }

    // ---- A batch ---------------------------------------------------------------------------------

    /** tryConsumeLifecycle: enable, disable and restart requests are dealt with here. */
    method TryConsumeLifecycle(msg: Msg, ghost k: nat) returns (consumed: bool, threw: bool)
      requires Good({k})
      modifies this, supervisor
      ensures Kept({k}) && Bounded(0) && Spent() >= old(Spent())
      ensures Reported(if msg.kind.EnableRequest? && threw then 1 else 0)
      ensures if msg.kind.RestartRequest? then threw ==> stopped && Left() == 0 else Left() == old(Left())
      ensures !threw ==> consumed == !msg.kind.Ordinary?
      ensures if msg.kind.Ordinary? then !threw && state == old(state) && calls == old(calls)
              else TryOk(Try(k, old(state), old(Left()), |old(calls)|, calls[|old(calls)|..], threw), msg.kind, Rules())
    {
      hide Settled, Tried, Called, Buried, Bounded, IsRestart, EndsInClose, ThrownOpens, FailedTries, LeftAfter, Spent;
      consumed, threw := !msg.kind.Ordinary?, false;
      match msg.kind
      case EnableRequest =>
        if state == Closed {
          threw := CallActor(ToOpen, {k});
        }
      case DisableRequest =>
        if state == Opened && !essential {
          threw := CallActor(ToClose, {k});
        }
      case RestartRequest =>
        if state == Opened {
          threw := PerformRestart({k});
          if threw { StoppedHasNoneLeft(); }
        }
      case Ordinary =>
    }

    /** What was done for the message popped at k goes into the log of tries. */
    ghost method Record(k: nat, before: ActorState, left: nat, n: nat, failed: bool)
      requires Tried() && TriedBefore(k) && k < |popped| && k !in fates
      requires n <= |calls| && TryOk(Try(k, before, left, n, calls[n..], failed), popped[k].kind, Rules())
      requires if popped[k].kind.Ordinary? then Called(n) else Called(|calls|)
      modifies this`tries, this`tryOf
      ensures Tried() && Called(|calls|)
      ensures tries == old(tries) + [Try(k, before, left, n, calls[n..], failed)]
      ensures tryOf == old(tryOf)[k := |old(tries)|]
      ensures FailedTries(tries) == FailedTries(old(tries)) + if failed && !popped[k].kind.EnableRequest? then 1 else 0
    {
      hide CalledIn, TriedIn, FailedTries, IsRestart, EndsInClose;
      ghost var t := Try(k, before, left, n, calls[n..], failed);
      FailedByKind(t, popped[k].kind, Rules());
      hide TryOk;
      CalledMore(calls, tries, tryOf, t, popped[k].kind, Rules());
      TriedMore(popped, fates, tries, tryOf, Rules(), t);
      OneMoreTry(tries, t);
      tries := tries + [t];
      tryOf := tryOf[k := |tries| - 1];
    }

    /** Actor::handle. */
    method Deliver(msg: Msg, ghost k: nat) returns (failed: bool)
      requires Good({k}) && TriedBefore(k) && k < |popped| && popped[k] == msg && msg.kind.Ordinary? && k !in fates
      modifies this`supply, this`mailbox, this`state, this`calls, this`tries, this`tryOf
      ensures Sound({k}) && Bounded(0) && Reported(if failed then 1 else 0) && Onward()
      ensures TriedLast(k, failed)
    {
      hide Settled, Tried, Called, Buried, Bounded, Uncounted, TriedBefore, ThrownOpens, FailedTries, LeftAfter;
      ghost var before, left, n := state, Left(), |calls|;
      failed := CallActor(ToHandle(k), {k});
      Record(k, before, left, n, failed);
    }

    /** The last try is that of the message popped at k, and no call has been made since. */
    twostate predicate TriedLast(k: nat, failed: bool)
      reads this`tries, this`tryOf, this`calls
    {
      && |tries| == |old(tries)| + 1 && k in tryOf && tryOf[k] == |old(tries)|
      && var t := tries[|old(tries)|];
      t.position == k && t.failed == failed && |calls| == t.start + |t.calls|
    }

    /** The body of the try block. */
    method Attempt(msg: Msg, ghost k: nat) returns (consumed: bool, failed: bool)
      requires Good({k}) && TriedBefore(k) && popped[k] == msg
      modifies this, supervisor
      ensures Sound({k}) && Bounded(0) && Reported(if failed then 1 else 0) && Onward() && Spent() >= old(Spent())
      ensures TriedLast(k, failed) && k < |popped| && popped[k] == msg
      ensures if msg.kind.RestartRequest? then failed ==> stopped && Left() == 0 else Left() == old(Left())
      ensures !failed ==> consumed == !msg.kind.Ordinary?
    {
      hide Tried, Called, Buried, Bounded, Uncounted, TriedBefore, IsRestart, EndsInClose, Died, Spent;
      hide ThrownOpens, FailedTries, LeftAfter;
      ghost var before, left, n := state, Left(), |calls|;
      ghost var popped0, mailbox0, supply0 := popped, mailbox, supply;
      consumed, failed := TryConsumeLifecycle(msg, k);
      PoppedInOrder(sent, popped0, mailbox0, supply0, popped, mailbox + supply);
      assert popped[k] == msg && k !in fates;
      if consumed || failed {
        Record(k, before, left, n, failed);
      } else {
        failed := Deliver(msg, k);
      }
    }

    /** A message gets its fate without becoming a dead letter. */
    ghost method Settle(k: nat, fate: Fate)
      requires Sound({k}) && k in tryOf && tryOf[k] < |tries| && TryFate(tries[tryOf[k]], popped[k].kind, fate)
      requires !fate.DeadLetter? && !fate.Dropped? && (fate.Logged? ==> supervisor == null)
      modifies this`fates
      ensures Sound({}) && fates == old(fates)[k := fate]
    {
      hide TriedIn, CalledIn, BuriedIn;
      TriedAndSettled(popped, fates, tries, tryOf, Rules(), k, fate);
      if supervisor == null {
        BuriedAndSettled(id, popped, fates, letterOf, originOf, [], false, k, fate);
      } else {
        BuriedAndSettled(id, popped, fates, letterOf, originOf, supervisor.deadLetters,
                         |supervisor.deadLetters| == supervisor.capacity, k, fate);
      }
      fates := fates[k := fate];
    }

    /** The catch block. */
    method Catch(msg: Msg, ghost k: nat) returns (threw: bool)
      requires Sound({k}) && Bounded(0) && Reported(1)
      requires popped[k] == msg && k in tryOf && tryOf[k] < |tries| && tries[tryOf[k]].failed
      modifies this, supervisor
      ensures Good({}) && Onward() && tries == old(tries) && tryOf == old(tryOf)
      ensures Answered() && Spent() >= old(Spent()) && (threw ==> stopped)
      ensures k in fates && fates[k] == if supervisor == null then Logged
                                        else FateAt(old(|supervisor.deadLetters|), supervisor.capacity)
    {
      hide TryOk, ThrownOpens, FailedTries, LeftAfter, TriedIn, CalledIn, BuriedIn, IsRestart;
      assert {k} - {k} == {};
      threw := false;
      if supervisor != null {
        ghost var drained;
        threw, drained := supervisor.OnActorFailed(this, Some(k), Some(msg), {k});
      } else {
        Settle(k, Logged);
      }
    }

    /** What follows the try block; processed is counted on in the loop. */
    method Finish(msg: Msg, ghost k: nat, consumed: bool, failed: bool) returns (threw: bool)
      requires Sound({k}) && Bounded(0) && Reported(if failed then 1 else 0) && popped[k] == msg
      requires k in tryOf && tryOf[k] < |tries| && tries[tryOf[k]].failed == failed
      requires !failed ==> consumed == !msg.kind.Ordinary?
      modifies this, supervisor
      ensures Good({}) && Onward() && tries == old(tries) && Spent() >= old(Spent()) && (threw ==> failed && stopped)
      ensures failed ==> Answered()
      ensures k in fates && fates[k] == if !failed then (if msg.kind.Ordinary? then Handled else Consumed)
                                        else if supervisor == null then Logged
                                        else FateAt(old(|supervisor.deadLetters|), supervisor.capacity)
    {
      hide Tried, Called, Buried, Bounded, Uncounted, Answered, LeftAfter, Spent, ThrownOpens, FailedTries, FateAt;
      threw := false;
      if failed {
        threw := Catch(msg, k);
      } else {
        Settle(k, if consumed then Consumed else Handled);
        Arrive({});
      }
    }

    /** One message of a batch; failed: the batch ends. threw: so does the worker, by an exception. */
    method ProcessOne() returns (failed: bool, threw: bool)
      requires Good({}) && mailbox != []
      modifies this, supervisor
      ensures Good({}) && Onward() && Spent() >= old(Spent()) && (threw ==> failed && stopped)
      ensures |popped| > |old(popped)| && |mailbox| + |supply| < |old(mailbox)| + |old(supply)|
      ensures |tries| == |old(tries)| + 1
      ensures tries[|old(tries)|].position == |old(popped)| && tries[|old(tries)|].failed == failed
      ensures failed && supervisor != null ==> Reacted()
      ensures failed ==> AnsweredAfter(tries[|old(tries)|], old(mailbox)[0].kind, old(Left()))
      ensures var k := |old(popped)|;
              k in fates && if failed then Died(fates[k]) || (fates[k].Logged? && supervisor == null)
                            else fates[k] == if old(mailbox)[0].kind.Ordinary? then Handled else Consumed
    {
      hide Settled, Tried, Called, Buried, Bounded, Uncounted, TriedBefore, Spent, LeftAfter, ThrownOpens, FailedTries;
      hide IsAftermath, Died;
      ghost var k := |popped|;
      assert {} + {k} == {k};
      var msg := Pop({});
      var consumed;
      consumed, failed := Attempt(msg, k);
      ghost var strategy, left, before, n := Rules().strategy, Left(), state, |calls|;
      threw := Finish(msg, k, consumed, failed);
      if failed { AftermathIsAnswer(strategy, left, before, calls[n..]); }
    }

    /** After a failed try, the calls are the strategy's answer; a restart request fails only when it has used
        up what was left. */
    ghost predicate AnsweredAfter(t: Try, kind: Kind, left: nat)
      reads this`calls
    {
      && t.start + |t.calls| <= |calls|
      && IsAnswer(Rules().strategy, if kind.RestartRequest? then 0 else left, calls[t.start + |t.calls|..])
    }

    /** processBatch; a negative maxBatch means no limit. */
    method ProcessBatch(maxBatch: int) returns (processed: int, threw: bool, ghost failed: bool)
      requires Good({})
      modifies this, supervisor
      ensures Good({}) && Onward() && (threw ==> failed && stopped)
      ensures old(stopped) ==> processed == 0 && !failed && popped == old(popped) && calls == old(calls)
      ensures 0 <= processed && (maxBatch >= 0 ==> processed <= maxBatch)
      ensures |tries| == |old(tries)| + processed + (if failed then 1 else 0)
      ensures forall i :: |old(tries)| <= i < |tries| ==> tries[i].failed == (failed && i == |tries| - 1)
      ensures !failed && !old(stopped) && (maxBatch < 0 || processed < maxBatch) ==> mailbox == []
      ensures failed && supervisor != null ==> Reacted()
    {
      hide Sound, Bounded, Reported, AnsweredAfter, Spent, Died;
      processed, threw, failed := 0, false, false;
      if stopped {
        return;
      }
      while (maxBatch < 0 || processed < maxBatch) && mailbox != []
        invariant Good({}) && Onward() && Spent() >= old(Spent()) && !threw && !failed
        invariant 0 <= processed && (maxBatch >= 0 ==> processed <= maxBatch)
        invariant |tries| == |old(tries)| + processed
        invariant forall i :: |old(tries)| <= i < |tries| ==> !tries[i].failed
        decreases |mailbox| + |supply|
      {
        var stop;
        stop, threw := ProcessOne();
        if stop {
          failed := true;
          break;
        }
        processed := processed + 1;
      }
    }
  }

  // ---- The supervisor's side ---------------------------------------------------------------------

  class Supervisor {
    const defaultStrategy: Strategy
    const perActorStrategy: map<nat, Strategy>
    const maxRestarts: int
    const capacity: nat                 // of the dead-letter queue
    var deadLetters: seq<Letter>
    var oneForAllRestartCount: map<nat, int>
    var totalFailures: nat
    var totalRestarts: int
    var oneForAllBroadcasts: nat

    constructor (defaultStrategy: Strategy, perActorStrategy: map<nat, Strategy>, maxRestarts: int, capacity: nat)
      ensures this.defaultStrategy == defaultStrategy && this.perActorStrategy == perActorStrategy
      ensures this.maxRestarts == maxRestarts && this.capacity == capacity
      ensures oneForAllRestartCount == map[] && deadLetters == []
    {
      this.defaultStrategy, this.perActorStrategy := defaultStrategy, perActorStrategy;
      this.maxRestarts, this.capacity, deadLetters := maxRestarts, capacity, [];
      oneForAllRestartCount, totalFailures, totalRestarts, oneForAllBroadcasts := map[], 0, 0, 0;
    }

    function StrategyOf(id: nat): Strategy {
      if id in perActorStrategy then perActorStrategy[id] else defaultStrategy
    }

    function Broadcasts(id: nat): int
      reads this`oneForAllRestartCount
    {
      if id in oneForAllRestartCount then oneForAllRestartCount[id] else 0
    }

    predicate GivesUpOn(r: Runtime)
      reads this`oneForAllRestartCount, r`restartCount
    {
      match StrategyOf(r.id)
      case OneForOne => r.restartCount >= maxRestarts
      case OneForAll => Broadcasts(r.id) >= maxRestarts
      case Never => true
    }

    // ---- Dead letters ----------------------------------------------------------------------------

    method PushLetter(letter: Letter) returns (kept: bool)
      requires |deadLetters| <= capacity
      modifies this`deadLetters
      ensures deadLetters == Fill(old(deadLetters), [letter], capacity) && kept == (|old(deadLetters)| < capacity)
    {
      kept := |deadLetters| < capacity;
      if kept {
        deadLetters := deadLetters + [letter];
      }
    }

    /** A failure's message is pending, and it was either not tried or tried without success; open's failures
        have none. */
    ghost predicate Pending(r: Runtime, failed: Option<nat>, msg: Option<Msg>, pending: set<nat>)
      reads r`popped, r`tries, r`tryOf
    {
      match (failed, msg)
      case (None, None) => true
      case (Some(k), Some(m)) =>
        && k in pending && k < |r.popped| && r.popped[k] == m
        && (k in r.tryOf ==> r.tryOf[k] < |r.tries| && r.tries[r.tryOf[k]].failed)
      case _ => false
    }

    function PendingAfter(failed: Option<nat>, pending: set<nat>): set<nat> {
      if failed.Some? then pending - {failed.value} else pending
    }

    /** The message popped at k is pushed as a dead letter, and its fate is whether there was room. */
    method BuryOne(r: Runtime, msg: Msg, ghost k: nat, ghost pending: set<nat>)
      requires r.supervisor == this && r.Settled(pending) && r.Tried() && r.Buried()
      requires Pending(r, Some(k), Some(msg), pending)
      modifies this`deadLetters, r`fates, r`letterOf, r`originOf
      ensures r.Settled(pending - {k}) && r.Tried() && r.Buried()
      ensures deadLetters == Fill(old(deadLetters), [Letter(r.id, Some(msg))], capacity)
      ensures r.fates == old(r.fates)[k := FateAt(|old(deadLetters)|, capacity)]
    {
      hide TriedIn, BuriedIn;
      ghost var at0, queue := |deadLetters|, deadLetters;
      TriedAndSettled(r.popped, r.fates, r.tries, r.tryOf, r.Rules(), k, FateAt(at0, capacity));
      var kept := PushLetter(Letter(r.id, Some(msg)));
      if kept {
        BuriedAndKept(r.id, r.popped, r.fates, r.letterOf, r.originOf, queue, k, at0 + 1 == capacity);
        r.letterOf := r.letterOf[k := at0];
        r.originOf := r.originOf[at0 := k];
      } else {
        BuriedAndSettled(r.id, r.popped, r.fates, r.letterOf, r.originOf, queue, true, k, Dropped);
      }
      r.fates := r.fates[k := FateAt(at0, capacity)];
      assert kept ==> deadLetters == queue + [Letter(r.id, Some(msg))];
      assert !kept ==> deadLetters == queue;
    }

    /** popDeadLetter and push: the oldest message of the mailbox. */
    method BuryNext(r: Runtime, ghost pending: set<nat>)
      requires r.supervisor == this && r.Settled(pending) && r.Tried() && r.Buried() && r.mailbox != []
      modifies this`deadLetters, r`supply, r`mailbox, r`popped, r`fates, r`letterOf, r`originOf
      ensures r.Settled(pending) && r.Tried() && r.Buried()
      ensures r.popped == old(r.popped) + [old(r.mailbox)[0]] && old(r.mailbox) <= [old(r.mailbox)[0]] + r.mailbox
      ensures |r.mailbox| + |r.supply| == old(|r.mailbox| + |r.supply|) - 1
      ensures deadLetters == Fill(old(deadLetters), [Letter(r.id, Some(old(r.mailbox)[0]))], capacity)
      ensures r.fates == old(r.fates)[|old(r.popped)| := FateAt(|old(deadLetters)|, capacity)]
    {
      hide Runtime.Tried, Runtime.Buried, FateAt;
      ghost var k := |r.popped|;
      var msg := r.Pop(pending);
      BuryOne(r, msg, k, pending + {k});
      assert pending + {k} - {k} == pending;
      r.Arrive(pending);
    }

    method BuryFirst(r: Runtime, ghost failed: Option<nat>, msg: Option<Msg>, ghost pending: set<nat>)
      requires r.supervisor == this && r.Settled(pending) && r.Tried() && r.Buried()
      requires Pending(r, failed, msg, pending)
      modifies this`deadLetters, r`fates, r`letterOf, r`originOf
      ensures r.Settled(PendingAfter(failed, pending)) && r.Tried() && r.Buried()
      ensures deadLetters == Fill(old(deadLetters), [Letter(r.id, msg)], capacity)
      ensures failed.Some? ==> failed.value !in old(r.fates)
      ensures r.fates == if failed.Some? then old(r.fates)[failed.value := FateAt(|old(deadLetters)|, capacity)]
                         else old(r.fates)
    {
      hide Runtime.Tried, FateAt, BuriedIn;
      match msg
      case Some(m) => BuryOne(r, m, failed.value, pending);
      case None =>
        ghost var queue := deadLetters;
        var kept := PushLetter(Letter(r.id, None));
        BuriedStays(r.id, r.popped, r.fates, r.letterOf, r.originOf, queue, |queue| == capacity,
                    r.popped, deadLetters, |deadLetters| == capacity);
    }

    /** The loop of popDeadLetter: everything in the mailbox, in order, comes to the dead-letter queue. */
    method BuryRest(r: Runtime, ghost pending: set<nat>)
      requires r.supervisor == this && r.Settled(pending) && r.Tried() && r.Buried() && |deadLetters| <= capacity
      modifies this`deadLetters, r`supply, r`mailbox, r`popped, r`fates, r`letterOf, r`originOf
      ensures r.Settled(pending) && r.Tried() && r.Buried()
      ensures |r.popped| >= old(|r.popped| + |r.mailbox|) && old(r.popped) <= r.popped
      ensures |r.mailbox| + |r.supply| <= old(|r.mailbox| + |r.supply|)
      ensures deadLetters == Fill(old(deadLetters), Letters(r.id, r.popped[old(|r.popped|)..]), capacity)
      ensures forall k :: k in old(r.fates) ==> k in r.fates && r.fates[k] == old(r.fates)[k]
      ensures r.NewOnesDied()
    {
      hide Runtime.Settled, Runtime.Tried, Runtime.Buried, Fill, Letters, FateAt;
      ghost var n, before := |r.popped|, deadLetters;
      FillNothing(before, Letters(r.id, r.popped[n..]), capacity);
      r.Arrive(pending);
      while r.mailbox != []
        invariant r.Settled(pending) && r.Tried() && r.Buried()
        invariant old(r.popped) <= r.popped && old(|r.popped| + |r.mailbox|) <= |r.popped| + |r.mailbox|
        invariant |r.mailbox| + |r.supply| <= old(|r.mailbox| + |r.supply|)
        invariant deadLetters == Fill(before, Letters(r.id, r.popped[n..]), capacity)
        invariant forall k :: k in old(r.fates) ==> k in r.fates && r.fates[k] == old(r.fates)[k]
        invariant r.NewOnesDied()
        decreases |r.mailbox| + |r.supply|
      {
        ghost var done, m := r.popped[n..], r.mailbox[0];
        BuryNext(r, pending);
        assert r.popped[n..] == done + [m];
        LettersMore(r.id, done, m);
        FillMore(before, Letters(r.id, done), [Letter(r.id, Some(m))], capacity);
      }
    }

    /** The failed message, and then everything in the mailbox. */
    method Bury(r: Runtime, ghost failed: Option<nat>, msg: Option<Msg>, ghost pending: set<nat>)
      requires r.supervisor == this && r.Settled(pending) && r.Tried() && r.Buried()
      requires Pending(r, failed, msg, pending)
      modifies this`deadLetters, r`supply, r`mailbox, r`popped, r`fates, r`letterOf, r`originOf
      ensures r.Settled(PendingAfter(failed, pending)) && r.Tried() && r.Buried()
      ensures |r.popped| >= old(|r.popped| + |r.mailbox|) && old(r.popped) <= r.popped
      ensures |r.mailbox| + |r.supply| <= old(|r.mailbox| + |r.supply|)
      ensures deadLetters ==
              Fill(old(deadLetters), [Letter(r.id, msg)] + Letters(r.id, r.popped[old(|r.popped|)..]), capacity)
      ensures forall k :: k in old(r.fates) ==> k in r.fates && r.fates[k] == old(r.fates)[k]
      ensures r.NewOnesDied()
      ensures failed.Some? ==> failed.value in r.fates && r.fates[failed.value] == FateAt(old(|deadLetters|), capacity)
    {
      hide Runtime.Settled, Runtime.Tried, Runtime.Buried, Fill, Letters, FateAt;
      BuryFirst(r, failed, msg, pending);
      BuryRest(r, PendingAfter(failed, pending));
      FillMore(old(deadLetters), [Letter(r.id, msg)], Letters(r.id, r.popped[old(|r.popped|)..]), capacity);
    }

    // ---- Strategies ------------------------------------------------------------------------------

    /** What the strategy makes of a failure. */
    twostate predicate Responds(r: Runtime)
      reads this, r
    {
      Outcome(StrategyOf(r.id), old(GivesUpOn(r)), old(r.stopped), r.stopped, r.restartCount - old(r.restartCount),
              Broadcasts(r.id) - old(Broadcasts(r.id)), oneForAllBroadcasts - old(oneForAllBroadcasts))
    }

    /** The actor is stopped for good, and no budget is touched. */
    twostate predicate GivenUp(r: Runtime)
      reads this, r
    {
      && r.stopped && r.restartCount == old(r.restartCount)
      && Broadcasts(r.id) == old(Broadcasts(r.id)) && oneForAllBroadcasts == old(oneForAllBroadcasts)
    }

    /** What each strategy comes to: Never gives the actor up; the others do so once their budget is used up, and
        use up some of it otherwise. */
    twostate predicate AnswersWith(r: Runtime, strategy: Strategy)
      reads this, r
    {
      match strategy
      case Never => GivenUp(r)
      case OneForOne =>
        if old(r.restartCount) >= maxRestarts then GivenUp(r) else r.restartCount > old(r.restartCount)
      case OneForAll =>
        if old(Broadcasts(r.id)) >= maxRestarts then GivenUp(r)
        else && r.stopped == old(r.stopped) && r.restartCount == old(r.restartCount)
             && Broadcasts(r.id) == old(Broadcasts(r.id)) + 1
             && oneForAllBroadcasts == old(oneForAllBroadcasts) + 1
    }

    /** Budget is used up, or the actor is stopped. */
    twostate predicate Pays(r: Runtime, threw: bool)
      requires r.supervisor == this && old(|r.calls|) <= |r.calls|
      reads this, r
    {
      && r.Bounded(0) && r.Reported(0) && r.Spent() >= old(r.Spent()) && (r.stopped || r.Spent() > old(r.Spent()))
      && r.Credited(threw) && (threw ==> r.stopped && EndsInClose(r.calls[old(|r.calls|)..]))
    }

    /** The first half of onActorFailed. */
    method Count(r: Runtime, ghost failed: Option<nat>, msg: Option<Msg>, ghost pending: set<nat>)
      requires r.supervisor == this && r.Sound(pending) && r.Bounded(0) && r.Reported(1)
      requires Pending(r, failed, msg, pending)
      modifies this`totalFailures, this`deadLetters, r`failures, r`late
      modifies r`supply, r`mailbox, r`popped, r`fates, r`letterOf, r`originOf
      ensures r.Kept(PendingAfter(failed, pending)) && r.Bounded(if r.stopped then 0 else 1) && r.Reported(0)
      ensures |r.popped| >= old(|r.popped| + |r.mailbox|) && old(r.popped) <= r.popped
      ensures r.late == old(r.late) + if old(r.stopped) then 1 else 0
      ensures deadLetters ==
              Fill(old(deadLetters), [Letter(r.id, msg)] + Letters(r.id, r.popped[old(|r.popped|)..]), capacity)
      ensures failed.Some? ==> failed.value in r.fates && r.fates[failed.value] == FateAt(old(|deadLetters|), capacity)
    {
      hide Runtime.Settled, Runtime.Tried, Runtime.Called, Runtime.Buried, Runtime.Spent, Runtime.Left,
           Runtime.LeftAfter, FateAt, Letters, Pending, PendingAfter, Fill, Died, Broadcasts, GivesUpOn,
           ThrownOpens, FailedTries;
      totalFailures := totalFailures + 1;
      r.failures := r.failures + 1;
      r.late := r.late + if r.stopped then 1 else 0;
      Bury(r, failed, msg, pending);
    }

    /** onActorFailed; gone and letters: what was popped, and the queue, when the mailbox had been emptied. */
    method Fail(r: Runtime, ghost failed: Option<nat>, msg: Option<Msg>, ghost pending: set<nat>)
      returns (threw: bool, ghost gone: seq<Msg>, ghost letters: seq<Letter>)
      requires r.supervisor == this && r.Sound(pending) && r.Bounded(0) && r.Reported(1)
      requires Pending(r, failed, msg, pending)
      modifies r, this
      ensures r.Kept(PendingAfter(failed, pending)) && Responds(r) && Pays(r, threw) && r.Replied()
      ensures r.late == old(r.late) + if old(r.stopped) then 1 else 0
      ensures old(r.popped) <= gone <= r.sent && old(|r.popped| + |r.mailbox|) <= |gone| <= |r.popped|
      ensures letters == Fill(old(deadLetters), [Letter(r.id, msg)] + Letters(r.id, gone[old(|r.popped|)..]), capacity)
           <= deadLetters
      ensures failed.Some? ==> failed.value in r.fates && r.fates[failed.value] == FateAt(old(|deadLetters|), capacity)
      decreases Max0(maxRestarts - r.restartCount), 3
    {
      hide GivesUpOn, Broadcasts, StrategyOf, Runtime.Rules, Outcome, IsAftermath, EndsInClose, Runtime.Settled,
           Runtime.Tried, Runtime.Called, Runtime.Buried, Runtime.Bounded, Runtime.Reported, Runtime.Spent,
           Runtime.Left, Runtime.LeftAfter, Runtime.Uncounted, Runtime.Uncredited, Pending, PendingAfter, IsRestart,
           Fill, FateAt, Letters, Died, ThrownOpens, FailedTries;
      Count(r, failed, msg, pending);
      r.SumIsSent(PendingAfter(failed, pending));
      gone, letters := r.popped, deadLetters;
      threw := Apply(r, PendingAfter(failed, pending));
    }

    /** threw: the actor's close threw while it was being shut down. Messages up to drained were in the
        mailbox. */
    method OnActorFailed(r: Runtime, ghost failed: Option<nat>, msg: Option<Msg>, ghost pending: set<nat>)
      returns (threw: bool, ghost drained: nat)
      requires r.supervisor == this && r.Sound(pending) && r.Bounded(0) && r.Reported(1)
      requires Pending(r, failed, msg, pending)
      modifies r, this
      ensures r.Kept(PendingAfter(failed, pending)) && Responds(r) && Pays(r, threw) && r.Answered()
      ensures r.id in perActorStrategy ==> AnswersWith(r, perActorStrategy[r.id])
      ensures r.id !in perActorStrategy ==> AnswersWith(r, defaultStrategy)
      ensures r.late == old(r.late) + if old(r.stopped) then 1 else 0
      ensures old(|r.popped|) <= drained <= |r.popped| && old(r.popped + r.mailbox) <= r.popped[..drained]
      ensures Fill(old(deadLetters), [Letter(r.id, msg)] + Letters(r.id, r.popped[old(|r.popped|)..drained]), capacity)
           <= deadLetters
      ensures failed.Some? ==> failed.value in r.fates && r.fates[failed.value] == FateAt(old(|deadLetters|), capacity)
      decreases Max0(maxRestarts - r.restartCount), 4
    {
      hide Runtime.Replied, Runtime.Onward, Runtime.Settled, Runtime.Tried, Runtime.Called,
           Runtime.Buried, Runtime.Bounded, Runtime.Spent, Runtime.Reported, Pending, PendingAfter, Fill, FateAt,
           Letters, Died;
      r.SumIsSent(pending);
      ghost var gone, letters;
      threw, gone, letters := Fail(r, failed, msg, pending);
      r.SumIsSent(PendingAfter(failed, pending));
      drained := |gone|;
      Prefixes(r.sent, old(r.popped), old(r.mailbox), old(r.supply), gone, r.popped, r.mailbox + r.supply);
    }

    method Apply(r: Runtime, ghost pending: set<nat>) returns (threw: bool)
      requires r.supervisor == this && r.Sound(pending) && r.Bounded(if r.stopped then 0 else 1) && r.Reported(0)
      modifies r, this
      ensures r.Kept(pending) && r.Replied() && Responds(r) && Pays(r, threw) && r.late == old(r.late)
      decreases Max0(maxRestarts - r.restartCount), 2
    {
      hide Runtime.Settled, Runtime.Tried, Runtime.Called, Runtime.Buried, IsRestart, ThrownOpens, FailedTries;
      match StrategyOf(r.id)
      case OneForOne => threw := RestartOne(r, pending);
      case OneForAll => threw := RestartEveryone(r, pending);
      case Never => threw := r.Shutdown(pending);
    }

    method RestartOne(r: Runtime, ghost pending: set<nat>) returns (threw: bool)
      requires r.supervisor == this && StrategyOf(r.id) == OneForOne
      requires r.Sound(pending) && r.Bounded(if r.stopped then 0 else 1) && r.Reported(0)
      modifies r, this
      ensures r.Kept(pending) && r.Replied() && Responds(r) && Pays(r, threw) && r.late == old(r.late)
      decreases Max0(maxRestarts - r.restartCount), 1, 1
    {
      hide Runtime.Settled, Runtime.Tried, Runtime.Called, Runtime.Buried, Runtime.Uncounted, IsRestart, EndsInClose,
           Died, ThrownOpens, FailedTries;
      var restarted;
      restarted, threw := r.TryRestart(maxRestarts, pending);
      if threw {
        return;
      }
      if restarted {
        totalRestarts := totalRestarts + 1;
      } else {
        threw := r.Shutdown(pending);
      }
    }

    /** The broadcast puts a restart request into every mailbox; its callback may throw, which is caught. */
    method RestartEveryone(r: Runtime, ghost pending: set<nat>) returns (threw: bool)
      requires r.supervisor == this && StrategyOf(r.id) == OneForAll
      requires r.Sound(pending) && r.Bounded(if r.stopped then 0 else 1) && r.Reported(0)
      modifies r, this
      ensures r.Kept(pending) && r.Replied() && Responds(r) && Pays(r, threw) && r.late == old(r.late)
    {
      hide Runtime.Settled, Runtime.Tried, Runtime.Called, Runtime.Buried, IsRestart, ThrownOpens, FailedTries;
      if Broadcasts(r.id) >= maxRestarts {
        threw := r.Shutdown(pending);
      } else {
        Broadcast(r, pending);
        threw := false;
      }
    }

    method Charge(r: Runtime)
      requires r.supervisor == this && StrategyOf(r.id) == OneForAll && Broadcasts(r.id) < maxRestarts
      requires r.Bounded(if r.stopped then 0 else 1)
      modifies this`oneForAllRestartCount
      ensures r.Bounded(0) && Broadcasts(r.id) == old(Broadcasts(r.id)) + 1
    {
      oneForAllRestartCount := oneForAllRestartCount[r.id := Broadcasts(r.id) + 1];
    }

    method CountBroadcast(restarted: int)
      modifies this`oneForAllBroadcasts, this`totalRestarts
      ensures oneForAllBroadcasts == old(oneForAllBroadcasts) + 1
      ensures totalRestarts == old(totalRestarts) + Max0(restarted)
    {
      oneForAllBroadcasts := oneForAllBroadcasts + 1;
      if restarted > 0 {
        totalRestarts := totalRestarts + restarted;
      }
    }

    method Broadcast(r: Runtime, ghost pending: set<nat>)
      requires r.supervisor == this && StrategyOf(r.id) == OneForAll && Broadcasts(r.id) < maxRestarts
      requires r.Sound(pending) && r.Bounded(if r.stopped then 0 else 1)
      modifies this`oneForAllRestartCount, this`oneForAllBroadcasts, this`totalRestarts
      modifies r`supply, r`mailbox
      ensures r.Kept(pending) && r.Bounded(0) && Broadcasts(r.id) == old(Broadcasts(r.id)) + 1
      ensures oneForAllBroadcasts == old(oneForAllBroadcasts) + 1
    {
      hide Runtime.Settled, Runtime.Tried, Runtime.Called, Runtime.Buried, Runtime.Bounded, Runtime.Uncounted, Died;
      Charge(r);
      r.Arrive(pending);
      var restarted: int := *;
      CountBroadcast(restarted);
    }
  }

  // ---- What the fates mean -----------------------------------------------------------------------

  /** A message is handled exactly when handle was called for it and did not throw, and handle is called for it
      at most once. */
  lemma HandledMeansHandled(r: Runtime, k: nat)
    requires r.Good({}) && k < |r.popped|
    ensures k in r.fates
    ensures r.fates[k].Handled? <==>
            exists c :: 0 <= c < |r.calls| && r.calls[c].callee == ToHandle(k) && !r.calls[c].threw
    ensures forall c, d :: 0 <= c < d < |r.calls| && r.calls[c].callee == ToHandle(k) ==>
              r.calls[d].callee != ToHandle(k)
    ensures r.fates[k].Consumed? ==> !r.popped[k].kind.Ordinary?
  {
    forall c | 0 <= c < |r.calls| && r.calls[c].callee == ToHandle(k)
      ensures k in r.tryOf && r.tryOf[k] < |r.tries| && r.tries[r.tryOf[k]].start == c
      ensures !r.calls[c].threw ==> r.fates[k].Handled?
    {
      assert HandledOnce(r.calls, r.tries, r.tryOf, c);
      assert TriedOne(r.popped, r.fates, r.tries[r.tryOf[k]], r.Rules());
    }
    if k in r.tryOf {
      var t := r.tries[r.tryOf[k]];
      assert TriedOne(r.popped, r.fates, t, r.Rules());
      assert CalledBy(r.calls, t);
      assert r.fates[k].Handled? ==> r.calls[t.start + 0] == t.calls[0];
    }
  }

  /** A dead letter is in the queue, with its message, at a place of its own; a message is dropped only if the
      queue is full; and every popped message that was neither handled nor consumed is one or the other. */
  lemma DeadLettersAreKept(r: Runtime, k: nat)
    requires r.Good({}) && k < |r.popped| && r.supervisor != null
    ensures k in r.fates && (r.fates[k].DeadLetter? <==> k in r.letterOf)
    ensures k in r.letterOf ==>
              && r.letterOf[k] < |r.supervisor.deadLetters|
              && r.supervisor.deadLetters[r.letterOf[k]] == Letter(r.id, Some(r.popped[k]))
    ensures forall j :: j in r.letterOf && k in r.letterOf && j != k ==> r.letterOf[j] != r.letterOf[k]
    ensures r.fates[k].Dropped? ==> |r.supervisor.deadLetters| == r.supervisor.capacity
    ensures !r.fates[k].Handled? && !r.fates[k].Consumed? ==> Died(r.fates[k])
  {
    hide TryOk, IsRestart;
  }

  /** Every open that threw and every try that failed otherwise was reported, and each report was answered: it
      used up one restart or one broadcast, or it stopped the actor, or the actor was stopped already. */
  lemma FailuresAreAnswered(r: Runtime)
    requires r.Good({}) && r.supervisor != null
    ensures r.failures == ThrownOpens(r.calls) + FailedTries(r.tries)
    ensures r.failures == r.restartCount + r.supervisor.Broadcasts(r.id) + r.late + if r.stopped then 1 else 0
    ensures r.failures <= 2 * Max0(r.supervisor.maxRestarts) + r.late + 1
    ensures r.stopped ==> r.Left() == 0
  {
    hide Runtime.Sound;
  }
}
