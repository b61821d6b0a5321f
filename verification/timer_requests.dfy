/** What a caller who asks for a timer gets, from its own arguments on: when the timer expires, how often, and
how long it lives. */
module TimerRequests {
  import opened TimerHeap
  import opened Timer
  import opened TimerRuns
  import opened TimerInv
  import opened TimerTheorems

  predicate Asks(x: Action) { x.TimerAdd? || x.SchedAdd? }

  /** id is a live timer with this expiry, interval and kind. */
  ghost predicate Serves(s: System, id: int, expiry: int, interval: nat, repeating: bool) {
    && id in s.timers.ids && s.timers.ids[id] < |s.timers.pool|
    && s.timers.pool[s.timers.ids[id]] == Node(expiry, interval, id, repeating, true)
  }

  /** A request gets a new id, and a live timer under it that expires the delay asked for after the clock reading,
      with that delay for its interval; through the scheduler, the id's message is registered too. */
  lemma AddKeepsRequest(run: seq<System>, acts: seq<Action>, k: nat)
    requires IsRun(run, acts) && k < |acts| && Asks(acts[k])
    ensures var id, x := run[k].timers.nextId, acts[k];
            && id !in run[k].born && Serves(run[k + 1], id, x.at + x.delay, x.delay, x.repeating)
            && run[k + 1].born == run[k].born[id := Birth(x.at, x.delay, x.repeating)]
            && (x.SchedAdd? ==> id in run[k + 1].scheduled && id in run[k + 1].ctxs)
  {
    hide Inv;
    RunInv(run, acts, k);
    assert Follows(run, acts, k);
    StepServes(run[k], acts[k]);
  }

  lemma StepServes(s: System, x: Action)
    requires Inv(s) && Enabled(s, x) && Asks(x)
    ensures var id, r := s.timers.nextId, Step(s, x);
            && id !in s.born && Serves(r, id, x.at + x.delay, x.delay, x.repeating)
            && r.born == s.born[id := Birth(x.at, x.delay, x.repeating)]
            && (x.SchedAdd? ==> id in r.scheduled && id in r.ctxs)
  {
    hide Add, IdOk, LifeOk;
    FreshId(s);
    AddPutsNode(s.timers, Ids(s.round), x.at, x.delay, x.repeating);
  }

  // ---- How long a timer lives --------------------------------------------------------------------

  /** The steps that end timer id: its cancellation, a clear, and the end of the round in which it fires, unless
      it repeats. */
  predicate Ends(s: System, x: Action, id: int) {
    || x.TimerClear?
    || ((x.TimerCancel? || x.SchedCancel?) && x.id == id)
    || (x.EndRound? && id in s.round && id in s.born && !s.born[id].repeating)
  }

  lemma AddedIds(s: System, at: int, delay: nat, repeating: bool, id: int)
    requires Inv(s)
    ensures id in Added(s, at, delay, repeating).timers.ids <==> id in s.timers.ids || id == s.timers.nextId
  {
    hide Inv, Add;
    AddedKeeps(s, at, delay, repeating);
  }

  lemma CancelledIds(s: System, x: int, id: int)
    requires Inv(s)
    ensures id in Cancelled(s, x).timers.ids <==> id in s.timers.ids && id != x
  {
    hide Inv, Cancel;
    CancelledKeeps(s, x);
  }

  lemma EndedIds(s: System, id: int)
    requires Inv(s)
    ensures id in Ended(s).timers.ids <==>
              id in s.timers.ids && (id in s.round ==> id in s.born && s.born[id].repeating)
  {
    hide RefireAll, IdOk, HeapedOk;
    assert LifeOk(s, id);
    RefireAllNode(s.timers, s.round, id);
  }

  lemma StepIds(s: System, x: Action, id: int)
    requires Inv(s) && Enabled(s, x)
    ensures id in Step(s, x).timers.ids <==>
              (id in s.timers.ids && !Ends(s, x, id)) || (Asks(x) && id == s.timers.nextId)
    ensures id in s.born ==> id in Step(s, x).born && Step(s, x).born[id] == s.born[id]
  {
    hide Added, Cancelled, Ended, Begun, IdOk, HeapedOk, CtxOk, FiresOk;
    match x
    case TimerAdd(at, delay, repeating) =>
      AddedIds(s, at, delay, repeating, id);
      AddedBirths(s, at, delay, repeating, id);
    case SchedAdd(at, delay, repeating, _) =>
      AddedIds(s, at, delay, repeating, id);
      AddedBirths(s, at, delay, repeating, id);
    case TimerCancel(i) =>
      CancelledIds(s, i, id);
      OthersStay(s, x);
    case SchedCancel(i) =>
      CancelledIds(s, i, id);
      OthersStay(s, x);
    case BeginRound(at) => BegunIds(s, at);
    case EndRound =>
      EndedIds(s, id);
      OthersStay(s, x);
      assert LifeOk(s, id);
    case _ =>
  }

  lemma AddedBirths(s: System, at: int, delay: nat, repeating: bool, id: int)
    requires Inv(s)
    ensures id in s.born ==>
              id in Added(s, at, delay, repeating).born && Added(s, at, delay, repeating).born[id] == s.born[id]
  {
    FreshId(s);
  }

  lemma OthersStay(s: System, x: Action)
    requires Enabled(s, x) && (x.TimerCancel? || x.SchedCancel? || x.EndRound?)
    ensures Step(s, x).born == s.born
  {
  }

  lemma BegunIds(s: System, at: int)
    requires Inv(s)
    ensures Begun(s, at).timers.ids == s.timers.ids && Begun(s, at).born == s.born
  {
    hide Collect;
    CollectExact(s.timers, Ids(s.round), at);
  }

  lemma IssuedBefore(s: System, id: int)
    requires Inv(s) && id in s.born
    ensures id != s.timers.nextId
  {
    assert FiresOk(s, id);
  }

  /** A timer is live exactly from its request on until a step ends it. */
  lemma {:induction false} LivesUntilItEnds(run: seq<System>, acts: seq<Action>, k: nat, j: nat)
    requires IsRun(run, acts) && k < j <= |acts| && Asks(acts[k])
    ensures var id, x := run[k].timers.nextId, acts[k];
            && (id in run[j].timers.ids <==> forall i :: k < i < j ==> !Ends(run[i], acts[i], id))
            && id in run[j].born && run[j].born[id] == Birth(x.at, x.delay, x.repeating)
    decreases j
  {
    hide Inv, Enabled, Step, Ends;
    AddKeepsRequest(run, acts, k);
    if j > k + 1 {
      LivesUntilItEnds(run, acts, k, j - 1);
      RunInv(run, acts, j - 1);
      assert Follows(run, acts, j - 1);
      IssuedBefore(run[j - 1], run[k].timers.nextId);
      StepIds(run[j - 1], acts[j - 1], run[k].timers.nextId);
    }
  }

  // ---- When it fires -----------------------------------------------------------------------------

  /** At any later time, a timer that lives and is not being fired expires so many delays after its request as
      it has fired, and one more; one that does not repeat has fired at most once. */
  lemma RequestIsHonoured(run: seq<System>, acts: seq<Action>, k: nat, j: nat)
    requires IsRun(run, acts) && k < j <= |acts| && Asks(acts[k])
    ensures var id, x := run[k].timers.nextId, acts[k];
            && (id in run[j].timers.ids && id !in run[j].round ==>
                  Serves(run[j], id, x.at + (Fired(run, acts, id, j) + 1) * x.delay, x.delay, x.repeating))
            && (!x.repeating ==> Fired(run, acts, id, j) <= 1)
  {
    var id := run[k].timers.nextId;
    LivesUntilItEnds(run, acts, k, j);
    if id in run[j].timers.ids && id !in run[j].round {
      ExpiryKeepsPhase(run, acts, id, j);
      NodeOfLive(run, acts, id, j);
    }
    if !acts[k].repeating { OneShotFiresOnce(run, acts, id, j); }
  }

  lemma NodeOfLive(run: seq<System>, acts: seq<Action>, id: int, j: nat)
    requires IsRun(run, acts) && j <= |acts| && id in run[j].timers.ids
    ensures run[j].timers.ids[id] < |run[j].timers.pool| && id in run[j].born
    ensures var node, b := run[j].timers.pool[run[j].timers.ids[id]], run[j].born[id];
            node == Node(node.expiry, b.interval, id, b.repeating, true)
  {
    RunInv(run, acts, j);
    assert LifeOk(run[j], id) && IdOk(run[j].timers, Ids(run[j].round), id);
  }

  /** A firing round fires a timer that was asked for exactly when no step has ended it and its next expiry, so
      many delays after the request, is due. */
  lemma DueRequestFires(run: seq<System>, acts: seq<Action>, k: nat, j: nat)
    requires IsRun(run, acts) && k < j < |acts| && Asks(acts[k]) && acts[j].BeginRound?
    ensures var id, x := run[k].timers.nextId, acts[k];
            id in run[j + 1].round <==>
              && (forall i :: k < i < j ==> !Ends(run[i], acts[i], id))
              && x.at + (Fired(run, acts, id, j) + 1) * x.delay <= acts[j].at
  {
    hide Inv, Valid, Step, Ends, IsRound;
    var id := run[k].timers.nextId;
    LivesUntilItEnds(run, acts, k, j);
    RequestIsHonoured(run, acts, k, j);
    FiresIfDue(run, acts, id, j);
  }

  lemma FiresIfDue(run: seq<System>, acts: seq<Action>, id: int, j: nat)
    requires IsRun(run, acts) && j < |acts| && acts[j].BeginRound?
    ensures run[j].round == []
    ensures id in run[j + 1].round <==> Due(run[j].timers, {}, acts[j].at, id)
    ensures id in run[j].timers.ids ==> run[j].timers.ids[id] < |run[j].timers.pool|
  {
    hide Inv, Valid, Step;
    RoundIsExact(run, acts, j);
    assert Follows(run, acts, j);
    if id in run[j].timers.ids { NodeOfLive(run, acts, id, j); }
  }
}
