/**
Restart budgets under concurrency: the compare-and-swap loop of tryRestart, with one step per atomic
access, and the mutex-guarded one-for-all budget of the supervisor.
*/
module RestartBudget {
  import opened Basics

  // ---- tryRestart's loop -------------------------------------------------------------------------

  datatype Attempt = Idle | Comparing(prev: int, limit: int) | Won | Refused(limit: int)

  /** wins: history, the attempts that have succeeded. */
  datatype Race = Race(count: int, attempts: seq<Attempt>, wins: nat)

  datatype RaceAction =
    | Load(t: nat, limit: int)
    | GiveUp(t: nat)                    // prev >= maxRestarts
    | Swap(t: nat, spurious: bool)      // compare_exchange_weak, which may fail for no reason
    | Again(t: nat)                     // a later call by the same thread

  predicate InPhase(r: Race, t: nat) { t < |r.attempts| && r.attempts[t].Comparing? }

  predicate CanRace(r: Race, x: RaceAction) {
    match x
    case Load(t, _) => t < |r.attempts| && r.attempts[t].Idle?
    case GiveUp(t) => InPhase(r, t) && r.attempts[t].prev >= r.attempts[t].limit
    case Swap(t, _) => InPhase(r, t) && r.attempts[t].prev < r.attempts[t].limit
    case Again(t) => t < |r.attempts| && (r.attempts[t].Won? || r.attempts[t].Refused?)
  }

  function RaceStep(r: Race, x: RaceAction): Race
    requires CanRace(r, x)
  {
    match x
    case Load(t, limit) => r.(attempts := r.attempts[t := Comparing(r.count, limit)])
    case GiveUp(t) => r.(attempts := r.attempts[t := Refused(r.attempts[t].limit)])
    case Swap(t, spurious) =>
      if r.count == r.attempts[t].prev && !spurious
      then Race(r.count + 1, r.attempts[t := Won], r.wins + 1)
      else r.(attempts := r.attempts[t := r.attempts[t].(prev := r.count)])
    case Again(t) => r.(attempts := r.attempts[t := Idle])
  }

  ghost predicate IsRace(run: seq<Race>, acts: seq<RaceAction>) {
    && |run| == |acts| + 1 && run[0].count == 0 && run[0].wins == 0
    && (forall t :: 0 <= t < |run[0].attempts| ==> run[0].attempts[t] == Idle)
    && forall k :: 0 <= k < |acts| ==> CanRace(run[k], acts[k]) && run[k + 1] == RaceStep(run[k], acts[k])
  }

  /** Every limit that was asked for is at most top. */
  predicate LimitsBelow(acts: seq<RaceAction>, top: int) {
    forall k :: 0 <= k < |acts| && acts[k].Load? ==> acts[k].limit <= top
  }

  ghost predicate RaceInv(r: Race, top: int) {
    && 0 <= r.count == r.wins <= Max0(top)
    && (forall t :: 0 <= t < |r.attempts| && r.attempts[t].Comparing? ==>
          r.attempts[t].prev <= r.count && r.attempts[t].limit <= top)
    && (forall t :: 0 <= t < |r.attempts| && r.attempts[t].Refused? ==> r.attempts[t].limit <= r.count)
  }

  /** Under any interleaving of loads and swaps the restart count is the number of successful attempts, it
      never exceeds the largest limit asked for, and an attempt is refused only when its limit is used up. */
  lemma {:induction false} CountNeverExceedsLimit(run: seq<Race>, acts: seq<RaceAction>, top: int, k: nat)
    requires IsRace(run, acts) && LimitsBelow(acts, top) && k <= |acts|
    ensures RaceInv(run[k], top)
  {
    if k > 0 {
      CountNeverExceedsLimit(run, acts, top, k - 1);
      assert CanRace(run[k - 1], acts[k - 1]) && run[k - 1 + 1] == RaceStep(run[k - 1], acts[k - 1]);
    }
  }

  predicate ReadsCount(x: RaceAction, t: nat) { (x.Load? || x.Swap?) && x.t == t }

  /** The move in the first k by which thread t last read the count. */
  function LastRead(acts: seq<RaceAction>, t: nat, k: nat): nat
    requires k <= |acts|
  {
    if k == 0 then 0 else if ReadsCount(acts[k - 1], t) then k - 1 else LastRead(acts, t, k - 1)
  }

  lemma {:induction false} ComparesWithLastRead(run: seq<Race>, acts: seq<RaceAction>, t: nat, k: nat)
    requires IsRace(run, acts) && k <= |acts| && InPhase(run[k], t)
    ensures LastRead(acts, t, k) < k && run[k].attempts[t].prev == run[LastRead(acts, t, k)].count
  {
    if k > 0 {
      assert CanRace(run[k - 1], acts[k - 1]) && run[k - 1 + 1] == RaceStep(run[k - 1], acts[k - 1]);
      if !ReadsCount(acts[k - 1], t) { ComparesWithLastRead(run, acts, t, k - 1); }
    }
  }

  /** An attempt below its limit succeeds, unless its compare-exchange fails for no reason or another attempt has
      succeeded since it last read the count; what succeeds is counted once. */
  lemma SwapLosesOnlyToAWinner(run: seq<Race>, acts: seq<RaceAction>, top: int, k: nat)
    requires IsRace(run, acts) && LimitsBelow(acts, top) && k < |acts| && acts[k].Swap?
    ensures var t, j := acts[k].t, LastRead(acts, acts[k].t, k);
            && j < k && t < |run[k + 1].attempts|
            && (run[k + 1].attempts[t].Won? <==> !acts[k].spurious && run[k].wins == run[j].wins)
            && run[k + 1].count == run[k + 1].wins == run[k].wins + (if run[k + 1].attempts[t].Won? then 1 else 0)
            && (!run[k + 1].attempts[t].Won? ==> InPhase(run[k + 1], t))
  {
    var t := acts[k].t;
    assert CanRace(run[k], acts[k]) && run[k + 1] == RaceStep(run[k], acts[k]);
    ComparesWithLastRead(run, acts, t, k);
    CountNeverExceedsLimit(run, acts, top, k);
    CountNeverExceedsLimit(run, acts, top, LastRead(acts, t, k));
  }

  // ---- One-for-all broadcasts --------------------------------------------------------------------

  /** charged[t]: worker t has charged a budget and not yet counted its broadcast. erased: history, what
      removePolicy took out of the budgets. */
  datatype Budgets = Budgets(counts: seq<int>, charged: seq<bool>, broadcasts: nat, erased: int)

  datatype BudgetAction =
    | Charge(t: nat, id: nat)           // under the mutex; a spent budget shuts the actor down instead
    | Announce(t: nat)                  // the callback has run: oneForAllBroadcasts_ is increased
    | RemovePolicy(id: nat)

  predicate CanSpend(b: Budgets, limit: int, x: BudgetAction) {
    match x
    case Charge(t, id) => t < |b.charged| && !b.charged[t] && id < |b.counts|
    case Announce(t) => t < |b.charged| && b.charged[t]
    case RemovePolicy(id) => id < |b.counts|
  }

  function BudgetStep(b: Budgets, limit: int, x: BudgetAction): Budgets
    requires CanSpend(b, limit, x)
  {
    match x
    case Charge(t, id) =>
      if b.counts[id] < limit
      then b.(counts := b.counts[id := b.counts[id] + 1], charged := b.charged[t := true])
      else b
    case Announce(t) => b.(charged := b.charged[t := false], broadcasts := b.broadcasts + 1)
    case RemovePolicy(id) => b.(counts := b.counts[id := 0], erased := b.erased + b.counts[id])
  }

  ghost predicate IsBudgetRun(run: seq<Budgets>, acts: seq<BudgetAction>, limit: int) {
    && |run| == |acts| + 1 && run[0].broadcasts == 0 && run[0].erased == 0
    && (forall i :: 0 <= i < |run[0].counts| ==> run[0].counts[i] == 0)
    && (forall t :: 0 <= t < |run[0].charged| ==> !run[0].charged[t])
    && forall k :: 0 <= k < |acts| ==>
         CanSpend(run[k], limit, acts[k]) && run[k + 1] == BudgetStep(run[k], limit, acts[k])
  }

  function Sum(xs: seq<int>): int { if xs == [] then 0 else xs[0] + Sum(xs[1..]) }

  function CountTrue(bs: seq<bool>): nat { if bs == [] then 0 else (if bs[0] then 1 else 0) + CountTrue(bs[1..]) }

  lemma {:induction false} SumChanges(xs: seq<int>, i: nat, x: int)
    requires i < |xs|
    ensures Sum(xs[i := x]) == Sum(xs) - xs[i] + x
  {
    if i == 0 {
      assert xs[i := x][1..] == xs[1..];
    } else {
      assert xs[i := x][1..] == xs[1..][i - 1 := x];
      SumChanges(xs[1..], i - 1, x);
    }
  }

  lemma {:induction false} CountChanges(bs: seq<bool>, i: nat, b: bool)
    requires i < |bs|
    ensures CountTrue(bs[i := b]) == CountTrue(bs) - (if bs[i] then 1 else 0) + if b then 1 else 0
  {
    if i == 0 {
      assert bs[i := b][1..] == bs[1..];
    } else {
      assert bs[i := b][1..] == bs[1..][i - 1 := b];
      CountChanges(bs[1..], i - 1, b);
    }
  }

  lemma {:induction false} SumBound(xs: seq<int>, top: nat)
    requires forall i :: 0 <= i < |xs| ==> 0 <= xs[i] <= top
    ensures 0 <= Sum(xs) <= |xs| * top
  {
    if xs != [] {
      SumBound(xs[1..], top);
      assert |xs| * top == top + (|xs| - 1) * top;
    }
  }

  lemma {:induction false} Nothing(xs: seq<int>, bs: seq<bool>)
    requires (forall i :: 0 <= i < |xs| ==> xs[i] == 0) && (forall t :: 0 <= t < |bs| ==> !bs[t])
    ensures Sum(xs) == 0 && CountTrue(bs) == 0
    decreases |xs| + |bs|
  {
    if xs != [] { Nothing(xs[1..], bs); }
    if bs != [] { Nothing(xs, bs[1..]); }
  }

  ghost predicate BudgetInv(b: Budgets, limit: int) {
    && (forall i :: 0 <= i < |b.counts| ==> 0 <= b.counts[i] <= Max0(limit))
    && Sum(b.counts) + b.erased == b.broadcasts + CountTrue(b.charged) && b.erased >= 0
  }

  lemma BudgetStepKeeps(b: Budgets, limit: int, x: BudgetAction)
    requires BudgetInv(b, limit) && CanSpend(b, limit, x)
    ensures BudgetInv(BudgetStep(b, limit, x), limit)
  {
    match x
    case Charge(t, id) =>
      if b.counts[id] < limit {
        SumChanges(b.counts, id, b.counts[id] + 1);
        CountChanges(b.charged, t, true);
      }
    case Announce(t) => CountChanges(b.charged, t, false);
    case RemovePolicy(id) => SumChanges(b.counts, id, 0);
  }

  lemma {:induction false} BudgetRunInv(run: seq<Budgets>, acts: seq<BudgetAction>, limit: int, k: nat)
    requires IsBudgetRun(run, acts, limit) && k <= |acts|
    ensures BudgetInv(run[k], limit) && |run[k].counts| == |run[0].counts|
    ensures (forall j :: 0 <= j < k ==> !acts[j].RemovePolicy?) ==> run[k].erased == 0
  {
    hide BudgetInv;
    if k == 0 {
      BudgetStart(run[0], limit);
    } else {
      BudgetRunInv(run, acts, limit, k - 1);
      assert CanSpend(run[k - 1], limit, acts[k - 1]) && run[k - 1 + 1] == BudgetStep(run[k - 1], limit, acts[k - 1]);
      BudgetStepKeeps(run[k - 1], limit, acts[k - 1]);
    }
  }

  lemma BudgetStart(b: Budgets, limit: int)
    requires forall i :: 0 <= i < |b.counts| ==> b.counts[i] == 0
    requires forall t :: 0 <= t < |b.charged| ==> !b.charged[t]
    requires b.broadcasts == 0 && b.erased == 0
    ensures BudgetInv(b, limit)
  {
    Nothing(b.counts, b.charged);
  }

  /** No actor is ever charged more than the limit; the broadcasts of a run without removePolicy are at most
      the number of actors times the limit, and with it at most that plus what it erased. */
  lemma BroadcastsAreBounded(run: seq<Budgets>, acts: seq<BudgetAction>, limit: int, k: nat)
    requires IsBudgetRun(run, acts, limit) && k <= |acts|
    ensures forall id :: 0 <= id < |run[k].counts| ==> 0 <= run[k].counts[id] <= Max0(limit)
    ensures run[k].broadcasts <= |run[0].counts| * Max0(limit) + run[k].erased
    ensures (forall j :: 0 <= j < k ==> !acts[j].RemovePolicy?) ==> run[k].broadcasts <= |run[0].counts| * Max0(limit)
  {
    BudgetRunInv(run, acts, limit, k);
    SumBound(run[k].counts, Max0(limit));
  }

  /** How often a charge to actor id was asked for in the first k moves, since its policy was last removed. */
  function Asked(acts: seq<BudgetAction>, id: nat, k: nat): nat
    requires k <= |acts|
  {
    if k == 0 then 0
    else match acts[k - 1]
         case Charge(_, i) => Asked(acts, id, k - 1) + if i == id then 1 else 0
         case RemovePolicy(i) => if i == id then 0 else Asked(acts, id, k - 1)
         case Announce(_) => Asked(acts, id, k - 1)
  }

  /** Every charge that is asked for is made until the limit is reached: an actor's count is the number of its
      failures since its policy was last removed, cut off at the limit. */
  lemma {:induction false} ChargedUpToLimit(run: seq<Budgets>, acts: seq<BudgetAction>, limit: int, id: nat, k: nat)
    requires IsBudgetRun(run, acts, limit) && k <= |acts| && id < |run[0].counts|
    ensures id < |run[k].counts| && run[k].counts[id] == Max0(if Asked(acts, id, k) < limit then Asked(acts, id, k)
                                                             else limit)
  {
    if k > 0 {
      ChargedUpToLimit(run, acts, limit, id, k - 1);
      assert CanSpend(run[k - 1], limit, acts[k - 1]) && run[k - 1 + 1] == BudgetStep(run[k - 1], limit, acts[k - 1]);
    }
  }

  /** A charge is refused exactly when the limit is reached, and then nothing changes. */
  lemma RefusedOnlyAtLimit(run: seq<Budgets>, acts: seq<BudgetAction>, limit: int, k: nat)
    requires IsBudgetRun(run, acts, limit) && k < |acts| && acts[k].Charge?
    ensures acts[k].t < |run[k + 1].charged| && acts[k].id < |run[0].counts|
    ensures !run[k + 1].charged[acts[k].t] <==> Asked(acts, acts[k].id, k) >= limit
    ensures Asked(acts, acts[k].id, k) >= limit ==> run[k + 1] == run[k]
  {
    BudgetRunInv(run, acts, limit, k);
    assert CanSpend(run[k], limit, acts[k]) && run[k + 1] == BudgetStep(run[k], limit, acts[k]);
    ChargedUpToLimit(run, acts, limit, acts[k].id, k);
  }
}
