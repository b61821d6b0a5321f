/**
WorkDispatcher with its fields updated in place, run by one thread at a time: which queue an entry goes
to, and what each operation does to queues, in-flight slots, pended list and counter. Module Token has
the same operations cut into atomic steps of many threads.
*/
module Dispatcher {
  import opened Basics

  // ---- Choosing a queue --------------------------------------------------------------------------

  /** i places on from a, round and round n places */
  function Around(a: nat, i: nat, n: nat): (r: nat)
    requires a < n
    ensures r < n
  {
    (a + i) % n
  }

  lemma AroundIs(a: nat, i: nat, n: nat)
    requires a < n && i <= n
    ensures Around(a, i, n) == if a + i < n then a + i else a + i - n
  {
    if a + i < n { Remainder(a + i, n, 0, a + i); } else { Remainder(a + i, n, 1, a + i - n); }
  }

  /** pickLeastLoaded's loop from round i on. */
  function PickFrom(counts: seq<nat>, best: nat, i: nat): (r: nat)
    requires best < |counts|
    ensures r < |counts| && (r == best || counts[r] < counts[best])
    decreases |counts| - i
  {
    if i >= |counts| then best
    else
      var w := Around(best, i, |counts|);
      if counts[w] < counts[best] then (if counts[w] == 0 then w else PickFrom(counts, w, i + 1))
      else PickFrom(counts, best, i + 1)
  }

  function Pick(counts: seq<nat>, highWatermark: nat, actor: nat): (r: nat)
    requires counts != []
    ensures r < |counts|
  {
    var home := actor % |counts|;
    if |counts| <= 1 || counts[home] < highWatermark then home else PickFrom(counts, home, 0)
  }

  /** The chosen queue is the home queue, or the home queue has reached the watermark and the chosen one is
      strictly shorter. */
  lemma PickPrefersHome(counts: seq<nat>, highWatermark: nat, actor: nat)
    requires counts != []
    ensures var home, r := actor % |counts|, Pick(counts, highWatermark, actor);
            r == home || (counts[home] >= highWatermark && counts[r] < counts[home])
  {
  }

  /** An entry leaves its home queue exactly when that has reached the watermark and some queue is shorter. */
  lemma PickLeavesHome(counts: seq<nat>, highWatermark: nat, actor: nat)
    requires counts != []
    ensures var home := actor % |counts|;
            Pick(counts, highWatermark, actor) != home
            <==> counts[home] >= highWatermark && exists q :: 0 <= q < |counts| && counts[q] < counts[home]
  {
    ScanLeavesHome(counts, actor % |counts|, 0);
  }

  /** As long as no shorter queue has been met, the scan's origin is the home queue. */
  lemma {:induction false} ScanLeavesHome(counts: seq<nat>, home: nat, i: nat)
    requires home < |counts| && i <= |counts|
    requires forall j :: 0 <= j < i ==> counts[Around(home, j, |counts|)] >= counts[home]
    ensures PickFrom(counts, home, i) != home <==> exists q :: 0 <= q < |counts| && counts[q] < counts[home]
    decreases |counts| - i
  {
    hide Around;
    if i == |counts| {
      forall q | 0 <= q < |counts| && q != home ensures counts[q] >= counts[home] {
        var j := ReachedBySteal(home, q, |counts|);
      }
    } else if counts[Around(home, i, |counts|)] >= counts[home] {
      ScanLeavesHome(counts, home, i + 1);
    }
  }

  /** The first of the shortest queues among those looked at. */
  predicate IsFirstLeast(counts: seq<nat>, looked: seq<nat>, r: nat) {
    && (forall j :: 0 <= j < |looked| ==> looked[j] < |counts|)
    && exists j :: 0 <= j < |looked| && looked[j] == r
                   && (forall k :: 0 <= k < |looked| ==> counts[r] <= counts[looked[k]])
                   && (forall k :: 0 <= k < j ==> counts[r] < counts[looked[k]])
  }

  /** The i-th queue looked at is i places on from the first shortest one so far. */
  ghost predicate MovesOrigin(counts: seq<nat>, looked: seq<nat>, i: nat)
    requires i < |looked|
  {
    exists b: nat :: IsFirstLeast(counts, looked[..i], b) && b < |counts| && looked[i] == Around(b, i, |counts|)
  }

  /** The scan looks at the home queue and then, each time, so many places on from the shortest queue so far; it
      looks as often as there are queues, unless it meets an empty one, and picks the first shortest it has seen. */
  lemma ScanIsRunningMinimum(counts: seq<nat>, home: nat) returns (looked: seq<nat>)
    requires home < |counts|
    ensures looked != [] && looked[0] == home && IsFirstLeast(counts, looked, PickFrom(counts, home, 0))
    ensures forall i :: 0 < i < |looked| ==> MovesOrigin(counts, looked, i)
    ensures |looked| == |counts| || (|looked| < |counts| && counts[PickFrom(counts, home, 0)] == 0)
  {
    AroundIs(home, 0, |counts|);
    assert [home][0] == home;
    looked := ScanFrom(counts, [home], home, 1);
  }

  lemma {:induction false} ScanFrom(counts: seq<nat>, before: seq<nat>, best: nat, i: nat) returns (looked: seq<nat>)
    requires best < |counts| && 0 < i == |before| <= |counts| && IsFirstLeast(counts, before, best)
    requires forall j :: 0 < j < |before| ==> MovesOrigin(counts, before, j)
    ensures before <= looked && IsFirstLeast(counts, looked, PickFrom(counts, best, i))
    ensures forall j :: 0 < j < |looked| ==> MovesOrigin(counts, looked, j)
    ensures |looked| == |counts| || (|looked| < |counts| && counts[PickFrom(counts, best, i)] == 0)
    decreases |counts| - i
  {
    hide Around;
    looked := before;
    if i < |counts| {
      var w := Around(best, i, |counts|);
      looked := before + [w];
      LooksOnce(counts, before, best, w);
      if counts[w] >= counts[best] {
        looked := ScanFrom(counts, looked, best, i + 1);
      } else if counts[w] > 0 {
        looked := ScanFrom(counts, looked, w, i + 1);
      }
    }
  }

  lemma LooksOnce(counts: seq<nat>, before: seq<nat>, best: nat, w: nat)
    requires best < |counts| && w < |counts| && IsFirstLeast(counts, before, best)
    requires w == Around(best, |before|, |counts|)
    requires forall j :: 0 < j < |before| ==> MovesOrigin(counts, before, j)
    ensures IsFirstLeast(counts, before + [w], if counts[w] < counts[best] then w else best)
    ensures forall j :: 0 < j < |before + [w]| ==> MovesOrigin(counts, before + [w], j)
  {
    hide Around;
    var looked := before + [w];
    var j :| 0 <= j < |before| && before[j] == best && (forall k :: 0 <= k < j ==> counts[best] < counts[before[k]]);
    assert looked[if counts[w] < counts[best] then |before| else j] == if counts[w] < counts[best] then w else best;
    forall i | 0 < i < |looked| ensures MovesOrigin(counts, looked, i) {
      if i < |before| {
        assert MovesOrigin(counts, before, i) && looked[..i] == before[..i];
      } else {
        assert looked[..i] == before;
      }
    }
  }

  predicate IsLeast(counts: seq<nat>, r: nat) {
    r < |counts| && forall j :: 0 <= j < |counts| ==> counts[r] <= counts[j]
  }

  /** Because the scan moves its own origin, it finds a least loaded queue for all loads only if there are
      at most two queues. */
  lemma LeastLoadedIff(n: nat)
    requires n > 0
    ensures (forall counts: seq<nat>, home: nat :: |counts| == n && home < n ==>
               IsLeast(counts, PickFrom(counts, home, 0)))
            <==> n <= 2
  {
    hide IsLeast, PickFrom;
    if n <= 2 {
      forall counts: seq<nat>, home: nat | |counts| == n && home < n
        ensures IsLeast(counts, PickFrom(counts, home, 0))
      {
        TwoQueues(counts, home);
      }
    } else {
      var counts := SkippedCounts(n);
      MissesTheThird(counts);
    }
  }

  function SkippedCounts(n: nat): (r: seq<nat>)
    ensures |r| == n && forall j :: 0 <= j < n ==> r[j] == Skipped(j)
  {
    seq(n, j requires 0 <= j < n => Skipped(j))
  }

  lemma MissesTheThird(counts: seq<nat>)
    requires |counts| >= 3 && forall j :: 0 <= j < |counts| ==> counts[j] == Skipped(j)
    ensures !IsLeast(counts, PickFrom(counts, 0, 0))
  {
    AroundIs(0, 0, |counts|);
    AroundIs(0, 1, |counts|);
    ThirdIsSkipped(counts, 2);
    assert counts[1] > counts[2];
  }

  function Skipped(j: nat): nat { if j == 0 then 2 else if j == 2 then 0 else 1 }

  /** Having moved to queue 1, the scan never looks at queue 2. */
  lemma {:induction false} ThirdIsSkipped(counts: seq<nat>, i: nat)
    requires |counts| >= 3 && 2 <= i <= |counts| && forall j :: 0 <= j < |counts| ==> counts[j] == Skipped(j)
    ensures PickFrom(counts, 1, i) == 1
    decreases |counts| - i
  {
    if i < |counts| {
      AroundIs(1, i, |counts|);
      ThirdIsSkipped(counts, i + 1);
    }
  }

  lemma TwoQueues(counts: seq<nat>, home: nat)
    requires 1 <= |counts| <= 2 && home < |counts|
    ensures IsLeast(counts, PickFrom(counts, home, 0))
  {
    hide Around;
    AroundIs(home, 0, |counts|);
    if |counts| == 2 {
      var other := 1 - home;
      AroundIs(home, 1, 2);
      SecondRound(counts, home, other);
    }
  }

  lemma SecondRound(counts: seq<nat>, home: nat, other: nat)
    requires |counts| == 2 && home < 2 && other == 1 - home && Around(home, 1, 2) == other
    ensures PickFrom(counts, home, 1) == if counts[other] < counts[home] then other else home
  {
    assert PickFrom(counts, home, 2) == home && PickFrom(counts, other, 2) == other;
  }

  // ---- The dispatcher ----------------------------------------------------------------------------

  function Lengths(queues: seq<seq<nat>>): (r: seq<nat>)
    ensures |r| == |queues| && forall q :: 0 <= q < |queues| ==> r[q] == |queues[q]|
  {
    seq(|queues|, q requires 0 <= q < |queues| => |queues[q]|)
  }

  /** All entries of all queues. */
  ghost function Entries(queues: seq<seq<nat>>): multiset<nat> {
    if queues == [] then multiset{} else multiset(queues[0]) + Entries(queues[1..])
  }

  lemma {:induction false} OneEntryMore(queues: seq<seq<nat>>, q: nat, a: nat)
    requires q < |queues|
    ensures Entries(queues[q := queues[q] + [a]]) == Entries(queues) + multiset{a}
  {
    if q == 0 {
      assert queues[q := queues[q] + [a]][1..] == queues[1..];
    } else {
      assert queues[q := queues[q] + [a]][1..] == queues[1..][q - 1 := queues[q] + [a]];
      OneEntryMore(queues[1..], q - 1, a);
    }
  }

  lemma {:induction false} OneEntryLess(queues: seq<seq<nat>>, q: nat)
    requires q < |queues| && queues[q] != []
    ensures Entries(queues) == Entries(queues[q := queues[q][1..]]) + multiset{queues[q][0]}
  {
    assert queues[q] == [queues[q][0]] + queues[q][1..];
    if q == 0 {
      assert queues[q := queues[q][1..]][1..] == queues[1..];
    } else {
      assert queues[q := queues[q][1..]][1..] == queues[1..][q - 1 := queues[q][1..]];
      OneEntryLess(queues[1..], q - 1);
    }
  }

  /** The actor's entry is at the end of queue q, or, when the push has failed, of the pended list; nothing
      else has changed. */
  predicate Placed(queues: seq<seq<nat>>, queues': seq<seq<nat>>, pended: seq<nat>, pended': seq<nat>, q: nat,
                   actor: nat, ok: bool)
    requires q < |queues|
  {
    && queues' == (if ok then queues[q := queues[q] + [actor]] else queues)
    && pended' == (if ok then pended else pended + [actor])
  }

  class WorkDispatcher {
    const workerCount: nat
    const capacity: nat
    const highWatermark: nat
    const slots: array<bool>
    var queues: seq<seq<nat>>
    var pended: seq<nat>
    var pendingWork: int
    var draining: bool

    predicate Valid()
      reads this
    {
      && workerCount > 0 && |queues| == workerCount && slots.Length == MAX_ACTORS
      && forall q :: 0 <= q < |queues| ==> |queues[q]| <= capacity
    }

    constructor (workerCount: nat, capacity: nat, highWatermark: nat)
      requires workerCount > 0 && capacity > 0
      ensures Valid() && fresh(slots) && this.workerCount == workerCount
      ensures forall q :: 0 <= q < workerCount ==> queues[q] == []
      ensures this.capacity == capacity && pended == [] && pendingWork == 0
      ensures this.highWatermark == if highWatermark > 0 then highWatermark else capacity * 7 / 10
      ensures forall i :: 0 <= i < MAX_ACTORS ==> !slots[i]
    {
      this.workerCount, this.capacity := workerCount, capacity;
      this.highWatermark := if highWatermark > 0 then highWatermark else capacity * 7 / 10;
      slots := new bool[MAX_ACTORS](_ => false);
      queues := seq(workerCount, _ => []);
      pended, pendingWork, draining := [], 0, false;
    }

    method PickLeastLoaded(home: nat) returns (best: nat)
      requires Valid() && home < workerCount
      ensures best == PickFrom(Lengths(queues), home, 0)
    {
      best := home;
      var bestCount := |queues[best]|;
      var i := 0;
      while i < workerCount
        invariant 0 <= i <= workerCount && best < workerCount && bestCount == |queues[best]|
        invariant PickFrom(Lengths(queues), best, i) == PickFrom(Lengths(queues), home, 0)
      {
        var w := Around(best, i, workerCount);
        var c := |queues[w]|;
        i := i + 1;
        if c < bestCount {
          best := w;
          bestCount := c;
          if bestCount == 0 {
            return;
          }
        }
      }
    }

    method PickWorker(actor: nat) returns (worker: nat)
      requires Valid()
      ensures worker == Pick(Lengths(queues), highWatermark, actor)
    {
      var home := actor % workerCount;
      if workerCount <= 1 || |queues[home]| < highWatermark {
        return home;
      }
      worker := PickLeastLoaded(home);
    }

    /** The entry goes to the end of the chosen queue, or, when that is full, of the pended list. */
    method EnqueueEntry(actor: nat) returns (ok: bool)
      requires Valid()
      modifies this`queues, this`pended
      ensures Valid()
      ensures var q := Pick(Lengths(old(queues)), highWatermark, actor);
              && ok == (|old(queues)[q]| < capacity)
              && Placed(old(queues), queues, old(pended), pended, q, actor, ok)
      ensures Entries(queues) + multiset(pended) == Entries(old(queues)) + multiset(old(pended)) + multiset{actor}
    {
      var q := PickWorker(actor);
      ok := |queues[q]| < capacity;
      if ok {
        OneEntryMore(queues, q, actor);
        queues := queues[q := queues[q] + [actor]];
      } else {
        pended := pended + [actor];
      }
    }

    /** An actor whose slot is taken has a token already; another gets one, and the counter follows only a
        successful push. */
    method Dispatch(actor: nat) returns (ok: bool)
      requires Valid()
      modifies this`queues, this`pended, this`pendingWork, slots
      ensures Valid() && slots[actor % MAX_ACTORS]
      ensures forall i :: 0 <= i < MAX_ACTORS && i != actor % MAX_ACTORS ==> slots[i] == old(slots[i])
      ensures old(slots[actor % MAX_ACTORS]) ==>
                ok && queues == old(queues) && pended == old(pended) && pendingWork == old(pendingWork)
      ensures !old(slots[actor % MAX_ACTORS]) ==>
                var q := Pick(Lengths(old(queues)), highWatermark, actor);
                && ok == (|old(queues)[q]| < capacity)
                && Placed(old(queues), queues, old(pended), pended, q, actor, ok)
      ensures !old(slots[actor % MAX_ACTORS]) ==>
                && Entries(queues) + multiset(pended) == Entries(old(queues)) + multiset(old(pended)) + multiset{actor}
                && pendingWork == old(pendingWork) + (if ok then 1 else 0)
                && (ok <==> pended == old(pended))
    {
      var held := slots[actor % MAX_ACTORS];
      slots[actor % MAX_ACTORS] := true;
      if held {
        return true;
      }
      ok := EnqueueEntry(actor);
      if ok {
        pendingWork := pendingWork + 1;
      }
    }

    /** The worker's token either goes back into a queue (or on the pended list, uncounted), or is retired;
        with one thread at a time no producer can take the slot in between. */
    method SettleToken(actor: nat, stopped: bool, mailboxCount: nat) returns (resumed: bool)
      requires Valid()
      modifies this`queues, this`pended, this`pendingWork, slots
      ensures Valid()
      ensures var goesOn := !stopped && mailboxCount != 0;
              && slots[actor % MAX_ACTORS] == goesOn
              && pendingWork == old(pendingWork) - (if goesOn then 0 else 1)
              && Entries(queues) + multiset(pended)
                 == Entries(old(queues)) + multiset(old(pended)) + (if goesOn then multiset{actor} else multiset{})
              && (resumed <==> goesOn && pended == old(pended))
              && (!goesOn ==> queues == old(queues) && pended == old(pended))
      ensures !stopped && mailboxCount != 0 ==>
                var q := Pick(Lengths(old(queues)), highWatermark, actor);
                && resumed == (|old(queues)[q]| < capacity)
                && Placed(old(queues), queues, old(pended), pended, q, actor, resumed)
      ensures forall i :: 0 <= i < MAX_ACTORS && i != actor % MAX_ACTORS ==> slots[i] == old(slots[i])
    {
      slots[actor % MAX_ACTORS] := false;
      if !stopped && mailboxCount != 0 {
        var held := slots[actor % MAX_ACTORS];
        slots[actor % MAX_ACTORS] := true;
        if !held {
          resumed := EnqueueEntry(actor);
          return;
        }
      }
      pendingWork := pendingWork - 1;
      resumed := false;
    }

    /** The head of the first other queue, in cyclic order, that has one; nothing only when they are all empty. */
    method TrySteal(worker: nat) returns (found: bool, actor: nat)
      requires Valid() && worker < workerCount
      modifies this`queues
      ensures Valid()
      ensures found ==> exists j :: 1 <= j < workerCount && Stolen(old(queues), worker, j, queues, actor)
      ensures found ==> Entries(old(queues)) == Entries(queues) + multiset{actor}
      ensures queues[worker] == old(queues)[worker]
      ensures !found ==> queues == old(queues) && forall q :: 0 <= q < workerCount && q != worker ==> queues[q] == []
    {
      var i := 1;
      while i < workerCount
        invariant 1 <= i && Valid() && queues == old(queues)
        invariant forall j :: 1 <= j < i && j < workerCount ==> queues[Around(worker, j, workerCount)] == []
      {
        var victim := Around(worker, i, workerCount);
        if |queues[victim]| > 0 {
          OneEntryLess(queues, victim);
          AroundIs(worker, i, workerCount);
          actor := queues[victim][0];
          queues := queues[victim := queues[victim][1..]];
          assert Stolen(old(queues), worker, i, queues, actor);
          return true, actor;
        }
        i := i + 1;
      }
      forall q | 0 <= q < workerCount && q != worker ensures queues[q] == [] {
        var j := ReachedBySteal(worker, q, workerCount);
      }
      found, actor := false, 0;
    }

    /** Every pended entry is tried once: it moves into its queue and is counted, or stays in its place. */
    method DrainPendedActor()
      requires Valid()
      modifies this`queues, this`pended, this`pendingWork
      ensures Valid() && (queues, pended) == Flush(old(queues), old(pended), capacity, highWatermark)
      ensures pendingWork - old(pendingWork) == |old(pended)| - |pended|
    {
      hide Pick, Flush;
      FlushStart(queues, pended, capacity, highWatermark);
      var at := 0;
      while at < |pended|
        invariant Valid() && at <= |pended| <= |old(pended)|
        invariant Behind(pended[..at], Flush(queues, pended[at..], capacity, highWatermark))
                  == Flush(old(queues), old(pended), capacity, highWatermark)
        invariant pendingWork - old(pendingWork) == |old(pended)| - |pended|
        decreases |pended| - at
      {
        FlushOne(queues, pended, at, capacity, highWatermark);
        var actor := pended[at];
        var q := PickWorker(actor);
        if |queues[q]| < capacity {
          queues := queues[q := queues[q] + [actor]];
          pendingWork := pendingWork + 1;
          pended := pended[..at] + pended[at + 1..];
        } else {
          at := at + 1;
        }
      }
      FlushEnd(queues, pended, capacity, highWatermark);
    }
  }

  /** Having found the first j - 1 queues after the worker's empty, the steal takes the head of the next. */
  ghost predicate Stolen(before: seq<seq<nat>>, worker: nat, j: nat, after: seq<seq<nat>>, actor: nat)
    requires worker < |before|
  {
    var victim := Around(worker, j, |before|);
    && (forall i :: 1 <= i < j ==> before[Around(worker, i, |before|)] == [])
    && before[victim] != [] && actor == before[victim][0] && after == before[victim := before[victim][1..]]
  }

  // ---- Draining the pended list ------------------------------------------------------------------

  /** Each pended entry in turn goes to the end of the queue chosen for it, or stays if that is full. */
  function Flush(queues: seq<seq<nat>>, pended: seq<nat>, capacity: nat, highWatermark: nat)
    : (r: (seq<seq<nat>>, seq<nat>))
    requires queues != []
    ensures |r.0| == |queues| && |r.1| <= |pended|
    decreases pended
  {
    if pended == [] then (queues, [])
    else
      var q := Pick(Lengths(queues), highWatermark, pended[0]);
      if |queues[q]| < capacity then Flush(queues[q := queues[q] + [pended[0]]], pended[1..], capacity, highWatermark)
      else
        var rest := Flush(queues, pended[1..], capacity, highWatermark);
        (rest.0, [pended[0]] + rest.1)
  }

  function Behind(stayed: seq<nat>, r: (seq<seq<nat>>, seq<nat>)): (seq<seq<nat>>, seq<nat>) { (r.0, stayed + r.1) }

  lemma FlushStart(queues: seq<seq<nat>>, pended: seq<nat>, capacity: nat, highWatermark: nat)
    requires queues != []
    ensures Behind(pended[..0], Flush(queues, pended[0..], capacity, highWatermark))
            == Flush(queues, pended, capacity, highWatermark)
  {
    assert pended[0..] == pended && pended[..0] + Flush(queues, pended, capacity, highWatermark).1
                                    == Flush(queues, pended, capacity, highWatermark).1;
  }

  lemma FlushEnd(queues: seq<seq<nat>>, pended: seq<nat>, capacity: nat, highWatermark: nat)
    requires queues != []
    ensures Behind(pended[..|pended|], Flush(queues, pended[|pended|..], capacity, highWatermark)) == (queues, pended)
  {
    assert pended[..|pended|] + [] == pended;
  }

  lemma FlushOne(queues: seq<seq<nat>>, pended: seq<nat>, i: nat, capacity: nat, highWatermark: nat)
    requires queues != [] && i < |pended|
    ensures var q, rest := Pick(Lengths(queues), highWatermark, pended[i]), pended[..i] + pended[i + 1..];
            Behind(pended[..i], Flush(queues, pended[i..], capacity, highWatermark))
            == if |queues[q]| < capacity
               then Behind(rest[..i], Flush(queues[q := queues[q] + [pended[i]]], rest[i..], capacity, highWatermark))
               else Behind(pended[..i + 1], Flush(queues, pended[i + 1..], capacity, highWatermark))
  {
    var q, rest := Pick(Lengths(queues), highWatermark, pended[i]), pended[..i] + pended[i + 1..];
    hide Pick;
    assert pended[i..][0] == pended[i] && pended[i..][1..] == pended[i + 1..];
    assert rest[..i] == pended[..i] && rest[i..] == pended[i + 1..];
    var more := Flush(queues, pended[i + 1..], capacity, highWatermark).1;
    assert pended[..i] + ([pended[i]] + more) == pended[..i + 1] + more;
  }

  /** No entry is lost or doubled. */
  lemma {:induction false} FlushConserves(queues: seq<seq<nat>>, pended: seq<nat>, capacity: nat, highWatermark: nat)
    requires queues != []
    ensures var r := Flush(queues, pended, capacity, highWatermark);
            Entries(r.0) + multiset(r.1) == Entries(queues) + multiset(pended)
    decreases pended
  {
    hide Pick, Entries;
    if pended != [] {
      var q := Pick(Lengths(queues), highWatermark, pended[0]);
      assert pended == [pended[0]] + pended[1..];
      assert multiset(pended) == multiset{pended[0]} + multiset(pended[1..]);
      OneEntryMore(queues, q, pended[0]);
      if |queues[q]| < capacity {
        FlushConserves(queues[q := queues[q] + [pended[0]]], pended[1..], capacity, highWatermark);
      } else {
        FlushConserves(queues, pended[1..], capacity, highWatermark);
        var rest := Flush(queues, pended[1..], capacity, highWatermark);
        assert Flush(queues, pended, capacity, highWatermark) == (rest.0, [pended[0]] + rest.1);
        assert multiset([pended[0]] + rest.1) == multiset{pended[0]} + multiset(rest.1);
        OneMoreEach(Entries(rest.0), multiset(rest.1), Entries(queues), multiset(pended[1..]), multiset{pended[0]});
      }
    }
  }

  lemma OneMoreEach(a: multiset<nat>, b: multiset<nat>, c: multiset<nat>, d: multiset<nat>, x: multiset<nat>)
    requires a + b == c + d
    ensures a + (x + b) == c + (x + d)
  {
    assert a + (x + b) == (a + b) + x && c + (x + d) == (c + d) + x;
  }

  /** Queues only grow, and only at their ends. */
  lemma {:induction false} FlushAppends(queues: seq<seq<nat>>, pended: seq<nat>, capacity: nat,
                                        highWatermark: nat, q: nat)
    requires q < |queues|
    ensures queues[q] <= Flush(queues, pended, capacity, highWatermark).0[q]
    decreases pended
  {
    hide Pick;
    if pended != [] {
      var p := Pick(Lengths(queues), highWatermark, pended[0]);
      if |queues[p]| < capacity {
        FlushAppends(queues[p := queues[p] + [pended[0]]], pended[1..], capacity, highWatermark, q);
      } else {
        FlushAppends(queues, pended[1..], capacity, highWatermark, q);
      }
    }
  }

  /** An entry stays pended only when the queue chosen for it is full, and that queue is full still in the
      end: if no queue ends up full, no entry stays. */
  lemma {:induction false} StaysOnlyWhenFull(queues: seq<seq<nat>>, pended: seq<nat>, capacity: nat, highWatermark: nat)
    requires queues != [] && Flush(queues, pended, capacity, highWatermark).1 != []
    ensures exists q :: 0 <= q < |queues| && |Flush(queues, pended, capacity, highWatermark).0[q]| >= capacity
    decreases pended
  {
    hide Pick;
    var q := Pick(Lengths(queues), highWatermark, pended[0]);
    if |queues[q]| < capacity {
      StaysOnlyWhenFull(queues[q := queues[q] + [pended[0]]], pended[1..], capacity, highWatermark);
    } else {
      FlushAppends(queues, pended, capacity, highWatermark, q);
      assert |Flush(queues, pended, capacity, highWatermark).0[q]| >= capacity;
    }
  }

  lemma ReachedBySteal(worker: nat, q: nat, n: nat) returns (j: nat)
    requires worker < n && q < n && q != worker
    ensures 1 <= j < n && Around(worker, j, n) == q
  {
    j := if q > worker then q - worker else q - worker + n;
    AroundIs(worker, j, n);
  }
}
