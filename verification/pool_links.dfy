/**
The memory words beneath a pool: a free block holds the link to the next one, its list only the address of
the first, and a user may write anything into the blocks that it holds, at any moment.
*/
module PoolLinks {
  import opened Basics
  import opened FreeLists
  import opened Centrals
  import opened Pools

  /** next: the first word of every block; the heads of the slabs' lists and of the threads' lists. */
  datatype Links = Links(next: map<int, int>, slabs: seq<int>, caches: seq<int>)

  datatype Linked = Linked(pool: System, links: Links)

  datatype Deed = Act(x: Action) | UserWrite(p: nat, v: int)

  // ---- What the lists' operations do to the words ------------------------------------------------

  /** push, for each block in turn */
  function Pushed(next: map<int, int>, head: int, blocks: seq<int>): (map<int, int>, int)
    decreases blocks
  {
    if blocks == [] then (next, head) else Pushed(next[blocks[0] := head], blocks[0], blocks[1..])
  }

  /** pop, up to n times */
  function Popped(next: map<int, int>, head: int, n: nat): (r: (int, seq<int>))
    ensures |r.1| <= n
    decreases n
  {
    if n == 0 || head == NULL || head !in next then (head, [])
    else
      var (rest, out) := Popped(next, next[head], n - 1);
      (rest, [head] + out)
  }

  function PushSlab(l: Links, i: nat, blocks: seq<int>): (r: Links)
    requires i < |l.slabs|
    ensures |r.slabs| == |l.slabs| && r.caches == l.caches
  {
    var (next, head) := Pushed(l.next, l.slabs[i], blocks);
    Links(next, l.slabs[i := head], l.caches)
  }

  function PushCache(l: Links, t: nat, blocks: seq<int>): (r: Links)
    requires t < |l.caches|
    ensures |r.caches| == |l.caches| && r.slabs == l.slabs
  {
    var (next, head) := Pushed(l.next, l.caches[t], blocks);
    Links(next, l.slabs, l.caches[t := head])
  }

  function PopSlab(l: Links, i: nat, n: nat): (r: (Links, nat))
    requires i < |l.slabs|
    ensures |r.0.slabs| == |l.slabs| && r.0.caches == l.caches && r.0.next == l.next && r.1 <= n
  {
    var (head, out) := Popped(l.next, l.slabs[i], n);
    (l.(slabs := l.slabs[i := head]), |out|)
  }

  function PopCache(l: Links, t: nat, n: nat): (r: Links)
    requires t < |l.caches|
    ensures |r.caches| == |l.caches| && r.slabs == l.slabs && r.next == l.next
  {
    l.(caches := l.caches[t := Popped(l.next, l.caches[t], n).0])
  }

  /** Slab's constructor pushes its blocks from the lowest address up. */
  function CarveLinks(g: Geometry, l: Links, base: nat): (r: Links)
    ensures |r.slabs| == |l.slabs| + 1 && r.caches == l.caches
  {
    PushSlab(l.(slabs := l.slabs + [NULL]), |l.slabs|, Reversed(Blocks(g, base)))
  }

  /** fetchBatch; the number of blocks still missing is counted from those that were popped. */
  function FetchFromLinks(l: Links, ahead: seq<nat>, n: nat): (r: (Links, nat))
    requires forall i :: i in ahead ==> i < |l.slabs|
    ensures |r.0.slabs| == |l.slabs| && r.0.caches == l.caches && r.0.next == l.next
    decreases ahead
  {
    if ahead == [] || n == 0 then (l, n)
    else
      assert ahead[0] in ahead && forall i :: i in ahead[1..] ==> i in ahead;
      var (l1, k) := PopSlab(l, ahead[0], n);
      FetchFromLinks(l1, ahead[1..], n - k)
  }

  function FetchLinks(g: Geometry, l: Links, partials: seq<nat>, n: nat, base: nat): Links
    requires forall i :: i in partials ==> i < |l.slabs|
  {
    var (l1, missing) := FetchFromLinks(l, partials, n);
    if missing == 0 then l1 else PopSlab(CarveLinks(g, l1, base), |l.slabs|, missing).0
  }

  function AllocateLinks(g: Geometry, l: Links, partials: seq<nat>, base: nat): Links
    requires forall i :: i in partials ==> i < |l.slabs|
  {
    if partials == [] then PopSlab(CarveLinks(g, l, base), |l.slabs|, 1).0
    else
      assert partials[0] in partials;
      PopSlab(l, partials[0], 1).0
  }

  function PutLinks(g: Geometry, c: Central, l: Links, ps: seq<nat>): Links
    requires g.slabSize > 0 && |l.slabs| == |c.slabs|
    decreases ps
  {
    if ps == [] then l
    else
      var l1 := if Found(g, c, ps[0]) then PushSlab(l, SlabOf(g, c, ps[0]), [ps[0]]) else l;
      PutLinks(g, PutOne(g, c, ps[0]), l1, ps[1..])
  }

  predicate Fits(s: Linked) { |s.links.slabs| == |s.pool.central.slabs| && |s.links.caches| == |s.pool.threads| }

  function LinksAfter(g: Geometry, batch: nat, s: Linked, x: Action): Links
    requires g.slabSize > 0 && Enabled(g, batch, s.pool, x) && Fits(s)
  {
    var (pool, l) := (s.pool, s.links);
    match x
    case AllocateCached(t) => PopCache(l, t, 1)
    case Fetch(t, base) => FetchLinks(g, l, pool.central.partials, batch, base)
    case Stash(t) => PushCache(l, t, pool.threads[t].buf[1..])
    case Free(t, p) =>
      var l1 := PushCache(l, t, [p]);
      if |pool.threads[t].cache| + 1 > batch then PopCache(l1, t, batch) else l1
    case Unload(t, limit) => PopCache(l, t, limit)
    case Return(t) => PutLinks(g, pool.central, l, pool.threads[t].buf)
    case CentralAllocate(base) => AllocateLinks(g, l, pool.central.partials, base)
    case CentralDeallocate(p) => PutLinks(g, pool.central, l, [p])
  }

  // ---- Runs --------------------------------------------------------------------------------------

  predicate LinkedInit(s: Linked) {
    && Init(s.pool) && s.links.slabs == [] && Fits(s)
    && forall t :: 0 <= t < |s.links.caches| ==> s.links.caches[t] == NULL
  }

  /** A user writes to blocks that it holds, and to no others; no slab is at address 0. */
  predicate Allowed(g: Geometry, batch: nat, s: Linked, d: Deed)
    requires g.slabSize > 0
  {
    match d
    case Act(x) =>
      && Enabled(g, batch, s.pool, x) && Fits(s)
      && (x.Fetch? ==> x.base != NULL) && (x.CentralAllocate? ==> x.base != NULL)
    case UserWrite(p, v) => p in s.pool.users
  }

  function Next(g: Geometry, batch: nat, s: Linked, d: Deed): Linked
    requires g.slabSize > 0 && Allowed(g, batch, s, d)
  {
    match d
    case Act(x) => Linked(Step(g, batch, s.pool, x), LinksAfter(g, batch, s, x))
    case UserWrite(p, v) => s.(links := s.links.(next := s.links.next[p := v]))
  }

  predicate NextIs(g: Geometry, batch: nat, run: seq<Linked>, deeds: seq<Deed>, k: nat)
    requires g.slabSize > 0 && |run| == |deeds| + 1 && k < |deeds|
  {
    Allowed(g, batch, run[k], deeds[k]) && run[k + 1] == Next(g, batch, run[k], deeds[k])
  }

  ghost predicate IsLinkedRun(g: Geometry, batch: nat, run: seq<Linked>, deeds: seq<Deed>)
    requires g.slabSize > 0
  {
    && |run| == |deeds| + 1 && LinkedInit(run[0])
    && forall k :: 0 <= k < |deeds| ==> NextIs(g, batch, run, deeds, k)
  }

  // ---- Whole lists -------------------------------------------------------------------------------

  /** From each head, the links lead through exactly the blocks of its list. */
  ghost predicate Whole(next: map<int, int>, heads: seq<int>, lists: seq<seq<int>>) {
    |heads| == |lists| && forall i :: 0 <= i < |heads| ==> Chain(next, heads[i], lists[i])
  }

  ghost predicate Outside(lists: seq<seq<int>>, x: int) { forall i :: 0 <= i < |lists| ==> x !in lists[i] }

  ghost function Frees(slabs: seq<Slab>): (r: seq<seq<int>>)
    ensures |r| == |slabs| && forall i :: 0 <= i < |r| ==> r[i] == slabs[i].free
  {
    seq(|slabs|, i requires 0 <= i < |slabs| => slabs[i].free)
  }

  ghost function Caches(threads: seq<Thread>): (r: seq<seq<int>>)
    ensures |r| == |threads| && forall t :: 0 <= t < |r| ==> r[t] == threads[t].cache
  {
    seq(|threads|, t requires 0 <= t < |threads| => threads[t].cache)
  }

  lemma WholeSurvives(next: map<int, int>, next': map<int, int>, heads: seq<int>, lists: seq<seq<int>>)
    requires Whole(next, heads, lists)
    requires forall x :: x in next && !Outside(lists, x) ==> x in next' && next'[x] == next[x]
    ensures Whole(next', heads, lists)
  {
    forall i | 0 <= i < |heads| ensures Chain(next', heads[i], lists[i]) {
      ChainSurvives(next, next', heads[i], lists[i]);
    }
  }

  lemma {:induction false} PoppedIs(next: map<int, int>, head: int, elems: seq<int>, n: nat)
    requires Chain(next, head, elems)
    ensures var k := if n < |elems| then n else |elems|;
            Popped(next, head, n).1 == elems[..k] && Chain(next, Popped(next, head, n).0, elems[k..])
    decreases n
  {
    if n > 0 && elems != [] {
      PoppedIs(next, next[head], elems[1..], n - 1);
      var k := if n < |elems| then n else |elems|;
      assert elems[1..][..k - 1] == elems[1..k] && elems[1..][k - 1..] == elems[k..];
      assert [head] + elems[1..k] == elems[..k];
    } else {
      assert elems[0..] == elems;
    }
  }

  /** The links after pushes of distinct blocks that are not in the list: it has them in front, the last one
      first, and no other word has changed. */
  lemma {:induction false} PushedIs(next: map<int, int>, head: int, elems: seq<int>, blocks: seq<int>)
    requires Chain(next, head, elems) && NULL !in blocks && Distinct(blocks)
    requires forall x :: x in blocks ==> x !in elems
    ensures var (next', head') := Pushed(next, head, blocks);
            && Chain(next', head', Reversed(blocks) + elems)
            && forall x :: x in next && x !in blocks ==> x in next' && next'[x] == next[x]
    decreases blocks
  {
    if blocks == [] {
      assert Reversed(blocks) + elems == elems;
    } else {
      var b, rest := blocks[0], blocks[1..];
      var next1 := next[b := head];
      assert b in blocks && forall j :: 0 <= j < |rest| ==> rest[j] == blocks[j + 1];
      ChainSurvives(next, next1, head, elems);
      assert ([b] + elems)[1..] == elems;
      PushedIs(next1, b, [b] + elems, rest);
      assert Reversed(rest) + ([b] + elems) == Reversed(blocks) + elems;
    }
  }

  lemma HeadOnce(next: map<int, int>, head: int, elems: seq<int>)
    requires Chain(next, head, elems) && elems != []
    ensures head !in elems[1..]
  {
    forall j | 0 <= j < |elems[1..]| ensures elems[1..][j] != head { ChainIsAcyclic(next, head, elems, 0, j + 1); }
  }

  /** A write into a block leaves the list whole exactly when the block is not in it, or the write is of the
      link that is there. */
  lemma {:induction false} WriteKeepsIff(next: map<int, int>, head: int, elems: seq<int>, p: int, v: int)
    requires Chain(next, head, elems)
    ensures Chain(next[p := v], head, elems) <==> (p !in elems || (p in next && next[p] == v))
    decreases elems
  {
    if elems != [] {
      WriteKeepsIff(next, next[head], elems[1..], p, v);
      assert p in elems <==> p == head || p in elems[1..];
      HeadOnce(next, head, elems);
    }
  }
}
