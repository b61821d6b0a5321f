/** CentralCache and ThreadLocalCache with their fields updated in place, for one size class. */
module CentralClass {
  import opened Basics
  import opened FreeLists
  import opened SizeClasses
  import C = Centrals
  import opened CentralOps

  class CentralCache {
    const g: C.Geometry
    var slabs: seq<C.Slab>
    var partials: seq<nat>
    var slabMap: map<int, nat>
    var inUse: int

    function View(): C.Central
      reads this
    {
      C.Central(slabs, partials, slabMap, inUse)
    }

    /** init, for a slab size that passes its power-of-two check and holds a block. */
    constructor (blockSize: nat, slabSize: nat)
      requires blockSize > 0 && IsPow2(slabSize) && blockSize <= slabSize
      ensures C.GeoOk(g) && g.blockSize == blockSize && g.slabSize == slabSize
      ensures View() == C.Central([], [], map[], 0)
    {
      g := C.Geometry(blockSize, slabSize, slabSize / blockSize);
      slabs, partials, slabMap, inUse := [], [], map[], 0;
    }

    /** addSlab and the slab constructor's loop: blocks are pushed from the lowest address up. */
    method AddSlab(base: nat) returns (i: nat)
      modifies this
      ensures View() == C.AddSlab(g, old(View()), base) && i == |old(slabs)|
    {
      var free := [];
      for k := 0 to g.total
        invariant free == C.Carve(base, g.blockSize, k) && View() == old(View())
      {
        C.BytesIsProduct(k, g.blockSize);
        free := [base + k * g.blockSize] + free;
      }
      i := |slabs|;
      slabMap := slabMap[base := i];
      slabs := slabs + [C.Slab(base, free, 0)];
    }

    /** Slab i becomes s; transitionState moves it into or out of the list of partial slabs. */
    method SetSlab(i: nat, s: C.Slab)
      requires i < |slabs|
      modifies this
      ensures View() == C.SetSlab(g, old(View()), i, s)
    {
      var before, after := C.StateOf(g, slabs[i]), C.StateOf(g, s);
      slabs := slabs[i := s];
      if before != after {
        if before == C.Partial {
          partials := C.Without(partials, i);
        }
        if after == C.Partial {
          partials := partials + [i];
        }
      }
    }

    /** Slab::allocateBatch: pops until enough or none are left. */
    method AllocateBatch(i: nat, maxCount: nat) returns (out: seq<nat>)
      requires i < |slabs|
      modifies this
      ensures (View(), out) == C.TakeFrom(g, old(View()), i, maxCount)
    {
      var free, count := slabs[i].free, 0;
      out := [];
      while count < maxCount && |free| > 0
        invariant count == |out| <= maxCount && count <= |slabs[i].free| && View() == old(View())
        invariant out == slabs[i].free[..count] && free == slabs[i].free[count..]
        decreases maxCount - count
      {
        out := out + [free[0]];
        free := free[1..];
        count := count + 1;
      }
      SetSlab(i, slabs[i].(free := free, used := slabs[i].used + count));
    }

    method Allocate(base: nat) returns (p: nat)
      requires C.InRange(View()) && |C.Allocate(g, View(), base).1| == 1
      modifies this
      ensures (View(), [p]) == C.Allocate(g, old(View()), base)
    {
      var i: nat;
      if |partials| == 0 {
        i := AddSlab(base);
      } else {
        i := partials[0];
        assert i in partials;
      }
      var out := AllocateBatch(i, 1);
      p := out[0];
      inUse := inUse + 1;
      assert out == [p];
    }

    method Deallocate(p: nat)
      requires g.slabSize > 0
      modifies this
      ensures View() == C.Deallocate(g, old(View()), p)
    {
      if C.Found(g, View(), p) {
        var i := C.SlabOf(g, View(), p);
        SetSlab(i, C.SlabPut(slabs[i], p));
        inUse := inUse - 1;
      }
    }

    method ReturnBatch(ps: seq<nat>) returns (returned: nat)
      requires g.slabSize > 0
      modifies this
      ensures (View(), returned) == C.ReturnBatch(g, old(View()), ps)
    {
      returned := 0;
      var k := 0;
      assert ps[0..] == ps;
      while k < |ps|
        invariant 0 <= k <= |ps|
        invariant Plus(C.PutAll(g, View(), ps[k..]), returned) == C.PutAll(g, old(View()), ps)
      {
        assert ps[k..][0] == ps[k] && ps[k..][1..] == ps[k + 1..];
        if C.Found(g, View(), ps[k]) {
          var i := C.SlabOf(g, View(), ps[k]);
          SetSlab(i, C.SlabPut(slabs[i], ps[k]));
          returned := returned + 1;
        }
        k := k + 1;
      }
      assert ps[k..] == [];
      inUse := inUse - returned;
    }

    /** fetchBatch's first loop. The iterator is an index; when the slab it has passed leaves the list, the
        next one takes that slab's place. */
    method FetchPartials(n: nat) returns (out: seq<nat>)
      requires C.Structure(g, View())
      modifies this
      ensures C.InRange(old(View())) && (View(), out) == C.FetchFrom(g, old(View()), old(partials), n)
    {
      hide C.Structure, C.FetchFrom, C.TakeFrom, After;
      var at := 0;
      out := [];
      ghost var ahead := partials;
      ghost var c := View();
      FetchStart(g, c, n);
      while at < |partials| && |out| < n
        invariant |out| <= n && Good(g, View(), ahead) && at <= |partials|
        invariant |out| < n ==> ahead == partials[at..]
        invariant After(out, C.FetchFrom(g, View(), ahead, n - |out|)) == C.FetchFrom(g, c, c.partials, n)
        decreases n - |out|
      {
        FetchStep(g, View(), at, ahead, n - |out|, out);
        var i := partials[at];
        at := at + 1;
        var more := AllocateBatch(i, n - |out|);
        if at > |partials| || partials[at - 1] != i {
          at := at - 1;
        }
        out := out + more;
        ahead := ahead[1..];
      }
      FetchEnd(g, View(), ahead, n - |out|, out);
    }

    /** fetchBatch's second loop: although written as one, it never goes round twice. */
    method FetchNew(n: nat, base: nat) returns (out: seq<nat>)
      modifies this
      ensures (View(), out) == C.FetchNew(g, old(View()), n, base)
    {
      out := [];
      while |out| < n
        invariant |out| <= n && (if |out| < n then out == [] && View() == old(View())
                                 else (View(), out) == C.FetchNew(g, old(View()), n, base))
        decreases n - |out|
      {
        var i := AddSlab(base);
        var more := AllocateBatch(i, n - |out|);
        assert [] + more == more;
        out := out + more;
        if |slabs[i].free| == 0 {
          break;
        }
      }
    }

    method FetchBatch(n: nat, base: nat) returns (out: seq<nat>)
      requires C.Structure(g, View())
      modifies this
      ensures C.InRange(old(View())) && (View(), out) == C.FetchBatch(g, old(View()), n, base)
    {
      hide C.Structure, C.FetchFrom, C.FetchNew;
      out := FetchPartials(n);
      var more := FetchNew(n - |out|, base);
      inUse := inUse + |out| + |more|;
      out := out + more;
    }
  }

  /** A thread's cache of free blocks; its free list is the sequence that FreeLists.FreeList holds. */
  class ThreadLocalCache {
    const central: CentralCache
    const batch: nat
    var cache: seq<nat>

    constructor (central: CentralCache, batch: nat)
      requires 0 < batch <= MAX_BATCH_SIZE
      ensures this.central == central && this.batch == batch && cache == []
    {
      this.central, this.batch, cache := central, batch, [];
    }

    /** A cached block if there is one; else a batch is fetched. */
    method Allocate(base: nat) returns (p: nat)
      requires CentralOk(central.g, central.View()) && 0 < batch
      requires base % central.g.slabSize == 0 && base !in central.slabMap
      modifies this, central
      ensures old(cache) != [] ==> [p] + cache == old(cache) && central.View() == old(central.View())
      ensures old(cache) == [] ==> Fetched(old(central.View()), base, p)
    {
      hide CentralOk, Fetched;
      if |cache| > 0 {
        p := cache[0];
        cache := cache[1..];
      } else {
        p := FetchFromCentral(base);
      }
    }

    /** From an empty cache, a batch was fetched: its first block p is given out, the others are cached. */
    ghost predicate Fetched(before: C.Central, base: nat, p: nat)
      reads this, central
    {
      && C.InRange(before)
      && var (c, out) := C.FetchBatch(central.g, before, batch, base);
         central.View() == c && 1 <= |out| <= batch && [p] + Reversed(cache) == out
    }

    method FetchFromCentral(base: nat) returns (p: nat)
      requires CentralOk(central.g, central.View()) && 0 < batch && cache == []
      requires base % central.g.slabSize == 0 && base !in central.slabMap
      modifies this, central
      ensures Fetched(old(central.View()), base, p)
    {
      hide C.FetchBatch, CentralOk;
      CanFetch(central.g, central.View(), batch, base);
      var buf := central.FetchBatch(batch, base);
      for i := 1 to |buf|
        invariant cache == Reversed(buf[1..i])
        invariant central.View() == old(C.FetchBatch(central.g, central.View(), batch, base)).0
      {
        ReversedGrows(buf[1..i], buf[i]);
        assert buf[1..i] + [buf[i]] == buf[1..i + 1];
        cache := [buf[i]] + cache;
      }
      assert buf[1..|buf|] == buf[1..];
      p := buf[0];
      ReversedTwice(buf[1..]);
    }

    /** returnToCentral: up to a batch leaves the cache, in the order in which it would have been popped. */
    method ReturnToCentral()
      requires central.g.slabSize > 0
      modifies this, central
      ensures var k := if |old(cache)| < batch then |old(cache)| else batch;
              && cache == old(cache)[k..]
              && central.View() == C.ReturnBatch(central.g, old(central.View()), old(cache)[..k]).0
    {
      var returnCount := if |cache| < batch then |cache| else batch;
      var buf := [];
      for i := 0 to returnCount
        invariant buf == old(cache)[..i] && cache == old(cache)[i..] && central.View() == old(central.View())
      {
        buf := buf + [cache[0]];
        cache := cache[1..];
      }
      var returned := central.ReturnBatch(buf);
    }

    /** deallocate: the block is cached; past a batch, a whole batch goes back and one block stays. */
    method Deallocate(p: nat)
      requires central.g.slabSize > 0 && |cache| <= batch && 0 < batch
      modifies this, central
      ensures |old(cache)| < batch ==> cache == [p] + old(cache) && central.View() == old(central.View())
      ensures |old(cache)| == batch ==>
        && cache == [old(cache)[batch - 1]]
        && central.View() == C.ReturnBatch(central.g, old(central.View()), [p] + old(cache)[..batch - 1]).0
      ensures |cache| <= batch
    {
      cache := [p] + cache;
      if |cache| > batch {
        assert ([p] + old(cache))[..batch] == [p] + old(cache)[..batch - 1];
        ReturnToCentral();
      }
    }

    /** drain: one batch is all an idle cache can hold, so it ends empty. */
    method Drain()
      requires central.g.slabSize > 0 && |cache| <= batch
      modifies this, central
      ensures cache == [] && central.View() == C.ReturnBatch(central.g, old(central.View()), old(cache)).0
    {
      assert cache[..|cache|] == cache && C.ReturnBatch(central.g, central.View(), []).0 == central.View();
      if |cache| > 0 {
        ReturnToCentral();
      }
    }

    /** drainAll: buffers of up to 64 blocks go back until the cache is empty; the thread is gone then. */
    method DrainAll()
      requires central.g.slabSize > 0
      modifies this, central
      ensures cache == [] && central.View() == C.ReturnBatch(central.g, old(central.View()), old(cache)).0
    {
      ghost var given := 0;
      assert old(cache)[..0] == [] && old(cache)[0..] == old(cache);
      while |cache| > 0
        invariant given <= |old(cache)| && cache == old(cache)[given..]
        invariant central.View() == C.ReturnBatch(central.g, old(central.View()), old(cache)[..given]).0
        decreases |cache|
      {
        var n := if |cache| < MAX_BATCH_SIZE then |cache| else MAX_BATCH_SIZE;
        var ptrs := cache[..n];
        ReturnInTwo(central.g, old(central.View()), old(cache)[..given], ptrs);
        assert old(cache)[..given] + ptrs == old(cache)[..given + n];
        cache := cache[n..];
        var returned := central.ReturnBatch(ptrs);
        given := given + n;
      }
      assert old(cache)[..given] == old(cache);
    }
  }

  lemma CanFetch(g: C.Geometry, c: C.Central, n: nat, base: nat)
    requires CentralOk(g, c) && n > 0 && base % g.slabSize == 0 && base !in c.slabMap
    ensures C.Structure(g, c) && C.InRange(c) && 1 <= |C.FetchBatch(g, c, n, base).1| <= n
  {
    hide C.Structure, C.FetchBatch, HandedOut, FreeIn;
    StructureFacts(g, c);
    FetchBatchCount(g, c, n, base);
  }

  lemma {:induction false} PutInTwo(g: C.Geometry, c: C.Central, a: seq<nat>, b: seq<nat>)
    requires g.slabSize > 0
    ensures C.PutAll(g, c, a + b) == Plus(C.PutAll(g, C.PutAll(g, c, a).0, b), C.PutAll(g, c, a).1)
    decreases a
  {
    hide C.PutOne, C.Found;
    if a == [] {
      assert [] + b == b;
    } else {
      assert (a + b)[1..] == a[1..] + b;
      PutInTwo(g, C.PutOne(g, c, a[0]), a[1..], b);
    }
  }

  lemma {:induction false} PutIgnoresCounter(g: C.Geometry, c: C.Central, n: int, a: seq<nat>)
    requires g.slabSize > 0
    ensures C.PutAll(g, c.(inUse := n), a) == (C.PutAll(g, c, a).0.(inUse := n), C.PutAll(g, c, a).1)
    ensures C.PutAll(g, c, a).0.inUse == c.inUse
    decreases a
  {
    if a != [] { PutIgnoresCounter(g, C.PutOne(g, c, a[0]), n, a[1..]); }
  }

  /** Two returned batches are one. */
  lemma ReturnInTwo(g: C.Geometry, c: C.Central, a: seq<nat>, b: seq<nat>)
    requires g.slabSize > 0
    ensures C.ReturnBatch(g, C.ReturnBatch(g, c, a).0, b).0 == C.ReturnBatch(g, c, a + b).0
  {
    hide C.PutAll;
    var (c1, n) := C.PutAll(g, c, a);
    PutInTwo(g, c, a, b);
    PutIgnoresCounter(g, c, 0, a);
    PutIgnoresCounter(g, c1, c1.inUse - n, b);
  }

  function Plus(r: (C.Central, nat), n: nat): (C.Central, nat) { (r.0, r.1 + n) }

  function After(out: seq<nat>, r: (C.Central, seq<nat>)): (C.Central, seq<nat>) { (r.0, out + r.1) }

  ghost predicate Good(g: C.Geometry, c: C.Central, ahead: seq<nat>) {
    C.Structure(g, c) && forall i :: i in ahead ==> i < |c.slabs|
  }

  lemma FetchStart(g: C.Geometry, c: C.Central, n: nat)
    requires C.Structure(g, c)
    ensures C.InRange(c) && Good(g, c, c.partials) && c.partials == c.partials[0..]
    ensures After([], C.FetchFrom(g, c, c.partials, n)) == C.FetchFrom(g, c, c.partials, n)
  {
    hide C.Structure, C.FetchFrom;
    StructureFacts(g, c);
    assert [] + C.FetchFrom(g, c, c.partials, n).1 == C.FetchFrom(g, c, c.partials, n).1;
  }

  lemma FetchEnd(g: C.Geometry, c: C.Central, ahead: seq<nat>, n: nat, out: seq<nat>)
    requires Good(g, c, ahead) && (n == 0 || ahead == [])
    ensures After(out, C.FetchFrom(g, c, ahead, n)) == (c, out)
  {
    hide C.Structure;
    assert out + [] == out;
  }

  /** One round: the slab gives all it can; if the batch is still short, it is full and leaves the list. */
  lemma FetchStep(g: C.Geometry, c: C.Central, pos: nat, ahead: seq<nat>, n: nat, out: seq<nat>)
    requires Good(g, c, ahead) && pos < |c.partials| && n > 0 && ahead == c.partials[pos..]
    ensures c.partials[pos] < |c.slabs|
    ensures var (c1, more) := C.TakeFrom(g, c, c.partials[pos], n);
            && Good(g, c1, ahead[1..]) && 1 <= |more| <= n
            && (|more| < n || c1.partials != c.partials ==>
                  && pos <= |c1.partials| && c1.partials[pos..] == ahead[1..]
                  && (pos < |c1.partials| ==> c1.partials[pos] != c.partials[pos]))
            && After(out, C.FetchFrom(g, c, ahead, n)) == After(out + more, C.FetchFrom(g, c1, ahead[1..], n - |more|))
  {
    hide C.Structure, C.FetchFrom, C.SlabOk;
    var i := c.partials[pos];
    assert forall j :: j in ahead[1..] ==> j in ahead;
    PartialAt(g, c, pos);
    SlabIn(g, c, i);
    TakeMoves(g, c, i, n);
    PartialHasFree(g, c.slabs[i]);
    TakenToFull(g, c, i, n);
    RemoveAt(c.partials, pos);
    assert (c.partials[..pos] + c.partials[pos + 1..])[pos..] == ahead[1..];
    Unwind(g, c, ahead, n, out);
  }

  lemma PartialAt(g: C.Geometry, c: C.Central, pos: nat)
    requires C.Structure(g, c) && pos < |c.partials|
    ensures c.partials[pos] < |c.slabs| && C.StateOf(g, c.slabs[c.partials[pos]]) == C.Partial
    ensures Distinct(c.partials)
  {
    assert c.partials[pos] in c.partials;
  }

  lemma TakenToFull(g: C.Geometry, c: C.Central, i: nat, n: nat)
    requires i < |c.slabs| && C.GeoOk(g) && C.SlabOk(g, c.slabs[i]) && C.StateOf(g, c.slabs[i]) == C.Partial
    ensures var (c1, more) := C.TakeFrom(g, c, i, n);
            if |more| < |c.slabs[i].free| then c1.partials == c.partials else c1.partials == C.Without(c.partials, i)
  {
    PartialHasFree(g, c.slabs[i]);
  }

  lemma {:induction false} RemoveAt(xs: seq<nat>, k: nat)
    requires Distinct(xs) && k < |xs|
    ensures C.Without(xs, xs[k]) == xs[..k] + xs[k + 1..]
  {
    if k == 0 {
      C.WithoutAbsent(xs[1..], xs[0]);
    } else {
      RemoveAt(xs[1..], k - 1);
    }
  }

  lemma Unwind(g: C.Geometry, c: C.Central, ahead: seq<nat>, n: nat, out: seq<nat>)
    requires ahead != [] && n > 0 && forall i :: i in ahead ==> i < |c.slabs|
    ensures ahead[0] < |c.slabs| && forall i :: i in ahead[1..] ==> i < |c.slabs|
    ensures var (c1, more) := C.TakeFrom(g, c, ahead[0], n);
            After(out, C.FetchFrom(g, c, ahead, n)) == After(out + more, C.FetchFrom(g, c1, ahead[1..], n - |more|))
  {
    hide C.TakeFrom;
    assert ahead[0] in ahead && forall i :: i in ahead[1..] ==> i in ahead;
    var (c1, more) := C.TakeFrom(g, c, ahead[0], n);
    var rest := C.FetchFrom(g, c1, ahead[1..], n - |more|).1;
    assert out + (more + rest) == (out + more) + rest;
  }
}
