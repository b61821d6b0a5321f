/** Where the blocks of a central cache are: in the free list of their slab, or handed out. */
module CentralAccount {
  import opened Basics
  import opened SizeClasses
  import opened Centrals

  /** Every block of every slab. */
  ghost function AllOf(g: Geometry, slabs: seq<Slab>): multiset<nat> {
    if slabs == [] then multiset{} else multiset(Blocks(g, slabs[0].base)) + AllOf(g, slabs[1..])
  }

  ghost function FreeOf(slabs: seq<Slab>): multiset<nat> {
    if slabs == [] then multiset{} else multiset(slabs[0].free) + FreeOf(slabs[1..])
  }

  ghost function SumUsed(slabs: seq<Slab>): int {
    if slabs == [] then 0 else slabs[0].used + SumUsed(slabs[1..])
  }

  lemma {:induction false} AllStays(g: Geometry, slabs: seq<Slab>, i: nat, s: Slab)
    requires i < |slabs| && s.base == slabs[i].base
    ensures AllOf(g, slabs[i := s]) == AllOf(g, slabs)
  {
    if i == 0 {
      assert slabs[i := s][1..] == slabs[1..];
    } else {
      assert slabs[i := s][1..] == slabs[1..][i - 1 := s];
      AllStays(g, slabs[1..], i - 1, s);
    }
  }

  lemma {:induction false} FreeChanges(slabs: seq<Slab>, i: nat, s: Slab)
    requires i < |slabs|
    ensures FreeOf(slabs[i := s]) + multiset(slabs[i].free) == FreeOf(slabs) + multiset(s.free)
  {
    if i == 0 {
      assert slabs[i := s][1..] == slabs[1..];
    } else {
      assert slabs[i := s][1..] == slabs[1..][i - 1 := s];
      FreeChanges(slabs[1..], i - 1, s);
      AddToBoth(multiset(slabs[0].free), FreeOf(slabs[1..][i - 1 := s]), multiset(slabs[i].free),
                FreeOf(slabs[1..]), multiset(s.free));
    }
  }

  lemma AddToBoth(a: multiset<nat>, x: multiset<nat>, p: multiset<nat>, y: multiset<nat>, q: multiset<nat>)
    requires x + p == y + q
    ensures (a + x) + p == (a + y) + q
  {
    assert (a + x) + p == a + (x + p) && (a + y) + q == a + (y + q);
  }

  lemma {:induction false} UsedChanges(slabs: seq<Slab>, i: nat, s: Slab)
    requires i < |slabs|
    ensures SumUsed(slabs[i := s]) + slabs[i].used == SumUsed(slabs) + s.used
  {
    if i == 0 {
      assert slabs[i := s][1..] == slabs[1..];
    } else {
      assert slabs[i := s][1..] == slabs[1..][i - 1 := s];
      UsedChanges(slabs[1..], i - 1, s);
    }
  }

  lemma {:induction false} AppendOne(g: Geometry, slabs: seq<Slab>, s: Slab)
    ensures AllOf(g, slabs + [s]) == AllOf(g, slabs) + multiset(Blocks(g, s.base))
    ensures FreeOf(slabs + [s]) == FreeOf(slabs) + multiset(s.free)
    ensures SumUsed(slabs + [s]) == SumUsed(slabs) + s.used
  {
    if slabs == [] {
      assert [] + [s] == [s];
    } else {
      assert (slabs + [s])[1..] == slabs[1..] + [s];
      AppendOne(g, slabs[1..], s);
    }
  }

  /** Blocks in use are all blocks but the free ones. */
  lemma {:induction false} UsedIsAllButFree(g: Geometry, slabs: seq<Slab>)
    requires GeoOk(g) && forall i :: 0 <= i < |slabs| ==> SlabOk(g, slabs[i])
    ensures FreeOf(slabs) <= AllOf(g, slabs) && SumUsed(slabs) == |AllOf(g, slabs)| - |FreeOf(slabs)|
  {
    if slabs != [] {
      assert SlabOk(g, slabs[0]);
      UsedIsAllButFree(g, slabs[1..]);
    }
  }

  // ---- A block belongs to one slab ---------------------------------------------------------------

  lemma {:induction false} CarveBounds(base: nat, b: nat, n: nat, x: nat)
    requires b > 0 && x in Carve(base, b, n)
    ensures base <= x && x + b <= base + Bytes(n, b)
  {
    if x == base + Bytes(n - 1, b) {
    } else {
      CarveBounds(base, b, n - 1, x);
    }
  }

  lemma {:induction false} CarveOnce(base: nat, b: nat, n: nat, x: nat)
    requires b > 0
    ensures multiset(Carve(base, b, n))[x] <= 1
  {
    if n > 0 {
      CarveOnce(base, b, n - 1, x);
      TopIsNew(base, b, n);
      OnTop(base + Bytes(n - 1, b), Carve(base, b, n - 1), x);
    }
  }

  lemma TopIsNew(base: nat, b: nat, n: nat)
    requires b > 0 && n > 0
    ensures base + Bytes(n - 1, b) !in Carve(base, b, n - 1)
  {
    var top := base + Bytes(n - 1, b);
    if top in Carve(base, b, n - 1) { CarveBounds(base, b, n - 1, top); }
  }

  lemma OnTop(top: nat, rest: seq<nat>, x: nat)
    requires top !in rest && multiset(rest)[x] <= 1
    ensures multiset([top] + rest)[x] <= 1
  {
    assert multiset([top] + rest) == multiset{top} + multiset(rest);
  }

  /** A block address rounds down to the base of its slab. */
  lemma BlockRoundsToBase(g: Geometry, base: nat, x: nat)
    requires GeoOk(g) && base % g.slabSize == 0 && x in Blocks(g, base)
    ensures RoundDown(x, g.slabSize) == base
  {
    CarveBounds(base, g.blockSize, g.total, x);
    BytesIsProduct(g.total, g.blockSize);
    assert g.total * g.blockSize <= g.slabSize;
    WithinOneUnit(base, g.slabSize, x);
  }

  lemma WithinOneUnit(base: nat, n: nat, x: nat)
    requires n > 0 && base % n == 0 && base <= x < base + n
    ensures RoundDown(x, n) == base
  {
    assert base == (base / n) * n;
    Remainder(x, n, base / n, x - base);
  }

  ghost predicate DistinctBases(slabs: seq<Slab>) {
    forall i, j :: 0 <= i < j < |slabs| ==> slabs[i].base != slabs[j].base
  }

  lemma {:induction false} OneSlabEach(g: Geometry, slabs: seq<Slab>, x: nat)
    requires GeoOk(g) && DistinctBases(slabs) && forall i :: 0 <= i < |slabs| ==> slabs[i].base % g.slabSize == 0
    ensures AllOf(g, slabs)[x] <= 1
    ensures x in AllOf(g, slabs) ==> exists i :: 0 <= i < |slabs| && x in Blocks(g, slabs[i].base)
  {
    if slabs != [] {
      var s, rest := slabs[0], slabs[1..];
      OneSlabEach(g, rest, x);
      CarveOnce(s.base, g.blockSize, g.total, x);
      if x in Blocks(g, s.base) {
        BlockRoundsToBase(g, s.base, x);
        if x in AllOf(g, rest) {
          var i :| 0 <= i < |rest| && x in Blocks(g, rest[i].base);
          assert rest[i] == slabs[i + 1];
          BlockRoundsToBase(g, slabs[i + 1].base, x);
        }
        assert x in AllOf(g, rest) ==> false;
      } else if x in AllOf(g, rest) {
        var i :| 0 <= i < |rest| && x in Blocks(g, rest[i].base);
        assert slabs[i + 1] == rest[i];
      }
    }
  }

  /** Every address that is a block occurs once, and masking it finds the slab that carved it. */
  lemma BlockIsFound(g: Geometry, c: Central, x: nat)
    requires Structure(g, c) && x in AllOf(g, c.slabs)
    ensures AllOf(g, c.slabs)[x] == 1 && Found(g, c, x)
    ensures x in Blocks(g, c.slabs[SlabOf(g, c, x)].base)
  {
    assert forall i :: 0 <= i < |c.slabs| ==> SlabOk(g, c.slabs[i]);
    OneSlabEach(g, c.slabs, x);
    var i :| 0 <= i < |c.slabs| && x in Blocks(g, c.slabs[i].base);
    BlockRoundsToBase(g, c.slabs[i].base, x);
  }
}
