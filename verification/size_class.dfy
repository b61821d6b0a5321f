/** Size classes, slab geometry and the mask that leads from a block to its slab. */
module SizeClasses {
  import opened Basics

  datatype Entry = Entry(blockSize: nat, batchSize: nat)

  const MAX_ALLOC_SIZE := 2048
  const MAX_BATCH_SIZE := 64  // ThreadLocalCache::kMaxBatchSize, the length of its transfer buffers
  const TABLE: seq<Entry> := [
    Entry(8, 64), Entry(16, 64), Entry(32, 32), Entry(64, 32), Entry(128, 16),
    Entry(256, 16), Entry(512, 8), Entry(1024, 4), Entry(2048, 2)]

  /** The smallest class whose blocks are large enough. */
  method Index(size: nat) returns (idx: nat)
    requires 0 < size <= MAX_ALLOC_SIZE
    ensures idx < |TABLE| && size <= TABLE[idx].blockSize
    ensures forall j :: 0 <= j < |TABLE| && size <= TABLE[j].blockSize ==> TABLE[idx].blockSize <= TABLE[j].blockSize
    ensures 0 < TABLE[idx].batchSize <= MAX_BATCH_SIZE
  {
    assert |TABLE| == 9 && TABLE[8].blockSize == 2048;
    for i := 0 to |TABLE|
      invariant forall j :: 0 <= j < i ==> TABLE[j].blockSize < size
    {
      if size <= TABLE[i].blockSize {
        return i;
      }
    }
    assert false;
  }

  // ---- Powers of two and the bitwise and ---------------------------------------------------------

  function Pow2(k: nat): (r: nat)
    ensures r >= 1
  {
    if k == 0 then 1 else 2 * Pow2(k - 1)
  }

  ghost predicate IsPow2(n: nat) { exists k: nat :: n == Pow2(k) }

  /** The bitwise and of two numbers. */
  function BitAnd(a: nat, b: nat): nat {
    if a == 0 || b == 0 then 0 else (if a % 2 == 1 && b % 2 == 1 then 1 else 0) + 2 * BitAnd(a / 2, b / 2)
  }

  lemma ModPow2(p: nat, k: nat)
    requires k > 0
    ensures p % Pow2(k) == p % 2 + 2 * (p / 2 % Pow2(k - 1))
  {
    var h := Pow2(k - 1);
    var q, r := p / 2 / h, p / 2 % h;
    assert 2 * (q * h) == q * (2 * h);
    Remainder(p, 2 * h, q, p % 2 + 2 * r);
  }

  lemma {:induction false} Pow2Grows(j: nat, k: nat)
    requires j <= k
    ensures Pow2(j) <= Pow2(k)
  {
    if j < k { Pow2Grows(j, k - 1); }
  }

  /** The largest multiple of n up to p. */
  function RoundDown(p: nat, n: nat): (r: nat)
    requires n > 0
    ensures r % n == 0 && r <= p < r + n
  {
    assert p == (p / n) * n + p % n;
    Remainder(p - p % n, n, p / n, 0);
    p - p % n
  }

  lemma RoundDownHalves(p: nat, k: nat)
    requires k > 0
    ensures RoundDown(p, Pow2(k)) == 2 * RoundDown(p / 2, Pow2(k - 1))
  {
    ModPow2(p, k);
  }

  lemma RoundDownEnds(p: nat, n: nat)
    requires n > 0
    ensures RoundDown(p, 1) == p && (p < n ==> RoundDown(p, n) == 0)
  {
    if p < n { Remainder(p, n, 0, p); }
  }

  /** A mask of width bits whose k low bits are clear rounds down to a multiple of 2^k. */
  lemma {:induction false} MaskRoundsDown(p: nat, k: nat, width: nat)
    requires p < Pow2(width) && k <= width
    ensures Pow2(k) <= Pow2(width) && BitAnd(p, Pow2(width) - Pow2(k)) == RoundDown(p, Pow2(k))
  {
    if k == 0 || k == width {
      WholeOrNothing(p, k, width);
    } else {
      MaskRoundsDown(p / 2, k - 1, width - 1);
      OneBitMore(p, k, width);
    }
  }

  lemma WholeOrNothing(p: nat, k: nat, width: nat)
    requires p < Pow2(width) && (k == 0 || k == width)
    ensures Pow2(k) <= Pow2(width) && BitAnd(p, Pow2(width) - Pow2(k)) == RoundDown(p, Pow2(k))
  {
    RoundDownEnds(p, Pow2(k));
    if k == 0 { OnesKeep(p, width); }
  }

  lemma OneBitMore(p: nat, k: nat, width: nat)
    requires 0 < k < width && Pow2(k - 1) <= Pow2(width - 1)
    requires BitAnd(p / 2, Pow2(width - 1) - Pow2(k - 1)) == RoundDown(p / 2, Pow2(k - 1))
    ensures Pow2(k) <= Pow2(width) && BitAnd(p, Pow2(width) - Pow2(k)) == RoundDown(p, Pow2(k))
  {
    AndEven(p, Pow2(width - 1) - Pow2(k - 1), Pow2(width) - Pow2(k));
    RoundDownHalves(p, k);
  }

  lemma AndEven(p: nat, h: nat, m: nat)
    requires m == 2 * h
    ensures BitAnd(p, m) == 2 * BitAnd(p / 2, h)
  {
    assert m / 2 == h && m % 2 == 0;
  }

  lemma {:induction false} OnesKeep(p: nat, width: nat)
    requires p < Pow2(width)
    ensures BitAnd(p, Pow2(width) - 1) == p
  {
    if width > 0 { OnesKeep(p / 2, width - 1); }
  }

  lemma {:induction false} AndSelf(n: nat)
    ensures BitAnd(n, n) == n
  {
    if n > 0 { AndSelf(n / 2); }
  }

  /** The check that init and the slab constructor make, on 64-bit words: it lets exactly the powers of
      two and zero pass. */
  lemma SizeCheck(n: nat)
    requires n < Pow2(64)
    ensures BitAnd(n, if n == 0 then Pow2(64) - 1 else n - 1) == 0 <==> n == 0 || IsPow2(n)
  {
    if n > 0 { PowerTest(n); }
  }

  lemma {:induction false} PowerTest(n: nat)
    requires n > 0
    ensures BitAnd(n, n - 1) == 0 <==> IsPow2(n)
  {
    if n == 1 {
      assert n == Pow2(0);
    } else if n % 2 == 1 {
      AndSelf(n / 2);
      forall k: nat ensures n != Pow2(k) { }
    } else {
      PowerTest(n / 2);
      assert (n - 1) / 2 == n / 2 - 1;
      if IsPow2(n / 2) {
        var k: nat :| n / 2 == Pow2(k);
        assert n == Pow2(k + 1);
      }
      if IsPow2(n) {
        var k: nat :| n == Pow2(k);
        assert n / 2 == Pow2(k - 1);
      }
    }
  }

  // ---- Alignment ---------------------------------------------------------------------------------

  lemma {:induction false} Pow2Divides(j: nat, k: nat)
    requires j <= k
    ensures Pow2(k) % Pow2(j) == 0
  {
    if j < k {
      Pow2Divides(j, k - 1);
      TwiceDivides(Pow2(k - 1), Pow2(j));
    } else {
      Remainder(Pow2(j), Pow2(j), 1, 0);
    }
  }

  lemma TwiceDivides(x: nat, n: nat)
    requires n > 0 && x % n == 0
    ensures (2 * x) % n == 0
  {
    SumOfMultiples(x, x, n);
  }

  lemma SumOfMultiples(x: nat, y: nat, n: nat)
    requires n > 0 && x % n == 0 && y % n == 0
    ensures (x + y) % n == 0
  {
    assert x == (x / n) * n && y == (y / n) * n;
    assert (x / n + y / n) * n == (x / n) * n + (y / n) * n;
    Remainder(x + y, n, x / n + y / n, 0);
  }

  lemma MultipleOfMultiple(x: nat, m: nat, n: nat)
    requires m > 0 && n > 0 && x % m == 0 && m % n == 0
    ensures x % n == 0
  {
    var q, r := x / m, m / n;
    assert x == q * m && m == r * n;
    assert q * (r * n) == (q * r) * n;
    Remainder(x, n, q * r, 0);
  }

  /** A block is base plus a multiple of the block size in a slab aligned to its own size. Both blocks
      base and base + 2^c are aligned to 2^a exactly when 2^a does not exceed the block size 2^c. */
  lemma BlocksAlignedIff(base: nat, a: nat, c: nat, s: nat)
    requires c <= s && base % Pow2(s) == 0
    ensures (base % Pow2(a) == 0 && (base + Pow2(c)) % Pow2(a) == 0) <==> a <= c
  {
    if a <= c {
      AlignedBelow(base, a, c, s);
    } else {
      Pow2Grows(c + 1, a);
      if base % Pow2(a) == 0 { PartialStep(base, Pow2(a), Pow2(c)); }
    }
  }

  lemma AlignedBelow(base: nat, a: nat, c: nat, s: nat)
    requires a <= c <= s && base % Pow2(s) == 0
    ensures base % Pow2(a) == 0 && (base + Pow2(c)) % Pow2(a) == 0
  {
    Pow2Divides(a, c);
    Pow2Divides(a, s);
    MultipleOfMultiple(base, Pow2(s), Pow2(a));
    SumOfMultiples(base, Pow2(c), Pow2(a));
  }

  lemma PartialStep(base: nat, n: nat, b: nat)
    requires 0 < b < n && base % n == 0
    ensures (base + b) % n == b
  {
    assert base == (base / n) * n;
    Remainder(base + b, n, base / n, b);
  }
}
