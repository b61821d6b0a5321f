/** The intrusive free list: the link of a free block is stored in the block itself. */
module FreeLists {
  import opened Basics

  const NULL := 0

  /** The link words of all blocks that share an address space. A user may write any block it holds. */
  class Memory {
    var next: map<int, int>

    constructor ()
      ensures next == map[]
    {
      next := map[];
    }
  }

  /** Following the links from head visits exactly elems and ends. */
  predicate Chain(next: map<int, int>, head: int, elems: seq<int>)
    decreases elems
  {
    if elems == [] then head == NULL
    else head == elems[0] != NULL && head in next && Chain(next, next[head], elems[1..])
  }

  /** What lies behind a head is determined by the links. */
  lemma {:induction false} ChainIsUnique(next: map<int, int>, head: int, a: seq<int>, b: seq<int>)
    requires Chain(next, head, a) && Chain(next, head, b)
    ensures a == b
    decreases a
  {
    if a != [] && b != [] {
      ChainIsUnique(next, next[head], a[1..], b[1..]);
      assert a == [a[0]] + a[1..] && b == [b[0]] + b[1..];
    }
  }

  lemma {:induction false} ChainTail(next: map<int, int>, head: int, elems: seq<int>, i: nat)
    requires Chain(next, head, elems) && i < |elems|
    ensures Chain(next, elems[i], elems[i..])
    decreases elems
  {
    if i > 0 {
      ChainTail(next, next[head], elems[1..], i - 1);
      assert elems[1..][i - 1..] == elems[i..];
    } else {
      assert elems[0..] == elems;
    }
  }

  /** A chain that ends has no cycle: no block is in it twice. */
  lemma ChainIsAcyclic(next: map<int, int>, head: int, elems: seq<int>, i: nat, j: nat)
    requires Chain(next, head, elems) && i < j < |elems|
    ensures elems[i] != elems[j]
  {
    if elems[i] == elems[j] {
      ChainTail(next, head, elems, i);
      ChainTail(next, head, elems, j);
      ChainIsUnique(next, elems[i], elems[i..], elems[j..]);
    }
  }

  /** Only writes to a list's own blocks can disturb it. */
  lemma {:induction false} ChainSurvives(next: map<int, int>, next': map<int, int>, head: int, elems: seq<int>)
    requires Chain(next, head, elems)
    requires forall x :: x in elems ==> x in next ==> x in next' && next'[x] == next[x]
    ensures Chain(next', head, elems)
    decreases elems
  {
    if elems != [] {
      ChainSurvives(next, next', next[head], elems[1..]);
    }
  }

  /** Links that differ only at the i-th block still lead to it. */
  lemma {:induction false} StillLeadsTo(next: map<int, int>, next': map<int, int>, head: int, elems: seq<int>, i: nat,
                                        other: seq<int>)
    requires Chain(next, head, elems) && i < |elems| && Chain(next', head, other)
    requires forall x :: x in next && x != elems[i] ==> x in next' && next'[x] == next[x]
    ensures i < |other| && other[i] == elems[i]
    decreases i
  {
    if i > 0 {
      ChainIsAcyclic(next, head, elems, 0, i);
      StillLeadsTo(next, next', next[head], elems[1..], i - 1, other[1..]);
    }
  }

  /** Pushing a block that is in the list already destroys the list: its links never end. */
  lemma DoublePushIsACycle(next: map<int, int>, head: int, elems: seq<int>, block: int, other: seq<int>)
    requires Chain(next, head, elems) && block in elems
    ensures !Chain(next[block := head], block, other)
  {
    var next' := next[block := head];
    var i :| 0 <= i < |elems| && elems[i] == block;
    ChainTail(next, head, elems, i);
    if Chain(next', block, other) {
      StillLeadsTo(next, next', head, elems, i, other[1..]);
      ChainIsAcyclic(next', block, other, 0, i + 1);
    }
  }

  function Reversed<T>(s: seq<T>): (r: seq<T>)
    ensures |r| == |s|
  {
    if s == [] then [] else Reversed(s[1..]) + [s[0]]
  }

  lemma {:induction false} ReversedGrows<T>(s: seq<T>, x: T)
    ensures Reversed(s + [x]) == [x] + Reversed(s)
  {
    if s == [] {
      assert [x] == [] + [x];
    } else {
      ReversedGrows(s[1..], x);
      assert (s + [x])[1..] == s[1..] + [x];
    }
  }

  lemma {:induction false} ReversedTwice<T>(s: seq<T>)
    ensures Reversed(Reversed(s)) == s
  {
    if s != [] {
      ReversedTwice(s[1..]);
      ReversedGrows(Reversed(s[1..]), s[0]);
    }
  }

  lemma {:induction false} ReversedMembers<T>(s: seq<T>, x: T)
    ensures x in Reversed(s) <==> x in s
  {
    if s != [] {
      ReversedMembers(s[1..], x);
      assert x in s <==> x == s[0] || x in s[1..];
      assert x in Reversed(s) <==> x in Reversed(s[1..]) || x in [s[0]];
    }
  }

  lemma BatchGrows(blocks: seq<int>, elems: seq<int>, i: nat)
    requires i < |blocks| && Distinct(blocks + elems)
    ensures blocks[i] !in Reversed(blocks[..i]) + elems
    ensures [blocks[i]] + (Reversed(blocks[..i]) + elems) == Reversed(blocks[..i + 1]) + elems
  {
    var s := blocks + elems;
    assert s[i] == blocks[i] && blocks[..i] == s[..i];
    ReversedMembers(blocks[..i], blocks[i]);
    assert forall k :: 0 <= k < |elems| ==> elems[k] == s[|blocks| + k];
    assert blocks[..i + 1] == blocks[..i] + [blocks[i]];
    ReversedGrows(blocks[..i], blocks[i]);
  }

  class FreeList {
    const mem: Memory
    var head: int
    var count: nat

    /** The list holds elems, the most recently pushed first. */
    ghost predicate Holds(elems: seq<int>)
      reads this, mem
    {
      Chain(mem.next, head, elems) && count == |elems|
    }

    constructor (mem: Memory)
      ensures this.mem == mem && Holds([])
    {
      this.mem := mem;
      head, count := NULL, 0;
    }

    method Push(block: int, ghost elems: seq<int>)
      requires Holds(elems) && block != NULL && block !in elems
      modifies this, mem
      ensures Holds([block] + elems) && mem.next == old(mem.next)[block := old(head)]
    {
      ghost var was := mem.next;
      mem.next := mem.next[block := head];
      ChainSurvives(was, mem.next, head, elems);
      head := block;
      count := count + 1;
      assert ([block] + elems)[1..] == elems;
    }

    /** Afterwards the last block of the batch is the first to come out. */
    method PushBatch(blocks: seq<int>, ghost elems: seq<int>)
      requires Holds(elems) && NULL !in blocks && Distinct(blocks + elems)
      modifies this, mem
      ensures Holds(Reversed(blocks) + elems)
      ensures forall x :: x in old(mem.next) && x !in blocks ==> x in mem.next && mem.next[x] == old(mem.next)[x]
    {
      ghost var held := elems;
      for i := 0 to |blocks|
        invariant held == Reversed(blocks[..i]) + elems && Holds(held)
        invariant forall x :: x in old(mem.next) && x !in blocks ==> x in mem.next && mem.next[x] == old(mem.next)[x]
      {
        BatchGrows(blocks, elems, i);
        Push(blocks[i], held);
        held := [blocks[i]] + held;
      }
      assert blocks[..|blocks|] == blocks;
    }

    /** The most recently pushed block, or null; nothing is written to the blocks. */
    method Pop(ghost elems: seq<int>) returns (block: int)
      requires Holds(elems)
      modifies this
      ensures elems == [] ==> block == NULL && Holds([])
      ensures elems != [] ==> block == elems[0] != NULL && Holds(elems[1..])
    {
      if head == NULL {
        return NULL;
      }
      block := head;
      head := mem.next[block];
      count := count - 1;
    }

    method PopBatch(maxCount: nat, ghost elems: seq<int>) returns (out: seq<int>)
      requires Holds(elems)
      modifies this
      ensures |out| == (if |elems| < maxCount then |elems| else maxCount)
      ensures out == elems[..|out|] && Holds(elems[|out|..])
    {
      out := [];
      while |out| < maxCount && head != NULL
        invariant |out| <= maxCount && |out| <= |elems|
        invariant out == elems[..|out|] && Holds(elems[|out|..])
        decreases maxCount - |out|
      {
        var block := Pop(elems[|out|..]);
        assert elems[|out|..][1..] == elems[|out| + 1..];
        out := out + [block];
      }
    }
  }
}
