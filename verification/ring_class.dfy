/**
LockFreeMpmcQueue with its slots updated in place, used by one thread: the retry loops, with
compare-exchanges that may fail spuriously. Module Ring cuts the same code into atomic steps.
*/
module RingClass {
  import opened Basics
  import opened SlotIndex
  import opened Ring

  class LockFreeQueue {
    const capacity: nat
    const slots: array<Cell>
    var head: nat
    var tail: nat
    ghost var items: seq<Elem>  // the queued elements, the oldest first

    ghost predicate Valid()
      reads this, slots
    {
      && capacity >= 2 && slots.Length == capacity && tail == head + |items| <= head + capacity
      && (forall p: nat :: head <= p < tail ==> slots[Index(p, capacity)] == Cell(p + 1, Some(items[p - head])))
      && (forall p: nat :: tail <= p < head + capacity ==> slots[Index(p, capacity)] == Cell(p, None))
    }

    constructor (capacity: nat)
      requires capacity >= 2
      ensures Valid() && fresh(slots) && this.capacity == capacity && items == []
    {
      this.capacity := capacity;
      head, tail, items := 0, 0, [];
      slots := new Cell[capacity](i => Cell(i, None));
    }

    /** spurious: how often the weak compare-exchange fails without a reason. */
    method Push(item: Elem, spurious: nat) returns (ok: bool)
      requires Valid()
      modifies this`tail, this`items, slots
      ensures Valid() && ok == (|old(items)| < capacity)
      ensures items == if ok then old(items) + [item] else old(items)
    {
      hide Index;
      var failures := 0;
      while failures <= spurious
        invariant Valid() && tail == old(tail) && items == old(items)
        invariant failures <= spurious
        decreases spurious - failures
      {
        var pos := tail;
        FullOrFree(pos);
        var seqno := slots[Index(pos, capacity)].sequence;
        if seqno == pos && failures == spurious {
          FillSlot(item);
          return true;
        } else if seqno < pos {
          return false;
        }
        failures := failures + 1;
      }
    }

    /** The compare-exchange has succeeded: the element is constructed and published. */
    method FillSlot(item: Elem)
      requires Valid() && |items| < capacity
      modifies this`tail, this`items, slots
      ensures Valid() && items == old(items) + [item]
    {
      hide Index;
      OthersApart(capacity, tail);
      var i := Index(tail, capacity);
      slots[i] := Cell(slots[i].sequence, Some(item));
      slots[i] := Cell(tail + 1, slots[i].storage);
      tail := tail + 1;
      items := items + [item];
    }

    method Pop(spurious: nat) returns (out: Option<Elem>)
      requires Valid()
      modifies this`head, this`items, slots
      ensures Valid()
      ensures if old(items) == [] then out == None && items == []
              else out == Some(old(items)[0]) && items == old(items)[1..]
    {
      hide Index;
      var failures := 0;
      while failures <= spurious
        invariant Valid() && head == old(head) && items == old(items)
        invariant failures <= spurious
        decreases spurious - failures
      {
        var pos := head;
        var seqno := slots[Index(pos, capacity)].sequence;
        if seqno == pos + 1 && failures == spurious {
          out := EmptySlot();
          return;
        } else if seqno < pos + 1 {
          return None;
        }
        failures := failures + 1;
      }
    }

    /** The compare-exchange has succeeded: the element is moved out, and the slot freed for the next lap. */
    method EmptySlot() returns (out: Option<Elem>)
      requires Valid() && items != []
      modifies this`head, this`items, slots
      ensures Valid() && out == Some(old(items)[0]) && items == old(items)[1..]
    {
      hide Index;
      OthersApart(capacity, head);
      NextLap(head, capacity);
      var i := Index(head, capacity);
      out := slots[i].storage;
      slots[i] := Cell(slots[i].sequence, None);
      slots[i] := Cell(head + capacity, slots[i].storage);
      head := head + 1;
      items := items[1..];
    }

    method Count() returns (n: nat)
      requires Valid()
      ensures n == |items|
    {
      var reserved := tail - head;
      n := if reserved < capacity then reserved else capacity;
    }

    method IsEmpty() returns (e: bool)
      requires Valid()
      ensures e <==> items == []
    {
      e := slots[Index(head, capacity)].sequence != head + 1;
    }

    /** The slot at the tail is free for it, or, in a full ring, still a lap behind. */
    lemma FullOrFree(p: nat)
      requires Valid() && p == tail
      ensures if |items| < capacity then slots[Index(p, capacity)].sequence == p
              else slots[Index(p, capacity)].sequence == p - capacity + 1 < p
    {
      if |items| == capacity { NextLap(head, capacity); }
    }
  }

  /** Within one lap, no other position has p's slot. */
  lemma OthersApart(n: nat, p: nat)
    requires n > 0
    ensures forall q: nat :: q != p && q < p + n && p < q + n ==> Index(q, n) != Index(p, n)
  {
    hide Index;
    forall q: nat | q != p && q < p + n && p < q + n ensures Index(q, n) != Index(p, n) {
      if Index(q, n) == Index(p, n) {
        if q < p { LapGap(q, p, n); } else { LapGap(p, q, n); }
      }
    }
  }
}
