/** The bounded first-in first-out ring between reactor readiness and engine execution. */
module DispatchQueues {
  import opened Options

  /** The ring position k places after `head`. */
  function Ring(head: nat, k: nat, size: nat): (i: nat)
    requires size > 0
    ensures i < size
  {
    (head + k) % size
  }

  lemma RingWraps(head: nat, k: nat, size: nat)
    requires head < size && k < size
    ensures Ring(head, k, size) == if head + k < size then head + k else head + k - size
  {
    if head + k < size {
      assert (head + k) % size == head + k;
    } else {
      Remainder(head + k - size, size);
    }
  }

  lemma Remainder(x: nat, size: nat)
    requires x < size
    ensures (x + size) % size == x
  {
  }

  class QueryDispatchQueue<D> {
    const slots: array<Option<D>>
    var head: nat
    var len: nat
    /** What is queued, oldest first. */
    ghost var queued: seq<D>

    ghost predicate Valid()
      reads this, slots
    {
      && len == |queued| <= slots.Length && (head < slots.Length || head == 0)
      && (forall k {:trigger Ring(head, k, slots.Length)} :: 0 <= k < slots.Length ==>
            slots[Ring(head, k, slots.Length)] == if k < len then Some(queued[k]) else None)
    }

    constructor (capacity: nat)
      ensures Valid() && queued == [] && slots.Length == capacity && fresh(slots)
    {
      slots := new Option<D>[capacity](_ => None);
      head, len := 0, 0;
      queued := [];
    }

    /** The ring assertions of the source hold when the queue is not full. */
    method Push(d: D)
      requires Valid() && len < slots.Length
      modifies this`len, this`queued, slots
      ensures Valid() && queued == old(queued) + [d]
    {
      hide Ring;
      var tail := Ring(head, len, slots.Length);
      assert slots[tail] == None;
      forall k | 0 <= k < slots.Length && k != len ensures Ring(head, k, slots.Length) != tail {
        RingWraps(head, k, slots.Length);
        RingWraps(head, len, slots.Length);
      }
      slots[tail] := Some(d);
      len := len + 1;
      queued := queued + [d];
    }

    method Pop() returns (r: Option<D>)
      requires Valid()
      modifies this, slots
      ensures Valid()
      ensures if old(queued) == [] then r == None && queued == []
              else r == Some(old(queued)[0]) && queued == old(queued)[1..]
    {
      hide Ring;
      if len == 0 {
        return None;
      }
      var size := slots.Length;
      RingWraps(head, 0, size);
      assert slots[head] == Some(queued[0]) by { assert Ring(head, 0, size) == head; }
      r := slots[head];
      slots[head] := None;
      ghost var before := head;
      head := Ring(head, 1, size);
      len := len - 1;
      queued := queued[1..];
      forall k | 0 <= k < size ensures slots[Ring(head, k, size)] == if k < len then Some(queued[k]) else None {
        Shifted(before, head, k, size);
      }
    }
  }

  /** One step of the head moves every place down by one, and the popped place to the end. */
  lemma Shifted(before: nat, head: nat, k: nat, size: nat)
    requires before < size && head == Ring(before, 1, size) && k < size
    ensures Ring(head, k, size) == if k + 1 < size then Ring(before, k + 1, size) else before
    ensures k + 1 < size ==> Ring(before, k + 1, size) != before
  {
    if size > 1 {
      RingWraps(before, 1, size);
    } else {
      assert Ring(before, 1, size) == 0 == before;
    }
    RingWraps(head, k, size);
    if k + 1 < size { RingWraps(before, k + 1, size); }
  }
}
