/**
 The ring under all queues: free-running 32-bit head and tail, masked to find a slot
 (docs/rw_barrier.md), here used by one actor at a time.
 */
module IndexRing {
  import opened Masks

  /** The slot of the entry with this number. */
  function Place(i: nat, bits: nat): (p: nat)
    ensures p < Pow2(bits)
  {
    i % Pow2(bits)
  }

  /** The slot is found by masking the wrapped counter. */
  lemma MaskedCounter(i: nat, bits: nat)
    requires bits <= 32
    ensures And(i % WORD, Pow2(bits) - 1) == Place(i, bits)
  {
    hide And, Pow2;
    MaskIsRemainder(i % WORD, bits);
    WrapKeepsPlace(i, bits);
  }

  lemma PlacesDiffer(a: nat, b: nat, bits: nat)
    requires a < b < a + Pow2(bits)
    ensures Place(a, bits) != Place(b, bits)
  {
    PlacesApart(a, b, Pow2(bits));
  }

  lemma OneRound(a: nat, bits: nat)
    ensures Place(a + Pow2(bits), bits) == Place(a, bits)
  {
    hide Pow2;
    var d := Pow2(bits);
    Divide(a, d);
    Spread(a / d, 0, d);
    Remainder(a + d, d, a / d + 1, a % d);
  }

  lemma NextCounter(x: nat)
    ensures (x % WORD + 1) % WORD == (x + 1) % WORD
  {
  }

  class Ring<T(0)> {
    const bits: nat
    const slots: array<T>
    const index: array<nat>
    var head: nat
    var tail: nat
    /** The queue the ring stands for, and the number of its first entry. */
    ghost var queue: seq<T>
    ghost var first: nat

    ghost predicate Valid()
      reads this, slots, index
    {
      && bits <= 31 && slots.Length == index.Length == Pow2(bits) && (slots as object) != index
      && |queue| <= Pow2(bits) && head == first % WORD && tail == (first + |queue|) % WORD
      && (forall j: nat :: first <= j < first + |queue| ==>
            index[Place(j, bits)] == Place(j, bits) && slots[Place(j, bits)] == queue[j - first])
    }

    constructor (bits: nat, start: nat)
      requires bits <= 31
      ensures Valid() && fresh(slots) && fresh(index) && queue == [] && this.bits == bits && first == start
    {
      this.bits := bits;
      slots := new T[Pow2(bits)];
      index := new nat[Pow2(bits)];
      head, tail := start % WORD, start % WORD;
      queue, first := [], start;
    }

    /** Making a submission. The caller has made sure that the ring is not full. */
    method Submit(v: T)
      requires Valid() && |queue| < Pow2(bits)
      modifies this`tail, this`queue, slots, index
      ensures Valid() && queue == old(queue) + [v] && first == old(first)
    {
      hide Place, And, Pow2;
      var n := first + |queue|;
      MaskedCounter(n, bits);
      NextCounter(n);
      forall j: nat | first <= j < n ensures Place(j, bits) != Place(n, bits) {
        PlacesDiffer(j, n, bits);
      }
      var t := tail;
      var k := And(t, Pow2(bits) - 1);
      slots[k] := v;
      index[k] := k;
      t := (t + 1) % WORD;
      tail := t;
      queue := queue + [v];
    }

    /** Reading a completion: nothing exactly when the queue is empty. */
    method Reap() returns (found: bool, v: T)
      requires Valid()
      modifies this`head, this`queue, this`first
      ensures Valid() && (found <==> old(queue) != [])
      ensures found ==> v == old(queue)[0] && queue == old(queue)[1..]
      ensures !found ==> queue == old(queue)
    {
      hide Place, And, Pow2;
      SmallerThanWord(bits);
      WrapsApart(first, first + |queue|);
      MaskedCounter(first, bits);
      NextCounter(first);
      var h := head;
      v := *;
      found := h != tail;
      if found {
        assert index[Place(first, bits)] == Place(first, bits);
        var k := And(h, Pow2(bits) - 1);
        v := slots[index[k]];
        h := (h + 1) % WORD;
        queue, first := queue[1..], first + 1;
      }
      head := h;
    }
  }

  /** Why the caller must make sure: the slot to be filled holds an unread entry exactly when the ring is full. */
  lemma FullExactly(first: nat, next: nat, bits: nat)
    requires first <= next <= first + Pow2(bits)
    ensures (exists j: nat :: first <= j < next && Place(j, bits) == Place(next, bits)) <==> next == first + Pow2(bits)
  {
    hide Place, Pow2;
    if next == first + Pow2(bits) {
      OneRound(first, bits);
      assert Place(first, bits) == Place(next, bits);
    } else {
      forall j: nat | first <= j < next ensures Place(j, bits) != Place(next, bits) {
        PlacesDiffer(j, next, bits);
      }
    }
  }
}
