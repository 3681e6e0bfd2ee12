/**
 The ring with a producer and a consumer that run line by line (docs/rw_barrier.md), in
 any interleaving of the two. Each line takes effect at once and is seen by the other
 actor from then on. While an entry is being filled its slot holds nothing meaningful.
 */
module RingActors {
  import opened Masks
  import opened IndexRing

  datatype Slot<T> = Torn | Full(value: T)

  /** Where the producer is; `tail` is its local copy. */
  datatype Producer<T> =
    | PIdle
    | PLoaded(v: T, tail: nat)
    | PFilling(v: T, tail: nat)
    | PFilled(v: T, tail: nat)
    | PListed(v: T, tail: nat)
    | PBumped(v: T, tail: nat)

  /** Where the consumer is; `took` tells whether it has processed an entry. */
  datatype Consumer =
    | CIdle
    | CLoaded(head: nat)
    | CProcessing(head: nat)
    | CStoring(head: nat, took: bool)

  /** `produced` and `consumed` are history; the latter records the slots as they were read. */
  datatype State<T> = State(
    bits: nat,
    head: nat,
    tail: nat,
    slots: seq<Slot<T>>,
    array_: seq<nat>,
    producer: Producer<T>,
    consumer: Consumer,
    produced: seq<T>,
    consumed: seq<Slot<T>>)

  /** The place a counter is masked to. */
  function At<T>(s: State<T>, counter: nat): nat {
    And(counter, Pow2(s.bits) - 1)
  }

  /** There is room: the counters' difference, as 32-bit arithmetic gives it, is below the size. */
  predicate Room<T>(s: State<T>) {
    (s.tail + WORD - s.head) % WORD < Pow2(s.bits)
  }

  predicate Sized<T>(s: State<T>) {
    s.bits <= 31 && |s.slots| == |s.array_| == Pow2(s.bits) && s.head < WORD && s.tail < WORD
  }

  datatype Event<T> =
    | LoadTail(v: T)
    | BeginFill
    | EndFill
    | List
    | BumpTail
    | StoreTail
    | LoadHead
    | Compare
    | Process
    | StoreHead

  predicate Enabled<T>(s: State<T>, e: Event<T>) {
    match e
    case LoadTail(_) => s.producer.PIdle? && Room(s)
    case BeginFill => s.producer.PLoaded? && At(s, s.producer.tail) < |s.slots|
    case EndFill => s.producer.PFilling? && At(s, s.producer.tail) < |s.slots|
    case List => s.producer.PFilled? && At(s, s.producer.tail) < |s.array_|
    case BumpTail => s.producer.PListed?
    case StoreTail => s.producer.PBumped?
    case LoadHead => s.consumer.CIdle?
    case Compare => s.consumer.CLoaded?
    case Process =>
      s.consumer.CProcessing? && At(s, s.consumer.head) < |s.array_| && s.array_[At(s, s.consumer.head)] < |s.slots|
    case StoreHead => s.consumer.CStoring?
  }

  function Apply<T>(s: State<T>, e: Event<T>): State<T>
    requires Enabled(s, e)
  {
    match e
    case LoadTail(v) => s.(producer := PLoaded(v, s.tail))
    case BeginFill =>
      s.(slots := s.slots[At(s, s.producer.tail) := Torn], producer := PFilling(s.producer.v, s.producer.tail))
    case EndFill =>
      s.(slots := s.slots[At(s, s.producer.tail) := Full(s.producer.v)],
         producer := PFilled(s.producer.v, s.producer.tail))
    case List =>
      s.(array_ := s.array_[At(s, s.producer.tail) := At(s, s.producer.tail)],
         producer := PListed(s.producer.v, s.producer.tail))
    case BumpTail => s.(producer := PBumped(s.producer.v, (s.producer.tail + 1) % WORD))
    case StoreTail => s.(tail := s.producer.tail, producer := PIdle, produced := s.produced + [s.producer.v])
    case LoadHead => s.(consumer := CLoaded(s.head))
    case Compare =>
      if s.consumer.head != s.tail then s.(consumer := CProcessing(s.consumer.head))
      else s.(consumer := CStoring(s.consumer.head, false))
    case Process =>
      s.(consumed := s.consumed + [s.slots[s.array_[At(s, s.consumer.head)]]],
         consumer := CStoring((s.consumer.head + 1) % WORD, true))
    case StoreHead => s.(head := s.consumer.head, consumer := CIdle)
  }

  ghost predicate Run<T>(s: State<T>, es: seq<Event<T>>, t: State<T>)
    decreases |es|
  {
    if es == [] then s == t else Enabled(s, es[0]) && Run(Apply(s, es[0]), es[1..], t)
  }

  /** An empty ring whose counters start anywhere. */
  predicate Empty<T>(s: State<T>) {
    && Sized(s) && s.head == s.tail && s.producer.PIdle? && s.consumer.CIdle? && s.produced == [] && s.consumed == []
  }

  /** Masking never leaves the ring, so no line above is ever held up by a bound. */
  lemma MaskInRange<T>(s: State<T>, counter: nat)
    requires Sized(s)
    ensures At(s, counter) < |s.slots|
  {
    hide And, Pow2;
    MaskIsRemainder(counter, s.bits);
  }

  // ---------------------------------------------------------------- the invariant

  /** How many entries the consumer has given back to the producer. */
  function Released<T>(s: State<T>): int {
    |s.consumed| - if s.consumer.CStoring? && s.consumer.took then 1 else 0
  }

  /** Entry `j` (counted from the start `base` of the counters) is in its slot. */
  ghost predicate Stored<T>(base: nat, s: State<T>, j: nat)
    requires Sized(s) && base <= j < base + |s.produced|
  {
    s.slots[Place(j, s.bits)] == Full(s.produced[j - base]) && s.array_[Place(j, s.bits)] == Place(j, s.bits)
  }

  /** Entries published and not released are in their slots. */
  ghost predicate SlotsInv<T>(base: nat, s: State<T>)
    requires Sized(s) && 0 <= Released(s)
  {
    forall j: nat :: base + Released(s) <= j < base + |s.produced| ==> Stored(base, s, j)
  }

  ghost predicate CountersInv<T>(base: nat, s: State<T>) {
    && Sized(s) && 0 <= Released(s) <= |s.consumed| <= |s.produced| <= Released(s) + Pow2(s.bits)
    && s.head == (base + Released(s)) % WORD && s.tail == (base + |s.produced|) % WORD
  }

  ghost predicate ProducerInv<T>(base: nat, s: State<T>)
    requires Sized(s)
  {
    var n := base + |s.produced|;
    && (!s.producer.PIdle? ==>
          |s.produced| < Released(s) + Pow2(s.bits)
          && s.producer.tail == (if s.producer.PBumped? then (n + 1) % WORD else n % WORD))
    && (s.producer.PFilled? || s.producer.PListed? || s.producer.PBumped? ==>
        s.slots[Place(n, s.bits)] == Full(s.producer.v))
    && (s.producer.PListed? || s.producer.PBumped? ==> s.array_[Place(n, s.bits)] == Place(n, s.bits))
  }

  ghost predicate ConsumerInv<T>(base: nat, s: State<T>) {
    && (s.consumer.CLoaded? || s.consumer.CProcessing? ==> s.consumer.head == s.head)
    && (s.consumer.CProcessing? ==> |s.consumed| < |s.produced|)
    && (s.consumer.CStoring? ==> s.consumer.head == (base + |s.consumed|) % WORD)
  }

  /** The entries come out whole, in order. */
  ghost predicate OrderInv<T>(s: State<T>) {
    && |s.consumed| <= |s.produced|
    && forall i :: 0 <= i < |s.consumed| ==> s.consumed[i] == Full(s.produced[i])
  }

  ghost predicate Inv<T>(base: nat, s: State<T>) {
    CountersInv(base, s) && SlotsInv(base, s) && ProducerInv(base, s) && ConsumerInv(base, s) && OrderInv(s)
  }

  // ---------------------------------------------------------------- the producer's lines

  /** Where the producer is at work is no entry waiting to be read. */
  lemma FreePlace<T>(base: nat, s: State<T>)
    requires CountersInv(base, s) && |s.produced| < Released(s) + Pow2(s.bits)
    ensures forall j: nat :: base + Released(s) <= j < base + |s.produced| ==>
            Place(j, s.bits) != Place(base + |s.produced|, s.bits)
  {
    hide Place, Pow2;
    forall j: nat | base + Released(s) <= j < base + |s.produced|
      ensures Place(j, s.bits) != Place(base + |s.produced|, s.bits) {
      PlacesDiffer(j, base + |s.produced|, s.bits);
    }
  }

  lemma RoomMeans<T>(base: nat, s: State<T>)
    requires CountersInv(base, s)
    ensures Room(s) <==> |s.produced| < Released(s) + Pow2(s.bits)
  {
    SmallerThanWord(s.bits);
    hide Pow2, Released;
    Difference(base + Released(s), base + |s.produced|);
  }

  lemma Difference(a: nat, b: nat)
    requires a <= b < a + WORD
    ensures (b % WORD + WORD - a % WORD) % WORD == b - a
  {
  }

  /** The producer works on a free place: the waiting entries stay, and so does all the consumer looks at. */
  lemma ProducerFrame<T>(base: nat, s: State<T>, s': State<T>)
    requires Inv(base, s) && !s.producer.PIdle?
    requires s' == s.(slots := s'.slots, array_ := s'.array_, producer := s'.producer)
    requires |s'.slots| == |s.slots| && |s'.array_| == |s.array_|
    requires forall k :: 0 <= k < |s.slots| && k != Place(base + |s.produced|, s.bits) ==>
               s'.slots[k] == s.slots[k] && s'.array_[k] == s.array_[k]
    ensures CountersInv(base, s') && SlotsInv(base, s') && ConsumerInv(base, s') && OrderInv(s')
  {
    hide Place, And, Pow2;
    FreePlace(base, s);
    forall j: nat | base + Released(s') <= j < base + |s'.produced| ensures Stored(base, s', j) {
      assert Stored(base, s, j);
    }
  }

  lemma LoadTailKeeps<T>(base: nat, s: State<T>, v: T)
    requires Inv(base, s) && Enabled(s, LoadTail(v))
    ensures Inv(base, Apply(s, LoadTail(v)))
  {
    RoomMeans(base, s);
    hide Place, And, Pow2, Room;
    var s' := Apply(s, LoadTail(v));
    forall j: nat | base + Released(s') <= j < base + |s'.produced| ensures Stored(base, s', j) {
      assert Stored(base, s, j);
    }
  }

  lemma ProducerKeeps<T>(base: nat, s: State<T>, e: Event<T>)
    requires Inv(base, s) && Enabled(s, e) && (e.BeginFill? || e.EndFill? || e.List? || e.BumpTail?)
    ensures Inv(base, Apply(s, e))
  {
    hide Place, And, Pow2, Room;
    var n := base + |s.produced|;
    MaskedCounter(n, s.bits);
    NextCounter(n);
    ProducerFrame(base, s, Apply(s, e));
    hide SlotsInv, OrderInv, ConsumerInv, CountersInv;
  }

  lemma StoreTailKeeps<T>(base: nat, s: State<T>)
    requires Inv(base, s) && s.producer.PBumped?
    ensures Inv(base, Apply(s, StoreTail))
  {
    hide Place, And, Pow2, Room;
    var s' := Apply(s, StoreTail);
    forall j: nat | base + Released(s') <= j < base + |s'.produced| ensures Stored(base, s', j) {
      if j < base + |s.produced| { assert Stored(base, s, j); }
    }
  }

  // ---------------------------------------------------------------- the consumer's lines

  /** The consumer changes no slot and gives back no entry but with its last line. */
  lemma ConsumerFrame<T>(base: nat, s: State<T>, s': State<T>)
    requires CountersInv(base, s) && SlotsInv(base, s) && ProducerInv(base, s) && Released(s') >= Released(s)
    requires s' == s.(head := s'.head, consumer := s'.consumer, consumed := s'.consumed) && s'.head < WORD
    ensures Sized(s') && SlotsInv(base, s') && ProducerInv(base, s')
  {
    hide Place, And, Pow2;
    forall j: nat | base + Released(s') <= j < base + |s'.produced| ensures Stored(base, s', j) {
      assert Stored(base, s, j);
    }
  }

  lemma CompareKeeps<T>(base: nat, s: State<T>)
    requires Inv(base, s) && s.consumer.CLoaded?
    ensures Inv(base, Apply(s, Compare))
  {
    SmallerThanWord(s.bits);
    hide Place, And, Pow2, Room;
    ConsumerFrame(base, s, Apply(s, Compare));
    WrapsApart(base + Released(s), base + |s.produced|);
    hide SlotsInv, ProducerInv;
  }

  lemma LoadHeadKeeps<T>(base: nat, s: State<T>)
    requires Inv(base, s) && s.consumer.CIdle?
    ensures Inv(base, Apply(s, LoadHead))
  {
    hide Place, And, Pow2, Room;
    ConsumerFrame(base, s, Apply(s, LoadHead));
    hide SlotsInv, ProducerInv;
  }

  /** The consumer finds the slot of the oldest entry. */
  lemma ReadsOldest<T>(base: nat, s: State<T>)
    requires Inv(base, s) && s.consumer.CProcessing?
    ensures var k := At(s, s.consumer.head);
            && k == Place(base + |s.consumed|, s.bits) && s.array_[k] == k
            && s.slots[k] == Full(s.produced[|s.consumed|])
  {
    hide Place, And, Pow2, Room;
    var j := base + |s.consumed|;
    MaskedCounter(j, s.bits);
    assert Stored(base, s, j);
  }

  lemma ProcessKeeps<T>(base: nat, s: State<T>)
    requires Inv(base, s) && s.consumer.CProcessing? && Enabled(s, Process)
    ensures Inv(base, Apply(s, Process))
  {
    hide Place, And, Pow2, Room;
    ReadsOldest(base, s);
    NextCounter(base + |s.consumed|);
    ConsumerFrame(base, s, Apply(s, Process));
    hide SlotsInv, ProducerInv;
  }

  lemma StoreHeadKeeps<T>(base: nat, s: State<T>)
    requires Inv(base, s) && s.consumer.CStoring?
    ensures Inv(base, Apply(s, StoreHead))
  {
    hide Place, And, Pow2, Room;
    ConsumerFrame(base, s, Apply(s, StoreHead));
    hide SlotsInv, ProducerInv;
  }

  // ---------------------------------------------------------------- runs

  lemma StepKeeps<T>(base: nat, s: State<T>, e: Event<T>)
    requires Inv(base, s) && Enabled(s, e)
    ensures Inv(base, Apply(s, e))
  {
    hide Inv, Place, And, Pow2, Room;
    match e
    case LoadTail(v) => LoadTailKeeps(base, s, v);
    case StoreTail => StoreTailKeeps(base, s);
    case LoadHead => LoadHeadKeeps(base, s);
    case Compare => CompareKeeps(base, s);
    case Process => ProcessKeeps(base, s);
    case StoreHead => StoreHeadKeeps(base, s);
    case _ => ProducerKeeps(base, s, e);
  }

  lemma {:induction false} RunKeeps<T>(base: nat, s: State<T>, es: seq<Event<T>>, t: State<T>)
    requires Inv(base, s) && Run(s, es, t)
    ensures Inv(base, t)
    decreases |es|
  {
    hide Inv, Enabled, Apply;
    if es != [] {
      StepKeeps(base, s, es[0]);
      RunKeeps(base, Apply(s, es[0]), es[1..], t);
    }
  }

  lemma EmptyInv<T>(s: State<T>)
    requires Empty(s)
    ensures Inv(s.head, s)
  {
    hide Pow2, Place;
  }

  /**
   The ring is a bounded queue, across any number of wrap-arounds: what has been consumed
   is an initial part of what has been produced, whole entries in order, and the rest fits
   the ring.
   */
  lemma BoundedFifo<T>(s: State<T>, es: seq<Event<T>>, t: State<T>)
    requires Empty(s) && Run(s, es, t)
    ensures |t.consumed| <= |t.produced| && |t.produced| - |t.consumed| <= Pow2(t.bits)
    ensures forall i :: 0 <= i < |t.consumed| ==> t.consumed[i] == Full(t.produced[i])
  {
    EmptyInv(s);
    RunKeeps(s.head, s, es, t);
    hide Pow2, Place, Run;
  }

  /**
   Nobody misses anything, across any number of wrap-arounds: a comparison of the counters
   finds an entry exactly when one has been produced and not consumed, and the producer can
   begin exactly when fewer entries than the size have not been given back.
   */
  lemma BothSeeExactly<T>(s: State<T>, es: seq<Event<T>>, t: State<T>, v: T)
    requires Empty(s) && Run(s, es, t)
    ensures t.consumer.CLoaded? ==> (Apply(t, Compare).consumer.CProcessing? <==> |t.consumed| < |t.produced|)
    ensures t.producer.PIdle? ==> (Enabled(t, LoadTail(v)) <==> |t.produced| - Released(t) < Pow2(t.bits))
  {
    EmptyInv(s);
    RunKeeps(s.head, s, es, t);
    RoomMeans(s.head, t);
    SmallerThanWord(t.bits);
    WrapsApart(s.head + Released(t), s.head + |t.produced|);
    hide Pow2, Place, Run, And, SlotsInv, OrderInv, ProducerInv, Room;
  }

  /** The slot the consumer is processing is never the one the producer is filling, and it is whole. */
  lemma NeverReadsWhatIsFilled<T>(s: State<T>, es: seq<Event<T>>, t: State<T>)
    requires Empty(s) && Run(s, es, t) && t.consumer.CProcessing?
    ensures var k := At(t, t.consumer.head);
            && k < |t.array_| && t.array_[k] < |t.slots| && t.slots[t.array_[k]].Full?
            && (!t.producer.PIdle? && !t.producer.PBumped? ==> t.array_[k] != At(t, t.producer.tail))
  {
    EmptyInv(s);
    RunKeeps(s.head, s, es, t);
    ReadsOldest(s.head, t);
    hide Pow2, Place, Run, And, SlotsInv, OrderInv;
    if !t.producer.PIdle? {
      FreePlace(s.head, t);
      MaskedCounter(s.head + |t.produced|, t.bits);
    }
  }
}
