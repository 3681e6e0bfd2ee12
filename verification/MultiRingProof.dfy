/** What every interleaving of the rings keeps. */
module MultiRingProof {
  import opened Streams
  import opened Kernel
  import opened Census
  import opened MultiRing

  // ---------------------------------------------------------------- the invariant

  function OpFd(e: Sqe): Option<nat> { if e.op.Accept? then None else Some(e.op.fd) }

  /** A completed close concerns nothing any more: its descriptor may already be in use again. */
  function DoneFd(c: Cqe): Option<nat> {
    match c.sqe.op
    case Accept => if c.res >= 0 then Some(c.res) else None
    case Recv(fd, _) => Some(fd)
    case Send(fd, _, _) => Some(fd)
    case Close(_) => None
  }

  function Active(s: State): multiset<nat> {
    Count(s.sq, OpFd) + Count(s.kernel, OpFd) + Count(s.cq, DoneFd)
  }

  /** At most one operation per open connection, over all rings, and none on a closed one. */
  ghost predicate ActiveInv(s: State) {
    Active(s) <= multiset(s.world.streams.Keys)
  }

  function RingPtr(r: nat): Sqe -> Option<nat> {
    (e: Sqe) => if e.ring == r then Some(e.ptr) else None
  }
  function RingDone(r: nat): Cqe -> Option<nat> {
    (c: Cqe) => if c.sqe.ring == r then Some(c.sqe.ptr) else None
  }

  /** The addresses under which a ring's operations will come back. */
  function Awaited(s: State, r: nat): multiset<nat> {
    Count(s.sq, RingPtr(r)) + Count(s.kernel, RingPtr(r)) + Count(s.cq, RingDone(r))
  }

  /** Each ring's map holds exactly the events of its own operations, each once. */
  ghost predicate MapInv(s: State) {
    forall r :: 0 <= r < |s.maps| ==> Awaited(s, r) == multiset(s.maps[r].Keys)
  }

  /** The event found under an operation's address is that operation's own. */
  ghost predicate Own(s: State, e: Sqe) {
    e.ring < |s.maps| && e.ptr in s.maps[e.ring] && s.maps[e.ring][e.ptr] == InfoOf(s.listenFd, e.op)
  }

  ghost predicate OwnInv(s: State) {
    && (forall e :: e in s.sq ==> Own(s, e))
    && (forall e :: e in s.kernel ==> Own(s, e))
    && (forall c :: c in s.cq ==> Own(s, c.sqe))
  }

  ghost predicate Inv(s: State) {
    ActiveInv(s) && MapInv(s) && OwnInv(s)
  }

  // ---------------------------------------------------------------- one operation per connection

  lemma Elsewhere(rest: State, keys: set<nat>, fd: nat)
    requires Active(rest) + multiset{fd} <= multiset(keys)
    ensures fd in keys
    ensures forall e :: e in rest.sq ==> OpFd(e) != Some(fd)
    ensures forall e :: e in rest.kernel ==> OpFd(e) != Some(fd)
    ensures forall c :: c in rest.cq ==> DoneFd(c) != Some(fd)
  {
    assert (Active(rest) + multiset{fd})[fd] <= multiset(keys)[fd] <= 1;
    Absent(rest.sq, OpFd, fd);
    Absent(rest.kernel, OpFd, fd);
    Absent(rest.cq, DoneFd, fd);
  }

  // ---------------------------------------------------------------- a ring's entry is taken

  lemma TakeOwn(s: State, i: nat)
    requires OwnInv(s) && i < |s.sq|
    ensures OwnInv(Take(s, i))
  {
    hide InfoOf;
    var s' := Take(s, i);
    assert s.sq[i] in s.sq;
    assert forall e :: e in s'.sq ==> e in s.sq;
    assert forall e :: Own(s', e) == Own(s, e);
  }

  lemma TakeKeeps(s: State, i: nat)
    requires Inv(s) && i < |s.sq|
    ensures Inv(Take(s, i))
  {
    hide Active, OwnInv, Awaited;
    TakeActive(s, i);
    TakeOwn(s, i);
    forall r | 0 <= r < |s.maps| ensures Awaited(Take(s, i), r) == multiset(s.maps[r].Keys) {
      TakeAwaited(s, i, r);
    }
  }

  lemma TakeActive(s: State, i: nat)
    requires i < |s.sq|
    ensures Active(Take(s, i)) == Active(s)
  {
    hide Count;
    var s' := Take(s, i);
    CountRemove(s.sq, i, OpFd);
    CountAppend(s.kernel, s.sq[i], OpFd);
    Moved(Count(s.sq, OpFd), Count(s'.sq, OpFd), Count(s.kernel, OpFd), Count(s'.kernel, OpFd),
          Count(s.cq, DoneFd), One(OpFd(s.sq[i])));
  }

  lemma TakeAwaited(s: State, i: nat, r: nat)
    requires i < |s.sq|
    ensures Awaited(Take(s, i), r) == Awaited(s, r)
  {
    hide Count, RingPtr, RingDone;
    var s' := Take(s, i);
    CountRemove(s.sq, i, RingPtr(r));
    CountAppend(s.kernel, s.sq[i], RingPtr(r));
    Moved(Count(s.sq, RingPtr(r)), Count(s'.sq, RingPtr(r)), Count(s.kernel, RingPtr(r)), Count(s'.kernel, RingPtr(r)),
          Count(s.cq, RingDone(r)), One(RingPtr(r)(s.sq[i])));
  }

  // ---------------------------------------------------------------- an operation completes

  function Without(s: State, k: nat): State
    requires k < |s.kernel|
  {
    s.(kernel := s.kernel[..k] + s.kernel[k + 1..])
  }

  lemma WithoutActive(s: State, k: nat)
    requires k < |s.kernel|
    ensures Active(s) == Active(Without(s, k)) + One(OpFd(s.kernel[k]))
  {
    hide Count;
    CountRemove(s.kernel, k, OpFd);
    Released(Count(s.kernel, OpFd), Count(Without(s, k).kernel, OpFd), Count(s.sq, OpFd), Count(s.cq, DoneFd),
             One(OpFd(s.kernel[k])));
  }

  lemma FinishCounts(reserved: set<nat>, s: State, k: nat, o: Outcome)
    requires CanFinish(reserved, s, k, o)
    ensures var s' := Finish(reserved, s, k, o);
            && Active(s') == Active(Without(s, k)) + One(DoneFd(Cqe(s.kernel[k], Res(o))))
            && s'.world.streams.Keys ==
                 s.world.streams.Keys + (if o.Accepted? then {o.fd} else {})
                   - (if o.Closed? then {s.kernel[k].op.fd} else {})
  {
    hide Count;
    var s' := Finish(reserved, s, k, o);
    var c := Cqe(s.kernel[k], Res(o));
    CountAppend(s.cq, c, DoneFd);
    Associative(Count(s.sq, OpFd) + Count(s'.kernel, OpFd), Count(s.cq, DoneFd), One(DoneFd(c)));
  }

  lemma FinishActive(reserved: set<nat>, s: State, k: nat, o: Outcome)
    requires CanFinish(reserved, s, k, o) && ActiveInv(s)
    ensures ActiveInv(Finish(reserved, s, k, o))
  {
    hide Active, Finish, Without;
    WithoutActive(s, k);
    FinishCounts(reserved, s, k, o);
    var rest, keys, op := Active(Without(s, k)), s.world.streams.Keys, s.kernel[k].op;
    if op.Close? {
      LeavesBelow(rest, keys, op.fd);
      PartBelow(rest, rest + multiset{op.fd}, keys);
    } else if o.Accepted? {
      JoinsBelow(rest, keys, o.fd);
    }
  }

  lemma FinishAwaited(reserved: set<nat>, s: State, k: nat, o: Outcome, r: nat)
    requires CanFinish(reserved, s, k, o)
    ensures Awaited(Finish(reserved, s, k, o), r) == Awaited(s, r)
  {
    hide Count;
    var s' := Finish(reserved, s, k, o);
    var c := Cqe(s.kernel[k], Res(o));
    CountRemove(s.kernel, k, RingPtr(r));
    CountAppend(s.cq, c, RingDone(r));
    assert RingDone(r)(c) == RingPtr(r)(s.kernel[k]);
    Moved(Count(s.kernel, RingPtr(r)), Count(s'.kernel, RingPtr(r)), Count(s.cq, RingDone(r)),
          Count(s'.cq, RingDone(r)),
          Count(s.sq, RingPtr(r)), One(RingPtr(r)(s.kernel[k])));
  }

  lemma FinishOwn(reserved: set<nat>, s: State, k: nat, o: Outcome)
    requires CanFinish(reserved, s, k, o) && OwnInv(s)
    ensures OwnInv(Finish(reserved, s, k, o))
  {
    hide Exec, InfoOf;
    var s' := Finish(reserved, s, k, o);
    assert s.kernel[k] in s.kernel;
    assert forall e :: e in s'.kernel ==> e in s.kernel;
    assert s'.cq == s.cq + [Cqe(s.kernel[k], Res(o))];
    assert forall e :: Own(s', e) == Own(s, e);
  }

  lemma FinishKeeps(reserved: set<nat>, s: State, k: nat, o: Outcome)
    requires Inv(s) && CanFinish(reserved, s, k, o)
    ensures Inv(Finish(reserved, s, k, o))
  {
    hide ActiveInv, OwnInv, Awaited;
    FinishActive(reserved, s, k, o);
    FinishOwn(reserved, s, k, o);
    forall r | 0 <= r < |s.maps| ensures Awaited(Finish(reserved, s, k, o), r) == multiset(s.maps[r].Keys) {
      FinishAwaited(reserved, s, k, o, r);
    }
  }

  // ---------------------------------------------------------------- an event is produced

  lemma ProduceActive(s: State, ring: nat, ptr: nat, op: Op)
    requires ring < |s.maps|
    ensures Active(Produce(s, ring, ptr, op)) == Active(s) + One(OpFd(Sqe(ring, ptr, op)))
  {
    hide Count;
    var e := Sqe(ring, ptr, op);
    CountAppend(s.sq, e, OpFd);
    Released(Count(s.sq + [e], OpFd), Count(s.sq, OpFd), Count(s.kernel, OpFd), Count(s.cq, DoneFd), One(OpFd(e)));
  }

  lemma ProduceAwaited(s: State, ring: nat, ptr: nat, op: Op, r: nat)
    requires ring < |s.maps|
    ensures Awaited(Produce(s, ring, ptr, op), r) == Awaited(s, r) + (if r == ring then multiset{ptr} else multiset{})
  {
    hide Count;
    var e := Sqe(ring, ptr, op);
    CountAppend(s.sq, e, RingPtr(r));
    Released(Count(s.sq + [e], RingPtr(r)), Count(s.sq, RingPtr(r)), Count(s.kernel, RingPtr(r)),
             Count(s.cq, RingDone(r)),
             One(RingPtr(r)(e)));
  }

  lemma ProduceMaps(s: State, ring: nat, ptr: nat, op: Op)
    requires MapInv(s) && ring < |s.maps| && Unused(s, ptr)
    ensures MapInv(Produce(s, ring, ptr, op))
  {
    hide Awaited;
    var s' := Produce(s, ring, ptr, op);
    forall r | 0 <= r < |s'.maps| ensures Awaited(s', r) == multiset(s'.maps[r].Keys) {
      ProduceAwaited(s, ring, ptr, op, r);
      if r == ring {
        assert s'.maps[r].Keys == s.maps[r].Keys + {ptr};
        Joined(s.maps[r].Keys, multiset{ptr}, multiset{}, ptr);
      }
    }
  }

  lemma ProduceOwn(s: State, ring: nat, ptr: nat, op: Op)
    requires OwnInv(s) && ring < |s.maps| && Unused(s, ptr)
    ensures OwnInv(Produce(s, ring, ptr, op))
  {
    hide InfoOf;
    var s' := Produce(s, ring, ptr, op);
    forall e | Own(s, e) ensures Own(s', e) {
    }
    assert Own(s', Sqe(ring, ptr, op));
  }

  lemma ProduceKeeps(s: State, ring: nat, ptr: nat, op: Op)
    requires MapInv(s) && OwnInv(s) && ring < |s.maps| && Unused(s, ptr)
    ensures var s' := Produce(s, ring, ptr, op);
            && MapInv(s') && OwnInv(s') && Active(s') == Active(s) + One(OpFd(Sqe(ring, ptr, op)))
            && s'.world == s.world && |s'.maps| == |s.maps|
            && forall q :: q != ptr && Unused(s, q) ==> Unused(s', q)
  {
    hide MapInv, OwnInv, Active;
    ProduceActive(s, ring, ptr, op);
    ProduceMaps(s, ring, ptr, op);
    ProduceOwn(s, ring, ptr, op);
  }

  // ---------------------------------------------------------------- a completion is handled

  /** The state after the event of the completion at `i` has been looked up and deleted. */
  function Drop(s: State, i: nat): State
    requires i < |s.cq| && Known(s, i)
  {
    var c := s.cq[i];
    s.(maps := s.maps[c.sqe.ring := s.maps[c.sqe.ring] - {c.sqe.ptr}], cq := s.cq[..i] + s.cq[i + 1..])
  }

  lemma DropActive(s: State, i: nat)
    requires i < |s.cq| && Known(s, i)
    ensures Active(s) == Active(Drop(s, i)) + One(DoneFd(s.cq[i]))
  {
    hide Count;
    var t := Drop(s, i);
    CountRemove(s.cq, i, DoneFd);
    Associative(Count(s.sq, OpFd) + Count(s.kernel, OpFd), Count(t.cq, DoneFd), One(DoneFd(s.cq[i])));
  }

  lemma DropAwaited(s: State, i: nat, r: nat)
    requires i < |s.cq| && Known(s, i)
    ensures Awaited(s, r) == Awaited(Drop(s, i), r) +
            (if r == s.cq[i].sqe.ring then multiset{s.cq[i].sqe.ptr} else multiset{})
  {
    hide Count;
    var t := Drop(s, i);
    CountRemove(s.cq, i, RingDone(r));
    Associative(Count(s.sq, RingPtr(r)) + Count(s.kernel, RingPtr(r)), Count(t.cq, RingDone(r)),
                One(RingDone(r)(s.cq[i])));
  }

  lemma DropMaps(s: State, i: nat)
    requires MapInv(s) && i < |s.cq| && Known(s, i)
    ensures MapInv(Drop(s, i))
  {
    hide Awaited;
    var t := Drop(s, i);
    forall r | 0 <= r < |t.maps| ensures Awaited(t, r) == multiset(t.maps[r].Keys) {
      DropAwaited(s, i, r);
      if r == s.cq[i].sqe.ring {
        Departed(s.maps[r].Keys, Awaited(t, r), s.cq[i].sqe.ptr);
        assert t.maps[r].Keys == s.maps[r].Keys - {s.cq[i].sqe.ptr};
      }
    }
  }

  /** No other operation of the ring uses the address of the event at hand. */
  lemma AddressElsewhere(s: State, i: nat)
    requires MapInv(s) && i < |s.cq| && Known(s, i)
    ensures var t, x := Drop(s, i), s.cq[i].sqe;
            && (forall e :: e in t.sq && e.ring == x.ring ==> e.ptr != x.ptr)
            && (forall e :: e in t.kernel && e.ring == x.ring ==> e.ptr != x.ptr)
            && (forall c :: c in t.cq && c.sqe.ring == x.ring ==> c.sqe.ptr != x.ptr)
  {
    var t, x := Drop(s, i), s.cq[i].sqe;
    DropAwaited(s, i, x.ring);
    assert multiset(s.maps[x.ring].Keys)[x.ptr] == 1;
    assert x.ptr !in Awaited(t, x.ring);
    Absent(t.sq, RingPtr(x.ring), x.ptr);
    Absent(t.kernel, RingPtr(x.ring), x.ptr);
    Absent(t.cq, RingDone(x.ring), x.ptr);
    hide Count;
    forall e | e in t.sq && e.ring == x.ring ensures e.ptr != x.ptr { assert RingPtr(x.ring)(e) == Some(e.ptr); }
    forall e | e in t.kernel && e.ring == x.ring ensures e.ptr != x.ptr { assert RingPtr(x.ring)(e) == Some(e.ptr); }
    forall c | c in t.cq && c.sqe.ring == x.ring
      ensures c.sqe.ptr != x.ptr { assert RingDone(x.ring)(c) == Some(c.sqe.ptr); }
  }

  lemma DropOwn(s: State, i: nat)
    requires MapInv(s) && OwnInv(s) && i < |s.cq| && Known(s, i)
    ensures OwnInv(Drop(s, i))
  {
    hide MapInv, InfoOf;
    AddressElsewhere(s, i);
    var t := Drop(s, i);
    assert forall c :: c in t.cq ==> c in s.cq;
    forall e | e in t.sq || e in t.kernel ensures Own(t, e) { assert Own(s, e); }
    forall c | c in t.cq ensures Own(t, c.sqe) { assert Own(s, c.sqe); }
  }

  /** Every completion finds its own event: the exit for an unknown one is never taken. */
  lemma AlwaysKnown(s: State, i: nat)
    requires OwnInv(s) && i < |s.cq|
    ensures Known(s, i) && s.maps[s.cq[i].sqe.ring][s.cq[i].sqe.ptr] == InfoOf(s.listenFd, s.cq[i].sqe.op)
  {
    assert s.cq[i] in s.cq;
  }

  /** The loop body, by what was completed. */
  lemma HandleShape(s: State, i: nat, p: nat, q: nat)
    requires OwnInv(s) && i < |s.cq|
    ensures Known(s, i)
    ensures var c, t, r := s.cq[i], Drop(s, i), s.cq[i].sqe.ring;
            Handle(s, i, p, q) ==
            match c.sqe.op
            case Accept => if c.res < 0 then t else Produce(Produce(t, r, p, Accept), r, q, Recv(c.res, s.gen))
            case Recv(fd, _) =>
              if c.res > 0 then Produce(t, r, p, Send(fd, s.gen, c.res))
              else if c.res != -EBADF then Produce(t, r, p, Close(fd)) else t
            case Send(fd, _, _) => Produce(t, r, p, Recv(fd, s.gen))
            case Close(_) => t
  {
    hide OwnInv;
    AlwaysKnown(s, i);
  }

  lemma DropKeeps(s: State, i: nat, p: nat, q: nat)
    requires Inv(s) && i < |s.cq| && Known(s, i) && Unused(s, p) && Unused(s, q)
    ensures var t := Drop(s, i);
            && MapInv(t) && OwnInv(t) && Active(s) == Active(t) + One(DoneFd(s.cq[i])) && ActiveInv(t)
            && t.world == s.world && |t.maps| == |s.maps| && Unused(t, p) && Unused(t, q)
  {
    hide MapInv, OwnInv, Active;
    DropMaps(s, i);
    DropOwn(s, i);
    DropActive(s, i);
    PartBelow(Active(Drop(s, i)), Active(s), s.world.streams.Keys);
  }

  lemma HandleKeeps(s: State, i: nat, p: nat, q: nat)
    requires Inv(s) && i < |s.cq| && Unused(s, p) && Unused(s, q) && p != q
    ensures Known(s, i) && Inv(Handle(s, i, p, q))
  {
    hide MapInv, OwnInv, Active, Handle, Drop, Produce, Unused;
    HandleShape(s, i, p, q);
    DropKeeps(s, i, p, q);
    var c, t, r := s.cq[i], Drop(s, i), s.cq[i].sqe.ring;
    OneNone();
    match c.sqe.op
    case Accept =>
      if c.res >= 0 {
        ProduceKeeps(t, r, p, Accept);
        ProduceKeeps(Produce(t, r, p, Accept), r, q, Recv(c.res, s.gen));
      }
    case Recv(fd, _) =>
      if c.res > 0 {
        ProduceKeeps(t, r, p, Send(fd, s.gen, c.res));
      } else if c.res != -EBADF {
        ProduceKeeps(t, r, p, Close(fd));
      }
    case Send(fd, _, _) => ProduceKeeps(t, r, p, Recv(fd, s.gen));
    case Close(_) =>
  }

  /** Neither the generation nor the memory matters to the protocol. */
  lemma SwapTable(s: State, started: set<nat>, gen: nat, mem: map<(nat, nat), seq<byte>>)
    requires MapInv(s) && OwnInv(s)
    ensures var t := s.(started := started, gen := gen, world := s.world.(mem := mem));
            MapInv(t) && OwnInv(t) && Active(t) == Active(s)
  {
    hide Count, InfoOf;
    var t := s.(started := started, gen := gen, world := s.world.(mem := mem));
    forall r | 0 <= r < |t.maps| ensures Awaited(t, r) == multiset(t.maps[r].Keys) {
      assert Awaited(t, r) == Awaited(s, r);
    }
    assert forall e :: Own(t, e) == Own(s, e);
  }

  lemma StartKeeps(s: State, ring: nat, ptr: nat)
    requires Inv(s) && ring < |s.maps| && Unused(s, ptr)
    ensures Inv(Start(s, ring, ptr))
  {
    hide MapInv, OwnInv, Active, Produce;
    SwapTable(s, s.started + {ring}, s.gen + 1, s.world.mem + NewTable(s.gen + 1));
    var t := s.(started := s.started + {ring}, gen := s.gen + 1,
                world := s.world.(mem := s.world.mem + NewTable(s.gen + 1)));
    ProduceKeeps(t, ring, ptr, Accept);
    OneNone();
  }

  // ---------------------------------------------------------------- runs

  lemma InitInv(listenFd: nat, rings: nat)
    ensures Inv(Init(listenFd, rings))
  {
    var s := Init(listenFd, rings);
    forall r | 0 <= r < |s.maps| ensures Awaited(s, r) == multiset(s.maps[r].Keys) {
      assert s.maps[r].Keys == {};
    }
  }

  lemma StepKeeps(reserved: set<nat>, s: State, e: Event)
    requires Inv(s) && Enabled(reserved, s, e)
    ensures e.DoHandle? ==> Known(s, e.i)
    ensures Inv(Apply(reserved, s, e))
  {
    hide Inv, Start, Take, Finish, Handle, CanFinish, Known;
    match e
    case DoStart(ring, ptr) => StartKeeps(s, ring, ptr);
    case DoTake(i) => TakeKeeps(s, i);
    case DoFinish(k, o) => FinishKeeps(reserved, s, k, o);
    case DoHandle(i, p, q) => HandleKeeps(s, i, p, q);
  }

  lemma {:induction false} RunKeeps(reserved: set<nat>, quiet: set<nat>, s: State, es: seq<Event>, t: State)
    requires Inv(s) && Run(reserved, quiet, s, es, t)
    ensures Inv(t)
    decreases |es|
  {
    hide Inv, Enabled, Apply, Known, Reading;
    if es != [] {
      StepKeeps(reserved, s, es[0]);
      RunKeeps(reserved, quiet, Apply(reserved, s, es[0]), es[1..], t);
    }
  }

  lemma {:induction false} RunThen(reserved: set<nat>, s: State, es: seq<Event>, t: State, e: Event)
    requires Run(reserved, {}, s, es, t) && Enabled(reserved, t, e) && (e.DoHandle? ==> Known(t, e.i))
    ensures Run(reserved, {}, s, es + [e], Apply(reserved, t, e))
    decreases |es|
  {
    hide Enabled, Apply, Known;
    if es == [] {
      assert es + [e] == [e];
    } else {
      RunThen(reserved, Apply(reserved, s, es[0]), es[1..], t, e);
      assert (es + [e])[1..] == es[1..] + [e];
    }
  }

  /** Some run leads to the state. */
  ghost predicate Visited(reserved: set<nat>, listenFd: nat, rings: nat, s: State) {
    exists es :: Run(reserved, {}, Init(listenFd, rings), es, s)
  }

  lemma VisitedStep(reserved: set<nat>, listenFd: nat, rings: nat, s: State, e: Event)
    requires Visited(reserved, listenFd, rings, s) && Enabled(reserved, s, e)
    ensures Inv(s) && (e.DoHandle? ==> Known(s, e.i)) && Visited(reserved, listenFd, rings, Apply(reserved, s, e))
  {
    hide Run, Enabled, Apply, Inv, Known;
    var es :| Run(reserved, {}, Init(listenFd, rings), es, s);
    InitInv(listenFd, rings);
    RunKeeps(reserved, {}, Init(listenFd, rings), es, s);
    StepKeeps(reserved, s, e);
    RunThen(reserved, Init(listenFd, rings), es, s, e);
  }

  predicate UsesBuffer(op: Op) {
    op.Recv? || op.Send?
  }

  /**
   Whatever the interleaving: every completion of every ring finds its own event; each
   ring's map holds exactly the addresses of its queued, flying and unhandled operations;
   every open connection has at most one operation over all rings.
   */
  lemma {:induction false} RingsKeepApart(reserved: set<nat>, listenFd: nat, rings: nat, es: seq<Event>, t: State)
    requires Run(reserved, {}, Init(listenFd, rings), es, t)
    ensures forall i: nat :: i < |t.cq| ==>
              Known(t, i) && t.maps[t.cq[i].sqe.ring][t.cq[i].sqe.ptr] == InfoOf(t.listenFd, t.cq[i].sqe.op)
    ensures forall r :: 0 <= r < |t.maps| ==>
              Count(t.sq, RingPtr(r)) + Count(t.kernel, RingPtr(r)) + Count(t.cq, RingDone(r)) ==
              multiset(t.maps[r].Keys)
    ensures forall fd :: Active(t)[fd] <= if fd in t.world.streams then 1 else 0
  {
    InitInv(listenFd, rings);
    RunKeeps(reserved, {}, Init(listenFd, rings), es, t);
    forall i: nat | i < |t.cq|
      ensures Known(t, i) && t.maps[t.cq[i].sqe.ring][t.cq[i].sqe.ptr] == InfoOf(t.listenFd, t.cq[i].sqe.op)
    {
      AlwaysKnown(t, i);
    }
    hide OwnInv, Known, Active;
  }

  /** Two operations in flight never share a buffer, even on different rings. */
  lemma {:induction false} NoSharedBuffer(reserved: set<nat>, listenFd: nat, rings: nat, es: seq<Event>, t: State,
      k: nat, l: nat)
    requires Run(reserved, {}, Init(listenFd, rings), es, t)
    requires k < |t.kernel| && l < |t.kernel| && k != l
    requires UsesBuffer(t.kernel[k].op) && UsesBuffer(t.kernel[l].op)
    ensures t.kernel[k].op.fd != t.kernel[l].op.fd
  {
    InitInv(listenFd, rings);
    RunKeeps(reserved, {}, Init(listenFd, rings), es, t);
    FlightsApart(t, k, l);
  }

  lemma FlightsApart(t: State, k: nat, l: nat)
    requires Inv(t) && k < |t.kernel| && l < |t.kernel| && k != l
    requires UsesBuffer(t.kernel[k].op) && UsesBuffer(t.kernel[l].op)
    ensures t.kernel[k].op.fd != t.kernel[l].op.fd
  {
    hide OwnInv, MapInv, Active;
    WithoutActive(t, k);
    var q := Without(t, k).kernel;
    Elsewhere(Without(t, k), t.world.streams.Keys, t.kernel[k].op.fd);
    assert q[if l < k then l else l - 1] == t.kernel[l];
    assert OpFd(t.kernel[l]) == Some(t.kernel[l].op.fd);
  }
}
