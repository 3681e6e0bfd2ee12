/**
 What the rings send back. The protocol keeps buffers apart; whether a send reads the
 buffer its message was received into depends on when the goroutines start.
 */
module MultiRingEcho {
  import opened Streams
  import opened Kernel
  import opened Echo
  import opened Census
  import opened MultiRing
  import opened MultiRingProof

  // ---------------------------------------------------------------- what holds in every run

  ghost predicate EntrySound(w: World<(nat, nat)>, e: Sqe) {
    e.op.Send? ==> Unsent(w, e.op.fd, e.op.size)
  }

  ghost predicate DoneSound(w: World<(nat, nat)>, c: Cqe) {
    c.sqe.op.Recv? && 0 < c.res ==> Unsent(w, c.sqe.op.fd, c.res)
  }

  /** Every send, queued or to be queued, has the length of a message none of which was sent. */
  ghost predicate SoundInv(s: State) {
    && (forall e :: e in s.sq ==> EntrySound(s.world, e))
    && (forall e :: e in s.kernel ==> EntrySound(s.world, e))
    && (forall c :: c in s.cq ==> DoneSound(s.world, c))
    && AllSound(s.world)
  }

  predicate NotNewer(op: Op, gen: nat) {
    UsesBuffer(op) ==> op.gen <= gen
  }

  /** No operation and no buffer is of a generation to come. */
  ghost predicate GenInv(s: State) {
    && (forall e :: e in s.sq ==> NotNewer(e.op, s.gen))
    && (forall e :: e in s.kernel ==> NotNewer(e.op, s.gen))
    && (forall c :: c in s.cq ==> NotNewer(c.sqe.op, s.gen))
    && (forall b :: b in s.world.mem ==> b.0 <= s.gen)
  }

  ghost predicate BaseInv(s: State) {
    Inv(s) && SoundInv(s) && GenInv(s)
  }

  lemma TakeBase(s: State, i: nat)
    requires SoundInv(s) && GenInv(s) && i < |s.sq|
    ensures SoundInv(Take(s, i)) && GenInv(Take(s, i))
  {
    hide Unsent, AllSound;
    assert s.sq[i] in s.sq;
    assert forall e :: e in Take(s, i).sq ==> e in s.sq;
  }

  /** While an operation of a connection completes, no other one concerns that connection. */
  lemma FinishAlone(s: State, k: nat)
    requires ActiveInv(s) && k < |s.kernel| && !s.kernel[k].op.Accept?
    ensures var fd := s.kernel[k].op.fd;
            && fd in s.world.streams
            && (forall e :: e in s.sq ==> OpFd(e) != Some(fd))
            && (forall e :: e in Without(s, k).kernel ==> OpFd(e) != Some(fd))
            && (forall c :: c in s.cq ==> DoneFd(c) != Some(fd))
  {
    hide Active;
    WithoutActive(s, k);
    Elsewhere(Without(s, k), s.world.streams.Keys, s.kernel[k].op.fd);
  }

  lemma FinishOthers(reserved: set<nat>, s: State, k: nat, o: Outcome)
    requires BaseInv(s) && CanFinish(reserved, s, k, o)
    ensures var s' := Finish(reserved, s, k, o);
            && (forall e :: e in s.sq ==> EntrySound(s'.world, e))
            && (forall e :: e in Without(s, k).kernel ==> EntrySound(s'.world, e))
            && (forall c :: c in s.cq ==> DoneSound(s'.world, c))
  {
    hide ActiveInv, MapInv, OwnInv, GenInv, Unsent, AllSound, Exec;
    var op := s.kernel[k].op;
    if !op.Accept? { FinishAlone(s, k); }
    var w' := Exec(s.world, reserved, KernelOp(op), o);
    forall e | (e in s.sq || e in Without(s, k).kernel) && e.op.Send? ensures Unsent(w', e.op.fd, e.op.size) {
      assert e in s.sq || e in s.kernel;
      assert EntrySound(s.world, e) && OpFd(e) == Some(e.op.fd);
      UnsentFrame(s.world, reserved, KernelOp(op), o, e.op.fd, e.op.size);
    }
    forall c | c in s.cq && c.sqe.op.Recv? && 0 < c.res ensures Unsent(w', c.sqe.op.fd, c.res) {
      assert DoneSound(s.world, c) && DoneFd(c) == Some(c.sqe.op.fd);
      UnsentFrame(s.world, reserved, KernelOp(op), o, c.sqe.op.fd, c.res);
    }
  }

  lemma FinishBase(reserved: set<nat>, s: State, k: nat, o: Outcome)
    requires BaseInv(s) && CanFinish(reserved, s, k, o)
    ensures SoundInv(Finish(reserved, s, k, o)) && GenInv(Finish(reserved, s, k, o))
  {
    hide Inv, Unsent, AllSound, Exec;
    FinishOthers(reserved, s, k, o);
    var e, s' := s.kernel[k], Finish(reserved, s, k, o);
    assert e in s.kernel;
    ExecKeepsSound(s.world, reserved, KernelOp(e.op), o);
    SameBuffers(reserved, s.world, e.op, o);
    assert s'.kernel == Without(s, k).kernel;
    assert forall x :: x in s'.kernel ==> x in s.kernel;
    assert s'.cq == s.cq + [Cqe(e, Res(o))];
  }

  lemma SameBuffers(reserved: set<nat>, w: World<(nat, nat)>, op: Op, o: Outcome)
    requires Allowed(w, reserved, KernelOp(op), o)
    ensures Exec(w, reserved, KernelOp(op), o).mem.Keys == w.mem.Keys
  {
  }

  lemma ProduceBase(s: State, ring: nat, ptr: nat, op: Op)
    requires SoundInv(s) && GenInv(s) && ring < |s.maps| && NotNewer(op, s.gen)
    requires op.Send? ==> Unsent(s.world, op.fd, op.size)
    ensures SoundInv(Produce(s, ring, ptr, op)) && GenInv(Produce(s, ring, ptr, op))
  {
    hide Unsent, AllSound;
  }

  lemma DropBase(s: State, i: nat)
    requires SoundInv(s) && GenInv(s) && i < |s.cq| && Known(s, i)
    ensures SoundInv(Drop(s, i)) && GenInv(Drop(s, i))
  {
    hide Unsent, AllSound;
    assert forall c :: c in Drop(s, i).cq ==> c in s.cq;
  }

  lemma HandleBase(s: State, i: nat, p: nat, q: nat)
    requires BaseInv(s) && i < |s.cq|
    ensures Known(s, i) && SoundInv(Handle(s, i, p, q)) && GenInv(Handle(s, i, p, q))
  {
    HandleShape(s, i, p, q);
    DropBase(s, i);
    assert s.cq[i] in s.cq && DoneSound(s.world, s.cq[i]);
    var c, t, r, gen := s.cq[i], Drop(s, i), s.cq[i].sqe.ring, s.gen;
    assert t.world == s.world && t.gen == gen && r < |t.maps|;
    hide Inv, SoundInv, GenInv, Handle, Drop, Unsent;
    match c.sqe.op
    case Accept =>
      if c.res >= 0 {
        ProduceBase(t, r, p, Accept);
        ProduceBase(Produce(t, r, p, Accept), r, q, Recv(c.res, gen));
      }
    case Recv(fd, _) =>
      if c.res > 0 {
        ProduceBase(t, r, p, Send(fd, gen, c.res));
      } else if c.res != -EBADF {
        ProduceBase(t, r, p, Close(fd));
      }
    case Send(fd, _, _) => ProduceBase(t, r, p, Recv(fd, gen));
    case Close(_) =>
  }

  /** The state with a new table of buffers. */
  function Renewed(s: State, ring: nat): State {
    s.(started := s.started + {ring}, gen := s.gen + 1, world := s.world.(mem := s.world.mem + NewTable(s.gen + 1)))
  }

  lemma StartBase(s: State, ring: nat, ptr: nat)
    requires SoundInv(s) && GenInv(s) && ring < |s.maps|
    ensures SoundInv(Start(s, ring, ptr)) && GenInv(Start(s, ring, ptr))
  {
    RenewedBase(s, ring);
    hide SoundInv, GenInv, Produce;
    ProduceBase(Renewed(s, ring), ring, ptr, Accept);
  }

  lemma RenewedBase(s: State, ring: nat)
    requires SoundInv(s) && GenInv(s)
    ensures SoundInv(Renewed(s, ring)) && GenInv(Renewed(s, ring))
  {
    hide Sound;
    var t := Renewed(s, ring);
    forall fd: nat, size: int | Unsent(s.world, fd, size) ensures Unsent(t.world, fd, size) {
    }
    hide Unsent;
    forall e | e in s.sq || e in s.kernel ensures EntrySound(t.world, e) { assert EntrySound(s.world, e); }
    forall c | c in s.cq ensures DoneSound(t.world, c) { assert DoneSound(s.world, c); }
  }

  lemma StepBase(reserved: set<nat>, s: State, e: Event)
    requires BaseInv(s) && Enabled(reserved, s, e)
    ensures e.DoHandle? ==> Known(s, e.i)
    ensures BaseInv(Apply(reserved, s, e))
  {
    StepKeeps(reserved, s, e);
    hide Inv, Start, Take, Finish, Handle, CanFinish, Known, SoundInv, GenInv, Oldest, OldestDone, Unused;
    match e
    case DoStart(ring, ptr) => StartBase(s, ring, ptr);
    case DoTake(i) => TakeBase(s, i);
    case DoFinish(k, o) => FinishBase(reserved, s, k, o);
    case DoHandle(i, p, q) => HandleBase(s, i, p, q);
  }

  lemma {:induction false} RunBase(reserved: set<nat>, quiet: set<nat>, s: State, es: seq<Event>, t: State)
    requires BaseInv(s) && Run(reserved, quiet, s, es, t)
    ensures BaseInv(t)
    decreases |es|
  {
    hide BaseInv, Enabled, Apply, Known, Reading;
    if es != [] {
      StepBase(reserved, s, es[0]);
      RunBase(reserved, quiet, Apply(reserved, s, es[0]), es[1..], t);
    }
  }

  lemma InitBase(listenFd: nat, rings: nat)
    ensures BaseInv(Init(listenFd, rings))
  {
    InitInv(listenFd, rings);
    hide Inv;
  }

  // ---------------------------------------------------------------- one connection

  ghost predicate EntryHolds(fd: nat, w: World<(nat, nat)>, e: Sqe) {
    e.op.Send? && e.op.fd == fd ==> Holds(w, fd, (e.op.gen, fd), e.op.size)
  }

  ghost predicate DoneHolds(fd: nat, w: World<(nat, nat)>, c: Cqe) {
    c.sqe.op.Recv? && c.sqe.op.fd == fd && 0 < c.res ==> Holds(w, fd, (c.sqe.op.gen, fd), c.res)
  }

  predicate Current(fd: nat, op: Op, gen: nat) {
    op.Recv? && op.fd == fd ==> op.gen == gen
  }

  /** The connection's messages wait in the buffers they will be sent from, and its reads use the current table. */
  ghost predicate FdInv(fd: nat, s: State) {
    && (forall e :: e in s.sq ==> EntryHolds(fd, s.world, e) && Current(fd, e.op, s.gen))
    && (forall e :: e in s.kernel ==> EntryHolds(fd, s.world, e) && Current(fd, e.op, s.gen))
    && (forall c :: c in s.cq ==> DoneHolds(fd, s.world, c) && Current(fd, c.sqe.op, s.gen))
    && (fd in s.world.streams ==> Faithful(s.world.streams[fd]))
  }

  lemma TakeFd(fd: nat, s: State, i: nat)
    requires FdInv(fd, s) && i < |s.sq|
    ensures FdInv(fd, Take(s, i))
  {
    hide Holds, Faithful;
    assert s.sq[i] in s.sq;
    assert forall e :: e in Take(s, i).sq ==> e in s.sq;
  }

  /** An operation that does not concern the connection completes. */
  lemma FinishElsewhere(fd: nat, reserved: set<nat>, s: State, k: nat, o: Outcome)
    requires FdInv(fd, s) && CanFinish(reserved, s, k, o)
    requires !s.kernel[k].op.Accept? ==> s.kernel[k].op.fd != fd
    requires o.Accepted? && o.fd == fd ==> NoneOf(fd, s)
    ensures FdInv(fd, Finish(reserved, s, k, o))
  {
    hide Holds, Faithful;
    var e, s' := s.kernel[k], Finish(reserved, s, k, o);
    assert e in s.kernel;
    assert forall x :: x in s'.kernel ==> x in s.kernel;
    assert s'.cq == s.cq + [Cqe(e, Res(o))];
    EmptyFaithful();
    assert fd in s'.world.streams ==> Faithful(s'.world.streams[fd]);
    hide Exec;
    forall gen: nat, size: int | Holds(s.world, fd, (gen, fd), size) ensures Holds(s'.world, fd, (gen, fd), size) {
      HoldsFrame(s.world, reserved, KernelOp(e.op), o, fd, (gen, fd), size);
    }
  }

  /** Nothing under way concerns the connection. */
  ghost predicate NoneOf(fd: nat, s: State) {
    && (forall e :: e in s.sq ==> OpFd(e) != Some(fd))
    && (forall e :: e in s.kernel ==> OpFd(e) != Some(fd))
    && (forall c :: c in s.cq ==> DoneFd(c) != Some(fd))
  }

  lemma ClosedHasNone(fd: nat, s: State)
    requires ActiveInv(s) && fd !in s.world.streams
    ensures NoneOf(fd, s)
  {
    assert Active(s)[fd] <= multiset(s.world.streams.Keys)[fd] == 0;
    Absent(s.sq, OpFd, fd);
    Absent(s.kernel, OpFd, fd);
    Absent(s.cq, DoneFd, fd);
  }

  /** The connection's own operation completes; there is no other one. */
  lemma FinishHere(reserved: set<nat>, s: State, k: nat, o: Outcome)
    requires ActiveInv(s) && CanFinish(reserved, s, k, o) && !s.kernel[k].op.Accept? && FdInv(s.kernel[k].op.fd, s)
    ensures FdInv(s.kernel[k].op.fd, Finish(reserved, s, k, o))
  {
    hide ActiveInv, Holds, Faithful, Exec, Allowed, EntryHolds, DoneHolds, Current, OpFd, DoneFd;
    var e, s' := s.kernel[k], Finish(reserved, s, k, o);
    var fd := e.op.fd;
    FinishAlone(s, k);
    assert e in s.kernel;
    OwnData(fd, reserved, s.world, e, o);
    assert s'.kernel == Without(s, k).kernel;
    assert s'.cq == s.cq + [Cqe(e, Res(o))];
    forall x | x in s.sq || x in s'.kernel ensures EntryHolds(fd, s'.world, x) && Current(fd, x.op, s'.gen) {
      OtherEntry(fd, s'.world, x, s.gen);
    }
    forall c | c in s.cq ensures DoneHolds(fd, s'.world, c) && Current(fd, c.sqe.op, s'.gen) {
      OtherDone(fd, s'.world, c, s.gen);
    }
  }

  lemma OtherEntry(fd: nat, w: World<(nat, nat)>, x: Sqe, gen: nat)
    requires OpFd(x) != Some(fd)
    ensures EntryHolds(fd, w, x) && Current(fd, x.op, gen)
  {
  }

  lemma OtherDone(fd: nat, w: World<(nat, nat)>, c: Cqe, gen: nat)
    requires DoneFd(c) != Some(fd)
    ensures DoneHolds(fd, w, c) && Current(fd, c.sqe.op, gen)
  {
  }

  lemma OwnData(fd: nat, reserved: set<nat>, w: World<(nat, nat)>, e: Sqe, o: Outcome)
    requires Allowed(w, reserved, KernelOp(e.op), o) && !e.op.Accept? && e.op.fd == fd
    requires EntryHolds(fd, w, e) && (fd in w.streams ==> Faithful(w.streams[fd]))
    ensures var w' := Exec(w, reserved, KernelOp(e.op), o);
            DoneHolds(fd, w', Cqe(e, Res(o))) && (fd in w'.streams ==> Faithful(w'.streams[fd]))
  {
    hide Faithful;
    match o
    case Received(data) =>
      if data != [] { ReceiveKeepsFaithful(w.streams[fd], data); }
    case Sent(n) =>
      var b := (e.op.gen, fd);
      assert w.mem[b][0..n] == w.mem[b][..e.op.size][0..n];
      SendKeepsFaithful(w.streams[fd], w.mem[b][0..n]);
    case _ =>
  }

  lemma FinishFd(fd: nat, reserved: set<nat>, s: State, k: nat, o: Outcome)
    requires ActiveInv(s) && FdInv(fd, s) && CanFinish(reserved, s, k, o)
    ensures FdInv(fd, Finish(reserved, s, k, o))
  {
    hide ActiveInv, FdInv, Finish;
    if !s.kernel[k].op.Accept? && s.kernel[k].op.fd == fd {
      FinishHere(reserved, s, k, o);
    } else {
      if o.Accepted? && o.fd == fd { ClosedHasNone(fd, s); }
      FinishElsewhere(fd, reserved, s, k, o);
    }
  }

  lemma ProduceFd(fd: nat, s: State, ring: nat, ptr: nat, op: Op)
    requires FdInv(fd, s) && ring < |s.maps| && Current(fd, op, s.gen)
    requires op.Send? && op.fd == fd ==> Holds(s.world, fd, (op.gen, fd), op.size)
    ensures FdInv(fd, Produce(s, ring, ptr, op))
  {
    hide Holds, Faithful;
  }

  lemma DropFd(fd: nat, s: State, i: nat)
    requires FdInv(fd, s) && i < |s.cq| && Known(s, i)
    ensures FdInv(fd, Drop(s, i))
  {
    hide Holds, Faithful;
    assert forall c :: c in Drop(s, i).cq ==> c in s.cq;
  }

  lemma HandleFd(x: nat, s: State, i: nat, p: nat, q: nat)
    requires OwnInv(s) && FdInv(x, s) && i < |s.cq|
    ensures Known(s, i) && FdInv(x, Handle(s, i, p, q))
  {
    HandleShape(s, i, p, q);
    DropFd(x, s, i);
    assert s.cq[i] in s.cq;
    assert DoneHolds(x, s.world, s.cq[i]) && Current(x, s.cq[i].sqe.op, s.gen);
    var c, t, r, gen := s.cq[i], Drop(s, i), s.cq[i].sqe.ring, s.gen;
    assert t.world == s.world && t.gen == gen && r < |t.maps|;
    hide OwnInv, FdInv, Handle, Drop, Holds;
    match c.sqe.op
    case Accept =>
      if c.res >= 0 {
        ProduceFd(x, t, r, p, Accept);
        ProduceFd(x, Produce(t, r, p, Accept), r, q, Recv(c.res, gen));
      }
    case Recv(fd, _) =>
      if c.res > 0 {
        ProduceFd(x, t, r, p, Send(fd, gen, c.res));
      } else if c.res != -EBADF {
        ProduceFd(x, t, r, p, Close(fd));
      }
    case Send(fd, _, _) => ProduceFd(x, t, r, p, Recv(fd, gen));
    case Close(_) =>
  }

  /** A new table while no read of the connection is under way disturbs none of its messages. */
  lemma StartFd(fd: nat, s: State, ring: nat, ptr: nat)
    requires FdInv(fd, s) && GenInv(s) && ring < |s.maps| && !Reading(s, fd)
    ensures FdInv(fd, Start(s, ring, ptr))
  {
    RenewedFd(fd, s, ring);
    hide FdInv, GenInv, Reading, Produce;
    ProduceFd(fd, Renewed(s, ring), ring, ptr, Accept);
  }

  lemma RenewedFd(fd: nat, s: State, ring: nat)
    requires FdInv(fd, s) && GenInv(s) && !Reading(s, fd)
    ensures FdInv(fd, Renewed(s, ring))
  {
    hide Faithful;
    var t := Renewed(s, ring);
    forall gen: nat, size: int | Holds(s.world, fd, (gen, fd), size) ensures Holds(t.world, fd, (gen, fd), size) {
      assert (gen, fd) in s.world.mem && (gen, fd) !in NewTable(s.gen + 1);
    }
    hide Holds, NewTable;
    forall e | e in s.sq || e in s.kernel ensures EntryHolds(fd, t.world, e) && Current(fd, e.op, t.gen) {
      assert EntryHolds(fd, s.world, e);
    }
    forall c | c in s.cq ensures DoneHolds(fd, t.world, c) && Current(fd, c.sqe.op, t.gen) {
      assert DoneHolds(fd, s.world, c);
    }
  }

  lemma StepFd(fd: nat, reserved: set<nat>, s: State, e: Event)
    requires BaseInv(s) && FdInv(fd, s) && Enabled(reserved, s, e) && (e.DoStart? ==> !Reading(s, fd))
    ensures e.DoHandle? ==> Known(s, e.i)
    ensures FdInv(fd, Apply(reserved, s, e))
  {
    hide ActiveInv, MapInv, OwnInv, SoundInv, GenInv, FdInv, Start, Take, Finish, Handle, CanFinish, Known, Reading,
         Oldest, OldestDone, Unused;
    match e
    case DoStart(ring, ptr) => StartFd(fd, s, ring, ptr);
    case DoTake(i) => TakeFd(fd, s, i);
    case DoFinish(k, o) => FinishFd(fd, reserved, s, k, o);
    case DoHandle(i, p, q) => HandleFd(fd, s, i, p, q);
  }

  lemma {:induction false} RunFd(fd: nat, reserved: set<nat>, quiet: set<nat>, s: State, es: seq<Event>, t: State)
    requires BaseInv(s) && FdInv(fd, s) && fd in quiet && Run(reserved, quiet, s, es, t)
    ensures FdInv(fd, t)
    decreases |es|
  {
    hide BaseInv, FdInv, Enabled, Apply, Known, Reading;
    if es != [] {
      StepBase(reserved, s, es[0]);
      StepFd(fd, reserved, s, es[0]);
      RunFd(fd, reserved, quiet, Apply(reserved, s, es[0]), es[1..], t);
    }
  }

  /**
   Whatever happens to other connections: if no ring starts while a read of this one is
   under way, it gets back, message by message, a prefix of what it sent, each message in
   at most one send, and everything exactly when every message had a full one.
   */
  lemma {:induction false} EchoTheorem(reserved: set<nat>, quiet: set<nat>, listenFd: nat, rings: nat, es: seq<Event>,
      t: State, fd: nat)
    requires Run(reserved, quiet, Init(listenFd, rings), es, t) && fd in quiet && fd in t.world.streams
    ensures Faithful(t.world.streams[fd])
    ensures forall m :: m in t.world.streams[fd].log ==> |m.results| <= 1
    ensures t.world.streams[fd].sent == t.world.streams[fd].received <==>
              forall m :: m in t.world.streams[fd].log ==> m.results == [|m.data|]
  {
    hide Run, Inv, GenInv, Holds, Faithful;
    InitBase(listenFd, rings);
    RunFd(fd, reserved, quiet, Init(listenFd, rings), es, t);
    RunBase(reserved, quiet, Init(listenFd, rings), es, t);
    SoundOnce(t.world.streams[fd]);
    FullSendsExactly(t.world.streams[fd]);
  }

  // ---------------------------------------------------------------- exactly when a send is right

  predicate Pending(s: State, e: Sqe) {
    e in s.sq || e in s.kernel
  }

  /** A run, with rings starting at any time, throughout which an entry is queued or in flight. */
  predicate RunWith(reserved: set<nat>, e: Sqe, s: State, es: seq<Event>, t: State)
    decreases |es|
  {
    && Pending(s, e)
    && if es == [] then s == t
       else
         && Enabled(reserved, s, es[0])
         && (es[0].DoHandle? ==> Known(s, es[0].i))
         && RunWith(reserved, e, Apply(reserved, s, es[0]), es[1..], t)
  }

  /** The stream of the send's connection and the buffer it will read are the same in both worlds. */
  ghost predicate SameFor(op: Op, w: World<(nat, nat)>, w': World<(nat, nat)>)
    requires op.Send?
  {
    var fd, b := op.fd, (op.gen, op.fd);
    && fd in w.streams && fd in w'.streams && w'.streams[fd] == w.streams[fd]
    && (b in w.mem <==> b in w'.mem) && (b in w.mem ==> w'.mem[b] == w.mem[b])
  }

  lemma PendingFinish(reserved: set<nat>, s: State, k: nat, o: Outcome, e: Sqe)
    requires BaseInv(s) && CanFinish(reserved, s, k, o) && e.op.Send?
    requires Pending(s, e) && Pending(Finish(reserved, s, k, o), e)
    ensures SameFor(e.op, s.world, Finish(reserved, s, k, o).world)
  {
    hide MapInv, OwnInv, GenInv, AllSound, ActiveInv;
    var op, s' := s.kernel[k].op, Finish(reserved, s, k, o);
    assert s'.sq == s.sq && s'.kernel == Without(s, k).kernel;
    assert EntrySound(s.world, e);
    assert OpFd(e) == Some(e.op.fd);
    if !op.Accept? { FinishAlone(s, k); }
  }

  /** While a send is pending nobody touches its connection or its buffer, not even a starting ring. */
  lemma PendingUntouched(reserved: set<nat>, s: State, ev: Event, e: Sqe)
    requires BaseInv(s) && Enabled(reserved, s, ev) && (ev.DoHandle? ==> Known(s, ev.i)) && e.op.Send?
    requires Pending(s, e) && Pending(Apply(reserved, s, ev), e)
    ensures SameFor(e.op, s.world, Apply(reserved, s, ev).world)
  {
    hide Inv, GenInv, SoundInv, Handle, Finish, NewTable, Oldest, OldestDone, Unused, CanFinish, Pending;
    match ev
    case DoFinish(k, o) => PendingFinish(reserved, s, k, o, e);
    case DoStart(ring, ptr) => PendingStart(s, ring, ptr, e);
    case DoTake(i) => PendingOpen(s, e);
    case DoHandle(i, p, q) =>
      PendingOpen(s, e);
      HandleWorld(s, ev);
  }

  lemma PendingOpen(s: State, e: Sqe)
    requires SoundInv(s) && GenInv(s) && Pending(s, e) && e.op.Send?
    ensures e.op.fd in s.world.streams && e.op.gen <= s.gen
  {
    hide AllSound;
    assert EntrySound(s.world, e) && NotNewer(e.op, s.gen);
  }

  lemma PendingStart(s: State, ring: nat, ptr: nat, e: Sqe)
    requires SoundInv(s) && GenInv(s) && Pending(s, e) && e.op.Send? && ring < |s.maps|
    ensures SameFor(e.op, s.world, Start(s, ring, ptr).world)
  {
    PendingOpen(s, e);
    hide SoundInv, GenInv, Pending;
    assert (e.op.gen, e.op.fd) !in NewTable(s.gen + 1);
  }

  lemma HandleWorld(s: State, ev: Event)
    ensures ev.DoHandle? && ev.i < |s.cq| && Known(s, ev.i) ==> Handle(s, ev.i, ev.p, ev.q).world == s.world
  {
  }

  lemma {:induction false} RunUntouched(reserved: set<nat>, e: Sqe, s: State, es: seq<Event>, t: State)
    requires BaseInv(s) && e.op.Send? && RunWith(reserved, e, s, es, t)
    ensures BaseInv(t) && SameFor(e.op, s.world, t.world)
    decreases |es|
  {
    hide Enabled, Apply, Known, Inv, GenInv, AllSound;
    if es == [] {
      assert EntrySound(s.world, e);
    } else {
      hide BaseInv, Pending;
      StepBase(reserved, s, es[0]);
      PendingUntouched(reserved, s, es[0], e);
      RunUntouched(reserved, e, Apply(reserved, s, es[0]), es[1..], t);
    }
  }

  /** The send that answers a completed read, from the table that is current when the read is handled. */
  function Answer(s: State, i: nat, p: nat): Sqe
    requires i < |s.cq| && s.cq[i].sqe.op.Recv? && 0 < s.cq[i].res
  {
    Sqe(s.cq[i].sqe.ring, p, Send(s.cq[i].sqe.op.fd, s.gen, s.cq[i].res))
  }

  /**
   The exact condition, in every run and with rings starting at any time. A completed read
   is handled, anything happens while its answer is pending, and `n` bytes of it are sent:
   the connection's stream is then faithful exactly when it was faithful and the buffer of
   the table that was current when the read was handled begins like the message.
   */
  lemma EchoExactly(reserved: set<nat>, listenFd: nat, rings: nat, before: seq<Event>, s: State,
                    i: nat, p: nat, q: nat, after: seq<Event>, t: State, k: nat, n: nat)
    requires Run(reserved, {}, Init(listenFd, rings), before, s) && Enabled(reserved, s, DoHandle(i, p, q)) &&
             Known(s, i)
    requires s.cq[i].sqe.op.Recv? && 0 < s.cq[i].res
    requires RunWith(reserved, Answer(s, i, p), Handle(s, i, p, q), after, t)
    requires k < |t.kernel| && t.kernel[k] == Answer(s, i, p) && CanFinish(reserved, t, k, Sent(n))
    ensures var fd := s.cq[i].sqe.op.fd;
            && fd in s.world.streams && s.world.streams[fd].log != []
            && n <= |Last(s.world.streams[fd].log).data| == s.cq[i].res
            && (s.gen, fd) in s.world.mem && n <= |s.world.mem[(s.gen, fd)]|
            && fd in Finish(reserved, t, k, Sent(n)).world.streams
            && (Faithful(Finish(reserved, t, k, Sent(n)).world.streams[fd]) <==>
                  && Faithful(s.world.streams[fd])
                  && s.world.mem[(s.gen, fd)][..n] == Last(s.world.streams[fd].log).data[..n])
  {
    hide Run, RunWith, BaseInv, Handle, Faithful, Finish;
    InitBase(listenFd, rings);
    RunBase(reserved, {}, Init(listenFd, rings), before, s);
    StepBase(reserved, s, DoHandle(i, p, q));
    ReadWaits(s, i);
    HandleWorld(s, DoHandle(i, p, q));
    RunUntouched(reserved, Answer(s, i, p), Handle(s, i, p, q), after, t);
    AnswerSent(reserved, t, k, n);
  }

  lemma ReadWaits(s: State, i: nat)
    requires BaseInv(s) && i < |s.cq| && s.cq[i].sqe.op.Recv? && 0 < s.cq[i].res
    ensures Unsent(s.world, s.cq[i].sqe.op.fd, s.cq[i].res)
  {
    hide Inv, GenInv, AllSound, Unsent;
    assert s.cq[i] in s.cq && DoneSound(s.world, s.cq[i]);
  }

  lemma AnswerSent(reserved: set<nat>, t: State, k: nat, n: nat)
    requires BaseInv(t) && CanFinish(reserved, t, k, Sent(n))
    ensures t.kernel[k].op.Send?
    ensures var op, w, w' := t.kernel[k].op, t.world, Finish(reserved, t, k, Sent(n)).world;
            && Unsent(w, op.fd, op.size) && n <= op.size && op.fd in w'.streams
            && (op.gen, op.fd) in w.mem && n <= |w.mem[(op.gen, op.fd)]|
            && (Faithful(w'.streams[op.fd]) <==>
                  Faithful(w.streams[op.fd]) && w.mem[(op.gen, op.fd)][..n] == Last(w.streams[op.fd].log).data[..n])
  {
    hide Inv, GenInv, Faithful, AllSound;
    var e := t.kernel[k];
    assert e in t.kernel && EntrySound(t.world, e);
    SendEchoesExactly(t.world, reserved, KernelOp(e.op), n);
  }
}
