/** What there is room for in every run of the goroutines: tables, buffers and the reads into them. */
module MultiRingRoom {
  import opened Streams
  import opened Kernel
  import opened MultiRing

  /** An operation that uses a buffer uses one of a table made so far. */
  predicate Made(op: Op, gen: nat) {
    op.Recv? || op.Send? ==> 1 <= op.gen <= gen
  }

  /**
   Each start has made a table of 10272 buffers of 2048 bytes, open descriptors are below
   that, operations use tables made so far, and nothing is under way before the first start.
   */
  ghost predicate RoomInv(s: State) {
    && (forall g: nat, fd: nat :: (g, fd) in s.world.mem <==> 1 <= g <= s.gen && fd < 10272)
    && (forall b :: b in s.world.mem ==> |s.world.mem[b]| == 2048)
    && (forall fd :: fd in s.world.streams ==> fd < 10272)
    && (forall e :: e in s.sq ==> Made(e.op, s.gen))
    && (forall e :: e in s.kernel ==> Made(e.op, s.gen))
    && (s.gen == 0 ==> s.sq == [] && s.kernel == [] && s.cq == [])
  }

  lemma TableSlots(gen: nat)
    ensures forall g: nat, fd: nat :: (g, fd) in NewTable(gen) <==> g == gen && fd < 10272
    ensures forall b :: b in NewTable(gen) ==> |NewTable(gen)[b]| == 2048
  {
    assert forall i: nat :: IsSlot(i);
  }

  lemma StartRoom(s: State, ring: nat, ptr: nat)
    requires RoomInv(s) && ring < |s.maps|
    ensures RoomInv(Start(s, ring, ptr))
  {
    TableSlots(s.gen + 1);
    hide NewTable, InfoOf;
  }

  lemma TakeRoom(s: State, i: nat)
    requires RoomInv(s) && i < |s.sq|
    ensures RoomInv(Take(s, i))
  {
    assert s.sq[i] in s.sq;
  }

  lemma FinishRoom(reserved: set<nat>, s: State, k: nat, o: Outcome)
    requires RoomInv(s) && CanFinish(reserved, s, k, o)
    ensures RoomInv(Finish(reserved, s, k, o))
  {
    ExecSizes(s.world, reserved, KernelOp(s.kernel[k].op), o);
    assert forall fd :: fd in Exec(s.world, reserved, KernelOp(s.kernel[k].op), o).streams ==> fd < 10272;
    hide Exec, Allowed;
  }

  lemma HandleRoom(s: State, i: nat, p: nat, q: nat)
    requires RoomInv(s) && i < |s.cq| && Known(s, i)
    ensures RoomInv(Handle(s, i, p, q))
  {
    hide InfoOf;
    assert s.gen != 0;
  }

  lemma StepRoom(reserved: set<nat>, s: State, e: Event)
    requires RoomInv(s) && Enabled(reserved, s, e) && (e.DoHandle? ==> Known(s, e.i))
    ensures RoomInv(Apply(reserved, s, e))
  {
    hide RoomInv, Start, Take, Finish, Handle, Unused, Known, CanFinish, Oldest, OldestDone;
    match e
    case DoStart(ring, ptr) => StartRoom(s, ring, ptr);
    case DoTake(i) => TakeRoom(s, i);
    case DoFinish(k, o) => FinishRoom(reserved, s, k, o);
    case DoHandle(i, p, q) => HandleRoom(s, i, p, q);
  }

  lemma {:induction false} RunRoom(reserved: set<nat>, quiet: set<nat>, s: State, es: seq<Event>, t: State)
    requires RoomInv(s) && Run(reserved, quiet, s, es, t)
    ensures RoomInv(t)
    decreases |es|
  {
    if es != [] {
      hide RoomInv, Reading, Enabled, Known, Apply;
      StepRoom(reserved, s, es[0]);
      RunRoom(reserved, quiet, Apply(reserved, s, es[0]), es[1..], t);
    }
  }

  /**
   In every run a read on an open connection may deliver any number of bytes up to 2048 and
   no more, and it goes to the connection's own buffer in one of the tables made so far.
   */
  lemma {:induction false} RoomToRead(reserved: set<nat>, listenFd: nat, rings: nat, es: seq<Event>, t: State,
      k: nat, data: seq<byte>)
    requires Run(reserved, {}, Init(listenFd, rings), es, t) && k < |t.kernel| && t.kernel[k].op.Recv?
    requires t.kernel[k].op.fd in t.world.streams
    ensures CanFinish(reserved, t, k, Received(data)) <==> |data| <= 2048
    ensures 1 <= t.kernel[k].op.gen <= t.gen
    ensures data != [] && |data| <= 2048 ==>
              var key := (t.kernel[k].op.gen, t.kernel[k].op.fd);
              && key in t.world.mem && |t.world.mem[key]| == 2048
              && Finish(reserved, t, k, Received(data)).world.mem
                   == t.world.mem[key := data + t.world.mem[key][|data|..]]
  {
    assert RoomInv(Init(listenFd, rings));
    RunRoom(reserved, {}, Init(listenFd, rings), es, t);
    hide Run, Init;
    assert t.kernel[k] in t.kernel;
  }
}
