/** A run of the provided-buffer server, state by state, in which a short send loses a byte. */
module ProvidedRuns {
  import opened Streams
  import opened Kernel
  import opened Echo
  import opened Census
  import opened ProvidedBuffers
  import opened ProvidedTheorems

  function Zeros(): map<nat, seq<byte>> { Init(0).world.mem }

  function Wet(): map<nat, seq<byte>> {
    assert IsId(0) && 0 in Below(BUFFERS_COUNT);
    Zeros()[0 := TWO_BYTES + Zeros()[0][2..]]
  }

  /** One connection, on descriptor `m`; buffer 0 is not in the pool. */
  function T(listenFd: nat, sq: seq<Sqe>, kernel: seq<InFlight>, cq: seq<Cqe>, w: World<nat>): State {
    State(listenFd, Below(BUFFERS_COUNT) - Below(1), sq, kernel, cq, w, false)
  }

  function Full2(m: nat): World<nat> { World(map[m := RECEIVED], Wet()) }

  function Lossy(m: nat): World<nat> { World(map[m := SHORT], Wet()) }

  function Listens(listenFd: nat): InFlight { InFlight(AddAccept(listenFd), None) }

  ghost predicate Follows(n: nat, reserved: set<nat>, s: State, e: Event, t: State) {
    Enabled(n, reserved, s, e) && Apply(n, reserved, s, e) == t
  }

  lemma OneConnection(listenFd: nat, m: nat)
    ensures Filled(listenFd, m, 1) ==
            T(listenFd, [AddAccept(listenFd)], [InFlight(AddRead(m), Some(0))], [],
              World(map[m := EMPTY_STREAM], Zeros()))
  {
    var s := Filled(listenFd, m, 1);
    assert Conns(m, 1) == Conns(m, 0)[m := EMPTY_STREAM];
    assert s.world.streams == map[m := EMPTY_STREAM];
    assert s.kernel == [InFlight(AddRead(m), Some(0))];
  }

  lemma Reads(n: nat, reserved: set<nat>, listenFd: nat, m: nat)
    ensures Follows(n, reserved,
                    T(listenFd, [AddAccept(listenFd)], [InFlight(AddRead(m), Some(0))], [],
                      World(map[m := EMPTY_STREAM], Zeros())),
                    DoFinish(0, Received(TWO_BYTES)),
                    T(listenFd, [AddAccept(listenFd)], [], [Cqe(AddRead(m), 2, 1)], Full2(m)))
  {
    assert IsId(0) && 0 in Below(BUFFERS_COUNT) && 0 in Zeros() && |Zeros()[0]| == MAX_MESSAGE_LEN;
    hide Below, Zeros, Allowed, Exec;
    var w := World(map[m := EMPTY_STREAM], Zeros());
    TwoBytesArrive(w, reserved, m, 0, MAX_MESSAGE_LEN);
    assert w.streams[m := RECEIVED] == map[m := RECEIVED];
    var s := T(listenFd, [AddAccept(listenFd)], [InFlight(AddRead(m), Some(0))], [], w);
    var t := Finish(s, reserved, 0, Received(TWO_BYTES));
    assert t.kernel == [] && t.cq == [Cqe(AddRead(m), 2, 1)];
  }

  lemma ReadHandled(n: nat, reserved: set<nat>, listenFd: nat, m: nat)
    ensures Follows(n, reserved, T(listenFd, [AddAccept(listenFd)], [], [Cqe(AddRead(m), 2, 1)], Full2(m)), DoHandle,
                    T(listenFd, [AddAccept(listenFd), AddWrite(m, 0, 2)], [], [], Full2(m)))
  {
    hide Below, Wet;
    var s := T(listenFd, [AddAccept(listenFd)], [], [Cqe(AddRead(m), 2, 1)], Full2(m));
    assert Handle(s).sq == [AddAccept(listenFd), AddWrite(m, 0, 2)] && Handle(s).world.streams == s.world.streams;
  }

  lemma Taken(n: nat, reserved: set<nat>, listenFd: nat, m: nat)
    ensures Follows(n, reserved, T(listenFd, [AddAccept(listenFd), AddWrite(m, 0, 2)], [], [], Full2(m)), DoTake,
                    T(listenFd, [AddWrite(m, 0, 2)], [Listens(listenFd)], [], Full2(m)))
    ensures Follows(n, reserved, T(listenFd, [AddWrite(m, 0, 2)], [Listens(listenFd)], [], Full2(m)), DoTake,
                    T(listenFd, [], [Listens(listenFd), InFlight(AddWrite(m, 0, 2), None)], [], Full2(m)))
  {
    hide Below, Wet;
    assert [AddAccept(listenFd), AddWrite(m, 0, 2)][1..] == [AddWrite(m, 0, 2)];
    assert [Listens(listenFd)] + [InFlight(AddWrite(m, 0, 2), None)] ==
           [Listens(listenFd), InFlight(AddWrite(m, 0, 2), None)];
  }

  lemma Sends(n: nat, reserved: set<nat>, listenFd: nat, m: nat)
    ensures Follows(n, reserved, T(listenFd, [], [Listens(listenFd), InFlight(AddWrite(m, 0, 2), None)], [], Full2(m)),
                    DoFinish(1, Sent(1)),
                    T(listenFd, [], [Listens(listenFd)], [Cqe(AddWrite(m, 0, 2), 1, 0)], Lossy(m)))
  {
    OneByteLeaves(Full2(m), reserved, m, 0);
    hide Below, Wet, Allowed, Exec;
    assert Full2(m).streams[m := SHORT] == map[m := SHORT];
    var s := T(listenFd, [], [Listens(listenFd), InFlight(AddWrite(m, 0, 2), None)], [], Full2(m));
    var t := Finish(s, reserved, 1, Sent(1));
    assert t.kernel == [Listens(listenFd)] && t.cq == [Cqe(AddWrite(m, 0, 2), 1, 0)];
  }

  lemma SendHandled(n: nat, reserved: set<nat>, listenFd: nat, m: nat)
    ensures Follows(n, reserved, T(listenFd, [], [Listens(listenFd)], [Cqe(AddWrite(m, 0, 2), 1, 0)], Lossy(m)),
                    DoHandle,
                    T(listenFd, [AddProvide(0), AddRead(m)], [Listens(listenFd)], [], Lossy(m)))
  {
    hide Below, Wet;
    var s := T(listenFd, [], [Listens(listenFd)], [Cqe(AddWrite(m, 0, 2), 1, 0)], Lossy(m));
    assert Handle(s).sq == [AddProvide(0), AddRead(m)] && Handle(s).world.streams == s.world.streams;
  }

  lemma {:induction false} Then(n: nat, reserved: set<nat>, s0: State, es: seq<Event>, s: State, e: Event, t: State)
      returns (es': seq<Event>)
    requires Run(n, reserved, s0, es, s) && Follows(n, reserved, s, e, t)
    ensures Run(n, reserved, s0, es', t)
  {
    hide Run, Enabled, Apply;
    RunThen(n, reserved, s0, es, s, e);
    es' := es + [e];
  }

  /** Of two bytes received one goes back; the buffer is returned and the server reads on. */
  lemma ShortSendLosesAByte(n: nat, reserved: set<nat>, listenFd: nat, m: nat) returns (es: seq<Event>, t: State)
    requires 0 < n && forall r :: r in reserved ==> r < m
    ensures Run(n, reserved, Init(listenFd), es, t)
    ensures t.world.streams == map[m := SHORT] && SHORT.received == [7, 8] && SHORT.sent == [7]
    ensures t.sq == [AddProvide(0), AddRead(m)] && t.cq == [] && !t.exited
  {
    hide Run, Init, Follows, Filled, Zeros, Wet, Below;
    es := Fill(n, reserved, listenFd, m, 1);
    OneConnection(listenFd, m);
    Reads(n, reserved, listenFd, m);
    ReadHandled(n, reserved, listenFd, m);
    Taken(n, reserved, listenFd, m);
    Sends(n, reserved, listenFd, m);
    SendHandled(n, reserved, listenFd, m);
    var a, w := AddAccept(listenFd), AddWrite(m, 0, 2);
    var s1 := T(listenFd, [a], [], [Cqe(AddRead(m), 2, 1)], Full2(m));
    var s2 := T(listenFd, [a, w], [], [], Full2(m));
    var s3 := T(listenFd, [w], [Listens(listenFd)], [], Full2(m));
    var s4 := T(listenFd, [], [Listens(listenFd), InFlight(w, None)], [], Full2(m));
    var s5 := T(listenFd, [], [Listens(listenFd)], [Cqe(w, 1, 0)], Lossy(m));
    t := T(listenFd, [AddProvide(0), AddRead(m)], [Listens(listenFd)], [], Lossy(m));
    es := Then(n, reserved, Init(listenFd), es, Filled(listenFd, m, 1), DoFinish(0, Received(TWO_BYTES)), s1);
    es := Then(n, reserved, Init(listenFd), es, s1, DoHandle, s2);
    es := Then(n, reserved, Init(listenFd), es, s2, DoTake, s3);
    es := Then(n, reserved, Init(listenFd), es, s3, DoTake, s4);
    es := Then(n, reserved, Init(listenFd), es, s4, DoFinish(1, Sent(1)), s5);
    es := Then(n, reserved, Init(listenFd), es, s5, DoHandle, t);
  }

  /** The buffer is not taken back: the provide fails, and the server leaves. */
  lemma FailedProvideEnds(n: nat, reserved: set<nat>, listenFd: nat, m: nat) returns (es: seq<Event>, t: State)
    requires 0 < n && forall r :: r in reserved ==> r < m
    ensures Run(n, reserved, Init(listenFd), es, t) && t.exited && t.cq == [Cqe(AddProvide(0), -1, 0)]
  {
    hide Run, Init, Wet;
    var s;
    es, s := ShortSendLosesAByte(n, reserved, listenFd, m);
    t := Refuse(s, 1);
    assert Follows(n, reserved, s, DoRefuse(1), t);
    assert t.cq == [Cqe(AddProvide(0), -1, 0)];
    es := Then(n, reserved, Init(listenFd), es, s, DoRefuse(1), t);
    es := Then(n, reserved, Init(listenFd), es, t, DoHandle, t.(exited := true));
    t := t.(exited := true);
  }
}
