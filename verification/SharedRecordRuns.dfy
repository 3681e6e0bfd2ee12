/**
 A run of the shared-record server, state by state, in which a short send loses a byte, for
 every listener, every descriptor inside the table and every message length of two or more.
 */
module SharedRecordRuns {
  import opened Streams
  import opened Kernel
  import opened Echo
  import opened SharedRecord
  import opened SharedRecordProof

  predicate Suits(cfg: Config, reserved: set<nat>, fd: nat) {
    cfg.listenFd < cfg.table && fd < cfg.table && fd != cfg.listenFd && fd !in reserved && 2 <= cfg.msgLen
  }

  function A(cfg: Config): Sqe { Sqe(Accept, cfg.listenFd, ConnInfo(cfg.listenFd, ACCEPT)) }

  function R(fd: nat): Sqe { Sqe(Recv(fd), fd, ConnInfo(fd, READ)) }

  function S(fd: nat): Sqe { Sqe(Send(fd, 2), fd, ConnInfo(fd, WRITE)) }

  function Zeros(cfg: Config): map<nat, seq<byte>> {
    map i: nat | i < cfg.table && IsSlot(i) :: seq(cfg.msgLen, _ => 0)
  }

  function Wet(cfg: Config, fd: nat): map<nat, seq<byte>>
    requires fd < cfg.table && 2 <= cfg.msgLen
  {
    assert IsSlot(fd);
    Zeros(cfg)[fd := TWO_BYTES + Zeros(cfg)[fd][2..]]
  }

  /** The records, with that of the listener and that of the connection as given. */
  function Records(cfg: Config): seq<ConnInfo>
    requires cfg.listenFd < cfg.table
  {
    seq(cfg.table, _ => ConnInfo(0, ACCEPT))[cfg.listenFd := ConnInfo(cfg.listenFd, ACCEPT)]
  }

  function T(cfg: Config, fd: nat, kind: Kind, sq: seq<Sqe>, kernel: seq<Sqe>, cq: seq<Cqe>, w: World<nat>): State
    requires cfg.listenFd < cfg.table && fd < cfg.table
  {
    State(Records(cfg)[fd := ConnInfo(fd, kind)], sq, kernel, cq, w)
  }

  function Opened(cfg: Config, fd: nat): World<nat> { World(map[fd := EMPTY_STREAM], Zeros(cfg)) }

  function Filled(cfg: Config, fd: nat): World<nat>
    requires fd < cfg.table && 2 <= cfg.msgLen
  {
    World(map[fd := RECEIVED], Wet(cfg, fd))
  }

  function Lossy(cfg: Config, fd: nat): World<nat>
    requires fd < cfg.table && 2 <= cfg.msgLen
  {
    World(map[fd := SHORT], Wet(cfg, fd))
  }

  ghost predicate Follows(cfg: Config, reserved: set<nat>, s: State, e: Event, t: State) {
    && Enabled(cfg, reserved, s, e) && (e.DoHandle? ==> InTable(cfg, false, s))
    && Apply(cfg, reserved, false, s, e) == t
  }

  lemma Accepts(cfg: Config, reserved: set<nat>, fd: nat) returns (es: seq<Event>)
    requires Suits(cfg, reserved, fd)
    ensures Run(cfg, reserved, false, Init(cfg), es, T(cfg, fd, READ, [A(cfg), R(fd)], [], [], Opened(cfg, fd)))
  {
    var s0, s1 := Init(cfg), Init(cfg).(sq := [], kernel := [A(cfg)]);
    var s2 := s0.(sq := [], cq := [Cqe(A(cfg), fd)], world := Opened(cfg, fd));
    Starts(cfg);
    assert Follows(cfg, reserved, s0, DoTake, s1);
    assert Follows(cfg, reserved, s1, DoFinish(0, Accepted(fd)), s2) by { AcceptFinishes(cfg, reserved, fd); }
    AcceptHandled(cfg, reserved, fd);
    hide Follows, Run;
    es := [];
    RunNothing(cfg, reserved);
    es := Then(cfg, reserved, es, s0, DoTake, s1);
    es := Then(cfg, reserved, es, s1, DoFinish(0, Accepted(fd)), s2);
    es := Then(cfg, reserved, es, s2, DoHandle, T(cfg, fd, READ, [A(cfg), R(fd)], [], [], Opened(cfg, fd)));
  }

  lemma Starts(cfg: Config)
    requires cfg.listenFd < cfg.table
    ensures Init(cfg) == State(Records(cfg), [A(cfg)], [], [], World(map[], Zeros(cfg)))
  {
  }

  lemma RunNothing(cfg: Config, reserved: set<nat>)
    requires cfg.listenFd < cfg.table
    ensures Run(cfg, reserved, false, Init(cfg), [], Init(cfg))
  {
  }

  lemma AcceptFinishes(cfg: Config, reserved: set<nat>, fd: nat)
    requires Suits(cfg, reserved, fd)
    ensures var s1 := Init(cfg).(sq := [], kernel := [A(cfg)]);
            var s2 := Init(cfg).(sq := [], cq := [Cqe(A(cfg), fd)], world := Opened(cfg, fd));
            Follows(cfg, reserved, s1, DoFinish(0, Accepted(fd)), s2)
  {
    Starts(cfg);
    hide Init, Zeros, Records;
    var t := Finish(cfg, reserved, Init(cfg).(sq := [], kernel := [A(cfg)]), 0, Accepted(fd));
    assert t.kernel == [] && t.cq == [Cqe(A(cfg), fd)];
    assert t.world.streams == map[fd := EMPTY_STREAM];
  }

  lemma AcceptHandled(cfg: Config, reserved: set<nat>, fd: nat)
    requires Suits(cfg, reserved, fd)
    ensures var s2 := Init(cfg).(sq := [], cq := [Cqe(A(cfg), fd)], world := Opened(cfg, fd));
            Follows(cfg, reserved, s2, DoHandle, T(cfg, fd, READ, [A(cfg), R(fd)], [], [], Opened(cfg, fd)))
  {
    Starts(cfg);
    hide Init, Zeros;
    var s2 := Init(cfg).(sq := [], cq := [Cqe(A(cfg), fd)], world := Opened(cfg, fd));
    assert s2.conns[cfg.listenFd := ConnInfo(cfg.listenFd, ACCEPT)] == s2.conns;
    assert Handle(cfg, false, s2).sq == [A(cfg), R(fd)];
  }

  lemma {:induction false} Then(cfg: Config, reserved: set<nat>, es: seq<Event>, s: State, e: Event, t: State)
      returns (es': seq<Event>)
    requires cfg.listenFd < cfg.table && Run(cfg, reserved, false, Init(cfg), es, s) && Follows(cfg, reserved, s, e, t)
    ensures Run(cfg, reserved, false, Init(cfg), es', t)
  {
    hide Run, Init, Enabled, Apply, InTable;
    RunThen(cfg, reserved, Init(cfg), es, s, e);
    es' := es + [e];
  }

  lemma Transfers(cfg: Config, reserved: set<nat>, fd: nat)
    requires Suits(cfg, reserved, fd)
    ensures Follows(cfg, reserved, T(cfg, fd, READ, [A(cfg), R(fd)], [], [], Opened(cfg, fd)), DoTake,
                    T(cfg, fd, READ, [R(fd)], [A(cfg)], [], Opened(cfg, fd)))
    ensures Follows(cfg, reserved, T(cfg, fd, READ, [R(fd)], [A(cfg)], [], Opened(cfg, fd)), DoTake,
                    T(cfg, fd, READ, [], [A(cfg), R(fd)], [], Opened(cfg, fd)))
    ensures Follows(cfg, reserved, T(cfg, fd, WRITE, [S(fd)], [A(cfg)], [], Filled(cfg, fd)), DoTake,
                    T(cfg, fd, WRITE, [], [A(cfg), S(fd)], [], Filled(cfg, fd)))
  {
    hide Zeros, Wet, Records;
    assert [A(cfg), R(fd)][1..] == [R(fd)] && [A(cfg)] + [R(fd)] == [A(cfg), R(fd)];
    assert [A(cfg)] + [S(fd)] == [A(cfg), S(fd)];
  }

  lemma Reads(cfg: Config, reserved: set<nat>, fd: nat)
    requires Suits(cfg, reserved, fd)
    ensures Follows(cfg, reserved, T(cfg, fd, READ, [], [A(cfg), R(fd)], [], Opened(cfg, fd)),
                    DoFinish(1, Received(TWO_BYTES)),
                    T(cfg, fd, READ, [], [A(cfg)], [Cqe(R(fd), 2)], Filled(cfg, fd)))
  {
    assert IsSlot(fd) && fd in Zeros(cfg) && |Zeros(cfg)[fd]| == cfg.msgLen;
    hide Zeros, Records, Allowed, Exec;
    var s := T(cfg, fd, READ, [], [A(cfg), R(fd)], [], Opened(cfg, fd));
    TwoBytesArrive(s.world, reserved + {cfg.listenFd}, fd, fd, cfg.msgLen);
    assert s.world.streams[fd := RECEIVED] == map[fd := RECEIVED];
    var t := Finish(cfg, reserved, s, 1, Received(TWO_BYTES));
    assert t.kernel == [A(cfg)] && t.cq == [Cqe(R(fd), 2)];
  }

  lemma ReadHandled(cfg: Config, reserved: set<nat>, fd: nat)
    requires Suits(cfg, reserved, fd)
    ensures Follows(cfg, reserved, T(cfg, fd, READ, [], [A(cfg)], [Cqe(R(fd), 2)], Filled(cfg, fd)), DoHandle,
                    T(cfg, fd, WRITE, [S(fd)], [A(cfg)], [], Filled(cfg, fd)))
  {
    hide Zeros, Wet, Records;
    RecordsSize(cfg);
    var s := T(cfg, fd, READ, [], [A(cfg)], [Cqe(R(fd), 2)], Filled(cfg, fd));
    assert s.conns[fd := ConnInfo(fd, WRITE)] == Records(cfg)[fd := ConnInfo(fd, WRITE)];
    assert Handle(cfg, false, s).sq == [S(fd)];
  }

  lemma RecordsSize(cfg: Config)
    requires cfg.listenFd < cfg.table
    ensures |Records(cfg)| == cfg.table
  {
  }

  lemma Sends(cfg: Config, reserved: set<nat>, fd: nat)
    requires Suits(cfg, reserved, fd)
    ensures Follows(cfg, reserved, T(cfg, fd, WRITE, [], [A(cfg), S(fd)], [], Filled(cfg, fd)), DoFinish(1, Sent(1)),
                    T(cfg, fd, WRITE, [], [A(cfg)], [Cqe(S(fd), 1)], Lossy(cfg, fd)))
  {
    var s := T(cfg, fd, WRITE, [], [A(cfg), S(fd)], [], Filled(cfg, fd));
    OneByteLeaves(s.world, reserved + {cfg.listenFd}, fd, fd);
    hide Zeros, Wet, Records, Allowed, Exec;
    assert s.world.streams[fd := SHORT] == map[fd := SHORT];
    var t := Finish(cfg, reserved, s, 1, Sent(1));
    assert t.kernel == [A(cfg)] && t.cq == [Cqe(S(fd), 1)];
  }

  lemma SendHandled(cfg: Config, reserved: set<nat>, fd: nat)
    requires Suits(cfg, reserved, fd)
    ensures Follows(cfg, reserved, T(cfg, fd, WRITE, [], [A(cfg)], [Cqe(S(fd), 1)], Lossy(cfg, fd)), DoHandle,
                    T(cfg, fd, READ, [R(fd)], [A(cfg)], [], Lossy(cfg, fd)))
  {
    hide Zeros, Wet, Records;
    RecordsSize(cfg);
    var s := T(cfg, fd, WRITE, [], [A(cfg)], [Cqe(S(fd), 1)], Lossy(cfg, fd));
    assert s.conns[fd := ConnInfo(fd, READ)] == Records(cfg)[fd := ConnInfo(fd, READ)];
    assert Handle(cfg, false, s).sq == [R(fd)];
  }

  /** Of two bytes received one goes back, and the server reads on. */
  lemma ShortSendLosesAByte(cfg: Config, reserved: set<nat>, fd: nat) returns (es: seq<Event>, t: State)
    requires Suits(cfg, reserved, fd)
    ensures Run(cfg, reserved, false, Init(cfg), es, t)
    ensures t.world.streams == map[fd := SHORT] && SHORT.received == [7, 8] && SHORT.sent == [7]
    ensures t.sq == [R(fd)] && t.cq == []
  {
    hide Run, Init, Follows, Zeros, Wet, Records;
    es := Accepts(cfg, reserved, fd);
    Transfers(cfg, reserved, fd);
    Reads(cfg, reserved, fd);
    ReadHandled(cfg, reserved, fd);
    Sends(cfg, reserved, fd);
    SendHandled(cfg, reserved, fd);
    var s3 := T(cfg, fd, READ, [A(cfg), R(fd)], [], [], Opened(cfg, fd));
    var s4 := T(cfg, fd, READ, [R(fd)], [A(cfg)], [], Opened(cfg, fd));
    var s5 := T(cfg, fd, READ, [], [A(cfg), R(fd)], [], Opened(cfg, fd));
    var s6 := T(cfg, fd, READ, [], [A(cfg)], [Cqe(R(fd), 2)], Filled(cfg, fd));
    var s7 := T(cfg, fd, WRITE, [S(fd)], [A(cfg)], [], Filled(cfg, fd));
    var s8 := T(cfg, fd, WRITE, [], [A(cfg), S(fd)], [], Filled(cfg, fd));
    var s9 := T(cfg, fd, WRITE, [], [A(cfg)], [Cqe(S(fd), 1)], Lossy(cfg, fd));
    t := T(cfg, fd, READ, [R(fd)], [A(cfg)], [], Lossy(cfg, fd));
    es := Then(cfg, reserved, es, s3, DoTake, s4);
    es := Then(cfg, reserved, es, s4, DoTake, s5);
    es := Then(cfg, reserved, es, s5, DoFinish(1, Received(TWO_BYTES)), s6);
    es := Then(cfg, reserved, es, s6, DoHandle, s7);
    es := Then(cfg, reserved, es, s7, DoTake, s8);
    es := Then(cfg, reserved, es, s8, DoFinish(1, Sent(1)), s9);
    es := Then(cfg, reserved, es, s9, DoHandle, t);
  }

  // ---------------------------------------------------------------- an accept that cannot be indexed by

  /** Two steps after the start, a failed accept makes the server index its records by a negative number. */
  lemma FailedAcceptLeavesTable(cfg: Config, reserved: set<nat>) returns (es: seq<Event>, t: State)
    requires cfg.listenFd < cfg.table
    ensures Run(cfg, reserved, false, Init(cfg), es, t) && t.cq == [Cqe(A(cfg), -1)] && !InTable(cfg, false, t)
  {
    var s0, s1 := Init(cfg), Init(cfg).(sq := [], kernel := [A(cfg)]);
    t := s0.(sq := [], cq := [Cqe(A(cfg), -1)]);
    Starts(cfg);
    assert Follows(cfg, reserved, s0, DoTake, s1);
    assert Follows(cfg, reserved, s1, DoFinish(0, Failed(1)), t);
    assert !InTable(cfg, false, t);
    hide Follows, Run;
    es := [];
    RunNothing(cfg, reserved);
    es := Then(cfg, reserved, es, s0, DoTake, s1);
    es := Then(cfg, reserved, es, s1, DoFinish(0, Failed(1)), t);
  }
}
