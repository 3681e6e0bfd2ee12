/**
 A run of the token server in which two short sends lose a byte: four bytes arrive, one and
 then two of them are sent, and the server takes the message for finished and polls again.
 */
module TokenRuns {
  import opened Streams
  import opened Kernel
  import opened TokenMachine
  import opened TokenLoss

  const FOUR: seq<byte> := [7, 8, 9, 10]
  const GOT := Stream(FOUR, [], [Message(FOUR, [])])
  const ONE := Stream(FOUR, [7], [Message(FOUR, [1])])
  const THREE := Stream(FOUR, [7, 8, 9], [Message(FOUR, [1, 2])])

  function Zeros(): seq<byte> { seq(BUF_LEN, _ => 0) }

  function Wet(): map<nat, seq<byte>> { map[0 := FOUR + Zeros()[4..]] }

  function W(fd: nat, st: Stream): World<nat> { World(map[fd := st], Wet()) }

  /** One connection, under token 1; two accepts in flight. */
  function T(token: Token, pool: seq<nat>, sq: seq<Sqe>, stale: nat, cq: seq<Cqe>, w: World<nat>): State {
    State(map[0 := Accept, 1 := token], pool, 1, [], sq, 0, stale, [A, A], cq, w, [], [], [])
  }

  // ---------------------------------------------------------------- the kernel's part of a turn

  lemma RoundFollows(reserved: set<nat>, token: Token, pool: seq<nat>, e: Sqe, stale: nat, w: World<nat>, o: Outcome)
    requires Allowed(w, reserved, e.op, o)
    ensures var s := T(token, pool, [e], stale, [], w);
            var s1 := s.(published := 1, stale := 0);
            var s2 := s.(sq := [], published := 0, stale := 1, kernel := [A, A, e]);
            && Follows(reserved, s, DoSync, s1) && Follows(reserved, s1, DoConsume, s2)
            && Follows(reserved, s2, DoComplete(2, o),
                       T(token, pool, [], 1, [Cqe(e, Res(o))], Exec(w, reserved, e.op, o)))
  {
    hide Allowed, Exec;
    assert [A, A] + [e] == [A, A, e] && [e][1..] == [];
    assert [A, A, e][..2] + [A, A, e][3..] == [A, A];
  }

  /** The queued entry is published and taken, and the operation completes. */
  lemma Round(reserved: set<nat>, es: seq<Event>, token: Token, pool: seq<nat>, e: Sqe, stale: nat, w: World<nat>,
      o: Outcome) returns (es': seq<Event>)
    requires Run(Init(), reserved, es, T(token, pool, [e], stale, [], w)) && Allowed(w, reserved, e.op, o)
    ensures Run(Init(), reserved, es', T(token, pool, [], 1, [Cqe(e, Res(o))], Exec(w, reserved, e.op, o)))
  {
    hide Run, Init, Follows, Allowed, Exec;
    RoundFollows(reserved, token, pool, e, stale, w, o);
    var s := T(token, pool, [e], stale, [], w);
    var s1 := s.(published := 1, stale := 0);
    var s2 := s.(sq := [], published := 0, stale := 1, kernel := [A, A, e]);
    es' := Then(reserved, es, s, DoSync, s1);
    es' := Then(reserved, es', s1, DoConsume, s2);
    es' := Then(reserved, es', s2, DoComplete(2, o),
                T(token, pool, [], 1, [Cqe(e, Res(o))], Exec(w, reserved, e.op, o)));
  }

  // ---------------------------------------------------------------- what the operations do

  lemma FourBytesArrive(reserved: set<nat>, fd: nat)
    ensures var w, op := World(map[fd := EMPTY_STREAM], map[0 := Zeros()]), KRecv(fd, 0, BUF_LEN);
            Allowed(w, reserved, op, Received(FOUR)) && Exec(w, reserved, op, Received(FOUR)) == W(fd, GOT)
  {
    var w := World(map[fd := EMPTY_STREAM], map[0 := Zeros()]);
    assert EMPTY_STREAM.received + FOUR == FOUR;
    assert EMPTY_STREAM.log + [Message(FOUR, [])] == [Message(FOUR, [])];
    assert w.streams[fd := GOT] == map[fd := GOT];
    assert w.mem[0 := FOUR + Zeros()[4..]] == Wet();
  }

  lemma OneByteLeaves(reserved: set<nat>, fd: nat)
    ensures Allowed(W(fd, GOT), reserved, KSend(fd, 0, 0, 4), Sent(1))
    ensures Exec(W(fd, GOT), reserved, KSend(fd, 0, 0, 4), Sent(1)) == W(fd, ONE)
  {
    var bytes: seq<byte> := [7];
    assert Wet()[0][0..0 + 1] == bytes;
    assert AfterSend(GOT, bytes) == ONE by {
      var results: seq<nat> := [1];
      assert Front(GOT.log) == [] && GOT.sent + bytes == bytes && Last(GOT.log).results + [1] == results;
      assert Front(GOT.log) + [Message(FOUR, results)] == [Message(FOUR, results)];
    }
    assert W(fd, GOT).streams[fd := ONE] == map[fd := ONE];
  }

  lemma TwoBytesLeave(reserved: set<nat>, fd: nat)
    ensures Allowed(W(fd, ONE), reserved, KSend(fd, 0, 1, 3), Sent(2))
    ensures Exec(W(fd, ONE), reserved, KSend(fd, 0, 1, 3), Sent(2)) == W(fd, THREE)
  {
    var bytes: seq<byte> := [8, 9];
    assert Wet()[0][1..1 + 2] == bytes;
    assert AfterSend(ONE, bytes) == THREE by {
      var results: seq<nat> := [1, 2];
      assert Front(ONE.log) == [] && ONE.sent + bytes == THREE.sent && Last(ONE.log).results + [2] == results;
      assert Front(ONE.log) + [Message(FOUR, results)] == [Message(FOUR, results)];
    }
    assert W(fd, ONE).streams[fd := THREE] == map[fd := THREE];
  }

  // ---------------------------------------------------------------- what the server does

  lemma Starts(m: nat)
    ensures Accepted1(m, 1, 0) ==
            T(Poll(m + 1), [], [P(m, 1)], 0, [], World(map[m + 1 := EMPTY_STREAM], map[]))
  {
    assert Tokens(m, 1, 0) == Tokens(m, 0, 0)[1 := TokenOf(m, 0, 1)];
    assert Tokens(m, 1, 0) == map[0 := Accept, 1 := Poll(m + 1)];
    assert Conns(m, 1) == Conns(m, 0)[m + 1 := EMPTY_STREAM];
    assert [A] + Polls(m, 0) + [A] == [A, A];
  }

  lemma PollHandled(reserved: set<nat>, m: nat)
    ensures var fd := m + 1;
            Follows(reserved, T(Poll(fd), [], [], 1, [Cqe(P(m, 1), 1)], World(map[fd := EMPTY_STREAM], map[])),
                    DoHandle(2, 0),
                    T(Read(fd, 0), [], [Q(m, 1)], 1, [], World(map[fd := EMPTY_STREAM], map[0 := Zeros()])))
  {
    assert map[0 := Accept, 1 := Poll(m + 1)][1 := Read(m + 1, 0)] == map[0 := Accept, 1 := Read(m + 1, 0)];
    assert [Cqe(P(m, 1), 1)][1..] == [] && [] + [Q(m, 1)] == [Q(m, 1)];
  }

  lemma ReadHandled(reserved: set<nat>, m: nat)
    ensures var fd := m + 1;
            Follows(reserved, T(Read(fd, 0), [], [], 1, [Cqe(Q(m, 1), 4)], W(fd, GOT)), DoHandle(2, 1),
                    T(Write(fd, 0, 0, 4), [], [Sqe(KSend(fd, 0, 0, 4), 1)], 1, [], W(fd, GOT)))
  {
    var fd := m + 1;
    assert map[0 := Accept, 1 := Read(fd, 0)][1 := Write(fd, 0, 0, 4)] == map[0 := Accept, 1 := Write(fd, 0, 0, 4)];
    assert [Cqe(Q(m, 1), 4)][1..] == [];
    hide Wet;
  }

  lemma ShortSendHandled(reserved: set<nat>, fd: nat)
    ensures Follows(reserved, T(Write(fd, 0, 0, 4), [], [], 1, [Cqe(Sqe(KSend(fd, 0, 0, 4), 1), 1)], W(fd, ONE)),
                    DoHandle(2, 1),
                    T(Write(fd, 0, 1, 3), [], [Sqe(KSend(fd, 0, 1, 3), 1)], 1, [], W(fd, ONE)))
  {
    var a, b := Write(fd, 0, 0, 4), Write(fd, 0, 1, 3);
    assert map[0 := Accept, 1 := a][1 := b] == map[0 := Accept, 1 := b];
    assert [Cqe(Sqe(KSend(fd, 0, 0, 4), 1), 1)][1..] == [];
  }

  lemma LastSendHandled(reserved: set<nat>, m: nat)
    ensures var fd := m + 1;
            Follows(reserved, T(Write(fd, 0, 1, 3), [], [], 1, [Cqe(Sqe(KSend(fd, 0, 1, 3), 1), 2)], W(fd, THREE)),
                    DoHandle(2, 1),
                    T(Poll(fd), [0], [P(m, 1)], 1, [], W(fd, THREE)))
  {
    var a, b := Write(m + 1, 0, 1, 3), Poll(m + 1);
    assert map[0 := Accept, 1 := a][1 := b] == map[0 := Accept, 1 := b];
    assert [Cqe(Sqe(KSend(m + 1, 0, 1, 3), 1), 2)][1..] == [];
    hide Wet;
  }

  // ---------------------------------------------------------------- the run

  lemma Receives(reserved: set<nat>, m: nat) returns (es: seq<Event>)
    requires forall r :: r in reserved ==> r <= m
    ensures Run(Init(), reserved, es,
                T(Write(m + 1, 0, 0, 4), [], [Sqe(KSend(m + 1, 0, 0, 4), 1)], 1, [], W(m + 1, GOT)))
  {
    hide Run, Init, Follows, Accepted1, Zeros, Wet, W, T;
    var fd := m + 1;
    var w, w' := World(map[fd := EMPTY_STREAM], map[]), World(map[fd := EMPTY_STREAM], map[0 := Zeros()]);
    es := Begins(reserved, m);
    Starts(m);
    es := Round(reserved, es, Poll(fd), [], P(m, 1), 0, w, Ready(1));
    PollHandled(reserved, m);
    es := Then(reserved, es, T(Poll(fd), [], [], 1, [Cqe(P(m, 1), 1)], w), DoHandle(2, 0),
               T(Read(fd, 0), [], [Q(m, 1)], 1, [], w'));
    FourBytesArrive(reserved, fd);
    es := Round(reserved, es, Read(fd, 0), [], Q(m, 1), 1, w', Received(FOUR));
    ReadHandled(reserved, m);
    es := Then(reserved, es, T(Read(fd, 0), [], [], 1, [Cqe(Q(m, 1), 4)], W(fd, GOT)), DoHandle(2, 1),
               T(Write(fd, 0, 0, 4), [], [Sqe(KSend(fd, 0, 0, 4), 1)], 1, [], W(fd, GOT)));
  }

  /** Three of the four bytes went back; the buffer is in the pool again and the server polls on. */
  lemma TwoShortSendsLoseAByte(reserved: set<nat>, m: nat) returns (es: seq<Event>, t: State)
    requires forall r :: r in reserved ==> r <= m
    ensures Run(Init(), reserved, es, t)
    ensures t.world.streams == map[m + 1 := THREE] && THREE.received == [7, 8, 9, 10] && THREE.sent == [7, 8, 9]
    ensures t.tokens == map[0 := Accept, 1 := Poll(m + 1)] && t.bufpool == [0] && t.failed == [] && t.dropped == []
  {
    hide Run, Init, Follows, Wet;
    var fd := m + 1;
    var e, e' := Sqe(KSend(fd, 0, 0, 4), 1), Sqe(KSend(fd, 0, 1, 3), 1);
    es := Receives(reserved, m);
    OneByteLeaves(reserved, fd);
    es := Round(reserved, es, Write(fd, 0, 0, 4), [], e, 1, W(fd, GOT), Sent(1));
    ShortSendHandled(reserved, fd);
    es := Then(reserved, es, T(Write(fd, 0, 0, 4), [], [], 1, [Cqe(e, 1)], W(fd, ONE)), DoHandle(2, 1),
               T(Write(fd, 0, 1, 3), [], [e'], 1, [], W(fd, ONE)));
    TwoBytesLeave(reserved, fd);
    es := Round(reserved, es, Write(fd, 0, 1, 3), [], e', 1, W(fd, ONE), Sent(2));
    LastSendHandled(reserved, m);
    t := T(Poll(fd), [0], [P(m, 1)], 1, [], W(fd, THREE));
    es := Then(reserved, es, T(Write(fd, 0, 1, 3), [], [], 1, [Cqe(e', 2)], W(fd, THREE)), DoHandle(2, 1), t);
  }
}
