/**
 Two runs of the multi-ring server, state by state: one in which a ring that starts at the
 wrong moment makes another send the wrong byte, and one in which a short send loses a byte.
 */
module MultiRingRuns {
  import opened Streams
  import opened Kernel
  import opened Echo
  import opened MultiRing
  import opened MultiRingProof

  // ---------------------------------------------------------------- a run that echoes the wrong byte

  /** The events of the run below, and the states between them. */
  const SCRIPT := [
    DoStart(0, 10), DoTake(0), DoFinish(0, Accepted(5)), DoHandle(0, 11, 12), DoTake(0), DoTake(0),
    DoFinish(1, Received([1])), DoStart(1, 13), DoHandle(0, 14, 15), DoTake(1), DoFinish(1, Sent(1))]

  const A0 := Sqe(0, 10, Accept)
  const A1 := Sqe(0, 11, Accept)
  const A2 := Sqe(1, 13, Accept)
  const R := Sqe(0, 12, Recv(5, 1))
  const S := Sqe(0, 14, Send(5, 2, 1))
  const LISTENING := EventInfo(3, 0, ETypeAccept)
  const READING := EventInfo(0, 5, ETypeRead)
  const OPENED: map<nat, Stream> := map[5 := EMPTY_STREAM]
  const FILLED: map<nat, Stream> := map[5 := Stream([1], [], [Message([1], [])])]
  const SPOILED: map<nat, Stream> := map[5 := Stream([1], [0], [Message([1], [1])])]

  function Table1(): map<(nat, nat), seq<byte>> {
    NewTable(1)[(1, 5) := [1] + seq(MAX_MSG_LEN - 1, _ => 0)]
  }

  function Table2(): map<(nat, nat), seq<byte>> {
    Table1() + NewTable(2)
  }

  function T0(): State { State(3, [map[], map[]], {}, 0, [], [], [], World(map[], map[])) }

  function T1(): State {
    State(3, [map[10 := LISTENING], map[]], {0}, 1, [A0], [], [], World(map[], NewTable(1)))
  }

  function T2(): State { T1().(sq := [], kernel := [A0]) }

  function T3(): State { T1().(sq := [], cq := [Cqe(A0, 5)], world := World(OPENED, NewTable(1))) }

  function T4(): State {
    State(3, [map[11 := LISTENING, 12 := READING], map[]], {0}, 1, [A1, R], [], [], World(OPENED, NewTable(1)))
  }

  function T5(): State { T4().(sq := [R], kernel := [A1]) }

  function T6(): State { T4().(sq := [], kernel := [A1, R]) }

  function T7(): State {
    T4().(sq := [], kernel := [A1], cq := [Cqe(R, 1)], world := World(FILLED, Table1()))
  }

  function T8(): State {
    State(3, [map[11 := LISTENING, 12 := READING], map[13 := LISTENING]], {0, 1}, 2, [A2], [A1], [Cqe(R, 1)],
          World(FILLED, Table2()))
  }

  function T9(): State {
    State(3, [map[11 := LISTENING, 14 := EventInfo(0, 5, ETypeWrite)], map[13 := LISTENING]], {0, 1}, 2, [A2, S],
          [A1], [],
          World(FILLED, Table2()))
  }

  function T10(): State { T9().(sq := [A2], kernel := [A1, S]) }

  function T11(): State {
    T9().(sq := [A2], kernel := [A1], cq := [Cqe(S, 1)], world := World(SPOILED, Table2()))
  }

  function Stage(k: nat): State
    requires k <= 11
  {
    match k
    case 0 => T0()
    case 1 => T1()
    case 2 => T2()
    case 3 => T3()
    case 4 => T4()
    case 5 => T5()
    case 6 => T6()
    case 7 => T7()
    case 8 => T8()
    case 9 => T9()
    case 10 => T10()
    case _ => T11()
  }

  ghost predicate Follows(s: State, e: Event, t: State) {
    && Enabled({}, s, e) && (e.DoHandle? ==> Known(s, e.i))
    && Apply({}, s, e) == t
  }

  lemma Follows0()
    ensures Follows(T0(), DoStart(0, 10), T1())
  {
    assert map[] + NewTable(1) == NewTable(1);
    assert Start(T0(), 0, 10).maps == T1().maps;
  }

  lemma Follows1()
    ensures Follows(T1(), DoTake(0), T2())
  {
    assert Take(T1(), 0).sq == [] && Take(T1(), 0).kernel == [A0];
  }

  lemma Follows2()
    ensures Follows(T2(), DoFinish(0, Accepted(5)), T3())
  {
    hide NewTable;
    var t := Finish({}, T2(), 0, Accepted(5));
    assert t.kernel == [] && t.cq == [Cqe(A0, 5)] && t.world.streams == OPENED;
  }

  lemma Follows3()
    ensures Follows(T3(), DoHandle(0, 11, 12), T4())
  {
    hide NewTable;
    var t := Handle(T3(), 0, 11, 12);
    assert t.cq == [] && t.sq == [A1, R];
    assert t.maps[0] == T4().maps[0];
    assert t.maps == T4().maps;
  }

  lemma Follows4()
    ensures Follows(T4(), DoTake(0), T5())
  {
    hide NewTable;
    assert Take(T4(), 0).sq == [R] && Take(T4(), 0).kernel == [A1];
  }

  lemma Follows5()
    ensures Follows(T5(), DoTake(0), T6())
  {
    hide NewTable;
    assert Take(T5(), 0).sq == [] && Take(T5(), 0).kernel == [A1, R];
  }

  /** A receive of one byte on a new connection, in memory and on the stream. */
  lemma FirstByte(w: World<(nat, nat)>)
    requires w.streams == OPENED && w.mem == NewTable(1)
    ensures Allowed(w, {}, KRecv(5, (1, 5), MAX_MSG_LEN), Received([1]))
    ensures Exec(w, {}, KRecv(5, (1, 5), MAX_MSG_LEN), Received([1])) == World(FILLED, Table1())
  {
    assert IsSlot(5) && (1, 5) in NewTable(1);
    var zeros: seq<byte> := seq(MAX_MSG_LEN, _ => 0);
    var rest: seq<byte> := seq(MAX_MSG_LEN - 1, _ => 0);
    assert NewTable(1)[(1, 5)] == zeros;
    assert zeros[1..] == rest;
    hide NewTable;
    var one: seq<byte> := [1];
    assert EMPTY_STREAM.received + one == one;
    assert EMPTY_STREAM.log + [Message(one, [])] == [Message(one, [])];
  }

  lemma Follows6()
    ensures Follows(T6(), DoFinish(1, Received([1])), T7())
  {
    FirstByte(T6().world);
    hide NewTable, Table1, Allowed, Exec;
    var t := Finish({}, T6(), 1, Received([1]));
    assert t.kernel == [A1] && t.cq == [Cqe(R, 1)];
  }

  lemma Follows7()
    ensures Follows(T7(), DoStart(1, 13), T8())
  {
    hide NewTable;
    var t := Start(T7(), 1, 13);
    assert t.sq == [A2] && t.maps[1] == T8().maps[1];
    assert t.maps == T8().maps;
  }

  lemma Follows8()
    ensures Follows(T8(), DoHandle(0, 14, 15), T9())
  {
    hide NewTable, Table1, Table2;
    var t := Handle(T8(), 0, 14, 15);
    assert t.cq == [] && t.sq == [A2, S];
    assert t.maps[0] == T9().maps[0];
    assert t.maps == T9().maps;
  }

  lemma Follows9()
    ensures Follows(T9(), DoTake(1), T10())
  {
    hide NewTable, Table1, Table2;
    assert Take(T9(), 1).sq == [A2] && Take(T9(), 1).kernel == [A1, S];
  }

  lemma SecondTableIsZero()
    ensures (2, 5) in Table2() && |Table2()[(2, 5)]| == MAX_MSG_LEN && Table2()[(2, 5)][0] == 0
  {
    assert IsSlot(5) && (2, 5) in NewTable(2);
  }

  /** The byte is sent from the second table, which is still all zero. */
  lemma WrongByte(w: World<(nat, nat)>)
    requires w.streams == FILLED && (2, 5) in w.mem && 0 < |w.mem[(2, 5)]| && w.mem[(2, 5)][0] == 0
    ensures Allowed(w, {}, KSend(5, (2, 5), 0, 1), Sent(1))
    ensures Exec(w, {}, KSend(5, (2, 5), 0, 1), Sent(1)) == World(SPOILED, w.mem)
  {
    var zero: seq<byte> := [0];
    assert w.mem[(2, 5)][0..0 + 1] == zero;
    var st := FILLED[5];
    assert Front(st.log) == [] && Last(st.log) == Message([1], []);
    var results: seq<nat> := [1];
    assert Last(st.log).results + [|zero|] == results;
    assert Front(st.log) + [Message([1], results)] == [Message([1], results)];
    assert st.sent + zero == zero;
    assert AfterSend(st, zero) == SPOILED[5];
  }

  lemma Follows10()
    ensures Follows(T10(), DoFinish(1, Sent(1)), T11())
  {
    hide NewTable, Table1, Table2, Allowed, Exec, AfterSend;
    SecondTableIsZero();
    WrongByte(T10().world);
    var t := Finish({}, T10(), 1, Sent(1));
    assert t.kernel == [A1] && t.cq == [Cqe(S, 1)];
  }

  lemma StageFollows(k: nat)
    requires k < 11
    ensures Follows(Stage(k), SCRIPT[k], Stage(k + 1))
  {
    hide Follows, T0, T1, T2, T3, T4, T5, T6, T7, T8, T9, T10, T11;
    Follows0();
    Follows1();
    Follows2();
    Follows3();
    Follows4();
    Follows5();
    Follows6();
    Follows7();
    Follows8();
    Follows9();
    Follows10();
  }

  lemma {:induction false} RunsTo(k: nat)
    requires k <= 11
    ensures Run({}, {}, Stage(0), SCRIPT[..k], Stage(k))
  {
    hide Stage, Enabled, Apply, Known;
    if k > 0 {
      RunsTo(k - 1);
      StageFollows(k - 1);
      RunThen({}, Stage(0), SCRIPT[..k - 1], Stage(k - 1), SCRIPT[k - 1]);
      assert SCRIPT[..k - 1] + [SCRIPT[k - 1]] == SCRIPT[..k];
    }
  }

  /**
   A concrete run in which the echo is wrong: the second ring starts after a byte was
   received on the first and before it was sent, and a zero goes back instead.
   */
  lemma StartDuringReadSpoilsEcho()
    ensures Run({}, {}, Init(3, 2), SCRIPT, Stage(11))
    ensures Stage(11).world.streams == SPOILED && SPOILED[5].received == [1] && SPOILED[5].sent == [0]
  {
    hide Run, Table1, Table2, NewTable;
    RunsTo(11);
    assert SCRIPT[..11] == SCRIPT;
    Starts();
  }

  // ---------------------------------------------------------------- a run that loses a byte

  /** Up to two received bytes as above, then to the next read. */
  function ShortScript(): seq<Event> {
    SCRIPT[..6] + [DoFinish(1, Received(TWO_BYTES))] + [DoHandle(0, 14, 15)] + [DoTake(0)] + [DoFinish(1, Sent(1))]
      + [DoHandle(0, 16, 17)]
  }

  const S1 := Sqe(0, 14, Send(5, 1, 2))

  function Wet(): map<(nat, nat), seq<byte>> {
    NewTable(1)[(1, 5) := TWO_BYTES + seq(MAX_MSG_LEN - 2, _ => 0)]
  }

  function U7(): State {
    T4().(sq := [], kernel := [A1], cq := [Cqe(R, 2)], world := World(map[5 := RECEIVED], Wet()))
  }

  function U8(): State {
    U7().(maps := [map[11 := LISTENING, 14 := EventInfo(0, 5, ETypeWrite)], map[]], sq := [S1], cq := [])
  }

  function U9(): State { U8().(sq := [], kernel := [A1, S1]) }

  function U10(): State { U8().(sq := [], cq := [Cqe(S1, 1)], world := World(map[5 := SHORT], Wet())) }

  function U11(): State {
    U10().(maps := [map[11 := LISTENING, 16 := READING], map[]], sq := [Sqe(0, 16, Recv(5, 1))], cq := [])
  }

  lemma TableIsZero()
    ensures (1, 5) in NewTable(1) && |NewTable(1)[(1, 5)]| == MAX_MSG_LEN
    ensures NewTable(1)[(1, 5)][2..] == seq(MAX_MSG_LEN - 2, _ => 0)
  {
    assert IsSlot(5) && (1, 5) in NewTable(1);
  }

  lemma ShortFollows6()
    ensures Follows(T6(), DoFinish(1, Received(TWO_BYTES)), U7())
  {
    TableIsZero();
    TwoBytesArrive(T6().world, {}, 5, (1, 5), MAX_MSG_LEN);
    assert T6().world.streams[5 := RECEIVED] == map[5 := RECEIVED];
    hide NewTable, Allowed, Exec;
    var t := Finish({}, T6(), 1, Received(TWO_BYTES));
    assert t.kernel == [A1] && t.cq == [Cqe(R, 2)];
  }

  lemma ShortFollows7()
    ensures Follows(U7(), DoHandle(0, 14, 15), U8())
  {
    hide NewTable, Wet;
    var t := Handle(U7(), 0, 14, 15);
    assert t.cq == [] && t.sq == [S1];
    assert t.maps[0] == U8().maps[0];
    assert t.maps == U8().maps;
  }

  lemma ShortFollows8()
    ensures Follows(U8(), DoTake(0), U9())
  {
    hide NewTable, Wet;
    assert Take(U8(), 0).sq == [] && Take(U8(), 0).kernel == [A1, S1];
  }

  lemma ShortFollows9()
    ensures Follows(U9(), DoFinish(1, Sent(1)), U10())
  {
    OneByteLeaves(U9().world, {}, 5, (1, 5));
    assert U9().world.streams[5 := SHORT] == map[5 := SHORT];
    hide NewTable, Wet, Allowed, Exec;
    var t := Finish({}, U9(), 1, Sent(1));
    assert t.kernel == [A1] && t.cq == [Cqe(S1, 1)];
  }

  lemma ShortFollows10()
    ensures Follows(U10(), DoHandle(0, 16, 17), U11())
  {
    hide NewTable, Wet;
    var t := Handle(U10(), 0, 16, 17);
    assert t.cq == [] && t.sq == [Sqe(0, 16, Recv(5, 1))];
    assert t.maps[0] == U11().maps[0];
    assert t.maps == U11().maps;
  }

  lemma {:induction false} RunFollows(es: seq<Event>, s: State, e: Event, t: State)
    requires Run({}, {}, T0(), es, s) && Follows(s, e, t)
    ensures Run({}, {}, T0(), es + [e], t)
  {
    hide Run, Enabled, Apply, Known, T0;
    RunThen({}, T0(), es, s, e);
  }

  lemma Starts()
    ensures Init(3, 2) == T0()
  {
    assert Init(3, 2).maps == T0().maps;
  }

  /** A concrete run in which of two bytes received one goes back, and the server reads on. */
  lemma ShortSendLosesAByte()
    ensures Run({}, {}, Init(3, 2), ShortScript(), U11())
    ensures U11().world.streams == map[5 := SHORT] && SHORT.received == [7, 8] && SHORT.sent == [7]
    ensures U11().sq == [Sqe(0, 16, Recv(5, 1))]
  {
    hide Run, Follows, Init, T0, T6, U7, U8, U9, Wet;
    Starts();
    RunsTo(6);
    ShortFollows6();
    ShortFollows7();
    ShortFollows8();
    ShortFollows9();
    ShortFollows10();
    var e0 := SCRIPT[..6];
    var e1 := e0 + [DoFinish(1, Received(TWO_BYTES))];
    var e2 := e1 + [DoHandle(0, 14, 15)];
    var e3 := e2 + [DoTake(0)];
    RunFollows(e0, T6(), DoFinish(1, Received(TWO_BYTES)), U7());
    RunFollows(e1, U7(), DoHandle(0, 14, 15), U8());
    RunFollows(e2, U8(), DoTake(0), U9());
    RunFollows(e3, U9(), DoFinish(1, Sent(1)), U10());
    RunFollows(e3 + [DoFinish(1, Sent(1))], U10(), DoHandle(0, 16, 17), U11());
  }
}
