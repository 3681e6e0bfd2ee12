/**
 What happens to the provided-buffer server when the completion of a read does not carry the
 buffer that was selected: the server takes its flags for buffer 0 and provides that one,
 although it waits to be sent to another connection. The next read gets it, and the bytes of
 one connection go out on another.

 Three connections, on descriptors `m`, `m + 1` and `m + 2`. The first has received into
 buffer 0; the second, with buffer 1, ends without its id; the third reads into buffer 0.
 */
module ProvidedReuse {
  import opened Streams
  import opened Kernel
  import opened Echo
  import opened Census
  import opened ProvidedBuffers
  import opened ProvidedInvariant
  import opened ProvidedTheorems
  import opened ProvidedRuns

  const OTHER: seq<byte> := [9, 9]
  const ARRIVED := Stream(OTHER, [], [Message(OTHER, [])])
  const SPOILED := Stream(TWO_BYTES, OTHER, [Message(TWO_BYTES, [2])])

  /** The memory after the third connection's read. */
  function Overwritten(): map<nat, seq<byte>> {
    assert IsId(0) && 0 in Below(BUFFERS_COUNT);
    Wet()[0 := OTHER + Wet()[0][2..]]
  }

  function W(m: nat): Sqe { AddWrite(m, 0, 2) }

  function Flying(m: nat): InFlight { InFlight(W(m), None) }

  function Third(m: nat, bid: Option<nat>): InFlight { InFlight(AddRead(m + 2), bid) }

  function Done(m: nat): seq<Cqe> { [Cqe(AddProvide(0), 0, 0), Cqe(AddRead(m + 2), 2, 1)] }

  /** Buffers 0 and 1 are not in the pool. */
  function T(listenFd: nat, sq: seq<Sqe>, kernel: seq<InFlight>, cq: seq<Cqe>, w: World<nat>): State {
    State(listenFd, Below(BUFFERS_COUNT) - Below(2), sq, kernel, cq, w, false)
  }

  function Three(m: nat): World<nat> {
    World(map[m := EMPTY_STREAM, m + 1 := EMPTY_STREAM, m + 2 := EMPTY_STREAM], Zeros())
  }

  function Waits(m: nat): World<nat> {
    World(map[m := RECEIVED, m + 1 := EMPTY_STREAM, m + 2 := EMPTY_STREAM], Wet())
  }

  function Shut(m: nat): World<nat> { World(map[m := RECEIVED, m + 2 := EMPTY_STREAM], Wet()) }

  function Mixed(m: nat): World<nat> { World(map[m := RECEIVED, m + 2 := ARRIVED], Overwritten()) }

  function Spoiled(m: nat): World<nat> { World(map[m := SPOILED, m + 2 := ARRIVED], Overwritten()) }

  // ---------------------------------------------------------------- up to the completion without its id

  lemma ThreeConnections(listenFd: nat, m: nat)
    ensures Waiting(listenFd, m, 2) ==
            T(listenFd, [AddAccept(listenFd)],
              [InFlight(AddRead(m), Some(0)), InFlight(AddRead(m + 1), Some(1)), Third(m, None)], [], Three(m))
  {
    var s := Waiting(listenFd, m, 2);
    assert Conns(m, 3) == Conns(m, 2)[m + 2 := EMPTY_STREAM];
    assert Conns(m, 2) == Conns(m, 1)[m + 1 := EMPTY_STREAM];
    assert Conns(m, 1) == Conns(m, 0)[m := EMPTY_STREAM];
    assert s.world.streams == Three(m).streams;
    assert s.kernel == [InFlight(AddRead(m), Some(0)), InFlight(AddRead(m + 1), Some(1)), Third(m, None)];
  }

  lemma FirstReads(n: nat, reserved: set<nat>, listenFd: nat, m: nat)
    ensures Follows(n, reserved,
                    T(listenFd, [AddAccept(listenFd)],
                      [InFlight(AddRead(m), Some(0)), InFlight(AddRead(m + 1), Some(1)), Third(m, None)], [], Three(m)),
                    DoFinish(0, Received(TWO_BYTES)),
                    T(listenFd, [AddAccept(listenFd)], [InFlight(AddRead(m + 1), Some(1)), Third(m, None)],
                      [Cqe(AddRead(m), 2, 1)], Waits(m)))
  {
    assert IsId(0) && 0 in Below(BUFFERS_COUNT) && 0 in Zeros() && |Zeros()[0]| == MAX_MESSAGE_LEN;
    hide Below, Zeros, Allowed, Exec;
    TwoBytesArrive(Three(m), reserved, m, 0, MAX_MESSAGE_LEN);
    assert Three(m).streams[m := RECEIVED] == Waits(m).streams;
    var s := T(listenFd, [AddAccept(listenFd)],
               [InFlight(AddRead(m), Some(0)), InFlight(AddRead(m + 1), Some(1)), Third(m, None)], [], Three(m));
    var t := Finish(s, reserved, 0, Received(TWO_BYTES));
    assert t.kernel == [InFlight(AddRead(m + 1), Some(1)), Third(m, None)] && t.cq == [Cqe(AddRead(m), 2, 1)];
  }

  lemma FirstHandled(n: nat, reserved: set<nat>, listenFd: nat, m: nat)
    ensures var rest := [InFlight(AddRead(m + 1), Some(1)), Third(m, None)];
            Follows(n, reserved, T(listenFd, [AddAccept(listenFd)], rest, [Cqe(AddRead(m), 2, 1)], Waits(m)), DoHandle,
                    T(listenFd, [AddAccept(listenFd), W(m)], rest, [], Waits(m)))
  {
    hide Below, Wet;
    var s := T(listenFd, [AddAccept(listenFd)], [InFlight(AddRead(m + 1), Some(1)), Third(m, None)],
               [Cqe(AddRead(m), 2, 1)], Waits(m));
    assert Handle(s).sq == [AddAccept(listenFd), W(m)] && Handle(s).world.streams == s.world.streams;
  }

  lemma IdMissing(listenFd: nat, m: nat)
    ensures FinishRead(T(listenFd, [AddAccept(listenFd), W(m)], [InFlight(AddRead(m + 1), Some(1)), Third(m, None)], [],
                         Waits(m)), 0, 0, 0) ==
            T(listenFd, [AddAccept(listenFd), W(m)], [Third(m, None)], [Cqe(AddRead(m + 1), 0, 0)], Waits(m))
  {
    hide Below, Wet;
    var s := T(listenFd, [AddAccept(listenFd), W(m)], [InFlight(AddRead(m + 1), Some(1)), Third(m, None)], [],
               Waits(m));
    assert FinishRead(s, 0, 0, 0).kernel == [Third(m, None)];
  }

  // ---------------------------------------------------------------- buffer 0 is provided, selected and overwritten

  lemma SecondHandled(n: nat, reserved: set<nat>, listenFd: nat, m: nat)
    ensures Follows(n, reserved,
                    T(listenFd, [AddAccept(listenFd), W(m)], [Third(m, None)], [Cqe(AddRead(m + 1), 0, 0)], Waits(m)),
                    DoHandle,
                    T(listenFd, [AddAccept(listenFd), W(m), AddProvide(0)], [Third(m, None)], [], Shut(m)))
  {
    hide Below, Wet;
    var s := T(listenFd, [AddAccept(listenFd), W(m)], [Third(m, None)], [Cqe(AddRead(m + 1), 0, 0)], Waits(m));
    assert Handle(s).sq == [AddAccept(listenFd), W(m), AddProvide(0)];
    assert Handle(s).world.streams == Shut(m).streams;
  }

  lemma EntriesTaken(n: nat, reserved: set<nat>, listenFd: nat, m: nat)
    ensures var a, w, p := AddAccept(listenFd), W(m), AddProvide(0);
            && Follows(n, reserved, T(listenFd, [a, w, p], [Third(m, None)], [], Shut(m)), DoTake,
                       T(listenFd, [w, p], [Third(m, None), Listens(listenFd)], [], Shut(m)))
            && Follows(n, reserved, T(listenFd, [w, p], [Third(m, None), Listens(listenFd)], [], Shut(m)), DoTake,
                       T(listenFd, [p], [Third(m, None), Listens(listenFd), Flying(m)], [], Shut(m)))
  {
    hide Below, Wet;
    var a, w, p := AddAccept(listenFd), W(m), AddProvide(0);
    assert [a, w, p][1..] == [w, p] && [w, p][1..] == [p];
    assert [Third(m, None)] + [Listens(listenFd)] == [Third(m, None), Listens(listenFd)];
    assert [Third(m, None), Listens(listenFd)] + [Flying(m)] == [Third(m, None), Listens(listenFd), Flying(m)];
  }

  /** Buffer 0 goes into the pool and out again, while the write of it is in flight. */
  lemma ProvidedAgain(n: nat, reserved: set<nat>, listenFd: nat, m: nat)
    ensures var s := T(listenFd, [AddProvide(0)], [Third(m, None), Listens(listenFd), Flying(m)], [], Shut(m));
            var s1 := s.(pool := s.pool + {0}, sq := [], cq := [Cqe(AddProvide(0), 0, 0)]);
            && Follows(n, reserved, s, DoTake, s1)
            && Follows(n, reserved, s1, DoSelect(0, 0),
                       T(listenFd, [], [Third(m, Some(0)), Listens(listenFd), Flying(m)], [Cqe(AddProvide(0), 0, 0)],
                         Shut(m)))
  {
    var s := T(listenFd, [AddProvide(0)], [Third(m, None), Listens(listenFd), Flying(m)], [], Shut(m));
    assert IsId(0) && 0 !in s.pool;
    hide Below, Wet;
    assert s.pool + {0} - {0} == s.pool;
    assert s.kernel[0 := Third(m, Some(0))] == [Third(m, Some(0)), Listens(listenFd), Flying(m)];
  }

  lemma OtherBytesArrive(reserved: set<nat>, m: nat)
    ensures var op, o := KRecv(m + 2, 0, MAX_MESSAGE_LEN), Received(OTHER);
            Allowed(Shut(m), reserved, op, o) && Exec(Shut(m), reserved, op, o) == Mixed(m)
  {
    assert IsId(0) && 0 in Below(BUFFERS_COUNT) && |Zeros()[0]| == MAX_MESSAGE_LEN && |Wet()[0]| == MAX_MESSAGE_LEN;
    hide Below, Zeros, Wet;
    assert EMPTY_STREAM.received + OTHER == OTHER;
    assert EMPTY_STREAM.log + [Message(OTHER, [])] == [Message(OTHER, [])];
    assert Shut(m).streams[m + 2 := ARRIVED] == Mixed(m).streams;
  }

  lemma ThirdReads(n: nat, reserved: set<nat>, listenFd: nat, m: nat)
    ensures Follows(n, reserved,
                    T(listenFd, [], [Third(m, Some(0)), Listens(listenFd), Flying(m)], [Cqe(AddProvide(0), 0, 0)],
                      Shut(m)),
                    DoFinish(0, Received(OTHER)),
                    T(listenFd, [], [Listens(listenFd), Flying(m)], Done(m), Mixed(m)))
  {
    OtherBytesArrive(reserved, m);
    hide Below, Allowed, Exec, Shut, Mixed;
    var s := T(listenFd, [], [Third(m, Some(0)), Listens(listenFd), Flying(m)], [Cqe(AddProvide(0), 0, 0)], Shut(m));
    var t := Finish(s, reserved, 0, Received(OTHER));
    assert t.kernel == [Listens(listenFd), Flying(m)];
    assert t.cq == Done(m);
  }

  // ---------------------------------------------------------------- and sent

  lemma OtherBytesLeave(reserved: set<nat>, m: nat)
    ensures var op, o := KSend(m, 0, 0, 2), Sent(2);
            Allowed(Mixed(m), reserved, op, o) && Exec(Mixed(m), reserved, op, o) == Spoiled(m)
  {
    assert IsId(0) && 0 in Below(BUFFERS_COUNT) && |Zeros()[0]| == MAX_MESSAGE_LEN && |Wet()[0]| == MAX_MESSAGE_LEN;
    hide Below, Zeros, Wet;
    assert Overwritten()[0][0..0 + 2] == OTHER;
    hide Overwritten;
    assert AfterSend(RECEIVED, OTHER) == SPOILED by {
      assert Front(RECEIVED.log) == [] && RECEIVED.sent + OTHER == OTHER;
      var results: seq<nat> := [2];
      assert Last(RECEIVED.log).results + [|OTHER|] == results;
      assert Front(RECEIVED.log) + [Message(TWO_BYTES, results)] == [Message(TWO_BYTES, results)];
    }
    assert Mixed(m).streams[m := SPOILED] == Spoiled(m).streams;
  }

  lemma FirstSends(n: nat, reserved: set<nat>, listenFd: nat, m: nat)
    ensures Follows(n, reserved, T(listenFd, [], [Listens(listenFd), Flying(m)], Done(m), Mixed(m)),
                    DoFinish(1, Sent(2)),
                    T(listenFd, [], [Listens(listenFd)], Done(m) + [Cqe(W(m), 2, 0)], Spoiled(m)))
  {
    OtherBytesLeave(reserved, m);
    hide Below, Allowed, Exec, Mixed, Spoiled;
    var t := Finish(T(listenFd, [], [Listens(listenFd), Flying(m)], Done(m), Mixed(m)), reserved, 1, Sent(2));
    assert t.kernel == [Listens(listenFd)];
  }

  lemma SpoiledStream()
    ensures !Faithful(SPOILED)
  {
    assert Front(SPOILED.log) == [] && Last(SPOILED.log) == Message(TWO_BYTES, [2]);
    var results: seq<nat> := [2];
    assert results[..|results| - 1] == [] && Sum(results) == 2;
    assert TWO_BYTES[..2] == TWO_BYTES;
    assert Echoed(SPOILED.log) == [] + TWO_BYTES;
    assert SPOILED.sent[0] != TWO_BYTES[0];
  }

  lemma CountedTwice(m: nat)
    ensures Count(Done(m) + [Cqe(W(m), 2, 0)], DoneBid) == multiset{0, 0}
  {
    hide Count;
    CountShort(Done(m), DoneBid);
    CountAppend(Done(m), Cqe(W(m), 2, 0), DoneBid);
    assert DoneBid(Done(m)[0]) == None && DoneBid(Done(m)[1]) == DoneBid(Cqe(W(m), 2, 0)) == Some(0);
  }

  lemma TwoPlaces(listenFd: nat, m: nat)
    ensures var t := T(listenFd, [], [Listens(listenFd)], Done(m) + [Cqe(W(m), 2, 0)], Spoiled(m));
            (multiset(t.pool) + Abroad(t))[0] == 2
  {
    var t := T(listenFd, [], [Listens(listenFd)], Done(m) + [Cqe(W(m), 2, 0)], Spoiled(m));
    assert IsId(0) && 0 !in t.pool;
    hide Below, Count, Spoiled, Done, DoneBid;
    CountShort(t.sq, OpBid);
    CountShort(t.kernel, FlightBid);
    CountedTwice(m);
    assert Abroad(t) == multiset{} + multiset{} + multiset{0, 0};
  }

  lemma {:induction false} Ends(n: nat, reserved: set<nat>, listenFd: nat, m: nat) returns (es: seq<Event>, t: State)
    ensures Run(n, reserved,
                T(listenFd, [AddAccept(listenFd), W(m)], [Third(m, None)], [Cqe(AddRead(m + 1), 0, 0)], Waits(m)),
                es, t)
    ensures (multiset(t.pool) + Abroad(t))[0] == 2 && t.world == Spoiled(m)
  {
    hide Run, Follows, Below, Waits, Shut, Mixed, Spoiled, Abroad;
    var a, p := AddAccept(listenFd), AddProvide(0);
    var s3 := T(listenFd, [a, W(m)], [Third(m, None)], [Cqe(AddRead(m + 1), 0, 0)], Waits(m));
    var s4 := T(listenFd, [a, W(m), p], [Third(m, None)], [], Shut(m));
    var s5 := T(listenFd, [W(m), p], [Third(m, None), Listens(listenFd)], [], Shut(m));
    var s6 := T(listenFd, [p], [Third(m, None), Listens(listenFd), Flying(m)], [], Shut(m));
    var s7 := s6.(pool := s6.pool + {0}, sq := [], cq := [Cqe(p, 0, 0)]);
    var s8 := T(listenFd, [], [Third(m, Some(0)), Listens(listenFd), Flying(m)], [Cqe(p, 0, 0)], Shut(m));
    var s9 := T(listenFd, [], [Listens(listenFd), Flying(m)], Done(m), Mixed(m));
    t := T(listenFd, [], [Listens(listenFd)], Done(m) + [Cqe(W(m), 2, 0)], Spoiled(m));
    SecondHandled(n, reserved, listenFd, m);
    EntriesTaken(n, reserved, listenFd, m);
    ProvidedAgain(n, reserved, listenFd, m);
    ThirdReads(n, reserved, listenFd, m);
    FirstSends(n, reserved, listenFd, m);
    TwoPlaces(listenFd, m);
    es := [];
    RunNothing(n, reserved, s3);
    es := Then(n, reserved, s3, es, s3, DoHandle, s4);
    es := Then(n, reserved, s3, es, s4, DoTake, s5);
    es := Then(n, reserved, s3, es, s5, DoTake, s6);
    es := Then(n, reserved, s3, es, s6, DoTake, s7);
    es := Then(n, reserved, s3, es, s7, DoSelect(0, 0), s8);
    es := Then(n, reserved, s3, es, s8, DoFinish(0, Received(OTHER)), s9);
    es := Then(n, reserved, s3, es, s9, DoFinish(1, Sent(2)), t);
  }

  /**
   A run to a read on buffer 1, its completion with result 0 and no id, and a run after it.
   Buffer 0 then has two places, and of the connection that sent 7 and 8 the bytes 9 and 9
   went back.
   */
  lemma MissingIdSpoilsEcho(n: nat, reserved: set<nat>, listenFd: nat, m: nat)
      returns (before: seq<Event>, s: State, after: seq<Event>, t: State)
    requires 3 <= n && forall r :: r in reserved ==> r < m
    ensures Run(n, reserved, Init(listenFd), before, s)
    ensures s.kernel != [] && s.kernel[0] == InFlight(AddRead(m + 1), Some(1))
    ensures Run(n, reserved, FinishRead(s, 0, 0, 0), after, t)
    ensures (multiset(t.pool) + Abroad(t))[0] == 2
    ensures m in t.world.streams && !Faithful(t.world.streams[m])
    ensures t.world.streams[m].received == [7, 8] && t.world.streams[m].sent == [9, 9]
  {
    hide Run, Init, Follows, Below, Waiting, Filled, Faithful, Abroad, Zeros, Wet, Overwritten;
    var a := AddAccept(listenFd);
    var rest := [InFlight(AddRead(m + 1), Some(1)), Third(m, None)];
    var s1 := T(listenFd, [a], rest, [Cqe(AddRead(m), 2, 1)], Waits(m));
    s := T(listenFd, [a, W(m)], rest, [], Waits(m));
    before := Fill(n, reserved, listenFd, m, 2);
    before := OneMore(n, reserved, listenFd, m, 2, before);
    ThreeConnections(listenFd, m);
    FirstReads(n, reserved, listenFd, m);
    FirstHandled(n, reserved, listenFd, m);
    IdMissing(listenFd, m);
    before := Then(n, reserved, Init(listenFd), before, Waiting(listenFd, m, 2), DoFinish(0, Received(TWO_BYTES)), s1);
    before := Then(n, reserved, Init(listenFd), before, s1, DoHandle, s);
    after, t := Ends(n, reserved, listenFd, m);
    SpoiledStream();
  }
}
