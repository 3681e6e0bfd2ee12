/**
 The part of every echo argument that does not depend on the server: a message waiting in
 a buffer survives what the kernel does for other connections, and operations that only
 send what their buffer holds keep all streams faithful.
 */
module Echo {
  import opened Streams
  import opened Kernel

  /** The buffer holds the connection's last message, none of which has been sent yet. */
  ghost predicate Holds<B>(w: World<B>, fd: nat, buf: B, size: int) {
    && fd in w.streams && buf in w.mem
    && var log := w.streams[fd].log;
    && log != [] && Last(log).results == [] && |Last(log).data| == size
    && size <= |w.mem[buf]| && w.mem[buf][..size] == Last(log).data
  }

  /** Every stream is faithful, and no message took more than one send. */
  ghost predicate AllFaithful<B>(w: World<B>) {
    forall fd :: fd in w.streams ==> Faithful(w.streams[fd]) && SentOnce(w.streams[fd])
  }

  /** An operation of another connection, into another buffer, leaves the message alone. */
  lemma HoldsFrame<B>(w: World<B>, reserved: set<nat>, op: KOp<B>, o: Outcome, fd: nat, buf: B, size: int)
    requires Allowed(w, reserved, op, o) && Holds(w, fd, buf, size)
    requires !op.KAccept? ==> op.fd != fd
    requires op.KRecv? ==> op.buf != buf
    ensures Holds(Exec(w, reserved, op, o), fd, buf, size)
  {
  }

  lemma CloseFrame<B>(w: World<B>, gone: nat, fd: nat, buf: B, size: int)
    requires Holds(w, fd, buf, size) && fd != gone
    ensures Holds(w.(streams := w.streams - {gone}), fd, buf, size)
  {
  }

  /**
   A send of what the buffer holds, or anything else, leaves all streams faithful; a read
   leaves its message in the buffer.
   */
  lemma ExecKeepsEcho<B>(w: World<B>, reserved: set<nat>, op: KOp<B>, o: Outcome)
    requires Allowed(w, reserved, op, o) && AllFaithful(w)
    requires op.KSend? ==> op.offset == 0 && Holds(w, op.fd, op.buf, op.len)
    ensures AllFaithful(Exec(w, reserved, op, o))
    ensures o.Received? && o.data != [] ==> Holds(Exec(w, reserved, op, o), op.fd, op.buf, |o.data|)
  {
    hide Faithful;
    EmptyFaithful();
    match o
    case Received(data) =>
      if data != [] { ReceiveKeepsFaithful(w.streams[op.fd], data); }
    case Sent(n) =>
      assert w.mem[op.buf][0..n] == w.mem[op.buf][..op.len][0..n];
      SendKeepsFaithful(w.streams[op.fd], w.mem[op.buf][0..n]);
    case _ =>
  }

  // ---------------------------------------------------------------- sends from any buffer

  /** The connection's last message has `size` bytes, none of which has been sent yet. */
  ghost predicate Unsent<B>(w: World<B>, fd: nat, size: int) {
    && fd in w.streams
    && var log := w.streams[fd].log;
    log != [] && Last(log).results == [] && |Last(log).data| == size
  }

  ghost predicate AllSound<B>(w: World<B>) {
    forall fd :: fd in w.streams ==> Sound(w.streams[fd])
  }

  lemma UnsentFrame<B>(w: World<B>, reserved: set<nat>, op: KOp<B>, o: Outcome, fd: nat, size: int)
    requires Allowed(w, reserved, op, o) && Unsent(w, fd, size) && (!op.KAccept? ==> op.fd != fd)
    ensures Unsent(Exec(w, reserved, op, o), fd, size)
  {
  }

  /** Sends of the right length keep all streams sound, whatever buffer they read. */
  lemma ExecKeepsSound<B>(w: World<B>, reserved: set<nat>, op: KOp<B>, o: Outcome)
    requires Allowed(w, reserved, op, o) && AllSound(w)
    requires op.KSend? ==> Unsent(w, op.fd, op.len)
    ensures AllSound(Exec(w, reserved, op, o))
    ensures o.Received? && o.data != [] ==> Unsent(Exec(w, reserved, op, o), op.fd, |o.data|)
  {
    hide Sound;
    EmptySound();
    match o
    case Received(data) =>
      if data != [] { ReceiveKeepsSound(w.streams[op.fd], data); }
    case Sent(n) => SendKeepsSound(w.streams[op.fd], w.mem[op.buf][op.offset..op.offset + n]);
    case _ =>
  }

  /** A send leaves a faithful stream exactly when it was faithful and the buffer begins like the message. */
  lemma SendEchoesExactly<B>(w: World<B>, reserved: set<nat>, op: KOp<B>, n: nat)
    requires Allowed(w, reserved, op, Sent(n)) && AllSound(w) && op.offset == 0 && Unsent(w, op.fd, op.len)
    ensures Faithful(Exec(w, reserved, op, Sent(n)).streams[op.fd]) <==>
              Faithful(w.streams[op.fd]) && w.mem[op.buf][..n] == Last(w.streams[op.fd].log).data[..n]
  {
    hide Faithful;
    assert w.mem[op.buf][0..0 + n] == w.mem[op.buf][..n];
    SendExactly(w.streams[op.fd], w.mem[op.buf][..n]);
  }

  // ---------------------------------------------------------------- a short send

  const TWO_BYTES: seq<byte> := [7, 8]
  const RECEIVED := Stream(TWO_BYTES, [], [Message(TWO_BYTES, [])])
  const SHORT := Stream(TWO_BYTES, [7], [Message(TWO_BYTES, [1])])

  /** Two bytes arrive on a new connection. */
  lemma TwoBytesArrive<B>(w: World<B>, reserved: set<nat>, fd: nat, buf: B, len: nat)
    requires fd in w.streams && w.streams[fd] == EMPTY_STREAM && buf in w.mem && 2 <= len <= |w.mem[buf]|
    ensures Allowed(w, reserved, KRecv(fd, buf, len), Received(TWO_BYTES))
    ensures Exec(w, reserved, KRecv(fd, buf, len), Received(TWO_BYTES)) ==
            World(w.streams[fd := RECEIVED], w.mem[buf := TWO_BYTES + w.mem[buf][2..]])
  {
    assert EMPTY_STREAM.received + TWO_BYTES == TWO_BYTES;
    assert EMPTY_STREAM.log + [Message(TWO_BYTES, [])] == [Message(TWO_BYTES, [])];
  }

  /** One of them is sent back. */
  lemma OneByteLeaves<B>(w: World<B>, reserved: set<nat>, fd: nat, buf: B)
    requires fd in w.streams && w.streams[fd] == RECEIVED && buf in w.mem && TWO_BYTES <= w.mem[buf]
    ensures Allowed(w, reserved, KSend(fd, buf, 0, 2), Sent(1))
    ensures Exec(w, reserved, KSend(fd, buf, 0, 2), Sent(1)) == World(w.streams[fd := SHORT], w.mem)
  {
    var seven: seq<byte> := [7];
    assert w.mem[buf][0..0 + 1] == seven;
    assert Front(RECEIVED.log) == [] && Last(RECEIVED.log) == Message(TWO_BYTES, []);
    var results: seq<nat> := [1];
    assert Last(RECEIVED.log).results + [|seven|] == results;
    assert Front(RECEIVED.log) + [Message(TWO_BYTES, results)] == [Message(TWO_BYTES, results)];
    assert RECEIVED.sent + seven == seven;
    assert AfterSend(RECEIVED, seven) == SHORT;
  }
}
