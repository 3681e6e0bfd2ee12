/**
 The part of the kernel every server talks to: the table of open connections and
 the memory its operations read and write. An operation executes and completes in
 one step, with any result the interface allows; which operation completes next,
 and when, is chosen elsewhere. `B` names buffers.
 */
module Kernel {
  import opened Streams

  datatype World<B(==)> = World(streams: map<nat, Stream>, mem: map<B, seq<byte>>)

  datatype KOp<B(==)> =
    | KAccept
    | KPoll(fd: nat)
    | KRecv(fd: nat, buf: B, len: nat)
    | KSend(fd: nat, buf: B, offset: nat, len: nat)
    | KClose(fd: nat)

  datatype Outcome =
    | Failed(errno: nat)
    | Accepted(fd: nat)
    | Ready(mask: nat)
    | Received(data: seq<byte>)
    | Sent(count: nat)
    | Closed

  /** The value of the completion entry's `res` field. */
  function Res(o: Outcome): (r: int)
    requires o.Failed? ==> 0 < o.errno
    ensures r < 0 <==> o.Failed?
  {
    match o
    case Failed(e) => -(e as int)
    case Accepted(fd) => fd
    case Ready(mask) => mask
    case Received(data) => |data|
    case Sent(count) => count
    case Closed => 0
  }

  /**
   The results an operation can have. Accept hands out only a descriptor that is
   not in use (`reserved` holds the listener and other descriptors of the process).
   A transfer never exceeds the length it was given.
   */
  predicate Allowed<B>(w: World<B>, reserved: set<nat>, op: KOp<B>, o: Outcome) {
    match o
    case Failed(e) => 0 < e
    case Accepted(fd) => op.KAccept? && fd !in w.streams && fd !in reserved
    case Ready(_) => op.KPoll?
    case Received(data) =>
      && op.KRecv? && |data| <= op.len
      && op.fd in w.streams && op.buf in w.mem && op.len <= |w.mem[op.buf]|
    case Sent(count) =>
      && op.KSend? && count <= op.len
      && op.fd in w.streams && op.buf in w.mem && op.offset + op.len <= |w.mem[op.buf]|
    case Closed => op.KClose? && op.fd in w.streams
  }

  /** What executing the operation does to the connections and to memory. */
  function Exec<B>(w: World<B>, reserved: set<nat>, op: KOp<B>, o: Outcome): World<B>
    requires Allowed(w, reserved, op, o)
  {
    match o
    case Failed(_) => w
    case Ready(_) => w
    case Accepted(fd) => w.(streams := w.streams[fd := EMPTY_STREAM])
    case Received(data) =>
      if data == [] then w else
        var st := w.streams[op.fd];
        World(w.streams[op.fd := Stream(st.received + data, st.sent, st.log + [Message(data, [])])],
              w.mem[op.buf := data + w.mem[op.buf][|data|..]])
    case Sent(count) =>
      var bytes := w.mem[op.buf][op.offset..op.offset + count];
      w.(streams := w.streams[op.fd := AfterSend(w.streams[op.fd], bytes)])
    case Closed => w.(streams := w.streams - {op.fd})
  }

  /** Executing an operation keeps every buffer and its size. */
  lemma ExecSizes<B>(w: World<B>, reserved: set<nat>, op: KOp<B>, o: Outcome)
    requires Allowed(w, reserved, op, o)
    ensures Exec(w, reserved, op, o).mem.Keys == w.mem.Keys
    ensures forall b :: b in w.mem ==> |Exec(w, reserved, op, o).mem[b]| == |w.mem[b]|
  {
  }
}
