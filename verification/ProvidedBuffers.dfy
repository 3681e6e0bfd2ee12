/**
 The echo server with buffers provided to the kernel
 (netpoll/echo/c-iouring-server/io_uring_echo_server.c): an event loop that keeps no
 table at all. Everything it knows about an operation comes back in the completion, as
 the tag it wrote into the entry and the buffer id the kernel put into the flags.
 */
module ProvidedBuffers {
  import opened Kernel
  import opened Census

  const MAX_CONNECTIONS := 4096
  const BUFFERS_COUNT := MAX_CONNECTIONS
  const MAX_MESSAGE_LEN := 2048
  const RING_ENTRIES := 10240
  const ENOBUFS := 105
  /** The buffer id sits in the upper half of the completion flags. */
  const BUFFER_SHIFT := 65536

  datatype Kind = ACCEPT | READ | WRITE | PROV_BUF

  /** The tag carried in `user_data`. */
  datatype ConnInfo = ConnInfo(fd: nat, kind: Kind, bid: nat)

  /** What an entry asks the kernel to do. */
  datatype Op = Accept | Read(fd: nat) | Write(fd: nat, bid: nat, size: nat) | Provide(bid: nat)

  datatype Sqe = Sqe(op: Op, tag: ConnInfo)

  /** An operation in flight; a read holds a buffer once the kernel selected one for it. */
  datatype InFlight = InFlight(sqe: Sqe, bid: Option<nat>)

  /** A completion. The server reads only `sqe.tag`, `res` and `flags`. */
  datatype Cqe = Cqe(sqe: Sqe, res: int, flags: nat)

  datatype State = State(
    listenFd: nat,
    pool: set<nat>,
    sq: seq<Sqe>,
    kernel: seq<InFlight>,
    cq: seq<Cqe>,
    world: World<nat>,
    exited: bool)

  // ---------------------------------------------------------------- the server

  function AddAccept(listenFd: nat): Sqe { Sqe(Accept, ConnInfo(listenFd, ACCEPT, 0)) }
  function AddRead(fd: nat): Sqe { Sqe(Read(fd), ConnInfo(fd, READ, 0)) }
  function AddWrite(fd: nat, bid: nat, size: nat): Sqe { Sqe(Write(fd, bid, size), ConnInfo(fd, WRITE, bid)) }
  function AddProvide(bid: nat): Sqe { Sqe(Provide(bid), ConnInfo(0, PROV_BUF, 0)) }

  /** What one completion makes the server do: leave, or queue entries and close descriptors. */
  datatype Reaction = Exit | Continue(queued: seq<Sqe>, closed: set<nat>)

  function React(listenFd: nat, tag: ConnInfo, res: int, flags: nat): Reaction {
    if res == -ENOBUFS then Exit
    else match tag.kind
      case PROV_BUF => if res < 0 then Exit else Continue([], {})
      case ACCEPT => Continue((if res >= 0 then [AddRead(res)] else []) + [AddAccept(listenFd)], {})
      case READ =>
        var bid := flags / BUFFER_SHIFT;
        if res <= 0 then Continue([AddProvide(bid)], {tag.fd})
        else Continue([AddWrite(tag.fd, bid, res)], {})
      case WRITE => Continue([AddProvide(tag.bid), AddRead(tag.fd)], {})
  }

  /** Handle the oldest completion; leaving happens before the completion queue is advanced. */
  function Handle(s: State): State
    requires s.cq != []
  {
    var c := s.cq[0];
    match React(s.listenFd, c.sqe.tag, c.res, c.flags)
    case Exit => s.(exited := true)
    case Continue(queued, closed) =>
      s.(cq := s.cq[1..], sq := s.sq + queued, world := s.world.(streams := s.world.streams - closed))
  }

  // ---------------------------------------------------------------- the kernel

  /** The operation as the kernel executes it; a read names the buffer selected for it. */
  function KernelOp(x: InFlight): KOp<nat>
    requires x.sqe.op.Read? ==> x.bid.Some?
    requires !x.sqe.op.Provide?
  {
    match x.sqe.op
    case Accept => KAccept
    case Read(fd) => KRecv(fd, x.bid.value, MAX_MESSAGE_LEN)
    case Write(fd, bid, size) => KSend(fd, bid, 0, size)
  }

  /** Take the oldest entry: a provide executes on the spot, anything else goes into flight. */
  function Take(s: State): State
    requires s.sq != []
  {
    var e := s.sq[0];
    var s1 := s.(sq := s.sq[1..]);
    match e.op
    case Provide(bid) => s1.(pool := s.pool + {bid}, cq := s.cq + [Cqe(e, 0, 0)])
    case _ => s1.(kernel := s.kernel + [InFlight(e, None)])
  }

  /** The oldest entry is a provide and fails: the buffer does not come back to the pool. */
  function Refuse(s: State, errno: nat): State
    requires s.sq != []
  {
    s.(sq := s.sq[1..], cq := s.cq + [Cqe(s.sq[0], -(errno as int), 0)])
  }

  predicate FailedProvide(c: Cqe) {
    c.sqe.op.Provide? && c.res < 0
  }

  /** The oldest completion is a failed provide. */
  predicate FailureNext(s: State) {
    s.cq != [] && FailedProvide(s.cq[0])
  }

  /** Select a buffer for a read in flight. */
  function Select(s: State, k: nat, bid: nat): State
    requires k < |s.kernel|
  {
    s.(pool := s.pool - {bid}, kernel := s.kernel[k := s.kernel[k].(bid := Some(bid))])
  }

  /** A read that finds the pool empty completes with -ENOBUFS. */
  function NoBuffer(s: State, k: nat): State
    requires k < |s.kernel|
  {
    s.(kernel := s.kernel[..k] + s.kernel[k + 1..], cq := s.cq + [Cqe(s.kernel[k].sqe, -ENOBUFS, 0)])
  }

  /** An operation executes; the completion of a read carries the selected buffer in its flags. */
  function Finish(s: State, reserved: set<nat>, k: nat, o: Outcome): State
    requires k < |s.kernel| && CanFinish(s, reserved, k, o)
  {
    var x := s.kernel[k];
    var flags := if x.sqe.op.Read? then x.bid.value * BUFFER_SHIFT + 1 else 0;
    s.(kernel := s.kernel[..k] + s.kernel[k + 1..],
       cq := s.cq + [Cqe(x.sqe, Res(o), flags)],
       world := Exec(s.world, reserved, KernelOp(x), o))
  }

  predicate CanFinish(s: State, reserved: set<nat>, k: nat, o: Outcome)
    requires k < |s.kernel|
  {
    var x := s.kernel[k];
    && !x.sqe.op.Provide?
    && (x.sqe.op.Read? ==> x.bid.Some?)
    && (o.Failed? ==> o.errno != ENOBUFS)
    && Allowed(s.world, reserved, KernelOp(x), o)
  }

  // ---------------------------------------------------------------- runs

  datatype Event =
    | DoTake
    | DoRefuse(errno: nat)
    | DoSelect(k: nat, bid: nat)
    | DoNoBuffer(k: nat)
    | DoFinish(k: nat, o: Outcome)
    | DoHandle

  predicate WaitsForBuffer(s: State, k: nat) {
    k < |s.kernel| && s.kernel[k].sqe.op.Read? && s.kernel[k].bid == None
  }

  /** The event can happen while at most `n` connections may be open at a time. */
  predicate Enabled(n: nat, reserved: set<nat>, s: State, e: Event) {
    !s.exited &&
    match e
    case DoTake => s.sq != []
    case DoRefuse(errno) => s.sq != [] && s.sq[0].op.Provide? && 0 < errno
    case DoSelect(k, bid) => WaitsForBuffer(s, k) && bid in s.pool
    case DoNoBuffer(k) => WaitsForBuffer(s, k) && s.pool == {}
    case DoFinish(k, o) => k < |s.kernel| && CanFinish(s, reserved, k, o) && (o.Accepted? ==> |s.world.streams| < n)
    case DoHandle => s.cq != []
  }

  function Apply(n: nat, reserved: set<nat>, s: State, e: Event): State
    requires Enabled(n, reserved, s, e)
  {
    match e
    case DoTake => Take(s)
    case DoRefuse(errno) => Refuse(s, errno)
    case DoSelect(k, bid) => Select(s, k, bid)
    case DoNoBuffer(k) => NoBuffer(s, k)
    case DoFinish(k, o) => Finish(s, reserved, k, o)
    case DoHandle => Handle(s)
  }

  predicate Run(n: nat, reserved: set<nat>, s: State, es: seq<Event>, t: State)
    decreases |es|
  {
    if es == [] then s == t
    else Enabled(n, reserved, s, es[0]) && Run(n, reserved, Apply(n, reserved, s, es[0]), es[1..], t)
  }

  predicate IsId(b: nat) { true }

  /** The buffer ids 0 .. k - 1. */
  function Below(k: nat): set<nat> {
    set b: nat | b < k && IsId(b)
  }

  /** After the start-up code: all buffers provided, one accept queued. */
  function Init(listenFd: nat): State {
    State(listenFd, Below(BUFFERS_COUNT), [AddAccept(listenFd)], [], [],
          World(map[], map b | b in Below(BUFFERS_COUNT) :: seq(MAX_MESSAGE_LEN, _ => 0)), false)
  }
}
