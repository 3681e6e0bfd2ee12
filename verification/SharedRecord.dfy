/**
 The echo server with one record and one buffer per descriptor
 (netpoll/echo/c-iouring-server/io_uring_echo_server_v1.c). An entry's `user_data` points
 to `conns[fd]`, so the tag a completion is handled by is whatever that record holds when
 the completion is looked at, not what it held when the entry was queued.

 An entry here carries the pointer and, for comparison, the tag as it was when queued.
 `Handle(byTag, ..)` looks at the one or at the other.
 */
module SharedRecord {
  import opened Kernel

  datatype Kind = ACCEPT | READ | WRITE

  datatype ConnInfo = ConnInfo(fd: nat, kind: Kind)

  datatype Op = Accept | Recv(fd: nat) | Send(fd: nat, size: nat)

  /** `ptr` is the index of the record `user_data` points to. */
  datatype Sqe = Sqe(op: Op, ptr: nat, tag: ConnInfo)

  datatype Cqe = Cqe(sqe: Sqe, res: int)

  datatype State = State(
    conns: seq<ConnInfo>,
    sq: seq<Sqe>,
    kernel: seq<Sqe>,
    cq: seq<Cqe>,
    world: World<nat>)

  /** The listener, the message length and the number of records and buffers. */
  datatype Config = Config(listenFd: nat, msgLen: nat, table: nat)

  // ---------------------------------------------------------------- the server

  /** Every `add_*` function overwrites the record of its descriptor and points the entry to it. */
  function Add(s: State, op: Op, info: ConnInfo): State
    requires info.fd < |s.conns|
  {
    s.(conns := s.conns[info.fd := info], sq := s.sq + [Sqe(op, info.fd, info)])
  }

  function AddAccept(s: State, fd: nat): State
    requires fd < |s.conns|
  {
    Add(s, Accept, ConnInfo(fd, ACCEPT))
  }

  function AddRead(s: State, fd: nat): State
    requires fd < |s.conns|
  {
    Add(s, Recv(fd), ConnInfo(fd, READ))
  }

  function AddWrite(s: State, fd: nat, size: nat): State
    requires fd < |s.conns|
  {
    Add(s, Send(fd, size), ConnInfo(fd, WRITE))
  }

  /** The tag the handler acts on. */
  function Seen(byTag: bool, s: State, c: Cqe): ConnInfo
    requires c.sqe.ptr < |s.conns|
  {
    if byTag then c.sqe.tag else s.conns[c.sqe.ptr]
  }

  /** The descriptors the handler indexes its table with are inside it. */
  predicate InTable(cfg: Config, byTag: bool, s: State) {
    && cfg.listenFd < |s.conns|
    && s.cq != [] && s.cq[0].sqe.ptr < |s.conns|
    && var info := Seen(byTag, s, s.cq[0]);
    info.fd < |s.conns| && (info.kind == ACCEPT ==> 0 <= s.cq[0].res < |s.conns|)
  }

  /** One iteration of the loop over the batch. */
  function Handle(cfg: Config, byTag: bool, s: State): State
    requires InTable(cfg, byTag, s)
  {
    var c := s.cq[0];
    var info := Seen(byTag, s, c);
    var s1 := s.(cq := s.cq[1..]);
    match info.kind
    case ACCEPT => AddRead(AddAccept(s1, cfg.listenFd), c.res)
    case READ =>
      if c.res <= 0 then s1.(world := s.world.(streams := s.world.streams - {info.fd}))
      else AddWrite(s1, info.fd, c.res)
    case WRITE => AddRead(s1, info.fd)
  }

  // ---------------------------------------------------------------- the kernel

  function KernelOp(cfg: Config, op: Op): KOp<nat> {
    match op
    case Accept => KAccept
    case Recv(fd) => KRecv(fd, fd, cfg.msgLen)
    case Send(fd, size) => KSend(fd, fd, 0, size)
  }

  function Take(s: State): State
    requires s.sq != []
  {
    s.(sq := s.sq[1..], kernel := s.kernel + [s.sq[0]])
  }

  predicate CanFinish(cfg: Config, reserved: set<nat>, s: State, k: nat, o: Outcome) {
    k < |s.kernel| && Allowed(s.world, reserved + {cfg.listenFd}, KernelOp(cfg, s.kernel[k].op), o)
  }

  function Finish(cfg: Config, reserved: set<nat>, s: State, k: nat, o: Outcome): State
    requires CanFinish(cfg, reserved, s, k, o)
  {
    s.(kernel := s.kernel[..k] + s.kernel[k + 1..],
       cq := s.cq + [Cqe(s.kernel[k], Res(o))],
       world := Exec(s.world, reserved + {cfg.listenFd}, KernelOp(cfg, s.kernel[k].op), o))
  }

  // ---------------------------------------------------------------- runs

  datatype Event = DoTake | DoFinish(k: nat, o: Outcome) | DoHandle

  predicate Enabled(cfg: Config, reserved: set<nat>, s: State, e: Event) {
    match e
    case DoTake => s.sq != []
    case DoFinish(k, o) => CanFinish(cfg, reserved, s, k, o)
    case DoHandle => s.cq != []
  }

  /** A run whose handler looks at tags or at records; an index outside the table ends it. */
  predicate Run(cfg: Config, reserved: set<nat>, byTag: bool, s: State, es: seq<Event>, t: State)
    decreases |es|
  {
    if es == [] then s == t
    else
      && Enabled(cfg, reserved, s, es[0])
      && (es[0].DoHandle? ==> InTable(cfg, byTag, s))
      && Run(cfg, reserved, byTag, Apply(cfg, reserved, byTag, s, es[0]), es[1..], t)
  }

  function Apply(cfg: Config, reserved: set<nat>, byTag: bool, s: State, e: Event): State
    requires Enabled(cfg, reserved, s, e) && (e.DoHandle? ==> InTable(cfg, byTag, s))
  {
    match e
    case DoTake => Take(s)
    case DoFinish(k, o) => Finish(cfg, reserved, s, k, o)
    case DoHandle => Handle(cfg, byTag, s)
  }

  predicate IsSlot(i: nat) { true }

  /** Zeroed records, one buffer per descriptor, the first accept queued. */
  function Init(cfg: Config): State
    requires cfg.listenFd < cfg.table
  {
    AddAccept(State(seq(cfg.table, _ => ConnInfo(0, ACCEPT)), [], [], [],
                    World(map[], map i: nat | i < cfg.table && IsSlot(i) :: seq(cfg.msgLen, _ => 0))),
              cfg.listenFd)
  }
}
