/**
 Several rings serving one listener
 (netpoll/echo/golang-multi-iouring-server/main.go). Each ring has its own goroutine and
 its own map from `user_data` to the event it stands for; the descriptor table and the
 table of buffers, one buffer per descriptor, are shared by all.

 The queues of all rings are kept together here, each entry naming its ring; a ring takes
 and completes its own entries only.

 Every goroutine begins by replacing the shared table of buffers, so an operation names
 its buffer by the descriptor and by the generation of the table it was queued with.
 */
module MultiRing {
  import opened Streams
  import opened Kernel

  const MAX_CONNS := 10240
  const TABLE := MAX_CONNS + 32
  const MAX_MSG_LEN := 2048
  const EBADF := 9

  datatype EType = ETypeAccept | ETypeRead | ETypeWrite | ETypeClose

  datatype EventInfo = EventInfo(lfd: nat, cfd: nat, etype: EType)

  datatype Op =
    | Accept
    | Recv(fd: nat, gen: nat)
    | Send(fd: nat, gen: nat, size: nat)
    | Close(fd: nat)

  /** `ptr` is the address of the event, used as `user_data`. */
  datatype Sqe = Sqe(ring: nat, ptr: nat, op: Op)

  datatype Cqe = Cqe(sqe: Sqe, res: int)

  datatype State = State(
    listenFd: nat,
    maps: seq<map<nat, EventInfo>>,
    started: set<nat>,
    gen: nat,
    sq: seq<Sqe>,
    kernel: seq<Sqe>,
    cq: seq<Cqe>,
    world: World<(nat, nat)>)

  // ---------------------------------------------------------------- the goroutines

  function InfoOf(listenFd: nat, op: Op): EventInfo {
    match op
    case Accept => EventInfo(listenFd, 0, ETypeAccept)
    case Recv(fd, _) => EventInfo(0, fd, ETypeRead)
    case Send(fd, _, _) => EventInfo(0, fd, ETypeWrite)
    case Close(fd) => EventInfo(0, fd, ETypeClose)
  }

  /** The `Produce*` functions: allocate the event, queue the entry, remember the event. */
  function Produce(s: State, ring: nat, ptr: nat, op: Op): State
    requires ring < |s.maps|
  {
    var events: map<nat, EventInfo> := s.maps[ring][ptr := InfoOf(s.listenFd, op)];
    s.(maps := s.maps[ring := events], sq := s.sq + [Sqe(ring, ptr, op)])
  }

  /** An address at which no event of any ring lives. */
  predicate Unused(s: State, ptr: nat) {
    forall r :: 0 <= r < |s.maps| ==> ptr !in s.maps[r]
  }

  predicate IsSlot(i: nat) { true }

  function NewTable(gen: nat): map<(nat, nat), seq<byte>> {
    map i: nat | i < TABLE && IsSlot(i) :: (gen, i) := seq(MAX_MSG_LEN, _ => 0)
  }

  /** The start of a goroutine: a new table of buffers, then the first accept. */
  function Start(s: State, ring: nat, ptr: nat): State
    requires ring < |s.maps|
  {
    Produce(s.(started := s.started + {ring}, gen := s.gen + 1,
               world := s.world.(mem := s.world.mem + NewTable(s.gen + 1))),
            ring, ptr, Accept)
  }

  /** The map of the ring knows the event; otherwise the goroutine returns. */
  predicate Known(s: State, i: nat)
    requires i < |s.cq|
  {
    s.cq[i].sqe.ring < |s.maps| && s.cq[i].sqe.ptr in s.maps[s.cq[i].sqe.ring]
  }

  /** The loop body for the completion at `i`; new events get the addresses `p` and `q`. */
  function Handle(s: State, i: nat, p: nat, q: nat): State
    requires i < |s.cq| && Known(s, i)
  {
    var c := s.cq[i];
    var r := c.sqe.ring;
    var info := s.maps[r][c.sqe.ptr];
    var s1 := s.(maps := s.maps[r := s.maps[r] - {c.sqe.ptr}], cq := s.cq[..i] + s.cq[i + 1..]);
    match info.etype
    case ETypeAccept =>
      if c.res < 0 then s1 else Produce(Produce(s1, r, p, Accept), r, q, Recv(c.res, s.gen))
    case ETypeRead =>
      if c.res <= 0 then
        if c.res != -EBADF then Produce(s1, r, p, Close(info.cfd)) else s1
      else Produce(s1, r, p, Send(info.cfd, s.gen, c.res))
    case ETypeWrite => Produce(s1, r, p, Recv(info.cfd, s.gen))
    case ETypeClose => s1
  }

  // ---------------------------------------------------------------- the kernel

  function KernelOp(op: Op): KOp<(nat, nat)> {
    match op
    case Accept => KAccept
    case Recv(fd, gen) => KRecv(fd, (gen, fd), MAX_MSG_LEN)
    case Send(fd, gen, size) => KSend(fd, (gen, fd), 0, size)
    case Close(fd) => KClose(fd)
  }

  /** No entry of the same ring is older. */
  predicate Oldest(q: seq<Sqe>, i: nat)
    requires i < |q|
  {
    forall j :: 0 <= j < i ==> q[j].ring != q[i].ring
  }

  predicate OldestDone(q: seq<Cqe>, i: nat)
    requires i < |q|
  {
    forall j :: 0 <= j < i ==> q[j].sqe.ring != q[i].sqe.ring
  }

  function Take(s: State, i: nat): State
    requires i < |s.sq|
  {
    s.(sq := s.sq[..i] + s.sq[i + 1..], kernel := s.kernel + [s.sq[i]])
  }

  /** An accepted descriptor fits the table of buffers. */
  predicate CanFinish(reserved: set<nat>, s: State, k: nat, o: Outcome) {
    && k < |s.kernel|
    && Allowed(s.world, reserved, KernelOp(s.kernel[k].op), o)
    && (o.Accepted? ==> o.fd < TABLE)
  }

  function Finish(reserved: set<nat>, s: State, k: nat, o: Outcome): State
    requires CanFinish(reserved, s, k, o)
  {
    s.(kernel := s.kernel[..k] + s.kernel[k + 1..],
       cq := s.cq + [Cqe(s.kernel[k], Res(o))],
       world := Exec(s.world, reserved, KernelOp(s.kernel[k].op), o))
  }

  // ---------------------------------------------------------------- runs

  datatype Event =
    | DoStart(ring: nat, ptr: nat)
    | DoTake(i: nat)
    | DoFinish(k: nat, o: Outcome)
    | DoHandle(i: nat, p: nat, q: nat)

  predicate Enabled(reserved: set<nat>, s: State, e: Event) {
    match e
    case DoStart(ring, ptr) => ring < |s.maps| && ring !in s.started && Unused(s, ptr)
    case DoTake(i) => i < |s.sq| && Oldest(s.sq, i)
    case DoFinish(k, o) => CanFinish(reserved, s, k, o)
    case DoHandle(i, p, q) => i < |s.cq| && OldestDone(s.cq, i) && Unused(s, p) && Unused(s, q) && p != q
  }

  function Apply(reserved: set<nat>, s: State, e: Event): State
    requires Enabled(reserved, s, e) && (e.DoHandle? ==> Known(s, e.i))
  {
    match e
    case DoStart(ring, ptr) => Start(s, ring, ptr)
    case DoTake(i) => Take(s, i)
    case DoFinish(k, o) => Finish(reserved, s, k, o)
    case DoHandle(i, p, q) => Handle(s, i, p, q)
  }

  /** A read of the descriptor is queued, in flight or completed and not handled. */
  predicate Reading(s: State, fd: nat) {
    || (exists e :: e in s.sq && e.op.Recv? && e.op.fd == fd)
    || (exists e :: e in s.kernel && e.op.Recv? && e.op.fd == fd)
    || (exists c :: c in s.cq && c.sqe.op.Recv? && c.sqe.op.fd == fd)
  }

  /**
   A run; an unknown completion ends it. No ring starts while a read of a descriptor in
   `quiet` is under way; with an empty `quiet` the rings start at any time.
   */
  predicate Run(reserved: set<nat>, quiet: set<nat>, s: State, es: seq<Event>, t: State)
    decreases |es|
  {
    if es == [] then s == t
    else
      && Enabled(reserved, s, es[0])
      && (es[0].DoHandle? ==> Known(s, es[0].i))
      && (es[0].DoStart? ==> forall fd :: fd in quiet ==> !Reading(s, fd))
      && Run(reserved, quiet, Apply(reserved, s, es[0]), es[1..], t)
  }

  function Init(listenFd: nat, rings: nat): State {
    State(listenFd, seq(rings, _ => map[]), {}, 0, [], [], [], World(map[], map[]))
  }
}
