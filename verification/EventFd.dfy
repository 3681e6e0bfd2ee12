/**
 The server that learns of completions through an eventfd
 (netpoll/echo/golang-epoll-eventfd-iouring-server/main.go).

 One subscriber takes completions off the ring, finds the event object of each in a map
 shared by all goroutines, copies the result into the object and hands the object to one
 of `n` worker goroutines over that worker's channel; with `syncCb` it runs the callback
 itself. A callback submits the next operations. Submitting is done under one lock, and
 takes three steps between which every other actor may run: fill an entry and allocate
 its event object, register the object in the map, tell the kernel.

 Objects live on a heap and are passed by address; the address is also the `user_data` of
 the ring entry. An object nobody can reach any more is collected, and its address may be
 used again.
 */
module EventFd {
  import opened Kernel
  import opened Census

  const MAX_CONNS := 10240
  const TABLE := MAX_CONNS + 32
  const MAX_MSG_LEN := 2048
  const CHANNEL_SIZE := 1024
  const EBADF := 9

  datatype EType = ETypeUnknown | ETypeAccept | ETypeRead | ETypeWrite | ETypeClose

  /** `res` is the result in the copied completion, zero before it is copied. */
  datatype EventInfo = EventInfo(lfd: nat, cfd: nat, etype: EType, res: int)

  datatype Op = Accept(lfd: nat) | Recv(fd: nat) | Send(fd: nat, size: nat) | Close(fd: nat)

  datatype Sqe = Sqe(ptr: nat, op: Op)

  datatype Cqe = Cqe(sqe: Sqe, res: int)

  /** The goroutine inside the submit lock, its entry, and how far it got. */
  datatype Holding = Holding(thread: nat, sqe: Sqe, registered: bool)

  /**
   Threads `0..n` are the workers, thread `n` is the subscriber, thread `n + 1` the main
   goroutine. `todo` holds what each still has to submit. The last four fields are
   history: the events each thread ran callbacks for, the completions taken off the ring,
   the completions the kernel ever posted, and the number of completions without event.
   */
  datatype State = State(
    sync: bool,
    todo: seq<seq<Op>>,
    holder: Option<Holding>,
    heap: map<nat, EventInfo>,
    mapEvent: map<nat, nat>,
    kernel: seq<Sqe>,
    cq: seq<Cqe>,
    hand: Option<nat>,
    channels: seq<seq<nat>>,
    world: World<nat>,
    ran: seq<seq<EventInfo>>,
    consumed: seq<Cqe>,
    posted: seq<Cqe>,
    missed: nat)

  predicate Shape(s: State) {
    0 < |s.channels| && |s.todo| == |s.channels| + 2 && |s.ran| == |s.channels| + 1
  }

  // ---------------------------------------------------------------- events and callbacks

  function NewEvent(op: Op): EventInfo {
    match op
    case Accept(lfd) => EventInfo(lfd, 0, ETypeAccept, 0)
    case Recv(fd) => EventInfo(0, fd, ETypeRead, 0)
    case Send(fd, _) => EventInfo(0, fd, ETypeWrite, 0)
    case Close(fd) => EventInfo(0, fd, ETypeClose, 0)
  }

  /** The event object of an operation once its result has been copied into it. */
  function Completed(c: Cqe): EventInfo {
    NewEvent(c.sqe.op).(res := c.res)
  }

  /** What the callback of the event submits: `accpetCb`, `readCb`, `writeCb`, `closeCb`. */
  function Callback(e: EventInfo): seq<Op> {
    match e.etype
    case ETypeAccept => if e.res < 0 then [] else [Accept(e.lfd), Recv(e.res)]
    case ETypeRead =>
      if e.res <= 0 then
        if e.res != -EBADF then [Close(e.cfd)] else []
      else [Send(e.cfd, e.res)]
    case ETypeWrite => [Recv(e.cfd)]
    case _ => []
  }

  /** The descriptor an event is dispatched by. */
  function Key(e: EventInfo): nat {
    if e.lfd <= 0 then e.cfd else e.lfd
  }

  /** The object at an address. */
  function Load(heap: map<nat, EventInfo>, p: nat): EventInfo {
    if p in heap then heap[p] else EventInfo(0, 0, ETypeUnknown, 0)
  }

  // ---------------------------------------------------------------- submitting

  /** Lock, get an entry, fill it and allocate its event object at `ptr`. */
  function Begin(s: State, t: nat, ptr: nat): State
    requires t < |s.todo| && s.todo[t] != []
  {
    var op := s.todo[t][0];
    s.(todo := s.todo[t := s.todo[t][1..]],
       holder := Some(Holding(t, Sqe(ptr, op), false)),
       heap := s.heap[ptr := NewEvent(op)])
  }

  function Register(s: State): State
    requires s.holder.Some?
  {
    var h := s.holder.value;
    s.(mapEvent := s.mapEvent[h.sqe.ptr := h.sqe.ptr], holder := Some(h.(registered := true)))
  }

  /** The submit succeeds; unlock. */
  function Submit(s: State): State
    requires s.holder.Some?
  {
    s.(kernel := s.kernel + [s.holder.value.sqe], holder := None)
  }

  // ---------------------------------------------------------------- the subscriber and the workers

  /** Look up the event of the oldest completion, unregister it, copy the result into it. */
  function Peek(s: State): State
    requires s.cq != []
  {
    var c := s.cq[0];
    var s1 := s.(cq := s.cq[1..]);
    if c.sqe.ptr !in s.mapEvent then s1.(missed := s.missed + 1)
    else
      var p := s.mapEvent[c.sqe.ptr];
      s1.(mapEvent := s.mapEvent - {c.sqe.ptr},
          heap := s.heap[p := Load(s.heap, p).(res := c.res)],
          hand := Some(p),
          consumed := s.consumed + [c])
  }

  function Index(s: State, e: EventInfo): nat
    requires 0 < |s.channels|
  {
    Key(e) % |s.channels|
  }

  function Dispatch(s: State): State
    requires Shape(s) && s.hand.Some?
  {
    var i := Index(s, Load(s.heap, s.hand.value));
    s.(channels := s.channels[i := s.channels[i] + [s.hand.value]], hand := None)
  }

  /** A thread begins the callback of an event. */
  function Call(s: State, t: nat, e: EventInfo): State
    requires Shape(s) && t <= |s.channels|
  {
    s.(ran := s.ran[t := s.ran[t] + [e]], todo := s.todo[t := Callback(e)])
  }

  /** With `syncCb`, the subscriber runs the callback. */
  function CallSync(s: State): State
    requires Shape(s) && s.hand.Some?
  {
    Call(s.(hand := None), |s.channels|, Load(s.heap, s.hand.value))
  }

  /** A worker takes the next event from its channel. */
  function Receive(s: State, t: nat): State
    requires Shape(s) && t < |s.channels| && s.channels[t] != []
  {
    Call(s.(channels := s.channels[t := s.channels[t][1..]]), t, Load(s.heap, s.channels[t][0]))
  }

  // ---------------------------------------------------------------- the kernel and the collector

  function KernelOp(op: Op): KOp<nat> {
    match op
    case Accept(_) => KAccept
    case Recv(fd) => KRecv(fd, fd, MAX_MSG_LEN)
    case Send(fd, size) => KSend(fd, fd, 0, size)
    case Close(fd) => KClose(fd)
  }

  /** An accepted descriptor fits the table of buffers. */
  predicate CanFinish(reserved: set<nat>, s: State, k: nat, o: Outcome) {
    && k < |s.kernel|
    && Allowed(s.world, reserved, KernelOp(s.kernel[k].op), o)
    && (o.Accepted? ==> o.fd < TABLE)
  }

  function Finish(reserved: set<nat>, s: State, k: nat, o: Outcome): State
    requires CanFinish(reserved, s, k, o)
  {
    var c := Cqe(s.kernel[k], Res(o));
    s.(kernel := s.kernel[..k] + s.kernel[k + 1..],
       cq := s.cq + [c],
       posted := s.posted + [c],
       world := Exec(s.world, reserved, KernelOp(s.kernel[k].op), o))
  }

  predicate Reachable(s: State, p: nat) {
    || (exists u :: u in s.mapEvent && s.mapEvent[u] == p)
    || s.hand == Some(p)
    || (exists t :: 0 <= t < |s.channels| && p in s.channels[t])
    || (s.holder.Some? && s.holder.value.sqe.ptr == p)
  }

  function Collect(s: State, p: nat): State {
    s.(heap := s.heap - {p})
  }

  // ---------------------------------------------------------------- runs

  datatype Event =
    | DoBegin(t: nat, ptr: nat)
    | DoRegister
    | DoSubmit
    | DoFinish(k: nat, o: Outcome)
    | DoPeek
    | DoDispatch
    | DoCallSync
    | DoReceive(w: nat)
    | DoCollect(p: nat)

  /** The thread has nothing left to submit. */
  predicate Idle(s: State, t: nat)
    requires t < |s.todo|
  {
    s.todo[t] == [] && (s.holder.Some? ==> s.holder.value.thread != t)
  }

  predicate Enabled(reserved: set<nat>, s: State, e: Event)
    requires Shape(s)
  {
    match e
    case DoBegin(t, ptr) => t < |s.todo| && s.todo[t] != [] && s.holder.None? && ptr !in s.heap
    case DoRegister => s.holder.Some? && !s.holder.value.registered
    case DoSubmit => s.holder.Some? && s.holder.value.registered
    case DoFinish(k, o) => CanFinish(reserved, s, k, o)
    case DoPeek => s.hand.None? && Idle(s, |s.channels|) && s.cq != []
    case DoDispatch =>
      !s.sync && s.hand.Some? && |s.channels[Index(s, Load(s.heap, s.hand.value))]| < CHANNEL_SIZE
    case DoCallSync => s.sync && s.hand.Some?
    case DoReceive(w) => w < |s.channels| && s.channels[w] != [] && Idle(s, w)
    case DoCollect(p) => p in s.heap && !Reachable(s, p)
  }

  function Apply(reserved: set<nat>, s: State, e: Event): (s': State)
    requires Shape(s) && Enabled(reserved, s, e)
    ensures Shape(s') && |s'.channels| == |s.channels|
  {
    match e
    case DoBegin(t, ptr) => Begin(s, t, ptr)
    case DoRegister => Register(s)
    case DoSubmit => Submit(s)
    case DoFinish(k, o) => Finish(reserved, s, k, o)
    case DoPeek => Peek(s)
    case DoDispatch => Dispatch(s)
    case DoCallSync => CallSync(s)
    case DoReceive(w) => Receive(s, w)
    case DoCollect(p) => Collect(s, p)
  }

  predicate Run(reserved: set<nat>, s: State, es: seq<Event>, t: State)
    requires Shape(s)
    decreases |es|
  {
    if es == [] then s == t
    else Enabled(reserved, s, es[0]) && Run(reserved, Apply(reserved, s, es[0]), es[1..], t)
  }

  predicate IsSlot(i: nat) { true }

  /** The main goroutine is about to submit the first accept. */
  function Init(sync: bool, workers: nat, lfd: nat): State {
    State(sync, seq(workers + 1, _ => []) + [[Accept(lfd)]], None, map[], map[], [], [], None,
          seq(workers, _ => []),
          World(map[], map i: nat | i < TABLE && IsSlot(i) :: seq(MAX_MSG_LEN, _ => 0)),
          seq(workers + 1, _ => []), [], [], 0)
  }
}
