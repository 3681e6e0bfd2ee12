/**
 The token server (netpoll/echo/rust-iouring-server/src/main.rs) as a state machine:
 a slab of tokens, a pool of recycled buffers, a backlog for a full submission
 queue and a budget of accepts on the server's side; the submission queue, the
 operations in flight and the completion queue on the ring's side.

 The crate's submission queue works on cached indices: entries the server pushed are
 invisible to the kernel until `sync` publishes them, and slots the kernel freed stay
 invisible to the server until `sync` notices. Both delays are part of the state, so
 every schedule of `sync` is a run.
 */
module TokenMachine {
  import opened Streams
  import opened Kernel

  const RING_ENTRIES := 4096
  const BUF_LEN := 2048
  const ACCEPT_BUDGET := 3
  /** The slab index of the accept token, the first one inserted. */
  const ACCEPT_TOKEN := 0

  datatype Token =
    | Accept
    | Poll(fd: nat)
    | Read(fd: nat, buf: nat)
    | Write(fd: nat, buf: nat, offset: nat, len: nat)

  /** A submission entry; `Send` and `Write` opcodes are both `KSend`. */
  datatype Sqe = Sqe(op: KOp<nat>, userData: nat)

  /** A completion. The server reads only `entry.userData` and `res`. */
  datatype Cqe = Cqe(entry: Sqe, res: int)

  datatype State = State(
    // the server: token_alloc, bufpool, accept.count, backlog
    tokens: map<nat, Token>,
    bufpool: seq<nat>,
    acceptCount: nat,
    backlog: seq<Sqe>,
    // the ring: entries not yet taken by the kernel, how many of them are published,
    // how many taken slots the server still believes occupied, operations in flight,
    // completions not yet handled
    sq: seq<Sqe>,
    published: nat,
    stale: nat,
    kernel: seq<Sqe>,
    cq: seq<Cqe>,
    // open connections, and buf_alloc as memory
    world: World<nat>,
    // history: entries lost at the ignored push, completions with an error, closed connections
    dropped: seq<Sqe>,
    failed: seq<Cqe>,
    closed: seq<Stream>)

  function Init(): State {
    State(map[ACCEPT_TOKEN := Accept], [], ACCEPT_BUDGET, [], [], 0, 0, [], [], World(map[], map[]), [], [], [])
  }

  // ---------------------------------------------------------------- the server

  predicate Full(s: State) {
    s.stale + |s.sq| >= RING_ENTRIES
  }

  /** Push an entry, or append it to the backlog when the queue is full. */
  function Push(s: State, e: Sqe): State {
    if Full(s) then s.(backlog := s.backlog + [e]) else s.(sq := s.sq + [e])
  }

  /** The entry a token waits for. */
  function OpOf(t: Token): KOp<nat> {
    match t
    case Accept => KAccept
    case Poll(fd) => KPoll(fd)
    case Read(fd, buf) => KRecv(fd, buf, BUF_LEN)
    case Write(fd, buf, offset, len) => KSend(fd, buf, offset, len)
  }

  /** `bufpool.pop()`, or a new zeroed buffer under a vacant key of the slab. */
  function TakeBuffer(s: State, bufKey: nat): (r: (nat, State)) {
    if s.bufpool == [] then
      (bufKey, s.(world := s.world.(mem := s.world.mem[bufKey := seq(BUF_LEN, _ => 0)])))
    else
      (Last(s.bufpool), s.(bufpool := Front(s.bufpool)))
  }

  function CloseFd(s: State, fd: nat): State {
    if fd in s.world.streams then
      s.(world := s.world.(streams := s.world.streams - {fd}),
         closed := s.closed + [s.world.streams[fd]])
    else s
  }

  /** None of the indexing operations of the completion arm is out of range. */
  predicate NoPanic(s: State)
    requires s.cq != []
  {
    var c := s.cq[0];
    c.res < 0 ||
    (&& c.entry.userData in s.tokens
     && match s.tokens[c.entry.userData]
        case Accept => true
        case Poll(_) => s.bufpool != [] ==> Last(s.bufpool) in s.world.mem
        case Read(_, buf) => buf in s.world.mem
        case Write(_, buf, offset, len) =>
          offset + c.res < len ==> buf in s.world.mem && offset + c.res <= |s.world.mem[buf]|)
  }

  function OnAccept(s: State, fd: nat, tokenKey: nat): State {
    Push(s.(acceptCount := s.acceptCount + 1, tokens := s.tokens[tokenKey := Poll(fd)]),
         Sqe(KPoll(fd), tokenKey))
  }

  function OnPoll(s: State, i: nat, fd: nat, bufKey: nat): State
    requires s.bufpool != [] ==> Last(s.bufpool) in s.world.mem
  {
    var (buf, s1) := TakeBuffer(s, bufKey);
    Push(s1.(tokens := s1.tokens[i := Read(fd, buf)]),
         Sqe(KRecv(fd, buf, |s1.world.mem[buf]|), i))
  }

  function OnRead(s: State, i: nat, fd: nat, buf: nat, res: nat): State {
    if res == 0 then
      CloseFd(s.(bufpool := s.bufpool + [buf], tokens := s.tokens - {i}), fd)
    else
      Push(s.(tokens := s.tokens[i := Write(fd, buf, 0, res)]), Sqe(KSend(fd, buf, 0, res), i))
  }

  function OnWrite(s: State, i: nat, fd: nat, buf: nat, offset: nat, len: nat, res: nat): State {
    if offset + res >= len then
      Push(s.(bufpool := s.bufpool + [buf], tokens := s.tokens[i := Poll(fd)]), Sqe(KPoll(fd), i))
    else
      var offset' := offset + res;
      var len' := len - offset';
      Push(s.(tokens := s.tokens[i := Write(fd, buf, offset', len')]),
           Sqe(KSend(fd, buf, offset', len'), i))
  }

  /** The body of the completion loop; the slabs choose any vacant keys. */
  function Handle(s0: State, tokenKey: nat, bufKey: nat): State
    requires s0.cq != [] && NoPanic(s0)
  {
    var c := s0.cq[0];
    var s := s0.(cq := s0.cq[1..]);
    var i := c.entry.userData;
    if c.res < 0 then s.(failed := s.failed + [c])
    else
      match s.tokens[i]
      case Accept => OnAccept(s, c.res, tokenKey)
      case Poll(fd) => OnPoll(s, i, fd, bufKey)
      case Read(fd, buf) => OnRead(s, i, fd, buf, c.res)
      case Write(fd, buf, offset, len) => OnWrite(s, i, fd, buf, offset, len, c.res)
  }

  /** `sq.sync()`: publish what was pushed, notice what was taken. */
  function Sync(s: State): State {
    s.(published := |s.sq|, stale := 0)
  }

  /** One round of the backlog loop after the sync: the result of the push is ignored. */
  function PopBacklog(s: State): State
    requires s.backlog != []
  {
    var e := s.backlog[0];
    var s1 := s.(backlog := s.backlog[1..]);
    if Full(s1) then s1.(dropped := s1.dropped + [e]) else s1.(sq := s1.sq + [e])
  }

  const ACCEPT_ENTRY := Sqe(KAccept, ACCEPT_TOKEN)

  /** One iteration of the accept loop. */
  function PushAccept(s: State): State
    requires 0 < s.acceptCount && !Full(s)
  {
    s.(acceptCount := s.acceptCount - 1, sq := s.sq + [ACCEPT_ENTRY])
  }

  // ---------------------------------------------------------------- the kernel

  /** The kernel takes the oldest published entry. */
  function Consume(s: State): State
    requires 0 < s.published && s.sq != []
  {
    s.(kernel := s.kernel + [s.sq[0]], sq := s.sq[1..], published := s.published - 1, stale := s.stale + 1)
  }

  /** An operation in flight executes and completes. */
  function Complete(s: State, reserved: set<nat>, k: nat, o: Outcome): State
    requires k < |s.kernel| && Allowed(s.world, reserved, s.kernel[k].op, o)
  {
    s.(kernel := s.kernel[..k] + s.kernel[k + 1..],
       cq := s.cq + [Cqe(s.kernel[k], Res(o))],
       world := Exec(s.world, reserved, s.kernel[k].op, o))
  }

  // ---------------------------------------------------------------- runs

  datatype Event =
    | DoConsume
    | DoComplete(k: nat, o: Outcome)
    | DoSync
    | DoPopBacklog
    | DoPushAccept
    | DoHandle(tokenKey: nat, bufKey: nat)

  /** The event can happen. Handling a completion may still panic; see `NoPanic`. */
  predicate Enabled(s: State, reserved: set<nat>, e: Event) {
    match e
    case DoConsume => 0 < s.published && s.sq != []
    case DoComplete(k, o) => k < |s.kernel| && Allowed(s.world, reserved, s.kernel[k].op, o)
    case DoSync => true
    case DoPopBacklog => s.backlog != []
    case DoPushAccept => 0 < s.acceptCount && !Full(s)
    case DoHandle(tokenKey, bufKey) =>
      s.cq != [] && tokenKey !in s.tokens && bufKey !in s.world.mem
  }

  function Apply(s: State, reserved: set<nat>, e: Event): State
    requires Enabled(s, reserved, e) && (e.DoHandle? ==> NoPanic(s))
  {
    match e
    case DoConsume => Consume(s)
    case DoComplete(k, o) => Complete(s, reserved, k, o)
    case DoSync => Sync(s)
    case DoPopBacklog => PopBacklog(s)
    case DoPushAccept => PushAccept(s)
    case DoHandle(tokenKey, bufKey) => Handle(s, tokenKey, bufKey)
  }

  /** `es` is a run from `s` that ends in `t`; a panic ends a run. */
  predicate Run(s: State, reserved: set<nat>, es: seq<Event>, t: State)
    decreases |es|
  {
    if es == [] then s == t
    else
      && Enabled(s, reserved, es[0])
      && (es[0].DoHandle? ==> NoPanic(s))
      && Run(Apply(s, reserved, es[0]), reserved, es[1..], t)
  }
}
