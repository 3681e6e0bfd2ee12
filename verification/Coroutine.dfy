/**
 The coroutine form of the provided-buffer server
 (netpoll/echo/cpp-coroutine-iouring-server/coroutine_io_uring_echo_server.cpp): one
 coroutine per connection, kept in a map, resumed by the event loop when a completion of
 its connection arrives. Everything a coroutine remembers lives in its promise.
 */
module Coroutine {
  import opened Census
  import opened ProvidedBuffers

  /** Where a coroutine is suspended. */
  datatype Point = Start | AtRead | AtWrite

  /** A coroutine: its suspension point and the fields of its promise. `res` is a `size_t`. */
  datatype Task = Task(point: Point, info: ConnInfo, res: nat)

  /** The conversion of the completion's `int` result to `size_t`. */
  const SIZE_MAX_PLUS_ONE := 0x1_0000_0000_0000_0000
  function ToSize(res: int): (r: nat)
    requires -SIZE_MAX_PLUS_ONE <= res
    ensures r == 0 <==> res == 0 || res == -SIZE_MAX_PLUS_ONE
  {
    if res >= 0 then res else SIZE_MAX_PLUS_ONE + res
  }

  /** A result is a C `int`. */
  predicate IsInt(res: int) {
    -0x8000_0000 <= res < 0x8000_0000
  }

  /** What a coroutine does between being resumed and being suspended again or finishing. */
  datatype Segment = Segment(queued: seq<Sqe>, next: Option<Task>)

  function AwaitRead(info: ConnInfo): (Sqe, ConnInfo) {
    var info' := info.(kind := READ);
    (Sqe(Read(info.fd), info'), info')
  }

  function AwaitWrite(info: ConnInfo, size: nat): (Sqe, ConnInfo) {
    var info' := info.(kind := WRITE);
    (Sqe(Write(info.fd, info.bid, size), info'), info')
  }

  function AwaitAddBuffer(info: ConnInfo): (Sqe, ConnInfo) {
    var info' := info.(kind := PROV_BUF);
    (Sqe(Provide(info.bid), info'), info')
  }

  /**
   `handle_echo` from one suspension to the next. Adding a buffer resumes the coroutine
   inside its own suspension, so it never shows as a suspension point.
   */
  function Resume(t: Task): Segment {
    match t.point
    case Start =>
      var (e, info) := AwaitRead(t.info);
      Segment([e], Some(t.(point := AtRead, info := info)))
    case AtRead =>
      if t.res == 0 then
        var (e, info) := AwaitAddBuffer(t.info);
        Segment([e], None)
      else
        var (e, info) := AwaitWrite(t.info, t.res);
        Segment([e], Some(t.(point := AtWrite, info := info)))
    case AtWrite =>
      var (e0, info0) := AwaitAddBuffer(t.info);
      var (e1, info1) := AwaitRead(info0);
      Segment([e0, e1], Some(t.(point := AtRead, info := info1)))
  }

  datatype CoState = CoState(connections: map<nat, Task>, log: seq<Sqe>, shut: seq<nat>, exited: bool)

  /** `handler.resume()` on the coroutine of `fd`, which becomes `t`'s segment. */
  function ResumeAt(s: CoState, fd: nat, t: Task): CoState {
    var g := Resume(t);
    match g.next
    case Some(t') => s.(connections := s.connections[fd := t'], log := s.log + g.queued)
    case None => s.(connections := s.connections - {fd}, log := s.log + g.queued, shut := s.shut + [fd])
  }

  /** `connections.at(fd)` throws when there is no such connection. */
  predicate Found(s: CoState, tag: ConnInfo, res: int) {
    res != -ENOBUFS && (tag.kind == READ || tag.kind == WRITE) ==> tag.fd in s.connections
  }

  /**
   The event loop's body. A new promise starts with an indeterminate buffer id, `junk`;
   `emplace` keeps an existing entry.
   */
  function CoHandle(s: CoState, listenFd: nat, junk: nat, tag: ConnInfo, res: int, flags: nat): CoState
    requires IsInt(res) && Found(s, tag, res)
  {
    if res == -ENOBUFS then s.(exited := true)
    else match tag.kind
      case PROV_BUF => if res < 0 then s.(exited := true) else s
      case ACCEPT =>
        var s1 :=
          if res >= 0 then
            var t := if res in s.connections then s.connections[res] else Task(Start, ConnInfo(res, READ, junk), 0);
            ResumeAt(s, res, t.(info := t.info.(fd := res)))
          else s;
        s1.(log := s1.log + [AddAccept(listenFd)])
      case READ =>
        var t := s.connections[tag.fd];
        ResumeAt(s, tag.fd, t.(info := t.info.(bid := flags / BUFFER_SHIFT), res := ToSize(res)))
      case WRITE =>
        ResumeAt(s, tag.fd, s.connections[tag.fd])
  }

  // ---------------------------------------------------------------- the explicit loop, seen through the same window

  /** The explicit loop's emissions, the connections it has open and those it closed. */
  datatype Loop = Loop(live: set<nat>, log: seq<Sqe>, shut: seq<nat>, exited: bool)

  function LoopHandle(s: Loop, listenFd: nat, tag: ConnInfo, res: int, flags: nat): Loop {
    match React(listenFd, tag, res, flags)
    case Exit => s.(exited := true)
    case Continue(queued, closed) =>
      var accepted := if tag.kind == ACCEPT && res >= 0 then {res} else {};
      Loop(s.live + accepted - closed, s.log + queued, if closed == {} then s.shut else s.shut + [tag.fd], s.exited)
  }

  // ---------------------------------------------------------------- traces

  /** A completion of the operation emitted as number `index`. */
  datatype Completion = Completion(index: nat, res: int, flags: nat, junk: nat)

  /**
   The completion is one the kernel may deliver next: it answers an operation emitted and
   not yet answered, its result fits an `int`, and accept hands out no descriptor in use.
   */
  predicate Deliverable(s: Loop, answered: set<nat>, c: Completion) {
    && !s.exited
    && c.index < |s.log| && c.index !in answered && IsInt(c.res)
    && (s.log[c.index].op.Accept? ==> c.res !in s.live)
  }

  /** The one kind of completion on which the two servers part. */
  predicate NegativeRead(s: Loop, c: Completion)
    requires c.index < |s.log|
  {
    s.log[c.index].op.Read? && c.res < 0 && c.res != -ENOBUFS
  }

  /** Every completion is deliverable in turn, and none is a negative read. */
  predicate Trace(s: Loop, listenFd: nat, answered: set<nat>, cs: seq<Completion>)
    decreases |cs|
  {
    cs == [] ||
    (&& Deliverable(s, answered, cs[0]) && !NegativeRead(s, cs[0])
     && Trace(LoopStep(s, listenFd, cs[0]), listenFd, answered + {cs[0].index}, cs[1..]))
  }

  function LoopStep(s: Loop, listenFd: nat, c: Completion): Loop
    requires c.index < |s.log|
  {
    LoopHandle(s, listenFd, s.log[c.index].tag, c.res, c.flags)
  }

  /** The coroutine server gets the tag it wrote itself. */
  function CoStep(s: CoState, listenFd: nat, c: Completion): CoState
    requires c.index < |s.log| && IsInt(c.res) && Found(s, s.log[c.index].tag, c.res)
  {
    CoHandle(s, listenFd, c.junk, s.log[c.index].tag, c.res, c.flags)
  }

  function LoopRun(s: Loop, listenFd: nat, answered: set<nat>, cs: seq<Completion>): Loop
    requires Trace(s, listenFd, answered, cs)
    decreases |cs|
  {
    if cs == [] then s else LoopRun(LoopStep(s, listenFd, cs[0]), listenFd, answered + {cs[0].index}, cs[1..])
  }

  /** The coroutine server on the same completions; `None` when a lookup throws. */
  function CoRun(s: CoState, listenFd: nat, cs: seq<Completion>): Option<CoState>
    decreases |cs|
  {
    if cs == [] then Some(s)
    else if cs[0].index < |s.log| && IsInt(cs[0].res) && Found(s, s.log[cs[0].index].tag, cs[0].res) then
      CoRun(CoStep(s, listenFd, cs[0]), listenFd, cs[1..])
    else None
  }

  function Ops(log: seq<Sqe>): seq<Op> {
    seq(|log|, i requires 0 <= i < |log| => log[i].op)
  }
}
