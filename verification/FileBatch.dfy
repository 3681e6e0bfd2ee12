/**
 The file wrapper: one goroutine that queues read and write requests, submits them in
 batches and calls each request's callback when its completion is popped
 (iouring/liburing.go, iouring/liburing.c).

 Requests come through a channel, each with a file that has just been opened, so its
 descriptor is not in use. A push cuts the memory for a read into blocks and queues them; a
 batch is submitted when six requests have been queued since the last one, or on a poll. The
 kernel may refuse a batch, which leaves it queued. If it accepts, all queued requests go
 into flight and as many completions are waited for as were queued since the last batch;
 others may arrive later.
 */
module FileBatch {
  import opened Streams
  import opened Blocks

  const QUEUE_DEPTH := 16
  const QUEUE_THRESHOLD := 5
  const EAGAIN := 11

  datatype Code = Read | Write

  /** `data` is what the file holds, or what is to be written. The request also stands for its callback. */
  datatype Request = Request(code: Code, fd: nat, data: seq<byte>)

  /** A queued request with the blocks of a read. */
  datatype Entry = Entry(req: Request, blocks: seq<seq<byte>>)

  datatype Completion = Completion(entry: Entry, res: int)

  /** A call of the callback registered by `cb`. */
  datatype Fired = Fired(cb: Request, res: int, bytes: seq<byte>)

  /**
   `spinning`: the loop that pops requests goes round for ever without effect. `panicked`:
   a nil pointer was used. The last four fields are history: requests accepted, requests
   whose push failed, completions posted and callbacks called.
   */
  datatype State = State(
    queueSize: nat,
    cbMap: map<nat, Request>,
    sq: seq<Entry>,
    kernel: seq<Entry>,
    cq: seq<Completion>,
    open: set<nat>,
    spinning: bool,
    panicked: bool,
    asked: seq<Request>,
    lost: seq<Request>,
    posted: seq<Completion>,
    fired: seq<Fired>)

  const INIT := State(0, map[], [], [], [], {}, false, false, [], [], [], [])

  // ---------------------------------------------------------------- pushing

  /** There is memory for the blocks of a read. */
  predicate Supplied(req: Request, memory: seq<byte>) {
    req.code.Read? ==> |memory| == |req.data|
  }

  /** The request with its blocks, which hold what the memory held. */
  function MakeEntry(req: Request, memory: seq<byte>): Entry
    requires Supplied(req, memory)
  {
    if req.code.Read? then
      PushPopAgree(|req.data|);
      Entry(req, Cut(memory, PushLens(|req.data|)))
    else Entry(req, [])
  }

  /** Remember the callback, then queue the request; `ok` is false if there is no memory for the blocks. */
  function Push(s: State, req: Request, ok: bool, memory: seq<byte>): State
    requires ok ==> Supplied(req, memory)
  {
    var s1 := s.(cbMap := s.cbMap[req.fd := req], open := s.open + {req.fd}, asked := s.asked + [req]);
    if !ok then s1.(lost := s.lost + [req])
    else if |s.sq| >= QUEUE_DEPTH then s1.(panicked := true)
    else s1.(sq := s.sq + [MakeEntry(req, memory)], queueSize := s.queueSize + 1)
  }

  // ---------------------------------------------------------------- popping

  /** What the read has left in the blocks. */
  function Memory(d: Completion): seq<seq<byte>>
    requires 0 <= d.res <= |d.entry.req.data|
  {
    Scatter(d.entry.blocks, d.entry.req.data[..d.res])
  }

  /** What the callback is given: for a read, as many blocks as popping counts, one after the other. */
  function Bytes(d: Completion): seq<byte> {
    var total := PopCount(|d.entry.req.data|);
    if d.entry.req.code.Read? && 0 <= d.res <= |d.entry.req.data| && total <= |Memory(d)| then
      Concat(Memory(d)[..total])
    else []
  }

  /** The oldest completion was successful: close the file, call the callback, forget it. */
  function Fire(s: State): State
    requires s.cq != []
  {
    var d := s.cq[0];
    var fd := d.entry.req.fd;
    if fd !in s.cbMap || s.cbMap[fd].code != d.entry.req.code then s.(panicked := true)
    else s.(cq := s.cq[1..], cbMap := s.cbMap - {fd}, open := s.open - {fd},
            fired := s.fired + [Fired(s.cbMap[fd], d.res, Bytes(d))])
  }

  /** The value `pop_request` returns. */
  function PopRet(s: State): int {
    if s.cq == [] then -EAGAIN else if s.cq[0].res < 0 then s.cq[0].res else 0
  }

  /** A failed completion is left where it is. */
  function Pop(s: State): State {
    if PopRet(s) == 0 && s.cq != [] then Fire(s) else s
  }

  /** `n` after one turn of the loop in `submitAndPop`. */
  function Left(s: State, n: nat): nat
    requires 0 < n
  {
    if PopRet(s) == -EAGAIN then n else n - 1
  }

  /** The state and the count after some turns. */
  function Turns(s: State, n: nat, k: nat): (State, nat)
    decreases k
  {
    if k == 0 || n == 0 || s.panicked then (s, n) else Turns(Pop(s), Left(s, n), k - 1)
  }

  /** The loop of `submitAndPop` as a whole. */
  function Drain(s: State, n: nat): State
    decreases n
  {
    if n == 0 || s.panicked then s
    else if PopRet(s) == -EAGAIN then s.(spinning := true)
    else Drain(Pop(s), n - 1)
  }

  /**
   What the kernel does with a batch: refuse it, or take all queued requests into flight and
   post some completions before the wait ends; the others are still in flight then.
   */
  datatype Batch = Refused | Accepted(done: seq<Completion>, flying: seq<Entry>)

  function SubmitAndPop(s: State, b: Batch): State {
    match b
    case Refused => s.(queueSize := 0)
    case Accepted(done, flying) =>
      Drain(s.(sq := [], kernel := flying, cq := s.cq + done, posted := s.posted + done), s.queueSize).(queueSize := 0)
  }

  // ---------------------------------------------------------------- the loop

  function Entries(done: seq<Completion>): seq<Entry> {
    seq(|done|, i requires 0 <= i < |done| => done[i].entry)
  }

  /** No operation transfers more than it was asked to. */
  predicate Possible(d: Completion) {
    d.res <= |d.entry.req.data|
  }

  /** The posted completions and those still in flight are the requests queued and in flight; enough are posted. */
  predicate BatchOf(s: State, b: Batch) {
    b.Accepted? ==>
      && multiset(Entries(b.done) + b.flying) == multiset(s.kernel + s.sq)
      && s.queueSize <= |s.cq| + |b.done|
      && forall i :: 0 <= i < |b.done| ==> Possible(b.done[i])
  }

  datatype Event =
    | Ask(req: Request, ok: bool, memory: seq<byte>, batch: Batch)
    | Poll(batch: Batch)
    | Arrives(k: nat, res: int)

  /** The push makes a batch due. */
  predicate Due(s: State, ok: bool) {
    ok && !s.panicked && s.queueSize > QUEUE_THRESHOLD
  }

  predicate Enabled(s: State, e: Event) {
    && !s.spinning && !s.panicked
    && match e
       case Ask(req, ok, memory, b) =>
         && req.fd !in s.open && (if ok then Supplied(req, memory) else req.code.Read?)
         && (Due(Push(s, req, ok, memory), ok) ==> BatchOf(Push(s, req, ok, memory), b))
       case Poll(b) => s.queueSize > 0 ==> BatchOf(s, b)
       case Arrives(k, res) => k < |s.kernel| && Possible(Completion(s.kernel[k], res))
  }

  /** A completion that was not waited for. */
  function Arrive(s: State, k: nat, res: int): State
    requires k < |s.kernel|
  {
    var d := Completion(s.kernel[k], res);
    s.(kernel := s.kernel[..k] + s.kernel[k + 1..], cq := s.cq + [d], posted := s.posted + [d])
  }

  function Apply(s: State, e: Event): State
    requires Enabled(s, e)
  {
    match e
    case Ask(req, ok, memory, b) =>
      var s1 := Push(s, req, ok, memory);
      if Due(s1, ok) then SubmitAndPop(s1, b) else s1
    case Poll(b) =>
      if s.queueSize > 0 then SubmitAndPop(s, b) else s
    case Arrives(k, res) => Arrive(s, k, res)
  }

  predicate Run(s: State, es: seq<Event>, t: State)
    decreases |es|
  {
    if es == [] then s == t else Enabled(s, es[0]) && Run(Apply(s, es[0]), es[1..], t)
  }

  /** The kernel does not refuse the batch. */
  predicate Accepts(e: Event) {
    !e.Arrives? ==> e.batch.Accepted?
  }

  predicate Accepting(es: seq<Event>) {
    forall e :: e in es ==> Accepts(e)
  }

  /** Moreover the push and every operation succeed. */
  predicate Succeeds(e: Event) {
    match e
    case Ask(_, ok, _, b) => ok && b.Accepted? && forall i :: 0 <= i < |b.done| ==> 0 <= b.done[i].res
    case Poll(b) => b.Accepted? && forall i :: 0 <= i < |b.done| ==> 0 <= b.done[i].res
    case Arrives(_, res) => 0 <= res
  }

  predicate Smooth(es: seq<Event>) {
    forall e :: e in es ==> Succeeds(e)
  }
}
