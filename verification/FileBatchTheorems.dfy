/** Runs of the file wrapper: which callbacks are called, when, and with what. */
module FileBatchTheorems {
  import opened Streams
  import opened Blocks
  import opened FileBatch
  import opened FileBatchProof

  // ---------------------------------------------------------------- every run

  lemma AskKeeps(s: State, req: Request, ok: bool, memory: seq<byte>, b: Batch)
    requires Inv(s) && Enabled(s, Ask(req, ok, memory, b)) && !Apply(s, Ask(req, ok, memory, b)).panicked
    ensures Inv(Apply(s, Ask(req, ok, memory, b)))
  {
    PushPanics(s, req, ok, memory);
    hide Inv, SubmitAndPop, BatchOf, Push, Supplied;
    PushKeeps(s, req, ok, memory);
    if Due(Push(s, req, ok, memory), ok) { SubmitKeeps(Push(s, req, ok, memory), b); }
  }

  lemma PushPanics(s: State, req: Request, ok: bool, memory: seq<byte>)
    requires !s.panicked && (ok ==> Supplied(req, memory))
    ensures Push(s, req, ok, memory).panicked <==> ok && |s.sq| >= QUEUE_DEPTH
  {
  }

  lemma StepKeeps(s: State, e: Event)
    requires Inv(s) && Enabled(s, e) && !Apply(s, e).panicked
    ensures Inv(Apply(s, e))
  {
    match e
    case Ask(req, ok, memory, b) => AskKeeps(s, req, ok, memory, b);
    case Poll(b) =>
      hide Inv, SubmitAndPop, BatchOf;
      if s.queueSize > 0 { SubmitKeeps(s, b); }
    case Arrives(k, res) => ArriveKeeps(s, k, res);
  }

  lemma InitInv()
    ensures Inv(INIT)
  {
    assert Reqs([]) == [];
  }

  /** Nothing happens after a panic. */
  lemma {:induction false} RunKeeps(s: State, es: seq<Event>, t: State)
    requires Inv(s) && Run(s, es, t) && !t.panicked
    ensures Inv(t)
    decreases |es|
  {
    hide Inv, Apply;
    if es != [] && !Apply(s, es[0]).panicked {
      StepKeeps(s, es[0]);
      RunKeeps(Apply(s, es[0]), es[1..], t);
    }
  }

  /**
   Whatever the kernel does, with refused batches and late completions: callbacks are called
   in completion order, for an initial part of the completions, all of them successful, each
   once, with the request and the result of its own completion; and no request disappears.
   */
  lemma {:induction false} CallbacksInOrder(es: seq<Event>, t: State)
    requires Run(INIT, es, t) && !t.panicked
    ensures |t.fired| <= |t.posted|
    ensures forall i :: 0 <= i < |t.fired| ==> t.fired[i] == CallOf(t.posted[i]) && 0 <= t.posted[i].res
    ensures Outstanding(t) + multiset(Cbs(t.fired)) == multiset(t.asked)
  {
    hide Run, CallOf, Outstanding, Cbs;
    InitInv();
    RunKeeps(INIT, es, t);
    hide MapInv, MadeInv;
  }

  // ---------------------------------------------------------------- what a read delivers

  /** The blocks of the push, filled by the read and counted again by the pop, come out as one. */
  lemma BytesAre(d: Completion)
    requires WellMade(d.entry) && d.entry.req.code.Read? && 0 <= d.res <= |d.entry.req.data|
    ensures |Concat(d.entry.blocks)| == |d.entry.req.data|
    ensures Bytes(d) == Concat(Memory(d)) == d.entry.req.data[..d.res] + Concat(d.entry.blocks)[d.res..]
  {
    var data, bs := d.entry.req.data, d.entry.blocks;
    PushPopAgree(|data|);
    ReadDelivers(PushLens(|data|), bs, data, d.res);
    ScatterLengths(bs, data[..d.res]);
    assert |Memory(d)| == |Lengths(bs)| == PopCount(|data|);
    assert Memory(d)[..PopCount(|data|)] == Memory(d);
  }

  /** The callback of a read is given the file, for every memory its blocks were cut from. */
  ghost predicate Delivers(req: Request, res: int) {
    forall memory: seq<byte> :: Supplied(req, memory) ==> Bytes(Completion(MakeEntry(req, memory), res)) == req.data
  }

  lemma DeliversFull(req: Request, res: int)
    requires req.code.Read? && 0 <= res <= |req.data|
    ensures Delivers(req, res) <==> res == |req.data|
  {
    var lens := PushLens(|req.data|);
    PushPopAgree(|req.data|);
    DeliversExactly(lens, req.data, res);
    forall memory: seq<byte> | |memory| == |req.data|
      ensures Bytes(Completion(MakeEntry(req, memory), res)) == Concat(Scatter(Cut(memory, lens), req.data[..res]))
    {
      PushMade(req, memory);
      BytesAre(Completion(MakeEntry(req, memory), res));
    }
    hide Bytes, MakeEntry, Cut, Scatter, Concat, PushLens;
  }

  /**
   In every run a read callback gets what was read, followed by what the fresh blocks held, as
   many bytes as the file has; it is sure to get the file exactly when the read was a full one.
   */
  lemma {:induction false} ReadContents(es: seq<Event>, t: State, i: nat)
    requires Run(INIT, es, t) && !t.panicked && i < |t.fired| && t.fired[i].cb.code.Read?
    ensures i < |t.posted| && t.posted[i].entry.req == t.fired[i].cb
    ensures var f, old_ := t.fired[i], Concat(t.posted[i].entry.blocks);
            && 0 <= f.res <= |f.cb.data| == |old_| && f.bytes == f.cb.data[..f.res] + old_[f.res..]
            && (Delivers(f.cb, f.res) <==> f.res == |f.cb.data|)
  {
    hide Run, MapInv, Conserved, Bytes, Delivers, WellMade;
    InitInv();
    RunKeeps(INIT, es, t);
    var d := t.posted[i];
    assert d in t.posted && t.fired[i] == CallOf(d);
    BytesAre(d);
    DeliversFull(d.entry.req, d.res);
  }

  // ---------------------------------------------------------------- a failed completion

  predicate Failed(s: State) {
    s.cq != [] && s.cq[0].res < 0
  }

  lemma {:induction false} DrainFailed(s: State, n: nat)
    requires Failed(s)
    ensures Drain(s, n).fired == s.fired && Drain(s, n).cq == s.cq
    decreases n
  {
    if n > 0 && !s.panicked && PopRet(s) != -EAGAIN { DrainFailed(Pop(s), n - 1); }
  }

  lemma SubmitFailed(s: State, b: Batch)
    requires Failed(s)
    ensures var t := SubmitAndPop(s, b); t.fired == s.fired && Failed(t) && t.cq[0] == s.cq[0]
  {
    hide Drain;
    if b.Accepted? {
      var s2 := Waited(s, b.done, b.flying);
      assert s2.cq[0] == s.cq[0];
      DrainFailed(s2, s.queueSize);
    }
  }

  lemma StepFailed(s: State, e: Event)
    requires Failed(s) && Enabled(s, e)
    ensures Apply(s, e).fired == s.fired && Failed(Apply(s, e)) && Apply(s, e).cq[0] == s.cq[0]
  {
    hide SubmitAndPop, BatchOf, MakeEntry;
    match e
    case Ask(req, ok, memory, b) =>
      var s1 := Push(s, req, ok, memory);
      assert s1.cq == s.cq && s1.fired == s.fired;
      SubmitFailed(s1, b);
    case Poll(b) => SubmitFailed(s, b);
    case Arrives(k, res) => assert Arrive(s, k, res).cq[0] == s.cq[0];
  }

  /** Once a failed completion is the oldest one, it stays, and no callback is called any more. */
  lemma {:induction false} FailureIsFinal(s: State, es: seq<Event>, t: State)
    requires Failed(s) && Run(s, es, t)
    ensures t.fired == s.fired && Failed(t) && t.cq[0] == s.cq[0]
    decreases |es|
  {
    hide Apply, Enabled;
    if es != [] {
      StepFailed(s, es[0]);
      FailureIsFinal(Apply(s, es[0]), es[1..], t);
    }
  }

  /** A request is queued, a poll submits it, and this is its completion. */
  function AskAndPoll(req: Request, memory: seq<byte>, d: Completion): seq<Event> {
    [Ask(req, true, memory, Accepted([], []))] + [Poll(Accepted([d], []))]
  }

  lemma AskFirst(req: Request, memory: seq<byte>)
    requires Supplied(req, memory)
    ensures var s, e := Push(INIT, req, true, memory), Ask(req, true, memory, Accepted([], []));
            && Enabled(INIT, e) && Apply(INIT, e) == s
            && s == INIT.(cbMap := map[req.fd := req], open := {req.fd}, asked := [req],
                          sq := [MakeEntry(req, memory)], queueSize := 1)
  {
    hide MakeEntry, Supplied;
  }

  lemma PollFirst(s: State, d: Completion)
    requires s.sq == [d.entry] && s.kernel == [] && s.cq == [] && s.queueSize == 1 && !s.panicked && !s.spinning
    requires Possible(d)
    ensures var e := Poll(Accepted([d], []));
            Enabled(s, e) && Apply(s, e) == SubmitAndPop(s, Accepted([d], []))
  {
    hide Possible, SubmitAndPop;
    assert Entries([d]) + [] == [d.entry] && s.kernel + s.sq == [d.entry];
  }

  lemma AskAndPollRuns(req: Request, memory: seq<byte>, d: Completion)
    requires Supplied(req, memory) && d.entry == MakeEntry(req, memory) && Possible(d)
    ensures var s := Push(INIT, req, true, memory);
            && s.cq == [] && s.queueSize == 1 && s.cbMap == map[req.fd := req] && s.fired == []
            && !s.panicked && !s.spinning
            && Run(INIT, AskAndPoll(req, memory, d), SubmitAndPop(s, Accepted([d], [])))
    ensures |AskAndPoll(req, memory, d)| == 2 && Accepting(AskAndPoll(req, memory, d))
  {
    hide MakeEntry, Supplied, Possible, SubmitAndPop, Enabled, Apply, Push;
    var ask, poll := Ask(req, true, memory, Accepted([], [])), Poll(Accepted([d], []));
    var s := Push(INIT, req, true, memory);
    AskFirst(req, memory);
    PollFirst(s, d);
    assert Run(INIT, [], INIT) && [] + [ask] == [ask];
    RunThen(INIT, [], INIT, ask);
    RunThen(INIT, [ask], s, poll);
  }

  /** Two events after which the loop spins: a request, and a poll whose completion reports EAGAIN. */
  lemma EagainSpins(req: Request, memory: seq<byte>) returns (es: seq<Event>, t: State)
    requires Supplied(req, memory)
    ensures |es| == 2 && Accepting(es) && Run(INIT, es, t) && t.spinning && t.fired == []
  {
    var d := Completion(MakeEntry(req, memory), -EAGAIN);
    hide MakeEntry, Supplied, Run, Push;
    AskAndPollRuns(req, memory, d);
    es := AskAndPoll(req, memory, d);
    var s := Push(INIT, req, true, memory);
    t := SubmitAndPop(s, Accepted([d], []));
    assert Waited(s, [d], []).cq == [d];
  }

  /** Nothing read of a file of one byte: the callback's buffer is what memory held. */
  lemma OldByte(req: Request, old_: seq<byte>)
    requires req.code.Read? && |req.data| == |old_| == 1
    ensures Bytes(Completion(MakeEntry(req, old_), 0)) == old_ && MakeEntry(req, old_).req == req
    ensures Supplied(req, old_) && Possible(Completion(MakeEntry(req, old_), 0))
  {
    PushMade(req, old_);
    BytesAre(Completion(MakeEntry(req, old_), 0));
    PushPopAgree(1);
    CutFits(old_, PushLens(1));
  }

  /** A batch of one successful completion. */
  lemma OneFires(s: State, d: Completion)
    requires s.cq == [] && s.queueSize == 1 && !s.panicked && !s.spinning && 0 <= d.res
    requires d.entry.req.fd in s.cbMap && s.cbMap[d.entry.req.fd] == d.entry.req
    ensures var t := SubmitAndPop(s, Accepted([d], []));
            t.fired == s.fired + [Fired(d.entry.req, d.res, Bytes(d))] && !t.spinning && !t.panicked
  {
    hide Bytes;
    var s2 := Waited(s, [d], []);
    assert s2.cq == [d] && Drain(s2, 1) == Drain(Fire(s2), 0) == Fire(s2);
  }

  /**
   Two events after which a callback got something else than the file: the read of a file of
   one byte returns nothing, and the callback gets the byte that was in memory before.
   */
  lemma ShortReadSpoils(fd: nat, b: byte, other: byte) returns (es: seq<Event>, t: State)
    requires b != other
    ensures |es| == 2 && Accepting(es) && Run(INIT, es, t) && !t.spinning && !t.panicked
    ensures t.fired == [Fired(Request(Read, fd, [b]), 0, [other])] && t.fired[0].bytes != t.fired[0].cb.data
  {
    var req, memory: seq<byte> := Request(Read, fd, [b]), [other];
    var d := Completion(MakeEntry(req, memory), 0);
    hide MakeEntry, Run, Push, SubmitAndPop, Bytes, Possible, Supplied, Accepting, AskAndPoll, INIT;
    OldByte(req, memory);
    AskAndPollRuns(req, memory, d);
    es := AskAndPoll(req, memory, d);
    var s := Push(INIT, req, true, memory);
    t := SubmitAndPop(s, Accepted([d], []));
    OneFires(s, d);
    assert [] + [Fired(req, 0, [other])] == [Fired(req, 0, [other])];
  }

  // ---------------------------------------------------------------- refused batches pile up

  lemma StepPanics(s: State, e: Event)
    requires Inv(s) && Enabled(s, e)
    ensures Apply(s, e).panicked <==> e.Ask? && e.ok && |s.sq| >= QUEUE_DEPTH
  {
    if e.Ask? && e.ok && |s.sq| >= QUEUE_DEPTH {
      PushPanics(s, e.req, e.ok, e.memory);
    } else if e.Ask? {
      hide SubmitAndPop, BatchOf, Push, Supplied, MapInv, MadeInv, Conserved, OrderInv;
      PushKeeps(s, e.req, e.ok, e.memory);
      if Due(Push(s, e.req, e.ok, e.memory), e.ok) { SubmitKeeps(Push(s, e.req, e.ok, e.memory), e.batch); }
    } else if e.Poll? && s.queueSize > 0 {
      hide SubmitAndPop, BatchOf, MapInv, MadeInv, Conserved, OrderInv;
      SubmitKeeps(s, e.batch);
    }
  }

  /** In every run, an event makes the wrapper panic exactly when it pushes onto a ring of 16 entries, all taken. */
  lemma {:induction false} PanicsExactly(es: seq<Event>, s: State, e: Event)
    requires Run(INIT, es, s) && Enabled(s, e)
    ensures Apply(s, e).panicked <==> e.Ask? && e.ok && |s.sq| >= 16
  {
    hide Run, Inv, Apply;
    InitInv();
    RunKeeps(INIT, es, s);
    StepPanics(s, e);
  }

  function RefusedWrite(fd: nat): Event {
    Ask(Request(Write, fd, []), true, [], Refused)
  }

  lemma {:induction false} WritesPile(k: nat) returns (es: seq<Event>, t: State)
    requires k <= QUEUE_DEPTH
    ensures |es| == k && Run(INIT, es, t) && |t.sq| == k && !t.panicked && !t.spinning
    ensures forall fd :: fd in t.open ==> fd < k
  {
    if k == 0 {
      es, t := [], INIT;
    } else {
      hide Run;
      var s;
      es, s := WritesPile(k - 1);
      t := Apply(s, RefusedWrite(k - 1));
      RunThen(INIT, es, s, RefusedWrite(k - 1));
      es := es + [RefusedWrite(k - 1)];
    }
  }

  /** Seventeen requests and no batch accepted: the last push finds no entry. */
  lemma RefusedBatchesPanic() returns (es: seq<Event>, t: State)
    ensures |es| == 17 && Run(INIT, es, t) && t.panicked
  {
    hide Run;
    es, t := WritesPile(QUEUE_DEPTH);
    var e := RefusedWrite(QUEUE_DEPTH);
    RunThen(INIT, es, t, e);
    es, t := es + [e], Apply(t, e);
  }

  // ---------------------------------------------------------------- runs in which every batch is accepted

  /** Between two events: few requests queued, nothing poppable on the ring, in flight only behind a failure. */
  ghost predicate Settled(s: State) {
    && s.queueSize == |s.sq| <= QUEUE_THRESHOLD
    && |s.fired| == Successes(s.posted)
    && (s.kernel != [] ==> s.cq != [])
    && (s.spinning <==> s.cq != [] && s.cq[0].res == -EAGAIN)
  }

  lemma {:induction false} SuccessesSplit(a: seq<Completion>, b: seq<Completion>)
    requires forall i :: 0 <= i < |a| ==> 0 <= a[i].res
    ensures Successes(a + b) == |a| + Successes(b)
  {
    if a == [] {
      assert a + b == b;
    } else {
      assert (a + b)[1..] == a[1..] + b;
      SuccessesSplit(a[1..], b);
    }
  }

  lemma PostedCount(s: State, done: seq<Completion>)
    requires OrderInv(s)
    ensures Successes(s.posted + done) == |s.fired| + Successes(s.cq + done)
  {
    hide CallOf;
    var a := s.posted[..|s.fired|];
    assert s.posted + done == a + (s.cq + done);
    SuccessesSplit(a, s.cq + done);
  }

  /** Between two events the oldest completion, if any, is a failed one. */
  lemma HeadIs(s: State)
    requires OrderInv(s) && |s.fired| == Successes(s.posted)
    ensures Successes(s.cq) == 0 && (s.cq != [] ==> s.cq[0].res < 0)
  {
    PostedCount(s, []);
    assert s.posted + [] == s.posted && s.cq + [] == s.cq;
  }

  /** All completions of a batch are there, unless an older failure is. */
  lemma BatchIsWhole(s: State, done: seq<Completion>, flying: seq<Entry>)
    requires BatchOf(s, Accepted(done, flying)) && s.queueSize == |s.sq| && (s.kernel != [] ==> s.cq != []) &&
             s.cq == []
    ensures flying == [] && |done| == s.queueSize
  {
    ReorderedReqs(Entries(done) + flying, s.kernel + s.sq);
  }

  /** When nothing poppable was left, everything before the first failure is popped, and only EAGAIN is in the way. */
  lemma SuccessesOf(q: seq<Completion>, done: seq<Completion>, n: nat)
    requires Successes(q) == 0 && (q == [] ==> |done| == n) && (q != [] ==> q[0].res != -EAGAIN)
    ensures var k := Successes(q + done);
            && k <= n && k <= |q + done| && (q != [] ==> k == 0)
            && (Stuck(q + done, n) <==> (q + done)[k..] != [] && (q + done)[k].res == -EAGAIN)
    ensures q == [] && (forall i :: 0 <= i < |done| ==> 0 <= done[i].res) ==> Successes(q + done) == |q + done|
  {
    SuccessesAre(q + done);
    if q == [] { assert q + done == done; } else { assert (q + done)[0] == q[0]; }
  }

  lemma SubmitSettles(s: State, done: seq<Completion>, flying: seq<Entry>)
    requires Inv(s) && !s.spinning && s.queueSize == |s.sq| && (s.kernel != [] ==> s.cq != [])
    requires |s.fired| == Successes(s.posted) && (s.cq != [] ==> s.cq[0].res != -EAGAIN)
    requires BatchOf(s, Accepted(done, flying))
    ensures var t := SubmitAndPop(s, Accepted(done, flying));
            && Inv(t) && Settled(t) && t.sq == [] && t.lost == s.lost && t.asked == s.asked
            && (s.cq == [] && (forall i :: 0 <= i < |done| ==> 0 <= done[i].res) ==> t.cq == [] && t.kernel == [])
  {
    hide MapInv, Conserved, MadeInv, OrderInv, Drain, Successes, BatchOf, Stuck;
    var n, w := s.queueSize, Waited(s, done, flying);
    WaitedKeeps(s, done, flying);
    DrainKeeps(w, n);
    DrainExactly(w, n);
    SubmitKeeps(s, Accepted(done, flying));
    HeadIs(s);
    if s.cq == [] { BatchIsWhole(s, done, flying); }
    SuccessesOf(s.cq, done, n);
    PostedCount(s, done);
  }

  /** What a push leaves alone, when there is room. */
  lemma PushSame(s: State, req: Request, ok: bool, memory: seq<byte>)
    requires |s.sq| < QUEUE_DEPTH && (ok ==> Supplied(req, memory))
    ensures var t := Push(s, req, ok, memory);
            && t.cq == s.cq && t.fired == s.fired && t.posted == s.posted && t.kernel == s.kernel
            && t.spinning == s.spinning && t.panicked == s.panicked
            && |t.sq| == |s.sq| + (if ok then 1 else 0) && t.queueSize == s.queueSize + (if ok then 1 else 0)
            && (ok ==> t.lost == s.lost)
  {
  }

  lemma AskSettles(s: State, req: Request, ok: bool, memory: seq<byte>, done: seq<Completion>, flying: seq<Entry>)
    requires Inv(s) && Settled(s) && Enabled(s, Ask(req, ok, memory, Accepted(done, flying)))
    ensures var t := Apply(s, Ask(req, ok, memory, Accepted(done, flying))); Inv(t) && Settled(t)
  {
    hide Inv, SubmitAndPop, BatchOf, Successes, Push, Supplied;
    PushSame(s, req, ok, memory);
    PushKeeps(s, req, ok, memory);
    var s1 := Push(s, req, ok, memory);
    if Due(s1, ok) {
      SubmitSettles(s1, done, flying);
    }
  }

  lemma ArriveSettles(s: State, k: nat, res: int)
    requires Inv(s) && Settled(s) && Enabled(s, Arrives(k, res))
    ensures Inv(Arrive(s, k, res)) && Settled(Arrive(s, k, res))
  {
    ArriveKeeps(s, k, res);
    HeadIs(s);
    var d := Completion(s.kernel[k], res);
    PostedCount(s, [d]);
    hide MapInv, Conserved, MadeInv, OrderInv;
    assert (s.cq + [d])[0] == s.cq[0];
  }

  lemma StepSettles(s: State, e: Event)
    requires Inv(s) && Settled(s) && Enabled(s, e) && Accepts(e)
    ensures Inv(Apply(s, e)) && Settled(Apply(s, e))
  {
    match e
    case Ask(req, ok, memory, b) => AskSettles(s, req, ok, memory, b.done, b.flying);
    case Poll(b) =>
      hide Inv, SubmitAndPop, BatchOf, Successes;
      if s.queueSize > 0 { SubmitSettles(s, b.done, b.flying); }
    case Arrives(k, res) => ArriveSettles(s, k, res);
  }

  lemma InitSettled()
    ensures Settled(INIT)
  {
  }

  lemma {:induction false} RunSettles(s: State, es: seq<Event>, t: State)
    requires Inv(s) && Settled(s) && Run(s, es, t) && Accepting(es)
    ensures Inv(t) && Settled(t)
    decreases |es|
  {
    hide Inv, Settled, Apply, Enabled, Accepts;
    if es != [] {
      assert es[0] in es && forall e :: e in es[1..] ==> e in es;
      StepSettles(s, es[0]);
      RunSettles(Apply(s, es[0]), es[1..], t);
    }
  }

  /**
   When every batch is accepted: nothing panics, an entry is always available, callbacks
   have been called for exactly the completions before the first failed one, and the loop
   spins exactly when that one reports 11, which is EAGAIN.
   */
  lemma {:induction false} AcceptedRuns(es: seq<Event>, t: State)
    requires Run(INIT, es, t) && Accepting(es)
    ensures !t.panicked && t.queueSize == |t.sq| <= 5
    ensures |t.fired| == Successes(t.posted) <= |t.posted| && t.cq == t.posted[Successes(t.posted)..]
    ensures t.spinning <==> t.cq != [] && t.cq[0].res == -11
  {
    hide Run, MapInv, MadeInv, Conserved;
    InitInv();
    InitSettled();
    RunSettles(INIT, es, t);
  }

  // ---------------------------------------------------------------- runs in which everything succeeds

  ghost predicate Clean(s: State) {
    s.cq == [] && s.kernel == [] && s.lost == [] && !s.spinning
  }

  lemma SucceedsAccepts(e: Event)
    requires Succeeds(e)
    ensures Accepts(e)
  {
  }

  lemma StepClean(s: State, e: Event)
    requires Inv(s) && Settled(s) && Clean(s) && Enabled(s, e) && Succeeds(e)
    ensures Clean(Apply(s, e))
    ensures e.Poll? ==> Apply(s, e).sq == []
  {
    hide Inv, SubmitAndPop, BatchOf, Successes, Push, Supplied;
    match e
    case Ask(req, ok, memory, b) =>
      PushSame(s, req, ok, memory);
      PushKeeps(s, req, ok, memory);
      if Due(Push(s, req, ok, memory), ok) {
        SubmitSettles(Push(s, req, ok, memory), b.done, b.flying);
      }
    case Poll(b) => if s.queueSize > 0 { SubmitSettles(s, b.done, b.flying); }
    case Arrives(_, _) =>
  }

  lemma {:induction false} RunClean(s: State, es: seq<Event>, t: State)
    requires Inv(s) && Settled(s) && Clean(s) && Run(s, es, t) && Smooth(es)
    ensures Inv(t) && Settled(t) && Clean(t)
    ensures es != [] && es[|es| - 1].Poll? ==> t.sq == []
    decreases |es|
  {
    hide Inv, Settled, Apply, Enabled, Succeeds, Accepts;
    if es != [] {
      assert es[0] in es && forall e :: e in es[1..] ==> e in es;
      SucceedsAccepts(es[0]);
      StepSettles(s, es[0]);
      StepClean(s, es[0]);
      RunClean(Apply(s, es[0]), es[1..], t);
    }
  }

  /**
   When everything succeeds: the map holds exactly the queued requests, each once and under
   its own descriptor; every request asked for has been called back once or is queued; and
   after a poll none is queued.
   */
  lemma {:induction false} SmoothRuns(es: seq<Event>, t: State)
    requires Run(INIT, es, t) && Smooth(es)
    ensures forall r :: multiset(Reqs(t.sq))[r] == if Registered(t.cbMap, r) then 1 else 0
    ensures forall fd :: fd in t.cbMap ==> t.cbMap[fd].fd == fd
    ensures t.queueSize == |t.sq| <= QUEUE_THRESHOLD && !t.panicked && !t.spinning
    ensures multiset(Reqs(t.sq)) + multiset(Cbs(t.fired)) == multiset(t.asked)
    ensures es != [] && es[|es| - 1].Poll? ==> t.cbMap == map[] && multiset(Cbs(t.fired)) == multiset(t.asked)
  {
    hide Run, Smooth, Successes, CallOf, Cbs, OrderInv, MadeInv;
    InitInv();
    InitSettled();
    RunClean(INIT, es, t);
    assert Entries(t.cq) == [] && Reqs([]) == [];
    assert Outstanding(t) == multiset(Reqs(t.sq));
    hide Outstanding;
    assert forall fd :: fd in t.cbMap ==> Registered(t.cbMap, t.cbMap[fd]);
    if t.sq == [] {
      assert forall r :: !Registered(t.cbMap, r);
      assert t.cbMap.Keys == {};
    }
  }

  // ---------------------------------------------------------------- states of runs

  /** Some run leads to the state; with `accepting`, one in which every batch is accepted. */
  ghost predicate Visited(s: State, accepting: bool) {
    exists es :: Run(INIT, es, s) && (accepting ==> Accepting(es))
  }

  lemma {:induction false} RunThen(s: State, es: seq<Event>, t: State, e: Event)
    requires Run(s, es, t) && Enabled(t, e)
    ensures Run(s, es + [e], Apply(t, e))
    decreases |es|
  {
    hide Enabled, Apply;
    if es == [] {
      assert es + [e] == [e];
    } else {
      RunThen(Apply(s, es[0]), es[1..], t, e);
      assert (es + [e])[1..] == es[1..] + [e];
    }
  }

  lemma VisitedStep(s: State, accepting: bool, e: Event)
    requires Visited(s, accepting) && Enabled(s, e) && (accepting ==> Accepts(e))
    ensures Visited(Apply(s, e), accepting)
    ensures Apply(s, e).panicked ==> |s.sq| >= QUEUE_DEPTH && Apply(s, e).sq == s.sq
  {
    var es :| Run(INIT, es, s) && (accepting ==> Accepting(es));
    assert Apply(s, e).panicked ==> |s.sq| >= QUEUE_DEPTH && Apply(s, e).sq == s.sq by { PanicsExactly(es, s, e); }
    hide Run, Enabled, Apply, Accepts;
    RunThen(INIT, es, s, e);
    assert accepting ==> Accepting(es + [e]);
  }
}
