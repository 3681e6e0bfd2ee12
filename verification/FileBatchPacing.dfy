/**
 When the file wrapper submits: with the sixth request queued since the last batch, or on a
 poll, and never otherwise. The requests since the last batch are counted from the events.
 */
module FileBatchPacing {
  import opened Streams
  import opened FileBatch
  import opened FileBatchProof
  import opened FileBatchTheorems

  /** The count after one more event. */
  function Counted(n: nat, e: Event): nat {
    match e
    case Ask(_, ok, _, _) => if !ok then n else if n == 5 then 0 else n + 1
    case Poll(_) => 0
    case Arrives(_, _) => n
  }

  /** Requests queued since the last batch. */
  function Since(n: nat, es: seq<Event>): nat
    decreases |es|
  {
    if es == [] then n else Since(Counted(n, es[0]), es[1..])
  }

  lemma SubmitCount(s: State, b: Batch)
    ensures SubmitAndPop(s, b).queueSize == 0
  {
    hide Drain;
  }

  lemma StepCount(s: State, e: Event)
    requires Enabled(s, e) && s.queueSize <= 5 && !Apply(s, e).panicked
    ensures Apply(s, e).queueSize == Counted(s.queueSize, e) <= 5
  {
    hide SubmitAndPop, BatchOf, MakeEntry, Supplied;
    match e
    case Ask(req, ok, memory, b) => SubmitCount(Push(s, req, ok, memory), b);
    case Poll(b) => SubmitCount(s, b);
    case Arrives(_, _) =>
  }

  lemma {:induction false} RunCount(s: State, es: seq<Event>, t: State)
    requires Run(s, es, t) && s.queueSize <= 5 && !t.panicked
    ensures t.queueSize == Since(s.queueSize, es) <= 5
    decreases |es|
  {
    hide Enabled, Apply, Counted;
    if es != [] {
      if Apply(s, es[0]).panicked { PanicEnds(Apply(s, es[0]), es[1..], t); }
      StepCount(s, es[0]);
      RunCount(Apply(s, es[0]), es[1..], t);
    }
  }

  lemma PanicEnds(s: State, es: seq<Event>, t: State)
    requires Run(s, es, t) && s.panicked
    ensures t == s
  {
  }

  // ---------------------------------------------------------------- what a batch does

  function Least(a: nat, b: nat): nat {
    if a <= b then a else b
  }

  /** A batch of `n` requests was tried with these entries queued. */
  ghost predicate Batched(s: State, t: State, queued: seq<Entry>, n: nat, b: Batch) {
    match b
    case Refused =>
      t.sq == queued && t.kernel == s.kernel && t.cq == s.cq && t.posted == s.posted && t.fired == s.fired
    case Accepted(done, flying) =>
      && t.sq == [] && t.kernel == flying && t.posted == s.posted + done
      && |t.fired| == |s.fired| + Least(n, Successes(s.cq + done)) && s.fired <= t.fired
  }

  /** The request was queued and nothing else happened. */
  ghost predicate Queued(s: State, t: State, req: Request, memory: seq<byte>)
    requires Supplied(req, memory)
  {
    && t.sq == s.sq + [MakeEntry(req, memory)]
    && t.kernel == s.kernel && t.cq == s.cq && t.posted == s.posted && t.fired == s.fired
  }

  lemma {:induction false} DrainFires(s: State, n: nat)
    ensures s.fired <= Drain(s, n).fired
    decreases n
  {
    if n > 0 && !s.panicked && PopRet(s) != -EAGAIN { DrainFires(Pop(s), n - 1); }
  }

  lemma SubmitBatches(s: State, b: Batch)
    requires Inv(s) && BatchOf(s, b) && !s.spinning
    ensures Batched(s, SubmitAndPop(s, b), s.sq, s.queueSize, b)
  {
    hide Inv, BatchOf, Drain, Successes;
    match b
    case Refused =>
    case Accepted(done, flying) =>
      var w := Waited(s, done, flying);
      WaitedKeeps(s, done, flying);
      DrainKeeps(w, s.queueSize);
      DrainExactly(w, s.queueSize);
      DrainFires(w, s.queueSize);
  }

  // ---------------------------------------------------------------- every run

  lemma AskPaces(s: State, req: Request, ok: bool, memory: seq<byte>, b: Batch)
    requires Inv(s) && Enabled(s, Ask(req, ok, memory, b)) && !Apply(s, Ask(req, ok, memory, b)).panicked
    requires s.queueSize <= 5 && ok
    ensures var t := Apply(s, Ask(req, ok, memory, b));
            if s.queueSize < 5 then Queued(s, t, req, memory)
            else Batched(s, t, s.sq + [MakeEntry(req, memory)], 6, b)
  {
    PushPanics(s, req, ok, memory);
    PushKeeps(s, req, ok, memory);
    hide Inv, BatchOf, SubmitAndPop, MakeEntry, Supplied, Successes;
    var p := Push(s, req, ok, memory);
    assert p.sq == s.sq + [MakeEntry(req, memory)] && p.queueSize == s.queueSize + 1;
    if s.queueSize == 5 { SubmitBatches(p, b); }
  }

  /**
   In every run, refused batches and late completions included: a request that is not the
   sixth since the last batch is queued and nothing else happens; the sixth, and a poll after
   at least one, try a batch of exactly these requests; callbacks are called then and at no
   other time.
   */
  lemma {:induction false} BatchesExactly(es: seq<Event>, s: State, e: Event)
    requires Run(INIT, es, s) && Enabled(s, e) && !Apply(s, e).panicked
    ensures Since(0, es) <= 5
    ensures var n, t := Since(0, es), Apply(s, e);
            match e
            case Ask(req, ok, memory, b) =>
              if !ok then t.sq == s.sq && t.posted == s.posted && t.fired == s.fired
              else if n < 5 then Queued(s, t, req, memory)
              else Batched(s, t, s.sq + [MakeEntry(req, memory)], 6, b)
            case Poll(b) => if n == 0 then t == s else Batched(s, t, s.sq, n, b)
            case Arrives(k, res) =>
              t.sq == s.sq && t.fired == s.fired && t.posted == s.posted + [Completion(s.kernel[k], res)]
  {
    InitInv();
    RunKeeps(INIT, es, s);
    RunCount(INIT, es, s);
    hide Run, Inv, SubmitAndPop, BatchOf, Batched, Queued;
    match e
    case Ask(req, ok, memory, b) => if ok { AskPaces(s, req, ok, memory, b); }
    case Poll(b) => if s.queueSize > 0 { SubmitBatches(s, b); }
    case Arrives(_, _) =>
  }

  /** While batches are accepted the queue holds exactly the requests since the last one. */
  lemma {:induction false} QueueSinceBatch(es: seq<Event>, t: State)
    requires Run(INIT, es, t) && Accepting(es)
    ensures |t.sq| == Since(0, es) <= 5
  {
    AcceptedRuns(es, t);
    RunCount(INIT, es, t);
  }
}
