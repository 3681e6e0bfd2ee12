/** The coroutine server and the explicit loop emit the same operations. */
module CoroutineTwin {
  import opened ProvidedBuffers
  import opened Coroutine

  /** The tags agree where the event loops look at them. */
  predicate SameEntry(a: Sqe, b: Sqe) {
    && a.op == b.op && a.tag.kind == b.tag.kind
    && (a.op.Read? || a.op.Write? ==> a.tag.fd == b.tag.fd == a.op.fd)
    && (a.op.Write? ==> a.tag.bid == a.op.bid)
    && match a.op
       case Accept => a.tag.kind == ACCEPT
       case Read(_) => a.tag.kind == READ
       case Write(_, _, _) => a.tag.kind == WRITE
       case Provide(_) => a.tag.kind == PROV_BUF
  }

  /** The operation a coroutine is suspended in. */
  predicate Awaits(t: Task, op: Op) {
    match op
    case Read(fd) => t.point == AtRead && t.info.fd == fd
    case Write(fd, bid, _) => t.point == AtWrite && t.info.fd == fd && t.info.bid == bid
    case _ => true
  }

  predicate OfConnection(op: Op) {
    op.Read? || op.Write?
  }

  /** A read or write not answered yet. */
  predicate Open(a: Loop, answered: set<nat>, i: nat)
    requires i < |a.log|
  {
    i !in answered && OfConnection(a.log[i].op)
  }

  /**
   The two servers in step: same emissions, same closed connections; every unanswered
   read or write belongs to an open connection, to each only one, and that connection's
   coroutine is suspended in just that operation.
   */
  ghost predicate InStep(a: Loop, b: CoState, answered: set<nat>) {
    && |a.log| == |b.log| && (forall i :: 0 <= i < |a.log| ==> SameEntry(a.log[i], b.log[i]))
    && a.shut == b.shut && a.exited == b.exited && a.live == b.connections.Keys
    && (forall i :: i in answered ==> i < |a.log|)
    && (forall i :: 0 <= i < |a.log| && Open(a, answered, i) ==>
          a.log[i].op.fd in a.live && Awaits(b.connections[a.log[i].op.fd], a.log[i].op))
    && (forall i, j :: 0 <= i < j < |a.log| && Open(a, answered, i) && Open(a, answered, j) ==>
          a.log[i].op.fd != a.log[j].op.fd)
  }

  lemma StartInStep(listenFd: nat)
    ensures InStep(Loop({}, [AddAccept(listenFd)], [], false), CoState(map[], [AddAccept(listenFd)], [], false), {})
  {
  }

  /** The coroutine that a completion belongs to is there to be resumed. */
  lemma LookupSucceeds(a: Loop, b: CoState, answered: set<nat>, c: Completion)
    requires InStep(a, b, answered) && Deliverable(a, answered, c)
    ensures c.index < |b.log| && Found(b, b.log[c.index].tag, c.res)
  {
    assert SameEntry(a.log[c.index], b.log[c.index]);
  }

  /** The step seen from outside: entries appended, one connection touched. */
  lemma Advance(a: Loop, b: CoState, answered: set<nat>, k: nat, a': Loop, b': CoState, qa: seq<Sqe>, qb: seq<Sqe>)
    requires InStep(a, b, answered) && k < |a.log| && k !in answered
    requires a'.log == a.log + qa && b'.log == b.log + qb && |qa| == |qb|
    requires forall i :: 0 <= i < |qa| ==> SameEntry(qa[i], qb[i])
    requires a'.shut == b'.shut && a'.exited == b'.exited && a'.live == b'.connections.Keys
    requires forall i :: 0 <= i < |a.log| && i != k && Open(a, answered, i) ==>
               a.log[i].op.fd in a'.live && b'.connections[a.log[i].op.fd] == b.connections[a.log[i].op.fd]
    requires forall i :: 0 <= i < |qa| && OfConnection(qa[i].op) ==>
               qa[i].op.fd in a'.live && Awaits(b'.connections[qa[i].op.fd], qa[i].op)
    requires forall i, j | 0 <= i < |a.log| && i != k && Open(a, answered, i) && 0 <= j < |qa| &&
                           OfConnection(qa[j].op) :: a.log[i].op.fd != qa[j].op.fd
    requires forall i, j :: 0 <= i < j < |qa| ==> !(OfConnection(qa[i].op) && OfConnection(qa[j].op))
    ensures InStep(a', b', answered + {k})
  {
    var done := answered + {k};
    var n := |a.log|;
    assert forall i :: n <= i < |a'.log| ==> a'.log[i] == qa[i - n];
    forall i | 0 <= i < |a'.log| && Open(a', done, i)
      ensures a'.log[i].op.fd in a'.live && Awaits(b'.connections[a'.log[i].op.fd], a'.log[i].op)
    {
      if i < n { assert Open(a, answered, i) && i != k; }
    }
    forall i, j | 0 <= i < j < |a'.log| && Open(a', done, i) && Open(a', done, j)
      ensures a'.log[i].op.fd != a'.log[j].op.fd
    {
      if i < n {
        assert Open(a, answered, i) && i != k;
        assert j < n ==> Open(a, answered, j) && j != k;
      }
    }
  }

  /** While operation `k` is open, no other open operation has its connection. */
  lemma Alone(a: Loop, b: CoState, answered: set<nat>, k: nat)
    requires InStep(a, b, answered) && k < |a.log| && Open(a, answered, k)
    ensures forall i :: 0 <= i < |a.log| && i != k && Open(a, answered, i) ==> a.log[i].op.fd != a.log[k].op.fd
  {
  }

  lemma AcceptInStep(a: Loop, b: CoState, answered: set<nat>, listenFd: nat, c: Completion)
    requires InStep(a, b, answered) && Deliverable(a, answered, c) && a.log[c.index].op.Accept? && c.res != -ENOBUFS
    ensures c.index < |b.log| && Found(b, b.log[c.index].tag, c.res)
    ensures InStep(LoopStep(a, listenFd, c), CoStep(b, listenFd, c), answered + {c.index})
  {
    LookupSucceeds(a, b, answered, c);
    assert SameEntry(a.log[c.index], b.log[c.index]);
    var a', b' := LoopStep(a, listenFd, c), CoStep(b, listenFd, c);
    var e := AddAccept(listenFd);
    if c.res >= 0 {
      var x := Sqe(Read(c.res), ConnInfo(c.res, READ, c.junk));
      assert a'.log == a.log + [AddRead(c.res), e];
      assert b'.log == b.log + [x, e];
      assert b'.connections == b.connections[c.res := Task(AtRead, x.tag, 0)];
      Advance(a, b, answered, c.index, a', b', [AddRead(c.res), e], [x, e]);
    } else {
      assert a'.log == a.log + [e];
      Advance(a, b, answered, c.index, a', b', [e], [e]);
    }
  }

  lemma ReadInStep(a: Loop, b: CoState, answered: set<nat>, listenFd: nat, c: Completion)
    requires InStep(a, b, answered) && Deliverable(a, answered, c) && a.log[c.index].op.Read? && 0 <= c.res
    ensures c.index < |b.log| && Found(b, b.log[c.index].tag, c.res)
    ensures InStep(LoopStep(a, listenFd, c), CoStep(b, listenFd, c), answered + {c.index})
  {
    LookupSucceeds(a, b, answered, c);
    Alone(a, b, answered, c.index);
    assert SameEntry(a.log[c.index], b.log[c.index]);
    assert Open(a, answered, c.index);
    var a', b' := LoopStep(a, listenFd, c), CoStep(b, listenFd, c);
    var fd, bid := a.log[c.index].op.fd, c.flags / BUFFER_SHIFT;
    assert Awaits(b.connections[fd], Read(fd));
    if c.res == 0 {
      var x := Sqe(Provide(bid), ConnInfo(fd, PROV_BUF, bid));
      assert b'.connections == b.connections - {fd};
      Advance(a, b, answered, c.index, a', b', [AddProvide(bid)], [x]);
    } else {
      var x := Sqe(Write(fd, bid, c.res), ConnInfo(fd, WRITE, bid));
      Advance(a, b, answered, c.index, a', b', [AddWrite(fd, bid, c.res)], [x]);
    }
  }

  lemma WriteInStep(a: Loop, b: CoState, answered: set<nat>, listenFd: nat, c: Completion)
    requires InStep(a, b, answered) && Deliverable(a, answered, c) && a.log[c.index].op.Write? && c.res != -ENOBUFS
    ensures c.index < |b.log| && Found(b, b.log[c.index].tag, c.res)
    ensures InStep(LoopStep(a, listenFd, c), CoStep(b, listenFd, c), answered + {c.index})
  {
    LookupSucceeds(a, b, answered, c);
    Alone(a, b, answered, c.index);
    assert SameEntry(a.log[c.index], b.log[c.index]);
    assert Open(a, answered, c.index);
    var a', b' := LoopStep(a, listenFd, c), CoStep(b, listenFd, c);
    var fd, bid := a.log[c.index].op.fd, a.log[c.index].op.bid;
    var x, y := Sqe(Provide(bid), ConnInfo(fd, PROV_BUF, bid)), Sqe(Read(fd), ConnInfo(fd, READ, bid));
    assert b'.log == b.log + [x, y];
    Advance(a, b, answered, c.index, a', b', [AddProvide(bid), AddRead(fd)], [x, y]);
  }

  lemma OtherInStep(a: Loop, b: CoState, answered: set<nat>, listenFd: nat, c: Completion)
    requires InStep(a, b, answered) && Deliverable(a, answered, c)
    requires a.log[c.index].op.Provide? || c.res == -ENOBUFS
    ensures c.index < |b.log| && Found(b, b.log[c.index].tag, c.res)
    ensures InStep(LoopStep(a, listenFd, c), CoStep(b, listenFd, c), answered + {c.index})
  {
    LookupSucceeds(a, b, answered, c);
    assert SameEntry(a.log[c.index], b.log[c.index]);
    var a', b' := LoopStep(a, listenFd, c), CoStep(b, listenFd, c);
    assert a'.log == a.log + [] && b'.log == b.log + [];
    assert a'.live == a.live;
    Advance(a, b, answered, c.index, a', b', [], []);
  }

  /** One completion keeps the servers in step unless it is a negative read. */
  lemma StepInStep(a: Loop, b: CoState, answered: set<nat>, listenFd: nat, c: Completion)
    requires InStep(a, b, answered) && Deliverable(a, answered, c) && !NegativeRead(a, c)
    ensures c.index < |b.log| && Found(b, b.log[c.index].tag, c.res)
    ensures InStep(LoopStep(a, listenFd, c), CoStep(b, listenFd, c), answered + {c.index})
  {
    hide InStep, LoopStep, CoStep, Found;
    var op := a.log[c.index].op;
    if op.Provide? || c.res == -ENOBUFS {
      OtherInStep(a, b, answered, listenFd, c);
    } else if op.Accept? {
      AcceptInStep(a, b, answered, listenFd, c);
    } else if op.Read? {
      ReadInStep(a, b, answered, listenFd, c);
    } else {
      WriteInStep(a, b, answered, listenFd, c);
    }
  }

  lemma {:induction false} RunInStep(a: Loop, b: CoState, answered: set<nat>, listenFd: nat, cs: seq<Completion>)
    requires InStep(a, b, answered) && Trace(a, listenFd, answered, cs)
    ensures CoRun(b, listenFd, cs).Some?
    ensures exists done :: InStep(LoopRun(a, listenFd, answered, cs), CoRun(b, listenFd, cs).value, done)
    decreases |cs|
  {
    hide InStep, LoopStep, CoStep, Found;
    if cs != [] {
      StepInStep(a, b, answered, listenFd, cs[0]);
      var a', b', answered' := LoopStep(a, listenFd, cs[0]), CoStep(b, listenFd, cs[0]), answered + {cs[0].index};
      RunInStep(a', b', answered', listenFd, cs[1..]);
      assert CoRun(b, listenFd, cs) == CoRun(b', listenFd, cs[1..]);
      assert LoopRun(a, listenFd, answered, cs) == LoopRun(a', listenFd, answered', cs[1..]);
    } else {
      assert InStep(LoopRun(a, listenFd, answered, cs), CoRun(b, listenFd, cs).value, answered);
    }
  }

  /**
   For every completion trace without negative reads, the coroutine server finds each
   connection it is asked to resume and emits the same operations in the same order, with
   the same descriptors, buffer ids and sizes; it shuts down what the explicit loop closes.
   */
  lemma SameOperations(listenFd: nat, cs: seq<Completion>)
    requires Trace(Loop({}, [AddAccept(listenFd)], [], false), listenFd, {}, cs)
    ensures var a := LoopRun(Loop({}, [AddAccept(listenFd)], [], false), listenFd, {}, cs);
            var r := CoRun(CoState(map[], [AddAccept(listenFd)], [], false), listenFd, cs);
            && r.Some? && Ops(r.value.log) == Ops(a.log) && r.value.shut == a.shut && r.value.exited == a.exited
            && r.value.connections.Keys == a.live
  {
    StartInStep(listenFd);
    RunInStep(Loop({}, [AddAccept(listenFd)], [], false), CoState(map[], [AddAccept(listenFd)], [], false), {},
              listenFd, cs);
  }

  /**
   The restriction is exact: from servers in step, a deliverable completion leads to the
   same emissions exactly when it is not a negative read. On a negative read the explicit
   loop gives the buffer back, while the coroutine sees a huge unsigned size and sends.
   */
  lemma PartExactlyOnNegativeRead(a: Loop, b: CoState, answered: set<nat>, listenFd: nat, c: Completion)
    requires InStep(a, b, answered) && Deliverable(a, answered, c)
    ensures c.index < |b.log| && Found(b, b.log[c.index].tag, c.res)
    ensures Ops(LoopStep(a, listenFd, c).log) == Ops(CoStep(b, listenFd, c).log) <==> !NegativeRead(a, c)
  {
    LookupSucceeds(a, b, answered, c);
    if !NegativeRead(a, c) {
      StepInStep(a, b, answered, listenFd, c);
    } else {
      var n := |a.log|;
      assert SameEntry(a.log[c.index], b.log[c.index]);
      assert Open(a, answered, c.index);
      var fd := a.log[c.index].op.fd;
      assert Awaits(b.connections[fd], Read(fd));
      assert Ops(LoopStep(a, listenFd, c).log)[n].Provide?;
      assert Ops(CoStep(b, listenFd, c).log)[n].Write?;
    }
  }

  /** The shortest trace on which they part: a connection is accepted and its first read fails. */
  lemma FirstReadFails(listenFd: nat, fd: nat, junk: nat)
    requires IsInt(fd)
    ensures var a, b := Loop({}, [AddAccept(listenFd)], [], false), CoState(map[], [AddAccept(listenFd)], [], false);
            var accept, read := Completion(0, fd, 0, junk), Completion(1, -1, 0, junk);
            && Trace(a, listenFd, {}, [accept])
            && var a1, r := LoopRun(a, listenFd, {}, [accept]), CoRun(b, listenFd, [accept]);
               && r.Some? && Deliverable(a1, {0}, read)
               && read.index < |r.value.log| && Found(r.value, r.value.log[read.index].tag, read.res)
               && Ops(LoopStep(a1, listenFd, read).log) != Ops(CoStep(r.value, listenFd, read).log)
  {
    var a, b := Loop({}, [AddAccept(listenFd)], [], false), CoState(map[], [AddAccept(listenFd)], [], false);
    var accept, read := Completion(0, fd, 0, junk), Completion(1, -1, 0, junk);
    StartInStep(listenFd);
    StepInStep(a, b, {}, listenFd, accept);
    var a1, b1 := LoopStep(a, listenFd, accept), CoStep(b, listenFd, accept);
    assert a1.log == [AddAccept(listenFd), AddRead(fd), AddAccept(listenFd)] && !a1.exited;
    assert {} + {accept.index} == {0};
    assert [accept][1..] == [];
    hide InStep, LoopStep, CoStep, Found;
    assert LoopRun(a, listenFd, {}, [accept]) == a1;
    assert CoRun(b, listenFd, [accept]) == CoRun(b1, listenFd, []);
    PartExactlyOnNegativeRead(a1, b1, {0}, listenFd, read);
  }

  // ---------------------------------------------------------------- how many entries one batch queues

  const CO_RING_ENTRIES := 4096

  /** Operations that lead to new entries when they are answered. */
  function Pending(log: seq<Sqe>, answered: set<nat>): set<nat> {
    set i: nat | i < |log| && i !in answered && log[i].tag.kind != PROV_BUF
  }

  predicate Accepting(a: Loop, answered: set<nat>, i: nat)
    requires i < |a.log|
  {
    i !in answered && a.log[i].tag.kind == ACCEPT
  }

  predicate OneAccept(a: Loop, answered: set<nat>) {
    forall i, j :: 0 <= i < j < |a.log| && Accepting(a, answered, i) ==> !Accepting(a, answered, j)
  }

  lemma StepGrows(a: Loop, listenFd: nat, c: Completion)
    requires c.index < |a.log|
    ensures var k := a.log[c.index].tag.kind; var a' := LoopStep(a, listenFd, c);
            && a.log <= a'.log && |a'.log| <= |a.log| + (if k == PROV_BUF then 0 else 2)
            && forall i :: |a.log| <= i < |a'.log| && a'.log[i].tag.kind == ACCEPT ==> k == ACCEPT && i == |a'.log| - 1
  {
  }

  lemma StepOneAccept(a: Loop, answered: set<nat>, listenFd: nat, c: Completion)
    requires OneAccept(a, answered) && c.index < |a.log| && c.index !in answered
    ensures OneAccept(LoopStep(a, listenFd, c), answered + {c.index})
  {
    StepGrows(a, listenFd, c);
    hide LoopStep;
    var a', done := LoopStep(a, listenFd, c), answered + {c.index};
    assert Accepting(a, answered, c.index) <==> a.log[c.index].tag.kind == ACCEPT;
    assert forall i :: 0 <= i < |a.log| && Accepting(a', done, i) ==> Accepting(a, answered, i) && i != c.index;
    assert forall i :: |a.log| <= i < |a'.log| && Accepting(a', done, i) ==> a.log[c.index].tag.kind == ACCEPT;
  }

  /** Each answer to an operation that was there at the start of a batch uses up one of those pending then. */
  lemma {:induction false} BatchGrows(a: Loop, listenFd: nat, answered: set<nat>, n: nat, cs: seq<Completion>)
    requires n <= |a.log| && Trace(a, listenFd, answered, cs) && forall c :: c in cs ==> c.index < n
    ensures |LoopRun(a, listenFd, answered, cs).log| <= |a.log| + 2 * |Pending(a.log[..n], answered)|
    decreases |cs|
  {
    hide LoopStep;
    if cs != [] {
      var c := cs[0];
      var a', done := LoopStep(a, listenFd, c), answered + {c.index};
      StepGrows(a, listenFd, c);
      assert a'.log[..n] == a.log[..n];
      assert Pending(a.log[..n], done) == Pending(a.log[..n], answered) - {c.index};
      BatchGrows(a', listenFd, done, n, cs[1..]);
    }
  }

  function ConnOf(op: Op): nat {
    if OfConnection(op) then op.fd else 0
  }

  lemma {:induction false} AsManyAsConnections(log: seq<Sqe>, open: set<nat>, live: set<nat>)
    requires forall i :: i in open ==> i < |log| && ConnOf(log[i].op) in live
    requires forall i, j :: i in open && j in open && i < j ==> ConnOf(log[i].op) != ConnOf(log[j].op)
    ensures |open| <= |live|
    decreases |open|
  {
    if open != {} {
      var x :| x in open;
      AsManyAsConnections(log, open - {x}, live - {ConnOf(log[x].op)});
    }
  }

  /** Each open connection has at most one operation that is neither answered nor an accept. */
  lemma OpenFew(a: Loop, b: CoState, answered: set<nat>, open: set<nat>)
    requires InStep(a, b, answered)
    requires forall i :: i in open ==> i in Pending(a.log, answered) && a.log[i].tag.kind != ACCEPT
    ensures |open| <= |a.live|
  {
    forall i | i in open ensures Open(a, answered, i) {
      assert SameEntry(a.log[i], b.log[i]);
    }
    AsManyAsConnections(a.log, open, a.live);
  }

  lemma AcceptsFew(a: Loop, answered: set<nat>, accepts: set<nat>)
    requires OneAccept(a, answered) && forall i :: i in accepts ==> i < |a.log| && Accepting(a, answered, i)
    ensures |accepts| <= 1
  {
    if x :| x in accepts {
      assert accepts == {x};
    }
  }

  lemma PendingFew(a: Loop, b: CoState, answered: set<nat>)
    requires InStep(a, b, answered) && OneAccept(a, answered)
    ensures |Pending(a.log, answered)| <= |a.live| + 1
  {
    hide InStep, OneAccept;
    var accepts := set i | i in Pending(a.log, answered) && a.log[i].tag.kind == ACCEPT;
    var open := Pending(a.log, answered) - accepts;
    assert Pending(a.log, answered) == open + accepts;
    OpenFew(a, b, answered, open);
    AcceptsFew(a, answered, accepts);
  }

  lemma {:induction false} BatchFollows(a: Loop, b: CoState, answered: set<nat>, listenFd: nat,
      cs: seq<Completion>, batch: seq<Completion>)
    requires InStep(a, b, answered) && OneAccept(a, answered) && Trace(a, listenFd, answered, cs + batch)
    ensures Trace(a, listenFd, answered, cs)
    ensures var s, t := LoopRun(a, listenFd, answered, cs), LoopRun(a, listenFd, answered, cs + batch);
            (forall c :: c in batch ==> c.index < |s.log|) ==> |t.log| <= |s.log| + 2 * (|s.live| + 1)
    decreases |cs|
  {
    hide InStep, LoopStep, CoStep, Found, OneAccept;
    if cs == [] {
      assert cs + batch == batch && a.log[..|a.log|] == a.log;
      if forall c :: c in batch ==> c.index < |a.log| {
        BatchGrows(a, listenFd, answered, |a.log|, batch);
        PendingFew(a, b, answered);
      }
    } else {
      var c := cs[0];
      assert (cs + batch)[0] == c && (cs + batch)[1..] == cs[1..] + batch;
      StepInStep(a, b, answered, listenFd, c);
      StepOneAccept(a, answered, listenFd, c);
      BatchFollows(LoopStep(a, listenFd, c), CoStep(b, listenFd, c), answered + {c.index}, listenFd, cs[1..], batch);
    }
  }

  /**
   A batch answers operations submitted before it. With `n` connections open it makes the
   coroutine server queue at most 2n + 2 entries, so with up to 2047 connections its ring,
   emptied by the submit before the batch, always has an entry to give.
   */
  lemma EntriesFit(listenFd: nat, cs: seq<Completion>, batch: seq<Completion>)
    requires Trace(Loop({}, [AddAccept(listenFd)], [], false), listenFd, {}, cs + batch)
    ensures var start := CoState(map[], [AddAccept(listenFd)], [], false);
            var s, t := CoRun(start, listenFd, cs), CoRun(start, listenFd, cs + batch);
            && s.Some? && t.Some?
            && ((forall c :: c in batch ==> c.index < |s.value.log|) ==>
                  && |t.value.log| - |s.value.log| <= 2 * |s.value.connections| + 2
                  && (|s.value.connections| <= 2047 ==> |t.value.log| - |s.value.log| <= CO_RING_ENTRIES))
  {
    var a, b := Loop({}, [AddAccept(listenFd)], [], false), CoState(map[], [AddAccept(listenFd)], [], false);
    StartInStep(listenFd);
    BatchFollows(a, b, {}, listenFd, cs, batch);
    SameOperations(listenFd, cs);
    SameOperations(listenFd, cs + batch);
    hide CoRun, LoopRun, Trace;
    var s, t := LoopRun(a, listenFd, {}, cs), LoopRun(a, listenFd, {}, cs + batch);
    assert |Ops(s.log)| == |s.log| && |Ops(t.log)| == |t.log|;
    assert |CoRun(b, listenFd, cs).value.connections| == |s.live|;
  }
}
