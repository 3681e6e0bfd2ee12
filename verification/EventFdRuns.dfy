/**
 A run of the eventfd server in which a short send loses a byte, with one worker, whether
 callbacks are run by the worker or by the subscriber. Submitting an operation and serving a
 completion are taken as one piece each.
 */
module EventFdRuns {
  import opened Streams
  import opened Kernel
  import opened Echo
  import opened Census
  import opened EventFd

  // ---------------------------------------------------------------- pieces of runs

  lemma {:induction false} RunConcat(reserved: set<nat>, s: State, es: seq<Event>, t: State, fs: seq<Event>, u: State)
    requires Shape(s) && Shape(t) && Run(reserved, s, es, t) && Run(reserved, t, fs, u)
    ensures Run(reserved, s, es + fs, u)
    decreases |es|
  {
    hide Enabled, Apply, Shape;
    if es == [] {
      assert es + fs == fs;
    } else {
      RunConcat(reserved, Apply(reserved, s, es[0]), es[1..], t, fs, u);
      assert (es + fs)[1..] == es[1..] + fs;
    }
  }

  lemma RunOne(reserved: set<nat>, s: State, e: Event)
    requires Shape(s) && Enabled(reserved, s, e)
    ensures Run(reserved, s, [e], Apply(reserved, s, e))
  {
    hide Enabled, Apply, Shape;
    assert [e][1..] == [];
  }

  /** The state after a thread has submitted its next operation. */
  function Submitted(s: State, t: nat, ptr: nat): State
    requires t < |s.todo| && s.todo[t] != []
  {
    var op := s.todo[t][0];
    s.(todo := s.todo[t := s.todo[t][1..]], heap := s.heap[ptr := NewEvent(op)], mapEvent := s.mapEvent[ptr := ptr],
       kernel := s.kernel + [Sqe(ptr, op)])
  }

  lemma Submits(reserved: set<nat>, s: State, t: nat, ptr: nat)
    requires Shape(s) && t < |s.todo| && s.todo[t] != [] && s.holder.None? && ptr !in s.heap
    ensures Run(reserved, s, [DoBegin(t, ptr)] + [DoRegister] + [DoSubmit], Submitted(s, t, ptr))
  {
    hide NewEvent, Run;
    var s1 := Begin(s, t, ptr);
    var s2 := Register(s1);
    RunOne(reserved, s, DoBegin(t, ptr));
    RunOne(reserved, s1, DoRegister);
    RunOne(reserved, s2, DoSubmit);
    assert Submit(s2) == Submitted(s, t, ptr);
    hide Begin, Register, Submit, Submitted, Enabled;
    RunConcat(reserved, s, [DoBegin(t, ptr)], s1, [DoRegister], s2);
    RunConcat(reserved, s, [DoBegin(t, ptr)] + [DoRegister], s2, [DoSubmit], Submitted(s, t, ptr));
  }

  /** The thread that runs callbacks: the subscriber, or the one worker. */
  function Who(sync: bool): (w: nat)
    ensures w <= 1
  {
    if sync then 1 else 0
  }

  /** The one completion on the ring can be served. */
  predicate Servable(s: State, c: Cqe) {
    && Shape(s) && s.channels == [[]] && s.hand.None? && Idle(s, 1) && Idle(s, Who(s.sync)) && s.cq == [c]
    && c.sqe.ptr in s.mapEvent && s.mapEvent[c.sqe.ptr] == c.sqe.ptr
    && c.sqe.ptr in s.heap && s.heap[c.sqe.ptr] == NewEvent(c.sqe.op)
  }

  /** The state after the completion's callback has begun. */
  function Served(s: State, c: Cqe): State
    requires Servable(s, c)
  {
    var n, e := Who(s.sync), Completed(c);
    s.(cq := [], mapEvent := s.mapEvent - {c.sqe.ptr}, heap := s.heap[c.sqe.ptr := e], consumed := s.consumed + [c],
       ran := s.ran[n := s.ran[n] + [e]], todo := s.todo[n := Callback(e)])
  }

  function Serving(sync: bool): seq<Event> {
    if sync then [DoPeek] + [DoCallSync] else [DoPeek] + [DoDispatch] + [DoReceive(0)]
  }

  lemma Serves(reserved: set<nat>, s: State, c: Cqe)
    requires Servable(s, c)
    ensures Run(reserved, s, Serving(s.sync), Served(s, c))
  {
    hide Run, Served;
    if s.sync { CalledBySubscriber(reserved, s, c); } else { CalledByWorker(reserved, s, c); }
  }

  lemma CalledBySubscriber(reserved: set<nat>, s: State, c: Cqe)
    requires Servable(s, c) && s.sync
    ensures Run(reserved, s, [DoPeek] + [DoCallSync], Served(s, c))
  {
    hide NewEvent, Callback, Run;
    var s1 := Peek(s);
    RunOne(reserved, s, DoPeek);
    RunOne(reserved, s1, DoCallSync);
    assert CallSync(s1) == Served(s, c);
    hide Peek, CallSync, Served, Enabled;
    RunConcat(reserved, s, [DoPeek], s1, [DoCallSync], Served(s, c));
  }

  lemma CalledByWorker(reserved: set<nat>, s: State, c: Cqe)
    requires Servable(s, c) && !s.sync
    ensures Run(reserved, s, [DoPeek] + [DoDispatch] + [DoReceive(0)], Served(s, c))
  {
    hide NewEvent, Callback, Run, Key;
    var s1 := Peek(s);
    var s2 := s1.(channels := [[c.sqe.ptr]], hand := None);
    RunOne(reserved, s, DoPeek);
    assert Index(s1, Load(s1.heap, c.sqe.ptr)) == 0;
    assert s1.channels[0] + [c.sqe.ptr] == [c.sqe.ptr] && Dispatch(s1).channels == s2.channels;
    RunOne(reserved, s1, DoDispatch);
    RunOne(reserved, s2, DoReceive(0));
    assert s2.channels[0][1..] == [] && Receive(s2, 0).channels == [[]];
    assert Receive(s2, 0) == Served(s, c);
    hide Peek, Dispatch, Receive, Served, Enabled;
    RunConcat(reserved, s, [DoPeek], s1, [DoDispatch], s2);
    RunConcat(reserved, s, [DoPeek] + [DoDispatch], s2, [DoReceive(0)], Served(s, c));
  }

  lemma Finishes(reserved: set<nat>, s: State, k: nat, o: Outcome)
    requires Shape(s) && CanFinish(reserved, s, k, o)
    ensures Run(reserved, s, [DoFinish(k, o)], Finish(reserved, s, k, o))
  {
    hide Finish, CanFinish, Run;
    RunOne(reserved, s, DoFinish(k, o));
  }

  lemma {:induction false} Then(reserved: set<nat>, sync: bool, lfd: nat, es: seq<Event>, s: State, fs: seq<Event>,
      t: State)
      returns (es': seq<Event>)
    requires Run(reserved, Init(sync, 1, lfd), es, s) && Shape(s) && Run(reserved, s, fs, t)
    ensures Run(reserved, Init(sync, 1, lfd), es', t)
  {
    hide Run, Init;
    assert Shape(Init(sync, 1, lfd)) by { InitShape(sync, lfd); }
    RunConcat(reserved, Init(sync, 1, lfd), es, s, fs, t);
    es' := es + fs;
  }

  lemma InitShape(sync: bool, lfd: nat)
    ensures Shape(Init(sync, 1, lfd))
  {
  }

  // ---------------------------------------------------------------- the run

  /** Between two completions: nothing on the ring, in hand or at the lock. */
  predicate Calm(sync: bool, s: State) {
    && s.sync == sync && s.channels == [[]] && |s.todo| == 3 && |s.ran| == 2
    && s.todo[1 - Who(sync)] == [] && s.todo[2] == []
    && s.holder.None? && s.hand.None? && s.cq == []
  }

  /** The first accept has been submitted and has completed. */
  lemma Connects(reserved: set<nat>, sync: bool, lfd: nat, fd: nat) returns (es: seq<Event>, t: State)
    requires fd !in reserved && fd < TABLE
    ensures Run(reserved, Init(sync, 1, lfd), es, t)
    ensures Servable(t, Cqe(Sqe(10, Accept(lfd)), fd)) && t.sync == sync && |t.todo| == 3 && |t.ran| == 2
    ensures t.todo[0] == t.todo[1] == t.todo[2] == [] && t.holder.None? && t.heap.Keys == {10} && t.kernel == []
    ensures t.world == World(map[fd := EMPTY_STREAM], Init(sync, 1, lfd).world.mem)
  {
    var s := Init(sync, 1, lfd);
    assert s.todo == [[], [], [Accept(lfd)]];
    assert Run(reserved, s, [], s);
    es := [];
    Submits(reserved, s, 2, 10);
    var s1 := Submitted(s, 2, 10);
    assert [Accept(lfd)][1..] == [];
    assert s1.kernel == [Sqe(10, Accept(lfd))] && s1.todo[0] == s1.todo[1] == s1.todo[2] == [];
    Finishes(reserved, s1, 0, Accepted(fd));
    t := Finish(reserved, s1, 0, Accepted(fd));
    assert t.cq == [Cqe(Sqe(10, Accept(lfd)), fd)] && t.kernel == [];
    assert t.world.streams == map[fd := EMPTY_STREAM];
    hide Run, Init;
    es := Then(reserved, sync, lfd, es, s, [DoBegin(2, 10)] + [DoRegister] + [DoSubmit], s1);
    es := Then(reserved, sync, lfd, es, s1, [DoFinish(0, Accepted(fd))], t);
  }

  lemma Accepts(reserved: set<nat>, sync: bool, lfd: nat, fd: nat) returns (es: seq<Event>, t: State)
    requires fd !in reserved && fd < TABLE
    ensures Run(reserved, Init(sync, 1, lfd), es, t)
    ensures Calm(sync, t) && t.todo[Who(sync)] == [Accept(lfd), Recv(fd)] && t.heap.Keys == {10} && t.kernel == []
    ensures t.world == World(map[fd := EMPTY_STREAM], Init(sync, 1, lfd).world.mem)
  {
    hide Run, Init, Who, Serving;
    var s, c := Init(sync, 1, lfd), Cqe(Sqe(10, Accept(lfd)), fd);
    es, s := Connects(reserved, sync, lfd, fd);
    Serves(reserved, s, c);
    t := Served(s, c);
    es := Then(reserved, sync, lfd, es, s, Serving(sync), t);
  }

  lemma TableReady(sync: bool, lfd: nat, fd: nat)
    requires fd < TABLE
    ensures var mem := Init(sync, 1, lfd).world.mem; fd in mem && |mem[fd]| == MAX_MSG_LEN
  {
    assert IsSlot(fd);
  }

  /** The next accept and the first read are submitted. */
  lemma AsksBoth(reserved: set<nat>, sync: bool, lfd: nat, fd: nat, s: State) returns (es: seq<Event>, t: State)
    requires Calm(sync, s) && s.todo[Who(sync)] == [Accept(lfd), Recv(fd)] && s.heap.Keys == {10} && s.kernel == []
    ensures Run(reserved, s, es, t) && Calm(sync, t) && t.todo[Who(sync)] == [] && t.world == s.world
    ensures t.kernel == [Sqe(11, Accept(lfd)), Sqe(12, Recv(fd))] && t.heap.Keys == {10, 11, 12}
    ensures t.heap[12] == NewEvent(Recv(fd)) && 12 in t.mapEvent && t.mapEvent[12] == 12
  {
    hide Run, Who, NewEvent;
    Submits(reserved, s, Who(sync), 11);
    var s1 := Submitted(s, Who(sync), 11);
    Submits(reserved, s1, Who(sync), 12);
    t := Submitted(s1, Who(sync), 12);
    es := [DoBegin(Who(sync), 11)] + [DoRegister] + [DoSubmit];
    RunConcat(reserved, s, es, s1, [DoBegin(Who(sync), 12)] + [DoRegister] + [DoSubmit], t);
    es := es + ([DoBegin(Who(sync), 12)] + [DoRegister] + [DoSubmit]);
  }

  lemma {:induction false} Reads(reserved: set<nat>, sync: bool, lfd: nat, fd: nat, es: seq<Event>, s: State)
      returns (es': seq<Event>, t: State)
    requires Run(reserved, Init(sync, 1, lfd), es, s)
    requires Calm(sync, s) && s.todo[Who(sync)] == [Accept(lfd), Recv(fd)] && s.heap.Keys == {10} && s.kernel == []
    requires s.world.streams == map[fd := EMPTY_STREAM] && fd in s.world.mem && |s.world.mem[fd]| == MAX_MSG_LEN
    ensures Run(reserved, Init(sync, 1, lfd), es', t)
    ensures Calm(sync, t) && t.todo[Who(sync)] == [Send(fd, 2)] && t.heap.Keys == {10, 11, 12}
    ensures t.kernel == [Sqe(11, Accept(lfd))]
    ensures t.world.streams == map[fd := RECEIVED] && fd in t.world.mem && TWO_BYTES <= t.world.mem[fd]
  {
    hide Run, Init, Allowed, Exec, Who, Serving;
    var fs, s2 := AsksBoth(reserved, sync, lfd, fd, s);
    es' := Then(reserved, sync, lfd, es, s, fs, s2);
    TwoBytesArrive(s2.world, reserved, fd, fd, MAX_MSG_LEN);
    Finishes(reserved, s2, 1, Received(TWO_BYTES));
    var s3, c := Finish(reserved, s2, 1, Received(TWO_BYTES)), Cqe(Sqe(12, Recv(fd)), 2);
    assert s3.cq == [c] && s3.kernel == [Sqe(11, Accept(lfd))];
    assert s2.world.streams[fd := RECEIVED] == map[fd := RECEIVED];
    Serves(reserved, s3, c);
    t := Served(s3, c);
    hide Served, Finish;
    es' := Then(reserved, sync, lfd, es', s2, [DoFinish(1, Received(TWO_BYTES))], s3);
    es' := Then(reserved, sync, lfd, es', s3, Serving(sync), t);
  }

  lemma {:induction false} Sends(reserved: set<nat>, sync: bool, lfd: nat, fd: nat, es: seq<Event>, s: State)
      returns (es': seq<Event>, t: State)
    requires Run(reserved, Init(sync, 1, lfd), es, s)
    requires Calm(sync, s) && s.todo[Who(sync)] == [Send(fd, 2)] && s.heap.Keys == {10, 11, 12} &&
             s.kernel == [Sqe(11, Accept(lfd))]
    requires s.world.streams == map[fd := RECEIVED] && fd in s.world.mem && TWO_BYTES <= s.world.mem[fd]
    ensures Run(reserved, Init(sync, 1, lfd), es', t)
    ensures Calm(sync, t) && t.todo[Who(sync)] == [Recv(fd)] && t.world.streams == map[fd := SHORT]
  {
    hide Run, Init, Allowed, Exec, Who, Serving;
    Submits(reserved, s, Who(sync), 13);
    var s1 := Submitted(s, Who(sync), 13);
    assert s1.kernel == [Sqe(11, Accept(lfd)), Sqe(13, Send(fd, 2))] && s1.todo[Who(sync)] == [];
    OneByteLeaves(s1.world, reserved, fd, fd);
    Finishes(reserved, s1, 1, Sent(1));
    var s2, c := Finish(reserved, s1, 1, Sent(1)), Cqe(Sqe(13, Send(fd, 2)), 1);
    assert s2.cq == [c];
    assert s1.world.streams[fd := SHORT] == map[fd := SHORT];
    Serves(reserved, s2, c);
    t := Served(s2, c);
    hide Submitted, Served, Finish;
    es' := Then(reserved, sync, lfd, es, s, [DoBegin(Who(sync), 13)] + [DoRegister] + [DoSubmit], s1);
    es' := Then(reserved, sync, lfd, es', s1, [DoFinish(1, Sent(1))], s2);
    es' := Then(reserved, sync, lfd, es', s2, Serving(sync), t);
  }

  /** Of two bytes received one goes back, and the callback of the send asks for the next read. */
  lemma ShortSendLosesAByte(reserved: set<nat>, sync: bool, lfd: nat, fd: nat) returns (es: seq<Event>, t: State)
    requires fd !in reserved && fd < TABLE
    ensures Run(reserved, Init(sync, 1, lfd), es, t)
    ensures t.world.streams == map[fd := SHORT] && SHORT.received == [7, 8] && SHORT.sent == [7]
    ensures |t.todo| == 3 && t.todo[Who(sync)] == [Recv(fd)] && t.cq == []
  {
    hide Run, Init;
    TableReady(sync, lfd, fd);
    es, t := Accepts(reserved, sync, lfd, fd);
    es, t := Reads(reserved, sync, lfd, fd, es, t);
    es, t := Sends(reserved, sync, lfd, fd, es, t);
  }

  // ---------------------------------------------------------------- the end of a connection

  /** The client is gone: a read brings nothing, and its callback asks for the close. */
  lemma {:induction false} ReadsNothing(reserved: set<nat>, sync: bool, lfd: nat, fd: nat, es: seq<Event>, s: State)
      returns (es': seq<Event>, t: State)
    requires Run(reserved, Init(sync, 1, lfd), es, s)
    requires Calm(sync, s) && s.todo[Who(sync)] == [Accept(lfd), Recv(fd)] && s.heap.Keys == {10} && s.kernel == []
    requires s.world.streams == map[fd := EMPTY_STREAM] && fd in s.world.mem && |s.world.mem[fd]| == MAX_MSG_LEN
    ensures Run(reserved, Init(sync, 1, lfd), es', t)
    ensures Calm(sync, t) && t.todo[Who(sync)] == [Close(fd)] && t.heap.Keys == {10, 11, 12}
    ensures t.kernel == [Sqe(11, Accept(lfd))] && t.world == s.world
  {
    hide Run, Init, Who, Serving;
    var fs, s2 := AsksBoth(reserved, sync, lfd, fd, s);
    es' := Then(reserved, sync, lfd, es, s, fs, s2);
    Finishes(reserved, s2, 1, Received([]));
    var s3, c := Finish(reserved, s2, 1, Received([])), Cqe(Sqe(12, Recv(fd)), 0);
    assert s3.cq == [c] && s3.kernel == [Sqe(11, Accept(lfd))];
    Serves(reserved, s3, c);
    t := Served(s3, c);
    hide Served, Finish;
    es' := Then(reserved, sync, lfd, es', s2, [DoFinish(1, Received([]))], s3);
    es' := Then(reserved, sync, lfd, es', s3, Serving(sync), t);
  }

  /** A read of no bytes ends with the descriptor closed. */
  lemma EndOfFileCloses(reserved: set<nat>, sync: bool, lfd: nat, fd: nat) returns (es: seq<Event>, t: State)
    requires fd !in reserved && fd < TABLE
    ensures Run(reserved, Init(sync, 1, lfd), es, t)
    ensures fd !in t.world.streams && t.cq == [Cqe(Sqe(13, Close(fd)), 0)]
  {
    hide Run, Init, Who;
    TableReady(sync, lfd, fd);
    var s;
    es, s := Accepts(reserved, sync, lfd, fd);
    es, s := ReadsNothing(reserved, sync, lfd, fd, es, s);
    Submits(reserved, s, Who(sync), 13);
    var s1 := Submitted(s, Who(sync), 13);
    assert s1.kernel == [Sqe(11, Accept(lfd)), Sqe(13, Close(fd))];
    Finishes(reserved, s1, 1, Closed);
    t := Finish(reserved, s1, 1, Closed);
    assert t.cq == [Cqe(Sqe(13, Close(fd)), 0)];
    es := Then(reserved, sync, lfd, es, s, [DoBegin(Who(sync), 13)] + [DoRegister] + [DoSubmit], s1);
    es := Then(reserved, sync, lfd, es, s1, [DoFinish(1, Closed)], t);
  }
}
