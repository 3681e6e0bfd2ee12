/**
 What the threads of the eventfd server submit, in which order, and what there is room for:
 the callback of a completion answers the operation that completed, each thread hands its
 answers to the kernel one after the other, and no channel and no buffer overflows.
 */
module EventFdReplies {
  import opened Streams
  import opened Kernel
  import opened EventFd
  import opened EventFdInvariant
  import opened EventFdJobs
  import opened EventFdRefines
  import opened EventFdTheorems

  // ---------------------------------------------------------------- answers

  /** The operations that answer a completion, in order; 9 is EBADF. */
  function Replies(c: Cqe): seq<Op> {
    match c.sqe.op
    case Accept(lfd) => if c.res < 0 then [] else [Accept(lfd), Recv(c.res)]
    case Recv(fd) => if c.res > 0 then [Send(fd, c.res)] else if c.res == -9 then [] else [Close(fd)]
    case Send(fd, _) => [Recv(fd)]
    case Close(_) => []
  }

  function AllReplies(cs: seq<Cqe>): seq<Op> {
    if cs == [] then [] else AllReplies(Front(cs)) + Replies(Last(cs))
  }

  /** The completions of operations on descriptors that select the thread; without workers, all are the subscriber's. */
  function Assigned(sync: bool, workers: nat, cs: seq<Cqe>, w: nat): seq<Cqe>
    requires 0 < workers
  {
    if cs == [] then [] else
      Assigned(sync, workers, Front(cs), w)
        + if w == (if sync then workers else FdOfOp(Last(cs).sqe.op) % workers) then [Last(cs)] else []
  }

  lemma CallbackReplies(c: Cqe)
    ensures Callback(Completed(c)) == Replies(c)
  {
  }

  // ---------------------------------------------------------------- what a thread has handed to the kernel

  /** What the thread still has to hand to the kernel: the entry it holds the lock for, then its list. */
  function Owed(s: State, w: nat): seq<Op>
    requires w < |s.todo|
  {
    (if s.holder.Some? && s.holder.value.thread == w then [s.holder.value.sqe.op] else []) + s.todo[w]
  }

  /** The operations of the thread that reached the kernel in the run, in order. */
  function Submitted(reserved: set<nat>, s: State, es: seq<Event>, t: State, w: nat): seq<Op>
    requires Shape(s) && Run(reserved, s, es, t)
    decreases |es|
  {
    if es == [] then []
    else Arrived(reserved, s, es[0], w) + Submitted(reserved, Apply(reserved, s, es[0]), es[1..], t, w)
  }

  /** The operation of the thread that the step adds to the kernel. */
  function Arrived(reserved: set<nat>, s: State, e: Event, w: nat): seq<Op>
    requires Shape(s) && Enabled(reserved, s, e)
  {
    if e.DoSubmit? && s.holder.value.thread == w then [Last(Apply(reserved, s, e).kernel).op] else []
  }

  /** What callbacks submit, one after the other. */
  function Calls(es: seq<EventInfo>): seq<Op> {
    if es == [] then [] else Calls(Front(es)) + Callback(Last(es))
  }

  lemma {:induction false} CallsConcat(a: seq<EventInfo>, b: seq<EventInfo>)
    ensures Calls(a + b) == Calls(a) + Calls(b)
  {
    hide Callback;
    if b == [] {
      assert a + b == a;
    } else {
      CallsConcat(a, Front(b));
      assert Front(a + b) == a + Front(b) && Last(a + b) == Last(b);
    }
  }

  /** While the subscriber holds an event it submits nothing. */
  predicate HandIdle(s: State)
    requires Shape(s)
  {
    s.hand.Some? ==> Idle(s, |s.channels|)
  }

  /** One step: what arrives in the kernel comes from what is owed, and a callback adds to that. */
  lemma StepOwed(reserved: set<nat>, s: State, e: Event, w: nat)
    requires Shape(s) && HandIdle(s) && Enabled(reserved, s, e) && w <= |s.channels|
    ensures var s' := Apply(reserved, s, e);
            && HandIdle(s') && s.ran[w] <= s'.ran[w]
            && Arrived(reserved, s, e, w) + Owed(s', w) == Owed(s, w) + Calls(s'.ran[w][|s.ran[w]|..])
  {
    hide Exec, Allowed, Load, Callback, NewEvent, Index, Reachable;
    var s' := Apply(reserved, s, e);
    if (e.DoCallSync? && w == |s.channels|) || (e.DoReceive? && w == e.w) {
      assert Idle(s, w) && Owed(s, w) == [];
      var ev := Last(s'.ran[w]);
      assert s'.ran[w][|s.ran[w]|..] == [ev] && Front([ev]) == [];
      assert Calls([ev]) == Callback(ev) == Owed(s', w);
    } else {
      assert s'.ran[w] == s.ran[w] && s'.ran[w][|s.ran[w]|..] == [];
      if e.DoBegin? && e.t == w {
        assert s.todo[w] == [s.todo[w][0]] + s.todo[w][1..];
      }
    }
  }

  lemma {:induction false} RunOwed(reserved: set<nat>, s: State, es: seq<Event>, t: State, w: nat)
    requires Shape(s) && HandIdle(s) && Run(reserved, s, es, t) && w <= |s.channels|
    ensures Shape(t) && |t.channels| == |s.channels| && s.ran[w] <= t.ran[w]
    ensures Submitted(reserved, s, es, t, w) + Owed(t, w) == Owed(s, w) + Calls(t.ran[w][|s.ran[w]|..])
    decreases |es|
  {
    hide Enabled, Apply, Calls, Owed, HandIdle, Arrived;
    if es == [] {
      assert t.ran[w][|s.ran[w]|..] == [] && Calls([]) == [] by { NoCalls(); }
    } else {
      var s1 := Apply(reserved, s, es[0]);
      StepOwed(reserved, s, es[0], w);
      RunOwed(reserved, s1, es[1..], t, w);
      var n, n1 := |s.ran[w]|, |s1.ran[w]|;
      assert t.ran[w][n..] == s1.ran[w][n..] + t.ran[w][n1..];
      CallsConcat(s1.ran[w][n..], t.ran[w][n1..]);
      Chained(Arrived(reserved, s, es[0], w), Submitted(reserved, s1, es[1..], t, w),
              Owed(t, w), Owed(s1, w), Owed(s, w), Calls(s1.ran[w][n..]), Calls(t.ran[w][n1..]));
    }
  }

  lemma NoCalls()
    ensures Calls([]) == []
  {
  }

  lemma Chained(a: seq<Op>, b: seq<Op>, owed: seq<Op>, owed1: seq<Op>, owed0: seq<Op>, x: seq<Op>, y: seq<Op>)
    requires a + owed1 == owed0 + x && b + owed == owed1 + y
    ensures a + b + owed == owed0 + (x + y)
  {
    assert a + b + owed == a + (b + owed) == a + owed1 + y == owed0 + x + y;
  }

  // ---------------------------------------------------------------- shares of completions

  lemma {:induction false} ShareAssigned(sync: bool, n: nat, cs: seq<Cqe>, w: nat)
    requires 0 < n
    ensures Share(sync, n, cs, w) == Events(Assigned(sync, n, cs, w))
  {
    hide Completed, FdOfOp;
    if cs != [] {
      ShareAssigned(sync, n, Front(cs), w);
      var front, c := Assigned(sync, n, Front(cs), w), Last(cs);
      assert Events(front + [c]) == Events(front) + [Completed(c)] && front + [] == front;
    }
  }

  lemma {:induction false} CallsReplies(cs: seq<Cqe>)
    ensures Calls(Events(cs)) == AllReplies(cs)
  {
    hide Completed, Callback, Replies;
    if cs != [] {
      CallsReplies(Front(cs));
      EventsLast(cs);
      CallbackReplies(Last(cs));
      assert Front(Events(Front(cs)) + [Completed(Last(cs))]) == Events(Front(cs));
    }
  }

  /**
   In every run, what a worker or the subscriber has handed to the kernel and still owes is,
   operation by operation, the answers to the first of the completions assigned to it: to as
   many as it has run callbacks.
   */
  lemma {:induction false} AnswersInOrder(reserved: set<nat>, sync: bool, workers: nat, lfd: nat, es: seq<Event>,
      t: State, w: nat)
    requires 0 < workers && Run(reserved, Init(sync, workers, lfd), es, t) && w <= workers
    ensures Shape(t) && |t.channels| == workers && |t.ran[w]| <= |Assigned(sync, workers, t.posted, w)|
    ensures Submitted(reserved, Init(sync, workers, lfd), es, t, w) + Owed(t, w)
         == AllReplies(Assigned(sync, workers, t.posted, w)[..|t.ran[w]|])
  {
    var s, cs := Init(sync, workers, lfd), Assigned(sync, workers, t.posted, w);
    assert HandIdle(s) && Owed(s, w) == [] && s.ran[w] == [];
    hide Run, Share, Calls, AllReplies, Owed, Submitted, Assigned, Init, Completed;
    InOrder(reserved, sync, workers, lfd, es, t, w);
    ShareAssigned(sync, workers, t.posted, w);
    RunOwed(reserved, s, es, t, w);
    var n := |t.ran[w]|;
    assert t.ran[w] == Events(cs)[..n] == Events(cs[..n]);
    CallsReplies(cs[..n]);
    assert t.ran[w][0..] == t.ran[w];
  }

  // ---------------------------------------------------------------- room

  /** There is a buffer of 2048 bytes for every descriptor below 10272, open ones are below, and channels hold 1024. */
  ghost predicate RoomInv(s: State) {
    && (forall fd: nat :: fd in s.world.mem <==> fd < 10272)
    && (forall fd :: fd in s.world.mem ==> |s.world.mem[fd]| == 2048)
    && (forall fd :: fd in s.world.streams ==> fd in s.world.mem)
    && (forall w :: 0 <= w < |s.channels| ==> |s.channels[w]| <= 1024)
  }

  lemma StepRoom(reserved: set<nat>, s: State, e: Event)
    requires Shape(s) && RoomInv(s) && Enabled(reserved, s, e)
    ensures RoomInv(Apply(reserved, s, e))
  {
    hide Load, Callback, NewEvent, Index, Reachable, Key;
    if e.DoFinish? {
      ExecSizes(s.world, reserved, KernelOp(s.kernel[e.k].op), e.o);
    }
  }

  lemma {:induction false} RunRoom(reserved: set<nat>, s: State, es: seq<Event>, t: State)
    requires Shape(s) && RoomInv(s) && Run(reserved, s, es, t)
    ensures RoomInv(t)
    decreases |es|
  {
    hide Enabled, Apply, RoomInv, Shape;
    if es != [] {
      StepRoom(reserved, s, es[0]);
      RunRoom(reserved, Apply(reserved, s, es[0]), es[1..], t);
    }
  }

  lemma InitRoom(sync: bool, workers: nat, lfd: nat)
    ensures RoomInv(Init(sync, workers, lfd))
  {
    assert forall i: nat :: IsSlot(i);
  }

  /** Any number of bytes up to 2048 and no more can come from a read of an open connection. */
  ghost predicate ReadsUpTo2048(reserved: set<nat>, s: State) {
    forall k, data :: 0 <= k < |s.kernel| && s.kernel[k].op.Recv? && s.kernel[k].op.fd in s.world.streams ==>
      (CanFinish(reserved, s, k, Received(data)) <==> |data| <= 2048)
  }

  lemma RoomToRead(reserved: set<nat>, s: State)
    requires RoomInv(s)
    ensures ReadsUpTo2048(reserved, s)
  {
  }

  /** The subscriber's event can be dispatched unless the channel of its operation's descriptor is full. */
  ghost predicate WaitsIfFull(reserved: set<nat>, s: State)
    requires Shape(s)
  {
    !s.sync && s.hand.Some? ==>
      && s.consumed != []
      && (Enabled(reserved, s, DoDispatch) <==>
            |s.channels[FdOfOp(Last(s.consumed).sqe.op) % |s.channels|]| < 1024)
  }

  lemma RoomToDispatch(reserved: set<nat>, s: State)
    requires Shape(s) && HandInv(s)
    ensures WaitsIfFull(reserved, s)
  {
    hide Load;
  }

  lemma {:induction false} HandAlways(reserved: set<nat>, sync: bool, workers: nat, lfd: nat, es: seq<Event>, t: State)
    requires 0 < workers && Run(reserved, Init(sync, workers, lfd), es, t)
    ensures Shape(t) && HandInv(t)
  {
    hide Run, Init, MapInv, OwnInv, LiveInv, ShareInv, HandInv, Jobs, BagInv;
    Reach(reserved, sync, workers, lfd, es, t);
  }

  /**
   In every run a read on an open connection may deliver any number of bytes up to 2048 and
   no more; no channel ever holds more than 1024 events; and the subscriber, with an event
   in hand for a worker, waits exactly while the channel of the event's descriptor is full.
   */
  lemma {:induction false} RoomForAll(reserved: set<nat>, sync: bool, workers: nat, lfd: nat, es: seq<Event>, t: State)
    requires 0 < workers && Run(reserved, Init(sync, workers, lfd), es, t)
    ensures Shape(t) && |t.channels| == workers
    ensures ReadsUpTo2048(reserved, t) && WaitsIfFull(reserved, t)
    ensures forall w :: 0 <= w < workers ==> |t.channels[w]| <= 1024
  {
    InitRoom(sync, workers, lfd);
    RunSame(reserved, Init(sync, workers, lfd), es, t);
    hide Run, Init, HandInv, WaitsIfFull, ReadsUpTo2048;
    RunRoom(reserved, Init(sync, workers, lfd), es, t);
    HandAlways(reserved, sync, workers, lfd, es, t);
    RoomToRead(reserved, t);
    RoomToDispatch(reserved, t);
  }
}
