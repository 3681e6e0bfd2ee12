/** What holds in every run of the eventfd server, under every interleaving of its actors. */
module EventFdTheorems {
  import opened Streams
  import opened Kernel
  import opened Echo
  import opened Census
  import opened Bags
  import opened EventFd
  import opened EventFdInvariant
  import opened EventFdJobs
  import opened EventFdRefines

  // ---------------------------------------------------------------- runs

  ghost predicate FullInv(s: State) {
    Inv(s) && BagInv(Jobs(s), s.world)
  }

  lemma InvShape(s: State)
    requires Inv(s)
    ensures Shape(s)
  {
  }

  lemma EnabledMeans(reserved: set<nat>, s: State, e: Event)
    requires Shape(s) && Enabled(reserved, s, e)
    ensures e.DoFinish? ==> e.k < |s.kernel| && Allowed(s.world, reserved, KernelOp(s.kernel[e.k].op), e.o)
    ensures e.DoCallSync? ==> s.hand.Some?
    ensures e.DoReceive? ==> e.w < |s.channels| && s.channels[e.w] != []
  {
  }

  lemma StepKeepsFull(reserved: set<nat>, s: State, e: Event)
    requires FullInv(s) && Enabled(reserved, s, e)
    ensures FullInv(Apply(reserved, s, e))
  {
    hide Inv, BagInv, Jobs, Complete, React, Exec, Allowed, Apply, Enabled, Load, KernelOp, Res, Shape, CanFinish;
    assert Shape(s) by { InvShape(s); }
    EnabledMeans(reserved, s, e);
    StepKeeps(reserved, s, e);
    StepRefines(reserved, s, e);
    match e
    case DoFinish(k, o) => CompleteKeeps(reserved, Jobs(s), s.world, s.kernel[k].op, o);
    case DoCallSync => ReactKeeps(Jobs(s), s.world, Load(s.heap, s.hand.value));
    case DoReceive(w) => ReactKeeps(Jobs(s), s.world, Load(s.heap, s.channels[w][0]));
    case _ =>
  }

  lemma {:induction false} RunKeepsFull(reserved: set<nat>, s: State, es: seq<Event>, t: State)
    requires Shape(s) && FullInv(s) && Run(reserved, s, es, t)
    ensures FullInv(t)
    decreases |es|
  {
    hide FullInv, Enabled, Apply, Shape;
    if es != [] {
      StepKeepsFull(reserved, s, es[0]);
      RunKeepsFull(reserved, Apply(reserved, s, es[0]), es[1..], t);
    }
  }

  lemma InitJobs(sync: bool, workers: nat, lfd: nat)
    requires 0 < workers
    ensures Jobs(Init(sync, workers, lfd)) == multiset{Do(Accept(lfd))}
  {
    var s := Init(sync, workers, lfd);
    var idle := seq(workers + 1, _ => []);
    var ls := DoLists(s.todo);
    assert ls[..workers + 1] == DoLists(idle) && ls[workers + 1] == [Do(Accept(lfd))];
    AllEmpty(DoLists(idle));
    AllEmpty(DoneLists(Waiting(s)));
    assert ToSubmit(s) == multiset{Do(Accept(lfd))};
  }

  lemma {:induction false} Reach(reserved: set<nat>, sync: bool, workers: nat, lfd: nat, es: seq<Event>, t: State)
    requires 0 < workers && Run(reserved, Init(sync, workers, lfd), es, t)
    ensures FullInv(t)
  {
    hide Jobs, Inv, Run;
    InitInv(sync, workers, lfd);
    InitJobs(sync, workers, lfd);
    RunKeepsFull(reserved, Init(sync, workers, lfd), es, t);
  }

  /** Some run leads to the state. */
  ghost predicate Visited(reserved: set<nat>, sync: bool, workers: nat, lfd: nat, s: State)
    requires 0 < workers
  {
    exists es :: Run(reserved, Init(sync, workers, lfd), es, s)
  }

  lemma {:induction false} RunThen(reserved: set<nat>, s: State, es: seq<Event>, t: State, e: Event)
    requires Shape(s) && Shape(t) && Run(reserved, s, es, t) && Enabled(reserved, t, e)
    ensures Run(reserved, s, es + [e], Apply(reserved, t, e))
    decreases |es|
  {
    hide Enabled, Apply, Shape;
    if es == [] {
      assert es + [e] == [e];
    } else {
      RunThen(reserved, Apply(reserved, s, es[0]), es[1..], t, e);
      assert (es + [e])[1..] == es[1..] + [e];
    }
  }

  lemma VisitedStep(reserved: set<nat>, sync: bool, workers: nat, lfd: nat, s: State, e: Event)
    requires 0 < workers && Visited(reserved, sync, workers, lfd, s) && Shape(s) && Enabled(reserved, s, e)
    ensures Visited(reserved, sync, workers, lfd, Apply(reserved, s, e))
  {
    hide Run, Enabled, Apply;
    var es :| Run(reserved, Init(sync, workers, lfd), es, s);
    RunThen(reserved, Init(sync, workers, lfd), es, s, e);
  }

  // ---------------------------------------------------------------- every completion finds its own event

  lemma {:induction false} OwnEvent(reserved: set<nat>, sync: bool, workers: nat, lfd: nat, es: seq<Event>, t: State)
    requires 0 < workers && Run(reserved, Init(sync, workers, lfd), es, t)
    ensures t.missed == 0
    ensures forall c :: c in t.cq ==>
              c.sqe.ptr in t.mapEvent && Load(t.heap, t.mapEvent[c.sqe.ptr]) == NewEvent(c.sqe.op)
    ensures Count(t.kernel, PtrOf) + Count(t.cq, DonePtr) + Held(t, true) == multiset(t.mapEvent.Keys)
  {
    Reach(reserved, sync, workers, lfd, es, t);
    hide Jobs, BagInv, LiveInv, ShareInv, HandInv, NewEvent;
    forall c | c in t.cq ensures c.sqe.ptr in t.mapEvent && Load(t.heap, t.mapEvent[c.sqe.ptr]) == NewEvent(c.sqe.op) {
      assert Own(t, c.sqe);
    }
  }

  // ---------------------------------------------------------------- callbacks run in completion order

  /** The thread that runs the callbacks of a descriptor. */
  function RunnerOf(sync: bool, n: nat, fd: nat): nat
    requires 0 < n
  {
    if sync then n else fd % n
  }

  /** The descriptor the event was made for. */
  function FdOf(e: EventInfo): nat {
    if e.etype == ETypeAccept then e.lfd else e.cfd
  }

  function ByFd(es: seq<EventInfo>, fd: nat): seq<EventInfo> {
    if es == [] then [] else ByFd(Front(es), fd) + if FdOf(Last(es)) == fd then [Last(es)] else []
  }

  /** The completions of operations on a descriptor, in order. */
  function OfFd(cs: seq<Cqe>, fd: nat): seq<Cqe> {
    if cs == [] then [] else OfFd(Front(cs), fd) + if FdOfOp(Last(cs).sqe.op) == fd then [Last(cs)] else []
  }

  function Events(cs: seq<Cqe>): seq<EventInfo> {
    seq(|cs|, i requires 0 <= i < |cs| => Completed(cs[i]))
  }

  lemma {:induction false} ShareConcat(sync: bool, n: nat, a: seq<Cqe>, b: seq<Cqe>, t: nat)
    requires 0 < n
    ensures Share(sync, n, a + b, t) == Share(sync, n, a, t) + Share(sync, n, b, t)
  {
    if b == [] {
      assert a + b == a;
    } else {
      ShareConcat(sync, n, a, Front(b), t);
      assert Front(a + b) == a + Front(b) && Last(a + b) == Last(b);
    }
  }

  lemma PassedFirst(t: State)
    requires t.posted == t.consumed + t.cq
    ensures exists rest :: t.posted == Passed(t) + rest
  {
    assert t.posted == Passed(t) + t.posted[|Passed(t)|..];
  }

  lemma ShareSplit(t: State, w: nat)
    requires Shape(t) && ShareInv(t) && w <= |t.channels|
    ensures |Waiting(t)| == |t.channels| + 1 && t.ran[w] + Waiting(t)[w] == Share(t.sync, |t.channels|, Passed(t), w)
  {
  }

  lemma StepSame(reserved: set<nat>, s: State, e: Event)
    requires Shape(s) && Enabled(reserved, s, e)
    ensures Apply(reserved, s, e).sync == s.sync && |Apply(reserved, s, e).channels| == |s.channels|
  {
    hide Exec, Allowed, Load, Callback;
  }

  lemma {:induction false} RunSame(reserved: set<nat>, s: State, es: seq<Event>, t: State)
    requires Shape(s) && Run(reserved, s, es, t)
    ensures t.sync == s.sync && |t.channels| == |s.channels|
    decreases |es|
  {
    hide Enabled, Apply, Shape;
    if es != [] {
      StepSame(reserved, s, es[0]);
      RunSame(reserved, Apply(reserved, s, es[0]), es[1..], t);
    }
  }

  /** A thread has run the callbacks of an initial part of its share, each with its own result. */
  lemma {:induction false} InOrder(reserved: set<nat>, sync: bool, workers: nat, lfd: nat, es: seq<Event>, t: State,
      w: nat)
    requires 0 < workers && Run(reserved, Init(sync, workers, lfd), es, t) && w <= workers
    ensures Shape(t) && |t.channels| == workers && t.ran[w] <= Share(sync, workers, t.posted, w)
  {
    RunSame(reserved, Init(sync, workers, lfd), es, t);
    Reach(reserved, sync, workers, lfd, es, t);
    hide BagInv, LiveInv, HandInv, OwnInv, MapInv, ShareInv, Run, Share, Waiting, Init, Passed;
    PassedFirst(t);
    var rest :| t.posted == Passed(t) + rest;
    ShareConcat(t.sync, |t.channels|, Passed(t), rest, w);
    ShareSplit(t, w);
  }

  lemma {:induction false} ShareMembers(sync: bool, n: nat, cs: seq<Cqe>, t: nat)
    requires 0 < n
    ensures forall e :: e in Share(sync, n, cs, t) ==>
              exists c :: c in cs && e == Completed(c) && t == RunnerOf(sync, n, FdOfOp(c.sqe.op))
  {
    if cs != [] {
      hide Completed;
      ShareMembers(sync, n, Front(cs), t);
      assert Last(cs) in cs && forall c :: c in Front(cs) ==> c in cs;
    }
  }

  /**
   Every callback run was for a completion, and was run by the thread its operation's
   descriptor selects: connections by their own descriptor, accepts by the listener's.
   */
  lemma {:induction false} OwnThread(reserved: set<nat>, sync: bool, workers: nat, lfd: nat, es: seq<Event>, t: State,
      w: nat)
    requires 0 < workers && Run(reserved, Init(sync, workers, lfd), es, t) && w <= workers
    ensures Shape(t) && |t.channels| == workers
    ensures forall e :: e in t.ran[w] ==>
              exists c :: c in t.posted && e == Completed(c) && w == RunnerOf(sync, workers, FdOfOp(c.sqe.op))
  {
    hide Run, Share, Completed;
    InOrder(reserved, sync, workers, lfd, es, t, w);
    ShareMembers(sync, workers, t.posted, w);
    forall e | e in t.ran[w]
      ensures exists c :: c in t.posted && e == Completed(c) && w == RunnerOf(sync, workers, FdOfOp(c.sqe.op))
    {
      var i :| 0 <= i < |t.ran[w]| && t.ran[w][i] == e;
      assert Share(sync, workers, t.posted, w)[i] == e;
      assert e in Share(sync, workers, t.posted, w);
      var c :| c in t.posted && e == Completed(c) && w == RunnerOf(sync, workers, FdOfOp(c.sqe.op));
    }
  }

  lemma {:induction false} ByFdConcat(a: seq<EventInfo>, b: seq<EventInfo>, fd: nat)
    ensures ByFd(a + b, fd) == ByFd(a, fd) + ByFd(b, fd)
  {
    if b == [] {
      assert a + b == a;
    } else {
      ByFdConcat(a, Front(b), fd);
      assert Front(a + b) == a + Front(b) && Last(a + b) == Last(b);
    }
  }

  lemma RunnerByFd(sync: bool, n: nat, c: Cqe)
    requires 0 < n
    ensures Runner(sync, n, c.sqe.op) == RunnerOf(sync, n, FdOfOp(c.sqe.op)) <= n
    ensures FdOf(Completed(c)) == FdOfOp(c.sqe.op)
  {
  }

  lemma EventsLast(cs: seq<Cqe>)
    requires cs != []
    ensures Events(cs) == Events(Front(cs)) + [Completed(Last(cs))]
  {
    hide Completed;
  }

  lemma ByFdOne(es: seq<EventInfo>, e: EventInfo, fd: nat)
    ensures ByFd(es + [e], fd) == ByFd(es, fd) + if FdOf(e) == fd then [e] else []
  {
    assert Front(es + [e]) == es;
  }

  lemma OfFdLast(cs: seq<Cqe>, fd: nat)
    requires cs != []
    ensures Events(OfFd(cs, fd)) ==
            Events(OfFd(Front(cs), fd)) + if FdOfOp(Last(cs).sqe.op) == fd then [Completed(Last(cs))] else []
  {
    hide Completed;
    var front := OfFd(Front(cs), fd);
    assert Events(front + [Last(cs)]) == Events(front) + [Completed(Last(cs))];
    assert front + [] == front;
  }

  /** All events of a descriptor are in one share, in order. */
  lemma {:induction false} ByFdShare(sync: bool, n: nat, cs: seq<Cqe>, t: nat, fd: nat)
    requires 0 < n
    ensures ByFd(Share(sync, n, cs, t), fd) == if t == RunnerOf(sync, n, fd) then Events(OfFd(cs, fd)) else []
  {
    if cs != [] {
      hide Completed, FdOf, FdOfOp, Runner, RunnerOf, Events, Share, ByFd, OfFd;
      ByFdShare(sync, n, Front(cs), t, fd);
      var c, share := Last(cs), Share(sync, n, Front(cs), t);
      ShareLast(sync, n, cs, t);
      OfFdLast(cs, fd);
      RunnerByFd(sync, n, c);
      ByFdOne(share, Completed(c), fd);
      assert share + [] == share;
    }
  }

  /**
   The callbacks of one descriptor all run in one thread, the one the descriptor selects, and
   those that have run are the first ones in the order its operations completed.
   */
  lemma {:induction false} CompletionOrder(reserved: set<nat>, sync: bool, workers: nat, lfd: nat, es: seq<Event>,
      t: State, w: nat, fd: nat)
    requires 0 < workers && Run(reserved, Init(sync, workers, lfd), es, t) && w <= workers
    ensures Shape(t) && |t.channels| == workers
    ensures if w == (if sync then workers else fd % workers) then ByFd(t.ran[w], fd) <= Events(OfFd(t.posted, fd))
            else ByFd(t.ran[w], fd) == []
  {
    hide Run, Share, ByFd, Events, OfFd;
    InOrder(reserved, sync, workers, lfd, es, t, w);
    var share := Share(sync, workers, t.posted, w);
    assert share == t.ran[w] + share[|t.ran[w]|..];
    ByFdConcat(t.ran[w], share[|t.ran[w]|..], fd);
    ByFdShare(sync, workers, t.posted, w, fd);
  }

  // ---------------------------------------------------------------- each callback runs once

  function Shares(sync: bool, n: nat, cs: seq<Cqe>): seq<seq<EventInfo>>
    requires 0 < n
  {
    seq(n + 1, t requires 0 <= t <= n => Share(sync, n, cs, t))
  }

  lemma {:induction false} SharesCover(sync: bool, n: nat, cs: seq<Cqe>)
    requires 0 < n
    ensures All(Shares(sync, n, cs)) == multiset(Events(cs))
  {
    hide Completed, All, FdOfOp, Runner, RunnerOf;
    if cs == [] {
      AllEmpty(Shares(sync, n, cs));
    } else {
      var e, ss := Completed(Last(cs)), Shares(sync, n, Front(cs));
      var r := Runner(sync, n, Last(cs).sqe.op);
      RunnerByFd(sync, n, Last(cs));
      SharesCover(sync, n, Front(cs));
      EventsLast(cs);
      hide Events, Share;
      forall t: nat | t <= n ensures Share(sync, n, cs, t) == ss[r := ss[r] + [e]][t] {
        ShareLast(sync, n, cs, t);
      }
      assert Shares(sync, n, cs) == ss[r := ss[r] + [e]];
      AllAppend(ss, r, e);
    }
  }

  lemma {:induction false} AllZip(a: seq<seq<EventInfo>>, b: seq<seq<EventInfo>>, c: seq<seq<EventInfo>>)
    requires |a| == |b| == |c| && forall i :: 0 <= i < |a| ==> c[i] == a[i] + b[i]
    ensures All(c) == All(a) + All(b)
  {
    if a != [] {
      var k := |a| - 1;
      AllZip(a[..k], b[..k], c[..k]);
      Pairs(All(a[..k]), All(b[..k]), multiset(a[k]), multiset(b[k]));
    }
  }

  lemma Pairs(a: multiset<EventInfo>, b: multiset<EventInfo>, x: multiset<EventInfo>, y: multiset<EventInfo>)
    ensures (a + b) + (x + y) == (a + x) + (b + y)
  {
  }

  lemma RanAndWaiting(t: State)
    requires Shape(t) && ShareInv(t)
    ensures All(t.ran) + All(Waiting(t)) == multiset(Events(Passed(t)))
  {
    hide Share, Waiting, All, ShareInv, Events, Passed;
    WaitingSize(t);
    forall w: nat | w <= |t.channels| ensures Shares(t.sync, |t.channels|, Passed(t))[w] == t.ran[w] + Waiting(t)[w] {
      ShareSplit(t, w);
    }
    AllZip(t.ran, Waiting(t), Shares(t.sync, |t.channels|, Passed(t)));
    SharesCover(t.sync, |t.channels|, Passed(t));
  }

  lemma EventsConcat(a: seq<Cqe>, b: seq<Cqe>)
    ensures Events(a + b) == Events(a) + Events(b)
  {
    hide Completed;
  }

  /**
   Conservation: the callbacks run, the events in the channels, the one in the
   subscriber's hand and the completions on the ring are together exactly the completions
   the kernel posted, result for result.
   */
  lemma {:induction false} EachCallbackOnce(reserved: set<nat>, sync: bool, workers: nat, lfd: nat, es: seq<Event>,
      t: State)
    requires 0 < workers && Run(reserved, Init(sync, workers, lfd), es, t)
    ensures All(t.ran) + All(Waiting(t)) + (if t.hand.Some? then multiset{Load(t.heap, t.hand.value)} else multiset{})
              + multiset(Events(t.cq)) == multiset(Events(t.posted))
  {
    hide BagInv, LiveInv, OwnInv, MapInv, ShareInv, Run, Init, Waiting, All, Events, Completed, Load;
    Reach(reserved, sync, workers, lfd, es, t);
    RanAndWaiting(t);
    if t.hand.Some? { EventsLast(t.consumed); }
    EventsConcat(t.consumed, t.cq);
  }

  // ---------------------------------------------------------------- connections

  lemma BothInFlight(t: State, k: nat, l: nat)
    requires k < |t.kernel| && l < |t.kernel| && k != l
    ensures multiset{Do(t.kernel[k].op), Do(t.kernel[l].op)} <= Jobs(t)
  {
    hide ToSubmit, AtLock, OnRing, InHand, InChannels, Flying;
    var q, l' := t.kernel[..k] + t.kernel[k + 1..], if l < k then l else l - 1;
    FlyingRemove(t.kernel, k);
    assert q[l'] == t.kernel[l];
    FlyingRemove(q, l');
    assert multiset{Do(t.kernel[k].op), Do(t.kernel[l].op)} <= InKernel(t);
  }

  lemma JobsApart(bag: multiset<Job>, w: World<nat>, i: Job, j: Job)
    requires OneEach(bag, w) && multiset{i, j} <= bag && JobFd(i).Some? && JobFd(j).Some?
    ensures JobFd(i).value in w.streams && JobFd(i) != JobFd(j)
  {
    hide JobFd;
    assert i in bag && j in bag && (i == j ==> bag[i] >= 2);
  }

  /** Two operations in flight never use the same buffer. */
  lemma {:induction false} NoSharedBuffer(reserved: set<nat>, sync: bool, workers: nat, lfd: nat, es: seq<Event>,
      t: State, k: nat, l: nat)
    requires 0 < workers && Run(reserved, Init(sync, workers, lfd), es, t)
    requires k < |t.kernel| && l < |t.kernel| && k != l && !t.kernel[k].op.Accept? && !t.kernel[l].op.Accept?
    ensures t.kernel[k].op.fd in t.world.streams && t.kernel[k].op.fd != t.kernel[l].op.fd
  {
    hide Inv, Run, Init, OneEach, AllFaithful, JobHolds, Jobs;
    Reach(reserved, sync, workers, lfd, es, t);
    BothInFlight(t, k, l);
    JobsApart(Jobs(t), t.world, Do(t.kernel[k].op), Do(t.kernel[l].op));
  }

  /**
   Every connection gets back, message by message, a prefix of what it sent; no message takes
   more than one send, and all of it comes back exactly when every message met one full send.
   */
  lemma {:induction false} EchoTheorem(reserved: set<nat>, sync: bool, workers: nat, lfd: nat, es: seq<Event>,
      t: State, fd: nat)
    requires 0 < workers && Run(reserved, Init(sync, workers, lfd), es, t) && fd in t.world.streams
    ensures Faithful(t.world.streams[fd])
    ensures forall m :: m in t.world.streams[fd].log ==> |m.results| <= 1
    ensures t.world.streams[fd].sent == t.world.streams[fd].received <==>
              forall m :: m in t.world.streams[fd].log ==> m.results == [|m.data|]
  {
    Reach(reserved, sync, workers, lfd, es, t);
    hide Inv, Run, Jobs, OneEach, JobHolds;
    FullSendsExactly(t.world.streams[fd]);
  }
}
