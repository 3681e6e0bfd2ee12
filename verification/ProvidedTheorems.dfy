/** The guarantees of the provided-buffer server over every run, and where they end. */
module ProvidedTheorems {
  import opened Streams
  import opened Kernel
  import opened Echo
  import opened Bags
  import opened Census
  import opened ProvidedBuffers
  import opened ProvidedInvariant
  import opened ProvidedSteps

  lemma InitCounts(listenFd: nat)
    ensures var s := Init(listenFd);
            && Abroad(s) == multiset{} && Active(s) == multiset{} && Accepts(s) == multiset{0}
            && Count(s.cq, DoneNew) == multiset{}
  {
    var s := Init(listenFd);
    CountShort(s.sq, OpFd);
    CountShort(s.sq, OpBid);
    CountShort(s.sq, AcceptOf);
  }

  lemma InitContents(listenFd: nat)
    ensures TagInv(Init(listenFd)) && DataInv(Init(listenFd))
  {
  }

  lemma InitInv(n: nat, listenFd: nat)
    ensures Inv(n, Init(listenFd))
  {
    hide TagInv, DataInv, Count, Paced, Abroad, Active, Accepts;
    InitContents(listenFd);
    InitCounts(listenFd);
    PacedOne(AddAccept(listenFd), n);
    assert Init(listenFd).world.streams.Keys == {};
  }

  lemma KernelStays(n: nat, reserved: set<nat>, s: State, e: Event)
    requires Enabled(n, reserved, s, e)
    ensures !s.exited && (!e.DoHandle? ==> !Apply(n, reserved, s, e).exited)
    ensures e.DoFinish? ==> Finishing(s, reserved, e.k, e.o)
  {
    hide Exec, Allowed;
  }

  lemma DryKeeps(n: nat, s: State, k: nat)
    requires Inv(n, s) && n <= BUFFERS_COUNT && WaitsForBuffer(s, k) && s.pool == {}
    ensures !Unrefused(s) && Inv(n, NoBuffer(s, k))
  {
    hide Inv, Unrefused, WaitsForBuffer, NoBuffer;
    if Unrefused(s) { PoolNeverEmpty(n, s, k); }
    NoBufferKeeps(n, s, k);
  }

  /**
   No step leads out of the invariant, no read finds the pool empty unless a provide has
   failed, and the server leaves exactly when it handles a failed provide.
   */
  lemma StepKeeps(n: nat, reserved: set<nat>, s: State, e: Event)
    requires Inv(n, s) && n <= BUFFERS_COUNT && Enabled(n, reserved, s, e)
    ensures Inv(n, Apply(n, reserved, s, e)) && (e.DoNoBuffer? ==> !Unrefused(s))
    ensures Apply(n, reserved, s, e).exited <==> e.DoHandle? && FailureNext(s)
  {
    hide Inv, Handle, Unrefused, Take, Refuse, Select, NoBuffer, Finish, CanFinish, FailedProvide, Finishing,
      WaitsForBuffer;
    KernelStays(n, reserved, s, e);
    match e
    case DoTake => TakeKeeps(n, s);
    case DoRefuse(errno) => RefuseKeeps(n, s, errno);
    case DoSelect(k, bid) => SelectKeeps(n, s, k, bid);
    case DoNoBuffer(k) => DryKeeps(n, s, k);
    case DoFinish(k, o) => FinishKeeps(n, s, reserved, k, o);
    case DoHandle => HandleKeeps(n, s);
  }

  lemma {:induction false} RunKeeps(n: nat, reserved: set<nat>, s: State, es: seq<Event>, t: State)
    requires Inv(n, s) && n <= BUFFERS_COUNT && Run(n, reserved, s, es, t)
    ensures Inv(n, t)
    decreases |es|
  {
    hide Inv, Enabled, Apply;
    if es != [] {
      StepKeeps(n, reserved, s, es[0]);
      RunKeeps(n, reserved, Apply(n, reserved, s, es[0]), es[1..], t);
    }
  }

  lemma {:induction false} Reachable(n: nat, reserved: set<nat>, listenFd: nat, es: seq<Event>, t: State)
    requires n <= 4096 && Run(n, reserved, Init(listenFd), es, t)
    ensures Inv(n, t)
  {
    InitInv(n, listenFd);
    RunKeeps(n, reserved, Init(listenFd), es, t);
  }

  /** Some run with at most `n` connections leads to the state. */
  ghost predicate Visited(n: nat, reserved: set<nat>, listenFd: nat, s: State) {
    exists es :: Run(n, reserved, Init(listenFd), es, s)
  }

  lemma VisitedStep(n: nat, reserved: set<nat>, listenFd: nat, s: State, e: Event)
    requires Visited(n, reserved, listenFd, s) && Enabled(n, reserved, s, e)
    ensures Visited(n, reserved, listenFd, Apply(n, reserved, s, e))
  {
    hide Run, Enabled, Apply, Init;
    var es :| Run(n, reserved, Init(listenFd), es, s);
    RunThen(n, reserved, Init(listenFd), es, s, e);
  }

  lemma VisitedInv(n: nat, reserved: set<nat>, listenFd: nat, s: State)
    requires n <= BUFFERS_COUNT && Visited(n, reserved, listenFd, s)
    ensures Inv(n, s)
  {
    hide Run, Inv, Init;
    var es :| Run(n, reserved, Init(listenFd), es, s);
    Reachable(n, reserved, listenFd, es, s);
  }

  /** With at most as many connections as buffers, the server leaves exactly when it handles a failed provide. */
  lemma {:induction false} ExitsExactly(n: nat, reserved: set<nat>, listenFd: nat, es: seq<Event>, s: State, e: Event)
    requires n <= 4096 && Run(n, reserved, Init(listenFd), es, s) && Enabled(n, reserved, s, e)
    ensures Apply(n, reserved, s, e).exited <==> e.DoHandle? && FailureNext(s)
  {
    hide Run, Inv, Init, Apply;
    Reachable(n, reserved, listenFd, es, s);
    StepKeeps(n, reserved, s, e);
  }

  ghost predicate NoneFail(es: seq<Event>) {
    forall e :: e in es ==> !e.DoRefuse?
  }

  lemma {:induction false} NoneRefused(n: nat, reserved: set<nat>, s: State, es: seq<Event>, t: State)
    requires Run(n, reserved, s, es, t) && NoneFail(es) && Unrefused(s)
    ensures Unrefused(t)
    decreases |es|
  {
    if es != [] {
      StepUnrefused(n, reserved, s, es[0]);
      hide Enabled, Apply, Unrefused;
      NoneRefused(n, reserved, Apply(n, reserved, s, es[0]), es[1..], t);
    }
  }

  lemma StepUnrefused(n: nat, reserved: set<nat>, s: State, e: Event)
    requires Enabled(n, reserved, s, e) && !e.DoRefuse? && Unrefused(s)
    ensures Unrefused(Apply(n, reserved, s, e))
  {
    hide Allowed, Exec, React;
  }

  /**
   With at most 4096 connections, as many as there are buffers, and unless a provide has failed: the server
   does not leave, every read in flight can get a buffer, and no completion reports an
   empty pool. In any case the submission queue has entries to spare.
   */
  lemma {:induction false} NeverExits(n: nat, reserved: set<nat>, listenFd: nat, es: seq<Event>, t: State)
    requires n <= 4096 && Run(n, reserved, Init(listenFd), es, t)
    ensures NoneFail(es) ==> Unrefused(t)
    ensures Unrefused(t) ==> !t.exited
    ensures Unrefused(t) ==> forall k :: WaitsForBuffer(t, k) ==> t.pool != {}
    ensures Unrefused(t) ==> forall c :: c in t.cq ==> c.res != -105
    ensures t.exited ==> FailureNext(t)
    ensures |t.sq| <= 2 * n + 1 && |t.sq| + 2 <= 10240
  {
    Reachable(n, reserved, listenFd, es, t);
    if NoneFail(es) { NoneRefused(n, reserved, Init(listenFd), es, t); }
    if Unrefused(t) {
      NoneDry(t);
      forall k | WaitsForBuffer(t, k) ensures t.pool != {} { PoolNeverEmpty(n, t, k); }
    }
    QueueBound(n, t);
    hide PlaceInv, ActiveInv, PaceInv, DataInv, WaitsForBuffer, Run;
  }

  /**
   Every buffer id is in exactly one place, every open connection has exactly one
   operation, and there is exactly one accept.
   */
  lemma {:induction false} OnePlaceOneOperation(n: nat, reserved: set<nat>, listenFd: nat, es: seq<Event>, t: State)
    requires n <= 4096 && Run(n, reserved, Init(listenFd), es, t)
    ensures forall b: nat :: b < 4096 ==>
              (multiset(t.pool) + Count(t.sq, OpBid) + Count(t.kernel, FlightBid) + Count(t.cq, DoneBid))[b] == 1
    ensures forall fd :: fd in t.world.streams ==>
              (Count(t.sq, OpFd) + Count(t.kernel, FlightFd) + Count(t.cq, DoneFd))[fd] == 1
    ensures |Accepts(t)| == 1
  {
    Reachable(n, reserved, listenFd, es, t);
    hide TagInv, PaceInv, DataInv, Count;
    forall b: nat | b < BUFFERS_COUNT
      ensures (multiset(t.pool) + Count(t.sq, OpBid) + Count(t.kernel, FlightBid) + Count(t.cq, DoneBid))[b] == 1
    {
      assert IsId(b) && multiset(Below(BUFFERS_COUNT))[b] == 1;
      assert (multiset(t.pool) + Abroad(t))[b] == 1;
    }
    forall fd | fd in t.world.streams
      ensures (Count(t.sq, OpFd) + Count(t.kernel, FlightFd) + Count(t.cq, DoneFd))[fd] == 1
    {
      assert multiset(t.world.streams.Keys)[fd] == 1;
    }
  }

  /**
   On every connection, what was sent is message by message a contiguous prefix of what
   was received; no message took more than one send, and everything was sent back exactly
   when every message met one full send.
   */
  lemma {:induction false} EchoTheorem(n: nat, reserved: set<nat>, listenFd: nat, es: seq<Event>, t: State, fd: nat)
    requires n <= 4096 && Run(n, reserved, Init(listenFd), es, t) && fd in t.world.streams
    ensures Faithful(t.world.streams[fd])
    ensures forall m :: m in t.world.streams[fd].log ==> |m.results| <= 1
    ensures t.world.streams[fd].sent == t.world.streams[fd].received <==>
              forall m :: m in t.world.streams[fd].log ==> m.results == [|m.data|]
  {
    Reachable(n, reserved, listenFd, es, t);
    hide TagInv, PlaceInv, ActiveInv, PaceInv, Holds;
    FullSendsExactly(t.world.streams[fd]);
  }

  /** The entries that follow a completion, in this order. */
  function Replies(listenFd: nat, c: Cqe): seq<Sqe> {
    match c.sqe.op
    case Accept => if c.res < 0 then [AddAccept(listenFd)] else [AddRead(c.res), AddAccept(listenFd)]
    case Read(fd) =>
      if c.res <= 0 then [AddProvide(c.flags / 65536)] else [AddWrite(fd, c.flags / 65536, c.res)]
    case Write(fd, bid, _) => [AddProvide(bid), AddRead(fd)]
    case Provide(_) => []
  }

  /**
   In every run with at most as many connections as buffers, handling a completion that is no
   failed provide queues what follows its operation, at the end, and closes the connection
   exactly when a read brought nothing.
   */
  lemma {:induction false} CompletionAnswered(n: nat, reserved: set<nat>, listenFd: nat, es: seq<Event>, s: State)
    requires n <= 4096 && Run(n, reserved, Init(listenFd), es, s) && Enabled(n, reserved, s, DoHandle)
    requires !FailedProvide(s.cq[0])
    ensures var t, c := Handle(s), s.cq[0];
            && t.sq == s.sq + Replies(s.listenFd, c) && t.cq == s.cq[1..]
            && t.pool == s.pool && t.kernel == s.kernel && t.world.mem == s.world.mem && !t.exited
            && t.world.streams == (if c.sqe.op.Read? && c.res <= 0 then s.world.streams - {c.sqe.op.fd}
                                   else s.world.streams)
  {
    hide PlaceInv, ActiveInv, PaceInv, DataInv, Run, ExitInv, TagInv, Handle, Replies, FailedProvide, Dry, Init;
    Reachable(n, reserved, listenFd, es, s);
    HandleExit(s);
    HandleReplies(s);
  }

  lemma HandleReplies(s: State)
    requires TagInv(s) && Calm(s) && !s.exited
    ensures var t, c := Handle(s), s.cq[0];
            && t.sq == s.sq + Replies(s.listenFd, c) && t.cq == s.cq[1..]
            && t.pool == s.pool && t.kernel == s.kernel && t.world.mem == s.world.mem && !t.exited
            && t.world.streams == (if c.sqe.op.Read? && c.res <= 0 then s.world.streams - {c.sqe.op.fd}
                                   else s.world.streams)
  {
    hide TagInv;
    NoExit(s);
    QueuedKinds(s);
    assert s.world.streams - {} == s.world.streams;
  }

  /**
   In every run a read that holds a buffer may deliver any number of bytes up to 2048 and no
   more, and its buffer is one of the 4096.
   */
  lemma {:induction false} RoomToRead(n: nat, reserved: set<nat>, listenFd: nat, es: seq<Event>, t: State,
      k: nat, data: seq<byte>)
    requires n <= 4096 && Run(n, reserved, Init(listenFd), es, t)
    requires k < |t.kernel| && t.kernel[k].sqe.op.Read? && t.kernel[k].bid.Some?
    ensures t.kernel[k].sqe.op.fd in t.world.streams && t.kernel[k].bid.value < 4096
    ensures CanFinish(t, reserved, k, Received(data)) <==> |data| <= 2048
  {
    hide PlaceInv, ActiveInv, PaceInv, Run, ExitInv, TagInv, Init;
    Reachable(n, reserved, listenFd, es, t);
    FinishAloneBid(t, k, t.kernel[k].bid.value);
    FinishAlone(t, k, t.kernel[k].sqe.op.fd);
  }

  // ---------------------------------------------------------------- where the guarantees end

  /** The state after a read in flight completes with an arbitrary flags field. */
  function FinishRead(s: State, k: nat, res: int, flags: nat): State
    requires k < |s.kernel|
  {
    s.(kernel := s.kernel[..k] + s.kernel[k + 1..], cq := s.cq + [Cqe(s.kernel[k].sqe, res, flags)])
  }

  /**
   One place per buffer survives a read completion exactly when the flags carry the buffer
   that was selected, or none was and the completion says so.
   */
  lemma OnePlaceExactly(s: State, k: nat, res: int, flags: nat)
    requires PlaceInv(s) && k < |s.kernel| && s.kernel[k].sqe.op.Read?
    ensures PlaceInv(FinishRead(s, k, res, flags)) <==>
              s.kernel[k].bid == if res == -ENOBUFS then None else Some(flags / BUFFER_SHIFT)
  {
    var s' := FinishRead(s, k, res, flags);
    var x, d := s.kernel[k], DoneBid(s'.cq[|s.cq|]);
    assert Abroad(s') + One(x.bid) == Abroad(s) + One(d) by {
      hide Count;
      CountRemove(s.kernel, k, FlightBid);
      CountAppend(s.cq, s'.cq[|s.cq|], DoneBid);
      Exchanged(Count(s.cq, DoneBid), Count(s'.cq, DoneBid), One(d), Count(s.sq, OpBid),
                Count(s.kernel, FlightBid), Count(s'.kernel, FlightBid), One(x.bid));
      Rotate(Count(s'.cq, DoneBid), Count(s.sq, OpBid), Count(s'.kernel, FlightBid));
      Rotate(Count(s.cq, DoneBid), Count(s.sq, OpBid), Count(s.kernel, FlightBid));
    }
    hide Abroad;
    SwapExactly(multiset(s.pool), Abroad(s), Abroad(s'), One(x.bid), One(d));
    assert One(x.bid) == One(d) <==> x.bid == d by {
      if d.Some? { assert d.value in One(d); }
      if x.bid.Some? { assert x.bid.value in One(x.bid); }
    }
  }

  lemma Rotate(a: multiset<nat>, b: multiset<nat>, c: multiset<nat>)
    ensures a + b + c == b + c + a
  {
  }

  lemma SwapExactly(p: multiset<nat>, a: multiset<nat>, a': multiset<nat>, x: multiset<nat>, y: multiset<nat>)
    requires a' + x == a + y
    ensures p + a' == p + a <==> x == y
  {
    if x == y { Same(a', a, x); }
    if p + a' == p + a {
      forall k ensures x[k] == y[k] {
        assert (p + a')[k] == (p + a)[k] && (a' + x)[k] == (a + y)[k];
      }
    }
  }

  // ---------------------------------------------------------------- one connection too many

  function Conns(m: nat, k: nat): map<nat, Stream> {
    if k == 0 then map[] else Conns(m, k - 1)[m + k - 1 := EMPTY_STREAM]
  }

  /** `k` connections on the descriptors from `m` on, each holding the buffer of its number. */
  function Filled(listenFd: nat, m: nat, k: nat): State {
    State(listenFd, Below(BUFFERS_COUNT) - Below(k), [AddAccept(listenFd)],
          seq(k, i requires 0 <= i < k => InFlight(AddRead(m + i), Some(i))), [],
          World(Conns(m, k), Init(listenFd).world.mem), false)
  }

  lemma {:induction false} RunThen(n: nat, reserved: set<nat>, s: State, es: seq<Event>, t: State, e: Event)
    requires Run(n, reserved, s, es, t) && Enabled(n, reserved, t, e)
    ensures Run(n, reserved, s, es + [e], Apply(n, reserved, t, e))
    decreases |es|
  {
    hide Enabled, Apply;
    if es == [] {
      assert es + [e] == [e];
    } else {
      RunThen(n, reserved, Apply(n, reserved, s, es[0]), es[1..], t, e);
      assert (es + [e])[1..] == es[1..] + [e];
    }
  }

  /** From `k` connections to one more, up to the point where the new read wants a buffer. */
  lemma {:induction false} OneMore(n: nat, reserved: set<nat>, listenFd: nat, m: nat, k: nat, es: seq<Event>)
      returns (es': seq<Event>)
    requires (forall r :: r in reserved ==> r < m) && k < n
    requires Run(n, reserved, Init(listenFd), es, Filled(listenFd, m, k))
    ensures Run(n, reserved, Init(listenFd), es', Waiting(listenFd, m, k))
  {
    var s0 := Filled(listenFd, m, k);
    var s1 := Take(s0);
    RunThen(n, reserved, Init(listenFd), es, s0, DoTake);
    ConnsSize(m, k);
    assert m + k !in s1.world.streams;
    assert CanFinish(s1, reserved, k, Accepted(m + k));
    var s2 := Finish(s1, reserved, k, Accepted(m + k));
    RunThen(n, reserved, Init(listenFd), es + [DoTake], s1, DoFinish(k, Accepted(m + k)));
    var s3 := Handle(s2);
    RunThen(n, reserved, Init(listenFd), es + [DoTake] + [DoFinish(k, Accepted(m + k))], s2, DoHandle);
    es' := es + [DoTake] + [DoFinish(k, Accepted(m + k))] + [DoHandle] + [DoTake];
    RunThen(n, reserved, Init(listenFd), es + [DoTake] + [DoFinish(k, Accepted(m + k))] + [DoHandle], s3, DoTake);
    OneMoreEnds(reserved, listenFd, m, k);
  }

  /** As `Filled`, with one more connection whose read has no buffer yet. */
  function Waiting(listenFd: nat, m: nat, k: nat): State {
    Filled(listenFd, m, k).(
      kernel := Filled(listenFd, m, k).kernel + [InFlight(AddRead(m + k), None)],
      world := Filled(listenFd, m, k + 1).world)
  }

  lemma {:induction false} ConnsSize(m: nat, k: nat)
    ensures |Conns(m, k)| == k && forall fd :: fd in Conns(m, k) <==> m <= fd < m + k
  {
    if k > 0 { ConnsSize(m, k - 1); }
  }

  lemma OneMoreEnds(reserved: set<nat>, listenFd: nat, m: nat, k: nat)
    requires forall r :: r in reserved ==> r < m
    ensures var s1 := Take(Filled(listenFd, m, k)); var o := Accepted(m + k);
            && k < |s1.kernel| && CanFinish(s1, reserved, k, o)
            && Take(Handle(Finish(s1, reserved, k, o))) == Waiting(listenFd, m, k)
  {
    var s1 := Take(Filled(listenFd, m, k));
    var o := Accepted(m + k);
    ConnsSize(m, k);
    assert s1.kernel[k] == InFlight(AddAccept(listenFd), None);
    var s2 := Finish(s1, reserved, k, o);
    assert s2.kernel == Filled(listenFd, m, k).kernel;
    var s3 := Handle(s2);
    assert s3.sq == [AddRead(m + k), AddAccept(listenFd)];
    assert s3.world.streams == Conns(m, k + 1);
    assert s3.sq[1..] == [AddAccept(listenFd)];
  }

  lemma {:induction false} Fill(n: nat, reserved: set<nat>, listenFd: nat, m: nat, k: nat) returns (es: seq<Event>)
    requires (forall r :: r in reserved ==> r < m) && k <= n && k <= BUFFERS_COUNT
    ensures Run(n, reserved, Init(listenFd), es, Filled(listenFd, m, k))
  {
    hide Run, Filled, Waiting, Init, Enabled, Apply;
    if k == 0 {
      es := [];
      FilledZero(listenFd, m);
      RunNothing(n, reserved, Init(listenFd));
    } else {
      es := Fill(n, reserved, listenFd, m, k - 1);
      es := OneMore(n, reserved, listenFd, m, k - 1, es);
      SelectEnds(n, reserved, listenFd, m, k - 1);
      RunThen(n, reserved, Init(listenFd), es, Waiting(listenFd, m, k - 1), DoSelect(k - 1, k - 1));
      es := es + [DoSelect(k - 1, k - 1)];
    }
  }

  lemma RunNothing(n: nat, reserved: set<nat>, s: State)
    ensures Run(n, reserved, s, [], s)
  {
  }

  lemma FilledZero(listenFd: nat, m: nat)
    ensures Filled(listenFd, m, 0) == Init(listenFd)
  {
    var s, t := Filled(listenFd, m, 0), Init(listenFd);
    assert s.pool == t.pool && s.kernel == t.kernel && s.world.streams == t.world.streams;
  }

  lemma SelectEnds(n: nat, reserved: set<nat>, listenFd: nat, m: nat, k: nat)
    requires k < BUFFERS_COUNT
    ensures Enabled(n, reserved, Waiting(listenFd, m, k), DoSelect(k, k))
    ensures Apply(n, reserved, Waiting(listenFd, m, k), DoSelect(k, k)) == Filled(listenFd, m, k + 1)
  {
    var s, t := Select(Waiting(listenFd, m, k), k, k), Filled(listenFd, m, k + 1);
    assert IsId(k);
    assert s.pool == t.pool;
    assert s.kernel == t.kernel;
  }

  /**
   With one connection more than there are buffers the exit is reached, so the bound of
   `NeverExits` cannot be raised.
   */
  lemma OneTooMany(n: nat, reserved: set<nat>, listenFd: nat, m: nat) returns (es: seq<Event>, t: State)
    requires BUFFERS_COUNT < n && forall r :: r in reserved ==> r < m
    ensures Run(n, reserved, Init(listenFd), es, t) && t.exited
  {
    hide Run, Waiting, Filled;
    var k := BUFFERS_COUNT;
    es := Fill(n, reserved, listenFd, m, k);
    es := OneMore(n, reserved, listenFd, m, k, es);
    var s := Waiting(listenFd, m, k);
    ExitEnds(n, reserved, listenFd, m);
    RunThen(n, reserved, Init(listenFd), es, s, DoNoBuffer(k));
    es := es + [DoNoBuffer(k)];
    RunThen(n, reserved, Init(listenFd), es, NoBuffer(s, k), DoHandle);
    es := es + [DoHandle];
    t := Handle(NoBuffer(s, k));
  }

  lemma ExitEnds(n: nat, reserved: set<nat>, listenFd: nat, m: nat)
    ensures var s := Waiting(listenFd, m, BUFFERS_COUNT);
            && Enabled(n, reserved, s, DoNoBuffer(BUFFERS_COUNT))
            && Enabled(n, reserved, NoBuffer(s, BUFFERS_COUNT), DoHandle)
            && Handle(NoBuffer(s, BUFFERS_COUNT)).exited
  {
    var s := Waiting(listenFd, m, BUFFERS_COUNT);
    assert s.pool == {};
    assert s.kernel[BUFFERS_COUNT] == InFlight(AddRead(m + BUFFERS_COUNT), None);
  }
}
