/**
 The guarantees of the token server over every run, read off the invariant.
 */
module TokenTheorems {
  import opened Streams
  import opened Kernel
  import opened PartialSend
  import opened TokenMachine
  import opened TokenInvariant

  /** Handling a completion never panics and keeps the invariant, whatever keys the slabs choose. */
  lemma HandleKeeps(s: State, tokenKey: nat, bufKey: nat)
    requires Inv(s) && s.cq != [] && tokenKey !in s.tokens && bufKey !in s.world.mem
    ensures NoPanic(s) && Inv(Handle(s, tokenKey, bufKey))
  {
    hide Inv, Handle, NoPanic;
    var c := s.cq[0];
    NeverPanics(s);
    HeadIsNotClose(s);
    if c.res < 0 {
      HandleError(s, tokenKey, bufKey);
    } else {
      match c.entry.op
      case KAccept => HandleAccept(s, tokenKey, bufKey);
      case KPoll(_) =>
        if s.bufpool == [] { HandlePollFresh(s, tokenKey, bufKey); } else { HandlePollPooled(s, tokenKey, bufKey); }
      case KRecv(_, _, _) =>
        if c.res == 0 { HandleEof(s, tokenKey, bufKey); } else { HandleRead(s, tokenKey, bufKey); }
      case KSend(_, _, offset, len) =>
        if offset + c.res >= len {
          HandleWriteDone(s, tokenKey, bufKey);
        } else {
          HandleWriteMore(s, tokenKey, bufKey);
        }
    }
  }

  lemma HeadIsNotClose(s: State)
    requires Inv(s) && s.cq != []
    ensures !s.cq[0].entry.op.KClose?
  {
    hide TokenInv, TokensApart, BufInv, FdInv, DataInv, ClosedInv, DoneOk;
    LookupSucceeds(s);
  }

  lemma StepKeeps(s: State, reserved: set<nat>, e: Event)
    requires Inv(s) && Enabled(s, reserved, e)
    ensures e.DoHandle? ==> NoPanic(s)
    ensures Inv(Apply(s, reserved, e))
  {
    hide Inv, NoPanic, Handle, Consume, Complete, PopBacklog, PushAccept;
    match e
    case DoConsume => ConsumeKeeps(s);
    case DoComplete(k, o) => CompleteKeeps(s, reserved, k, o);
    case DoSync => SyncKeeps(s);
    case DoPopBacklog => PopBacklogKeeps(s);
    case DoPushAccept => PushAcceptKeeps(s);
    case DoHandle(tokenKey, bufKey) => HandleKeeps(s, tokenKey, bufKey);
  }

  lemma SyncKeeps(s: State)
    requires Inv(s)
    ensures Inv(Sync(s))
  {
    hide TokenInv, TokensApart, BufInv, FdInv, DataInv, ClosedInv;
    assert Pending(Sync(s)) == Pending(s) && Total(Sync(s)) == Total(s);
  }

  lemma {:induction false} RunKeeps(s: State, reserved: set<nat>, es: seq<Event>, t: State)
    requires Inv(s) && Run(s, reserved, es, t)
    ensures Inv(t)
    decreases |es|
  {
    hide Inv, NoPanic, Enabled, Apply;
    if es != [] {
      StepKeeps(s, reserved, es[0]);
      RunKeeps(Apply(s, reserved, es[0]), reserved, es[1..], t);
    }
  }

  /** Every state a run can reach satisfies the invariant. */
  lemma {:induction false} Reachable(reserved: set<nat>, es: seq<Event>, t: State)
    requires Run(Init(), reserved, es, t)
    ensures Inv(t)
  {
    InitInv();
    RunKeeps(Init(), reserved, es, t);
  }

  lemma {:induction false} RunThen(s: State, reserved: set<nat>, es: seq<Event>, t: State, e: Event)
    requires Run(s, reserved, es, t) && Enabled(t, reserved, e) && (e.DoHandle? ==> NoPanic(t))
    ensures Run(s, reserved, es + [e], Apply(t, reserved, e))
    decreases |es|
  {
    hide Enabled, Apply, NoPanic;
    if es == [] {
      assert es + [e] == [e];
    } else {
      RunThen(Apply(s, reserved, es[0]), reserved, es[1..], t, e);
      assert (es + [e])[1..] == es[1..] + [e];
    }
  }

  /** Some run leads to the state. */
  ghost predicate Visited(reserved: set<nat>, s: State) {
    exists es :: Run(Init(), reserved, es, s)
  }

  lemma VisitedInv(reserved: set<nat>, s: State)
    requires Visited(reserved, s)
    ensures Inv(s)
  {
    hide Run, Inv, Init;
    var es :| Run(Init(), reserved, es, s);
    Reachable(reserved, es, s);
  }

  lemma VisitedStep(reserved: set<nat>, s: State, e: Event)
    requires Visited(reserved, s) && Enabled(s, reserved, e)
    ensures Inv(s) && (e.DoHandle? ==> NoPanic(s)) && Visited(reserved, Apply(s, reserved, e))
  {
    hide Run, Inv, Init, Enabled, Apply, NoPanic;
    VisitedInv(reserved, s);
    var es :| Run(Init(), reserved, es, s);
    StepKeeps(s, reserved, e);
    RunThen(Init(), reserved, es, s, e);
  }

  /**
   Operations and tokens. An operation exists for every connection token exactly once
   among queue, backlog, kernel, completion queue and the lost ones; it is the operation
   the token describes; no operation refers to a free slab index, so a reused index never
   receives a completion of its predecessor; and three accepts exist in all.
   */
  lemma {:induction false} OneOperationPerToken(reserved: set<nat>, es: seq<Event>, t: State)
    requires Run(Init(), reserved, es, t)
    ensures forall e :: e in Total(t) ==> e.userData in t.tokens && e.op == OpOf(t.tokens[e.userData])
    ensures forall i :: i in t.tokens && i != ACCEPT_TOKEN ==> Total(t)[Sqe(OpOf(t.tokens[i]), i)] == 1
    ensures forall e, x :: e in Total(t) && x in Total(t) && e.userData == x.userData ==> e == x
    ensures forall i, e :: i !in t.tokens && e in Total(t) ==> e.userData != i
    ensures t.acceptCount + Total(t)[ACCEPT_ENTRY] == 3
    ensures t.cq != [] ==> NoPanic(t)
  {
    Reachable(reserved, es, t);
    if t.cq != [] { NeverPanics(t); }
    hide BufInv, FdInv, DataInv, TokensApart, ClosedInv, NoPanic;
    forall e | e in Total(t) ensures e.userData in t.tokens && e.op == OpOf(t.tokens[e.userData]) {
      assert Matches(t.tokens, e);
    }
    forall i | i in t.tokens && i != ACCEPT_TOKEN ensures Total(t)[Sqe(OpOf(t.tokens[i]), i)] == 1 {
      assert Total(t)[EntryOf(i, t.tokens[i])] == 1;
    }
  }

  /** When nothing was dropped and nothing failed, every connection has its one operation under way. */
  lemma {:induction false} NoneLost(reserved: set<nat>, es: seq<Event>, t: State, i: nat)
    requires Run(Init(), reserved, es, t) && t.dropped == [] && t.failed == []
    requires i in t.tokens && i != ACCEPT_TOKEN
    ensures (Pending(t) + multiset(Entries(t.cq)))[Sqe(OpOf(t.tokens[i]), i)] == 1
  {
    OneOperationPerToken(reserved, es, t);
  }

  /** The queue, with the taken slots not yet noticed, never exceeds the ring. */
  predicate Fits(s: State) {
    s.stale + |s.sq| <= RING_ENTRIES
  }

  lemma {:induction false} QueueFits(s: State, reserved: set<nat>, es: seq<Event>, t: State)
    requires Fits(s) && Run(s, reserved, es, t)
    ensures Fits(t)
    decreases |es|
  {
    if es != [] {
      StepFits(s, reserved, es[0]);
      hide Apply, Enabled, NoPanic;
      QueueFits(Apply(s, reserved, es[0]), reserved, es[1..], t);
    }
  }

  lemma StepFits(s: State, reserved: set<nat>, e: Event)
    requires Fits(s) && Enabled(s, reserved, e) && (e.DoHandle? ==> NoPanic(s))
    ensures Fits(Apply(s, reserved, e))
  {
    hide Exec, Allowed;
  }

  /** A submit in which the kernel takes `n` entries. */
  function Submitted(s: State, n: nat): (t: State)
    requires n <= s.published <= |s.sq|
    ensures t.backlog == s.backlog
    decreases n
  {
    if n == 0 then s else Submitted(Consume(s), n - 1)
  }

  lemma {:induction false} SubmittedIs(s: State, n: nat)
    requires n <= s.published <= |s.sq|
    ensures var t := Submitted(s, n);
            t.sq == s.sq[n..] && t.stale == s.stale + n && t.backlog == s.backlog && t.dropped == s.dropped
    decreases n
  {
    if n > 0 {
      SubmittedIs(Consume(s), n - 1);
      assert s.sq[1..][n - 1..] == s.sq[n..];
    }
  }

  /**
   The ignored push. After a submit and a sync the entry popped from the backlog is lost
   exactly when the queue was full of entries the kernel has not taken: the submit took
   none of them, as when all were pushed since the last sync.
   */
  lemma LostExactly(s: State, n: nat)
    requires s.backlog != [] && n <= s.published <= |s.sq| && |s.sq| <= RING_ENTRIES
    ensures var t := PopBacklog(Sync(Submitted(s, n)));
            if n == 0 && |s.sq| == RING_ENTRIES then t.dropped == s.dropped + [s.backlog[0]] && t.sq == s.sq
            else t.dropped == s.dropped && t.sq == s.sq[n..] + [s.backlog[0]]
  {
    hide Submitted;
    SubmittedIs(s, n);
  }

  predicate UsesBuf(op: KOp<nat>) {
    op.KRecv? || op.KSend?
  }

  /**
   Buffers. Each allocated buffer is pooled once and held by no token, or not pooled and
   held by exactly one; no operation under way uses a pooled buffer, and no two use the same.
   */
  lemma {:induction false} BuffersOwned(reserved: set<nat>, es: seq<Event>, t: State)
    requires Run(Init(), reserved, es, t)
    ensures forall b :: b in t.world.mem ==>
              || (multiset(t.bufpool)[b] == 1 && forall i :: i in t.tokens ==> !HasBuf(t.tokens[i], b))
              || (multiset(t.bufpool)[b] == 0 && exists i :: i in t.tokens && HasBuf(t.tokens[i], b))
    ensures forall i, j, b :: i in t.tokens && j in t.tokens && HasBuf(t.tokens[i], b) && HasBuf(t.tokens[j], b) ==>
            i == j
    ensures forall e :: e in Total(t) && UsesBuf(e.op) ==> e.op.buf in t.world.mem && e.op.buf !in t.bufpool
    ensures forall e, x :: e in Total(t) && x in Total(t) - multiset{e} && UsesBuf(e.op) && UsesBuf(x.op) ==>
            e.op.buf != x.op.buf
  {
    Reachable(reserved, es, t);
    PoolOrToken(t.tokens, t.bufpool, t.world.mem);
    hide Inv;
    forall e | e in Total(t) && UsesBuf(e.op) ensures e.op.buf in t.world.mem && e.op.buf !in t.bufpool {
      UsesOwned(t, e);
    }
    forall e, x | e in Total(t) && x in Total(t) - multiset{e} && UsesBuf(e.op) && UsesBuf(x.op)
      ensures e.op.buf != x.op.buf
    {
      UsesApart(t, e, x);
    }
    assert TokensApart(t.tokens) by { PartOfInv(t); }
  }

  lemma PartOfInv(t: State)
    requires Inv(t)
    ensures TokensApart(t.tokens)
  {
  }

  lemma PoolOrToken(tokens: map<nat, Token>, bufpool: seq<nat>, mem: map<nat, seq<byte>>)
    requires BufInv(tokens, bufpool, mem)
    ensures forall b :: b in mem ==>
              || (multiset(bufpool)[b] == 1 && forall i :: i in tokens ==> !HasBuf(tokens[i], b))
              || (multiset(bufpool)[b] == 0 && exists i :: i in tokens && HasBuf(tokens[i], b))
  {
  }

  lemma UsesOwned(t: State, e: Sqe)
    requires Inv(t) && e in Total(t) && UsesBuf(e.op)
    ensures e.op.buf in t.world.mem && e.op.buf !in t.bufpool
  {
    LookupKind(t, e);
    hide TokenInv, FdInv, DataInv, TokensApart, ClosedInv;
    assert HasBuf(t.tokens[e.userData], e.op.buf);
  }

  lemma UsesApart(t: State, e: Sqe, x: Sqe)
    requires Inv(t) && e in Total(t) && x in Total(t) - multiset{e} && UsesBuf(e.op) && UsesBuf(x.op)
    ensures e.op.buf != x.op.buf
  {
    hide TokenInv, BufInv, FdInv, DataInv, TokensApart, ClosedInv;
    OthersApart(t.tokens, t.acceptCount, Total(t), e, x);
  }

  lemma LookupKind(t: State, e: Sqe)
    requires Inv(t) && e in Total(t)
    ensures e.userData in t.tokens && e.op == OpOf(t.tokens[e.userData])
  {
    hide BufInv, FdInv, DataInv, TokensApart, ClosedInv;
    assert Matches(t.tokens, e);
  }

  /**
   Descriptors. Open descriptors are exactly those held by a token or announced by an
   accept not yet handled, and each is held once.
   */
  lemma {:induction false} DescriptorsOwned(reserved: set<nat>, es: seq<Event>, t: State)
    requires Run(Init(), reserved, es, t)
    ensures forall fd :: fd in t.world.streams <==>
              || (exists i :: i in t.tokens && HasFd(t.tokens[i], fd))
              || (exists k :: 0 <= k < |t.cq| && AcceptedAs(t.cq[k], fd))
    ensures forall i, j, fd :: i in t.tokens && j in t.tokens && HasFd(t.tokens[i], fd) && HasFd(t.tokens[j], fd) ==>
            i == j
    ensures forall k, i, fd :: 0 <= k < |t.cq| && AcceptedAs(t.cq[k], fd) && i in t.tokens ==> !HasFd(t.tokens[i], fd)
  {
    Reachable(reserved, es, t);
    hide TokenInv, BufInv, DataInv, ClosedInv;
  }

  /**
   A handled completion closes a descriptor exactly when it removes a token, and the
   descriptor is the open one that token held; all others stay open.
   */
  lemma {:induction false} ClosesOnRemoval(reserved: set<nat>, es: seq<Event>, s: State, tokenKey: nat, bufKey: nat)
    requires Run(Init(), reserved, es, s) && Enabled(s, reserved, DoHandle(tokenKey, bufKey))
    ensures NoPanic(s)
    ensures var s' := Handle(s, tokenKey, bufKey);
            || (s.tokens.Keys <= s'.tokens.Keys && s'.world.streams == s.world.streams)
            || exists i :: i in s.tokens && !s.tokens[i].Accept? && s'.tokens.Keys == s.tokens.Keys - {i}
                 && s.tokens[i].fd in s.world.streams
                 && s'.world.streams == s.world.streams - {s.tokens[i].fd}
  {
    Reachable(reserved, es, s);
    NeverPanics(s);
    LookupKind(s, s.cq[0].entry) by { TakenTotals(s); }
    if s.cq[0].res == 0 && s.cq[0].entry.op.KRecv? {
      HandleEof(s, tokenKey, bufKey);
    }
    hide Inv;
    OnlyEofRemoves(s, tokenKey, bufKey);
  }

  lemma OnlyEofRemoves(s: State, tokenKey: nat, bufKey: nat)
    requires s.cq != [] && NoPanic(s)
    requires var e := s.cq[0].entry; e.userData in s.tokens && e.op == OpOf(s.tokens[e.userData])
    requires s.cq[0].res == 0 && s.cq[0].entry.op.KRecv? ==> s.cq[0].entry.op.fd in s.world.streams
    ensures var s' := Handle(s, tokenKey, bufKey); var i := s.cq[0].entry.userData;
            if s.cq[0].res == 0 && s.cq[0].entry.op.KRecv? then
              && s'.tokens.Keys == s.tokens.Keys - {i} && !s.tokens[i].Accept?
              && s.tokens[i].fd in s.world.streams
              && s'.world.streams == s.world.streams - {s.tokens[i].fd}
            else
              s.tokens.Keys <= s'.tokens.Keys && s'.world.streams == s.world.streams
  {
    if s.cq[0].res == 0 && s.cq[0].entry.op.KRecv? {
      assert Handle(s, tokenKey, bufKey).tokens == s.tokens - {s.cq[0].entry.userData};
    }
  }

  /** The connection's token waits for a poll or a read that has not completed. */
  ghost predicate Waiting(t: State, i: nat)
    requires i in t.tokens
  {
    && (t.tokens[i].Poll? || t.tokens[i].Read?)
    && Sqe(OpOf(t.tokens[i]), i) in Pending(t)
    && t.tokens[i].fd in t.world.streams
  }

  /** Everything received was sent back, exactly if no message's first short send was followed by another. */
  predicate EchoExactly(st: Stream) {
    st.sent == st.received <==> forall m :: m in st.log ==> FirstShortThenFull(|m.data|, m.results)
  }

  /** All messages went back whole exactly when each had its first short send followed by a full one. */
  lemma SettledEcho(st: Stream)
    requires Faithful(st) && AllSettled(st.log)
    ensures EchoExactly(st)
  {
    hide FirstShortThenFull, Feasible, After;
    EchoedInFull(st.log);
    forall m | m in st.log ensures Whole(m) <==> FirstShortThenFull(|m.data|, m.results) {
      assert Settled(m);
      CompleteExactly(|m.data|, m.results);
    }
  }

  lemma WaitingIdle(t: State, i: nat)
    requires DataInv(Pending(t), t.cq, t.world) && i in t.tokens && Waiting(t, i)
    ensures AllSettled(t.world.streams[t.tokens[i].fd].log)
  {
    assert PendingOk(t.world, OpOf(t.tokens[i]));
  }

  /**
   Echo. On every connection, at every moment, what was sent is message by message a
   contiguous prefix of what was received, whatever the other connections did to their
   buffers. A connection waiting to poll or to read has sent back everything exactly when
   every message's first short send was followed by a full one; so has a closed one.
   */
  lemma {:induction false} EchoTheorem(reserved: set<nat>, es: seq<Event>, t: State)
    requires Run(Init(), reserved, es, t)
    ensures forall fd :: fd in t.world.streams ==> Faithful(t.world.streams[fd])
    ensures forall i :: i in t.tokens && Waiting(t, i) ==> EchoExactly(t.world.streams[t.tokens[i].fd])
    ensures forall st :: st in t.closed ==> Faithful(st) && EchoExactly(st)
  {
    hide TokenInv, BufInv, FdInv, TokensApart, FirstShortThenFull, Faithful, AllSettled, Run, Init, EchoExactly,
      Pending;
    Reachable(reserved, es, t);
    hide PendingOk, DoneOk;
    forall i | i in t.tokens && Waiting(t, i) ensures EchoExactly(t.world.streams[t.tokens[i].fd]) {
      WaitingIdle(t, i);
      SettledEcho(t.world.streams[t.tokens[i].fd]);
    }
    forall st | st in t.closed ensures EchoExactly(st) {
      SettledEcho(st);
    }
  }
}
