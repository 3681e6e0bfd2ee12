/**
 What every run of the token server keeps: which token waits for which operation,
 who owns each buffer and each descriptor, and what the buffers in use hold.
 */
module TokenInvariant {
  import opened Streams
  import opened Kernel
  import opened Bags
  import opened PartialSend
  import opened TokenMachine

  // ---------------------------------------------------------------- operations

  ghost function Entries(cs: seq<Cqe>): seq<Sqe> {
    seq(|cs|, i requires 0 <= i < |cs| => cs[i].entry)
  }

  /** Operations that have not completed yet, wherever they wait. */
  ghost function Pending(s: State): multiset<Sqe> {
    multiset(s.sq) + multiset(s.backlog) + multiset(s.kernel)
  }

  /** Every operation created and not handled, with those that will never be. */
  ghost function Total(s: State): multiset<Sqe> {
    Pending(s) + multiset(Entries(s.cq)) + (multiset(s.dropped) + multiset(Entries(s.failed)))
  }

  /** The one entry a token can be waiting for. */
  ghost function EntryOf(i: nat, t: Token): Sqe {
    Sqe(OpOf(t), i)
  }

  /** Every entry belongs to a live token and is the entry that token describes. */
  ghost predicate Matches(tokens: map<nat, Token>, e: Sqe) {
    e.userData in tokens && e == EntryOf(e.userData, tokens[e.userData])
  }

  /**
   Exactly one operation exists per connection token, and three accepts exist in
   all, counting the ones still to be pushed.
   */
  ghost predicate TokenInv(tokens: map<nat, Token>, acceptCount: nat, total: multiset<Sqe>) {
    && (forall e :: e in total ==> Matches(tokens, e))
    && (forall i :: i in tokens && i != ACCEPT_TOKEN ==> total[EntryOf(i, tokens[i])] == 1)
    && (forall i :: i in tokens ==> (tokens[i].Accept? <==> i == ACCEPT_TOKEN))
    && ACCEPT_TOKEN in tokens
    && total[ACCEPT_ENTRY] + acceptCount == ACCEPT_BUDGET
  }

  // ---------------------------------------------------------------- ownership

  ghost predicate HasFd(t: Token, fd: nat) {
    !t.Accept? && t.fd == fd
  }

  ghost predicate HasBuf(t: Token, buf: nat) {
    (t.Read? || t.Write?) && t.buf == buf
  }

  ghost predicate AcceptedAs(c: Cqe, fd: nat) {
    c.entry.op.KAccept? && c.res == fd
  }

  /** No two tokens share a descriptor or a buffer, and all they name exist. */
  ghost predicate TokensApart(tokens: map<nat, Token>) {
    && (forall i, j, fd :: i in tokens && j in tokens && HasFd(tokens[i], fd) && HasFd(tokens[j], fd) ==> i == j)
    && (forall i, j, b :: i in tokens && j in tokens && HasBuf(tokens[i], b) && HasBuf(tokens[j], b) ==> i == j)
  }

  /** Each buffer is pooled exactly once or held by a token, never both. */
  ghost predicate BufInv(tokens: map<nat, Token>, bufpool: seq<nat>, mem: map<nat, seq<byte>>) {
    && (forall b :: b in mem ==> |mem[b]| == BUF_LEN)
    && (forall b :: b in bufpool ==> b in mem && multiset(bufpool)[b] == 1)
    && (forall i, b :: i in tokens && HasBuf(tokens[i], b) ==> b in mem && b !in bufpool)
    && (forall b :: b in mem && b !in bufpool ==> exists i :: i in tokens && HasBuf(tokens[i], b))
  }

  /** Each open descriptor is held by a token or announced by one accept completion. */
  ghost predicate FdInv(tokens: map<nat, Token>, cq: seq<Cqe>, streams: map<nat, Stream>) {
    && (forall i, fd :: i in tokens && HasFd(tokens[i], fd) ==> fd in streams)
    && (forall k, fd :: 0 <= k < |cq| && AcceptedAs(cq[k], fd) ==> fd in streams)
    && (forall k, i, fd :: 0 <= k < |cq| && AcceptedAs(cq[k], fd) && i in tokens ==> !HasFd(tokens[i], fd))
    && (forall k, l, fd :: 0 <= k < l < |cq| && AcceptedAs(cq[k], fd) ==> !AcceptedAs(cq[l], fd))
    && (forall fd :: fd in streams ==>
          || (exists i :: i in tokens && HasFd(tokens[i], fd))
          || (exists k :: 0 <= k < |cq| && AcceptedAs(cq[k], fd)))
  }

  // ---------------------------------------------------------------- contents

  /** The server stopped sending this message. */
  ghost predicate Settled(m: Message) {
    m.data != [] && Feasible(|m.data|, m.results) && After(|m.data|, m.results) == Finished
  }

  ghost predicate AllSettled(log: seq<Message>) {
    forall m :: m in log ==> Settled(m)
  }

  ghost predicate BufferHolds(w: World<nat>, buf: nat, data: seq<byte>) {
    buf in w.mem && |data| <= |w.mem[buf]| == BUF_LEN && w.mem[buf][..|data|] == data
  }

  /** All messages but the last are settled, and the buffer holds the last one. */
  ghost predicate Echoing(w: World<nat>, fd: nat, buf: nat) {
    && fd in w.streams
    && var log := w.streams[fd].log;
    && log != [] && AllSettled(Front(log)) && Last(log).data != []
    && BufferHolds(w, buf, Last(log).data)
  }

  ghost predicate Idle(w: World<nat>, fd: nat) {
    fd in w.streams && AllSettled(w.streams[fd].log)
  }

  /** What holds while an operation has not completed. */
  ghost predicate PendingOk(w: World<nat>, op: KOp<nat>) {
    match op
    case KAccept => true
    case KPoll(fd) => Idle(w, fd)
    case KRecv(fd, buf, len) => Idle(w, fd) && BufferHolds(w, buf, []) && len == BUF_LEN
    case KSend(fd, buf, offset, len) =>
      && Echoing(w, fd, buf)
      && var m := Last(w.streams[fd].log);
      Feasible(|m.data|, m.results) && After(|m.data|, m.results) == At(offset, len)
    case KClose(_) => false
  }

  /** What holds between a successful completion and its handling. */
  ghost predicate DoneOk(w: World<nat>, op: KOp<nat>, res: int) {
    match op
    case KAccept => 0 <= res && res in w.streams && w.streams[res] == EMPTY_STREAM
    case KPoll(fd) => Idle(w, fd)
    case KRecv(fd, buf, len) =>
      if res == 0 then Idle(w, fd) && BufferHolds(w, buf, [])
      else Echoing(w, fd, buf) && |Last(w.streams[fd].log).data| == res && Last(w.streams[fd].log).results == []
    case KSend(fd, buf, offset, len) =>
      && Echoing(w, fd, buf)
      && var m := Last(w.streams[fd].log);
      && m.results != [] && Feasible(|m.data|, m.results)
      && After(|m.data|, Front(m.results)) == At(offset, len) && Last(m.results) == res
    case KClose(_) => false
  }

  ghost predicate DataInv(pending: multiset<Sqe>, cq: seq<Cqe>, w: World<nat>) {
    && (forall e :: e in pending ==> PendingOk(w, e.op))
    && (forall c :: c in cq && 0 <= c.res ==> DoneOk(w, c.entry.op, c.res))
    && (forall fd :: fd in w.streams ==> Faithful(w.streams[fd]))
  }

  ghost predicate ClosedInv(closed: seq<Stream>) {
    forall st :: st in closed ==> Faithful(st) && AllSettled(st.log)
  }

  ghost predicate Inv(s: State) {
    && TokenInv(s.tokens, s.acceptCount, Total(s))
    && TokensApart(s.tokens)
    && BufInv(s.tokens, s.bufpool, s.world.mem)
    && FdInv(s.tokens, s.cq, s.world.streams)
    && DataInv(Pending(s), s.cq, s.world)
    && ClosedInv(s.closed)
    && s.published <= |s.sq|
  }

  lemma InitInv()
    ensures Inv(Init())
  {
  }

  // ---------------------------------------------------------------- moving entries between queues

  lemma ConsumeKeeps(s: State)
    requires Inv(s) && 0 < s.published && s.sq != []
    ensures Inv(Consume(s))
  {
    hide TokenInv, TokensApart, BufInv, FdInv, DataInv, ClosedInv;
    var s' := Consume(s);
    assert s.sq == [s.sq[0]] + s.sq[1..];
    assert Pending(s') == Pending(s);
  }

  lemma DataShrinks(pending: multiset<Sqe>, fewer: multiset<Sqe>, cq: seq<Cqe>, w: World<nat>)
    requires DataInv(pending, cq, w) && fewer <= pending
    ensures DataInv(fewer, cq, w)
  {
  }

  lemma PopBacklogKeeps(s: State)
    requires Inv(s) && s.backlog != []
    ensures Inv(PopBacklog(s))
  {
    hide TokenInv, TokensApart, BufInv, FdInv, DataInv, ClosedInv;
    var s' := PopBacklog(s);
    assert s.backlog == [s.backlog[0]] + s.backlog[1..];
    assert Pending(s') <= Pending(s) && Total(s') == Total(s);
    DataShrinks(Pending(s), Pending(s'), s.cq, s.world);
  }

  lemma SpendAccept(tokens: map<nat, Token>, acceptCount: nat, total: multiset<Sqe>)
    requires TokenInv(tokens, acceptCount, total) && 0 < acceptCount
    ensures TokenInv(tokens, acceptCount - 1, total + multiset{ACCEPT_ENTRY})
  {
  }

  lemma AcceptPending(pending: multiset<Sqe>, cq: seq<Cqe>, w: World<nat>)
    requires DataInv(pending, cq, w)
    ensures DataInv(pending + multiset{ACCEPT_ENTRY}, cq, w)
  {
  }

  lemma PushAcceptKeeps(s: State)
    requires Inv(s) && 0 < s.acceptCount && !Full(s)
    ensures Inv(PushAccept(s))
  {
    hide TokenInv, TokensApart, BufInv, FdInv, DataInv, ClosedInv;
    var s' := PushAccept(s);
    assert Total(s') == Total(s) + multiset{ACCEPT_ENTRY};
    assert Pending(s') == Pending(s) + multiset{ACCEPT_ENTRY};
    SpendAccept(s.tokens, s.acceptCount, Total(s));
    AcceptPending(Pending(s), s.cq, s.world);
  }

  /** The push adds one pending entry, wherever it lands. */
  lemma PushAdds(s: State, e: Sqe)
    ensures Pending(Push(s, e)) == Pending(s) + multiset{e}
    ensures Total(Push(s, e)) == Total(s) + multiset{e}
  {
  }

  lemma EntriesTail(cs: seq<Cqe>)
    requires cs != []
    ensures multiset(Entries(cs)) == multiset{cs[0].entry} + multiset(Entries(cs[1..]))
  {
    assert Entries(cs) == [cs[0].entry] + Entries(cs[1..]);
  }

  lemma EntriesAppend(cs: seq<Cqe>, c: Cqe)
    ensures multiset(Entries(cs + [c])) == multiset(Entries(cs)) + multiset{c.entry}
  {
    assert Entries(cs + [c]) == Entries(cs) + [c.entry];
  }

  // ---------------------------------------------------------------- non-interference

  /** Two operations share neither a connection nor a buffer. */
  ghost predicate OpsApart(a: KOp<nat>, b: KOp<nat>) {
    && (a.KAccept? || b.KAccept? || a.fd != b.fd)
    && ((a.KRecv? || a.KSend?) && (b.KRecv? || b.KSend?) ==> a.buf != b.buf)
  }

  /** All other operations belong to other tokens, hence to other connections and buffers. */
  lemma OthersApart(tokens: map<nat, Token>, acceptCount: nat, total: multiset<Sqe>, e: Sqe, x: Sqe)
    requires TokenInv(tokens, acceptCount, total) && TokensApart(tokens)
    requires e in total && !e.op.KAccept? && x in total - multiset{e}
    ensures x.userData != e.userData && OpsApart(e.op, x.op)
  {
    var i, j := e.userData, x.userData;
    assert Matches(tokens, e) && Matches(tokens, x);
    assert total[e] == 1 && x != e;
    if !x.op.KAccept? {
      assert HasFd(tokens[i], e.op.fd) && HasFd(tokens[j], x.op.fd);
      if (e.op.KRecv? || e.op.KSend?) && (x.op.KRecv? || x.op.KSend?) {
        assert HasBuf(tokens[i], e.op.buf) && HasBuf(tokens[j], x.op.buf);
      }
    }
  }

  /** Executing one operation disturbs no operation apart from it. */
  lemma ExecFrame(w: World<nat>, reserved: set<nat>, op: KOp<nat>, o: Outcome, x: KOp<nat>)
    requires Allowed(w, reserved, op, o) && !o.Closed? && OpsApart(op, x)
    ensures PendingOk(w, x) ==> PendingOk(Exec(w, reserved, op, o), x)
    ensures forall res :: 0 <= res && DoneOk(w, x, res) && (x.KAccept? && !op.KAccept? ==> res != op.fd) ==>
              DoneOk(Exec(w, reserved, op, o), x, res)
  {
  }

  lemma ReceivedDone(w: World<nat>, reserved: set<nat>, op: KOp<nat>, data: seq<byte>)
    requires PendingOk(w, op) && Allowed(w, reserved, op, Received(data)) && op.KRecv?
    requires Faithful(w.streams[op.fd])
    ensures var w' := Exec(w, reserved, op, Received(data));
            DoneOk(w', op, |data|) && op.fd in w'.streams && Faithful(w'.streams[op.fd])
  {
    hide Faithful, AllSettled;
    if data != [] {
      var log := w.streams[op.fd].log;
      ReceiveKeepsFaithful(w.streams[op.fd], data);
      assert Front(log + [Message(data, [])]) == log;
    }
  }

  /** An operation that completes hands its handler what that handler relies on. */
  lemma ExecDone(w: World<nat>, reserved: set<nat>, op: KOp<nat>, o: Outcome)
    requires PendingOk(w, op) && Allowed(w, reserved, op, o)
    requires forall fd :: fd in w.streams ==> Faithful(w.streams[fd])
    ensures var w' := Exec(w, reserved, op, o);
            && (!o.Failed? ==> DoneOk(w', op, Res(o)))
            && (forall fd :: fd in w'.streams ==> Faithful(w'.streams[fd]))
  {
    match o
    case Failed(_) =>
    case Ready(_) =>
    case Accepted(_) =>
    case Received(data) =>
      hide Faithful, DoneOk, PendingOk;
      ReceivedDone(w, reserved, op, data);
    case Sent(n) =>
      hide Faithful, DoneOk, PendingOk;
      SentDone(w, reserved, op, n);
  }

  /** The bytes a send reads from its buffer are the next bytes of the message. */
  lemma SentBytes(w: World<nat>, op: KOp<nat>, n: nat)
    requires PendingOk(w, op) && op.KSend? && n <= op.len
    ensures var m := Last(w.streams[op.fd].log); var done := Sum(m.results);
            && done == op.offset && done + op.len <= |m.data| <= |w.mem[op.buf]|
            && w.mem[op.buf][op.offset..op.offset + n] == m.data[done..done + n]
  {
    var m := Last(w.streams[op.fd].log);
    WindowIsNextSlice(|m.data|, m.results);
    assert w.mem[op.buf][op.offset..op.offset + n] == w.mem[op.buf][..|m.data|][op.offset..op.offset + n];
  }

  lemma SentDone(w: World<nat>, reserved: set<nat>, op: KOp<nat>, n: nat)
    requires PendingOk(w, op) && Allowed(w, reserved, op, Sent(n)) && op.KSend?
    requires Faithful(w.streams[op.fd])
    ensures var w' := Exec(w, reserved, op, Sent(n));
            DoneOk(w', op, n) && op.fd in w'.streams && Faithful(w'.streams[op.fd])
  {
    hide Faithful, AllSettled, After, Feasible, Sum;
    var st := w.streams[op.fd];
    var m := Last(st.log);
    var bytes := w.mem[op.buf][op.offset..op.offset + n];
    SentBytes(w, op, n);
    SendKeepsFaithful(st, bytes);
    FeasibleExtend(|m.data|, m.results, n);
    var st' := AfterSend(st, bytes);
    assert Last(st'.log) == Message(m.data, m.results + [n]) && Front(st'.log) == Front(st.log);
  }

  lemma CompleteKeeps(s: State, reserved: set<nat>, k: nat, o: Outcome)
    requires Inv(s) && k < |s.kernel| && Allowed(s.world, reserved, s.kernel[k].op, o)
    ensures Inv(Complete(s, reserved, k, o))
  {
    hide TokenInv, TokensApart, BufInv, FdInv, DataInv, ClosedInv;
    CompleteTotals(s, reserved, k, o);
    NotClosed(s, reserved, k, o);
    CompleteFd(s.tokens, s.cq, s.world, reserved, s.kernel[k], o);
    CompleteBuf(s.tokens, s.bufpool, s.world, reserved, s.kernel[k], o);
    CompleteData(s, reserved, k, o);
  }

  lemma NotClosed(s: State, reserved: set<nat>, k: nat, o: Outcome)
    requires Inv(s) && k < |s.kernel| && Allowed(s.world, reserved, s.kernel[k].op, o)
    ensures !o.Closed?
  {
    assert s.kernel[k] in Total(s);
  }

  lemma CompleteData(s: State, reserved: set<nat>, k: nat, o: Outcome)
    requires Inv(s) && k < |s.kernel| && Allowed(s.world, reserved, s.kernel[k].op, o) && !o.Closed?
    ensures DataInv(Pending(Complete(s, reserved, k, o)), Complete(s, reserved, k, o).cq,
                    Complete(s, reserved, k, o).world)
  {
    hide TokenInv, TokensApart, BufInv, FdInv, ClosedInv, PendingOk, DoneOk, Faithful;
    CompletedOk(s, reserved, k, o);
    CompletePending(s, reserved, k, o);
    CompleteCq(s, reserved, k, o);
  }

  lemma CompleteTotals(s: State, reserved: set<nat>, k: nat, o: Outcome)
    requires k < |s.kernel| && Allowed(s.world, reserved, s.kernel[k].op, o)
    ensures var s' := Complete(s, reserved, k, o);
            && Pending(s) == Pending(s') + multiset{s.kernel[k]} && s.kernel[k] in Pending(s)
            && Total(s') == Total(s) && s.kernel[k] in Total(s)
  {
    RemoveAt(s.kernel, k);
    EntriesAppend(s.cq, Cqe(s.kernel[k], Res(o)));
  }

  lemma CompleteFd(tokens: map<nat, Token>, cq: seq<Cqe>, w: World<nat>, reserved: set<nat>, e: Sqe, o: Outcome)
    requires FdInv(tokens, cq, w.streams) && Allowed(w, reserved, e.op, o) && !o.Closed?
    ensures FdInv(tokens, cq + [Cqe(e, Res(o))], Exec(w, reserved, e.op, o).streams)
  {
    var cq' := cq + [Cqe(e, Res(o))];
    var streams' := Exec(w, reserved, e.op, o).streams;
    assert streams'.Keys == w.streams.Keys + if o.Accepted? then {o.fd} else {};
    forall fd | fd in streams' && !(exists i :: i in tokens && HasFd(tokens[i], fd))
      ensures exists j :: 0 <= j < |cq'| && AcceptedAs(cq'[j], fd)
    {
      if o.Accepted? && fd == o.fd {
        assert AcceptedAs(cq'[|cq|], fd);
      } else {
        var j :| 0 <= j < |cq| && AcceptedAs(cq[j], fd);
        assert AcceptedAs(cq'[j], fd);
      }
    }
  }

  lemma CompleteBuf(tokens: map<nat, Token>, bufpool: seq<nat>, w: World<nat>, reserved: set<nat>, e: Sqe, o: Outcome)
    requires BufInv(tokens, bufpool, w.mem) && Allowed(w, reserved, e.op, o)
    ensures BufInv(tokens, bufpool, Exec(w, reserved, e.op, o).mem)
  {
    assert Exec(w, reserved, e.op, o).mem.Keys == w.mem.Keys;
  }

  /** The completed operation is in order, and so are all streams. */
  lemma CompletedOk(s: State, reserved: set<nat>, k: nat, o: Outcome)
    requires Inv(s) && k < |s.kernel| && Allowed(s.world, reserved, s.kernel[k].op, o) && !o.Closed?
    ensures var s' := Complete(s, reserved, k, o);
            && (!o.Failed? ==> DoneOk(s'.world, s.kernel[k].op, Res(o)))
            && forall fd :: fd in s'.world.streams ==> Faithful(s'.world.streams[fd])
  {
    hide TokensApart, BufInv, FdInv, PendingOk, DoneOk, Faithful;
    var e := s.kernel[k];
    assert e in Pending(s);
    ExecDone(s.world, reserved, e.op, o);
  }

  lemma CompletePending(s: State, reserved: set<nat>, k: nat, o: Outcome)
    requires Inv(s) && k < |s.kernel| && Allowed(s.world, reserved, s.kernel[k].op, o) && !o.Closed?
    ensures var s' := Complete(s, reserved, k, o);
            forall x :: x in Pending(s') ==> PendingOk(s'.world, x.op)
  {
    hide TokenInv, TokensApart, BufInv, FdInv, ClosedInv, PendingOk, DoneOk, Faithful;
    var s' := Complete(s, reserved, k, o);
    CompleteTotals(s, reserved, k, o);
    forall x | x in Pending(s') ensures PendingOk(s'.world, x.op) {
      assert x in Pending(s);
      OtherUndisturbed(s, reserved, k, o, x);
    }
  }

  lemma CompleteCq(s: State, reserved: set<nat>, k: nat, o: Outcome)
    requires Inv(s) && k < |s.kernel| && Allowed(s.world, reserved, s.kernel[k].op, o) && !o.Closed?
    ensures forall c :: c in s.cq && 0 <= c.res ==> DoneOk(Complete(s, reserved, k, o).world, c.entry.op, c.res)
  {
    hide TokensApart, BufInv, FdInv, ClosedInv, PendingOk, DoneOk, Faithful;
    forall c | c in s.cq && 0 <= c.res ensures DoneOk(Complete(s, reserved, k, o).world, c.entry.op, c.res) {
      var j :| 0 <= j < |s.cq| && s.cq[j] == c;
      assert Entries(s.cq)[j] == c.entry;
      OtherUndisturbed(s, reserved, k, o, c.entry);
      if c.entry.op.KAccept? && !s.kernel[k].op.KAccept? {
        assert s.kernel[k] in Total(s);
        AnnouncedApart(s.tokens, s.cq, s.world.streams, s.kernel[k], j);
      }
    }
  }

  /** A descriptor announced by an accept is not the one of an operation in flight. */
  lemma AnnouncedApart(tokens: map<nat, Token>, cq: seq<Cqe>, streams: map<nat, Stream>, e: Sqe, j: nat)
    requires FdInv(tokens, cq, streams) && Matches(tokens, e) && !e.op.KAccept?
    requires j < |cq| && cq[j].entry.op.KAccept?
    ensures cq[j].res != e.op.fd
  {
    assert HasFd(tokens[e.userData], e.op.fd);
    assert cq[j].res == e.op.fd ==> AcceptedAs(cq[j], e.op.fd);
  }

  lemma OtherUndisturbed(s: State, reserved: set<nat>, k: nat, o: Outcome, x: Sqe)
    requires Inv(s) && k < |s.kernel| && Allowed(s.world, reserved, s.kernel[k].op, o) && !o.Closed?
    requires x in (Pending(s) - multiset{s.kernel[k]}) + multiset(Entries(s.cq))
    ensures PendingOk(s.world, x.op) ==> PendingOk(Exec(s.world, reserved, s.kernel[k].op, o), x.op)
    ensures var op := s.kernel[k].op;
            forall res :: 0 <= res && DoneOk(s.world, x.op, res) && (x.op.KAccept? && !op.KAccept? ==> res != op.fd) ==>
              DoneOk(Exec(s.world, reserved, op, o), x.op, res)
  {
    hide TokenInv, TokensApart, BufInv, FdInv, DataInv, ClosedInv;
    hide PendingOk, DoneOk;
    var e := s.kernel[k];
    assert e in Pending(s);
    if !e.op.KAccept? {
      OthersApart(s.tokens, s.acceptCount, Total(s), e, x);
    }
    ExecFrame(s.world, reserved, e.op, o, x.op);
  }

  // ---------------------------------------------------------------- handling a completion

  /** The state with the oldest completion taken off the queue. */
  ghost function Taken(s: State): State
    requires s.cq != []
  {
    s.(cq := s.cq[1..])
  }

  lemma TakenTotals(s: State)
    requires s.cq != []
    ensures Pending(Taken(s)) == Pending(s)
    ensures Total(s) == Total(Taken(s)) + multiset{s.cq[0].entry}
  {
    EntriesTail(s.cq);
  }

  /** The handler finds the token the completion was submitted with, still of the same kind. */
  lemma LookupSucceeds(s: State)
    requires Inv(s) && s.cq != []
    ensures Matches(s.tokens, s.cq[0].entry)
    ensures s.cq[0].entry.userData == ACCEPT_TOKEN <==> s.cq[0].entry.op.KAccept?
    ensures 0 <= s.cq[0].res ==> DoneOk(s.world, s.cq[0].entry.op, s.cq[0].res)
  {
    hide TokensApart, BufInv, FdInv, PendingOk, DoneOk;
    TakenTotals(s);
    assert s.cq[0].entry in Total(s);
  }

  /** A token that moves on to its next operation. */
  lemma Retoken(tokens: map<nat, Token>, acceptCount: nat, rest: multiset<Sqe>, i: nat, t: Token)
    requires i in tokens && i != ACCEPT_TOKEN && !t.Accept?
    requires TokenInv(tokens, acceptCount, rest + multiset{EntryOf(i, tokens[i])})
    ensures TokenInv(tokens[i := t], acceptCount, rest + multiset{EntryOf(i, t)})
  {
    var total := rest + multiset{EntryOf(i, tokens[i])};
    var tokens' := tokens[i := t];
    var total' := rest + multiset{EntryOf(i, t)};
    assert total[EntryOf(i, tokens[i])] == 1;
    forall e | e in rest ensures e.userData != i && Matches(tokens', e) {
      assert e in total && Matches(tokens, e);
    }
    forall j | j in tokens' && j != ACCEPT_TOKEN ensures total'[EntryOf(j, tokens'[j])] == 1 {
      if j != i {
        assert total[EntryOf(j, tokens[j])] == 1;
      } else {
        assert EntryOf(i, t) !in rest;
      }
    }
  }

  /** A token inserted by an accept, which gives one accept back to the budget. */
  lemma NewToken(tokens: map<nat, Token>, acceptCount: nat, rest: multiset<Sqe>, i: nat, t: Token)
    requires i !in tokens && !t.Accept?
    requires TokenInv(tokens, acceptCount, rest + multiset{ACCEPT_ENTRY})
    ensures TokenInv(tokens[i := t], acceptCount + 1, rest + multiset{EntryOf(i, t)})
  {
    var total := rest + multiset{ACCEPT_ENTRY};
    var tokens' := tokens[i := t];
    var total' := rest + multiset{EntryOf(i, t)};
    forall e | e in rest ensures e.userData != i && Matches(tokens', e) {
      assert e in total && Matches(tokens, e);
    }
    forall j | j in tokens' && j != ACCEPT_TOKEN ensures total'[EntryOf(j, tokens'[j])] == 1 {
      if j != i {
        assert total[EntryOf(j, tokens[j])] == 1;
      } else {
        assert EntryOf(i, t) !in rest;
      }
    }
  }

  /** A token removed together with its last operation. */
  lemma DropToken(tokens: map<nat, Token>, acceptCount: nat, rest: multiset<Sqe>, i: nat)
    requires i in tokens && i != ACCEPT_TOKEN
    requires TokenInv(tokens, acceptCount, rest + multiset{EntryOf(i, tokens[i])})
    ensures TokenInv(tokens - {i}, acceptCount, rest)
  {
    var total := rest + multiset{EntryOf(i, tokens[i])};
    assert total[EntryOf(i, tokens[i])] == 1;
    forall e | e in rest ensures e.userData != i && Matches(tokens - {i}, e) {
      assert e in total && Matches(tokens, e);
    }
    forall j | j in tokens - {i} && j != ACCEPT_TOKEN ensures rest[EntryOf(j, tokens[j])] == 1 {
      assert total[EntryOf(j, tokens[j])] == 1;
    }
  }

  /** A non-accept completion announces no descriptor, so taking it loses none. */
  lemma FdTail(tokens: map<nat, Token>, cq: seq<Cqe>, streams: map<nat, Stream>)
    requires FdInv(tokens, cq, streams) && cq != []
    requires !cq[0].entry.op.KAccept? || cq[0].res < 0
    ensures FdInv(tokens, cq[1..], streams)
  {
    forall fd | fd in streams && !(exists i :: i in tokens && HasFd(tokens[i], fd))
      ensures exists k :: 0 <= k < |cq[1..]| && AcceptedAs(cq[1..][k], fd)
    {
      var k :| 0 <= k < |cq| && AcceptedAs(cq[k], fd);
      assert AcceptedAs(cq[1..][k - 1], fd);
    }
  }

  lemma FdRetoken(tokens: map<nat, Token>, cq: seq<Cqe>, streams: map<nat, Stream>, i: nat, t: Token)
    requires FdInv(tokens, cq, streams) && i in tokens
    requires !tokens[i].Accept? && !t.Accept? && t.fd == tokens[i].fd
    ensures FdInv(tokens[i := t], cq, streams)
  {
    var tokens' := tokens[i := t];
    forall j, fd | j in tokens ensures HasFd(tokens'[j], fd) <==> HasFd(tokens[j], fd) {
    }
    forall fd | fd in streams && exists j :: j in tokens && HasFd(tokens[j], fd)
      ensures exists j :: j in tokens' && HasFd(tokens'[j], fd)
    {
      var j :| j in tokens && HasFd(tokens[j], fd);
      assert HasFd(tokens'[j], fd);
    }
  }

  /** The successor holds no descriptor and no buffer its predecessor did not hold. */
  lemma ApartKeep(tokens: map<nat, Token>, i: nat, t: Token)
    requires TokensApart(tokens) && i in tokens
    requires forall fd :: HasFd(t, fd) ==> HasFd(tokens[i], fd)
    requires forall b :: HasBuf(t, b) ==> HasBuf(tokens[i], b)
    ensures TokensApart(tokens[i := t])
  {
  }

  lemma HandleError(s: State, tokenKey: nat, bufKey: nat)
    requires Inv(s) && s.cq != [] && s.cq[0].res < 0
    ensures Inv(Handle(s, tokenKey, bufKey))
  {
    hide TokenInv, TokensApart, BufInv, FdInv, ClosedInv;
    var s' := Handle(s, tokenKey, bufKey);
    TakenTotals(s);
    EntriesAppend(s.failed, s.cq[0]);
    assert Total(s') == Total(s) && Pending(s') == Pending(s);
    FdTail(s.tokens, s.cq, s.world.streams);
  }

  /** Shared by all arms that keep memory and connections: the handler's data obligation. */
  lemma HandleData(s: State, e: Sqe)
    requires DataInv(Pending(s), s.cq, s.world) && s.cq != [] && PendingOk(s.world, e.op)
    ensures DataInv(Pending(s) + multiset{e}, s.cq[1..], s.world)
  {
  }

  /** No index taken by the completion arm is out of range. */
  lemma NeverPanics(s: State)
    requires Inv(s) && s.cq != []
    ensures NoPanic(s)
  {
    hide TokenInv, TokensApart, FdInv, DataInv, ClosedInv;
    LookupSucceeds(s);
    var c := s.cq[0];
    if 0 <= c.res {
      assert DoneOk(s.world, c.entry.op, c.res);
      if c.entry.op.KSend? {
        var m := Last(s.world.streams[c.entry.op.fd].log);
        WindowIsNextSlice(|m.data|, m.results);
      }
    }
  }

  /** An arm that gives the completed token `t` as its next state and pushes `t`'s entry. */
  lemma HandleNext(s: State, s1: State, i: nat, t: Token)
    requires Inv(s) && s.cq != [] && i == s.cq[0].entry.userData && 0 <= s.cq[0].res
    requires Matches(s.tokens, s.cq[0].entry) && i != ACCEPT_TOKEN && !s.tokens[i].Accept?
    requires !t.Accept? && t.fd == s.tokens[i].fd
    requires s1 == Taken(s).(tokens := s.tokens[i := t], bufpool := s1.bufpool, world := s1.world)
    requires TokensApart(s1.tokens) && BufInv(s1.tokens, s1.bufpool, s1.world.mem)
    requires s1.world.streams == s.world.streams
    requires DataInv(Pending(s), s.cq, s1.world) && PendingOk(s1.world, OpOf(t))
    ensures Inv(Push(s1, EntryOf(i, t)))
  {
    hide TokenInv, TokensApart, BufInv, FdInv, DataInv, ClosedInv, PendingOk;
    var e := EntryOf(i, t);
    TakenTotals(s);
    assert Total(s1) == Total(Taken(s)) && Pending(s1) == Pending(s);
    PushAdds(s1, e);
    Retoken(s.tokens, s.acceptCount, Total(Taken(s)), i, t);
    FdTail(s.tokens, s.cq, s.world.streams);
    FdRetoken(s.tokens, s1.cq, s.world.streams, i, t);
    HandleData(s.(world := s1.world), e);
  }

  lemma HandleAccept(s: State, tokenKey: nat, bufKey: nat)
    requires Inv(s) && s.cq != [] && 0 <= s.cq[0].res && s.cq[0].entry.op.KAccept? && tokenKey !in s.tokens
    ensures NoPanic(s) && Inv(Handle(s, tokenKey, bufKey))
  {
    hide TokenInv, TokensApart, BufInv, FdInv, DataInv, ClosedInv, PendingOk, DoneOk;
    NeverPanics(s);
    LookupSucceeds(s);
    var fd := s.cq[0].res;
    var t := Poll(fd);
    var s1 := Taken(s).(acceptCount := s.acceptCount + 1, tokens := s.tokens[tokenKey := t]);
    assert Handle(s, tokenKey, bufKey) == Push(s1, EntryOf(tokenKey, t));
    TakenTotals(s);
    assert Total(s1) == Total(Taken(s)) && Pending(s1) == Pending(s);
    PushAdds(s1, EntryOf(tokenKey, t));
    NewToken(s.tokens, s.acceptCount, Total(Taken(s)), tokenKey, t);
    ApartNew(s.tokens, s.cq, s.world.streams, tokenKey, fd);
    FdAccept(s.tokens, s.cq, s.world.streams, tokenKey, fd);
    BufInsert(s.tokens, s.bufpool, s.world.mem, tokenKey, t);
    AcceptToPoll(s.world, fd);
    HandleData(s, EntryOf(tokenKey, t));
  }

  lemma ApartNew(tokens: map<nat, Token>, cq: seq<Cqe>, streams: map<nat, Stream>, i: nat, fd: nat)
    requires FdInv(tokens, cq, streams) && TokensApart(tokens) && cq != [] && AcceptedAs(cq[0], fd) && i !in tokens
    ensures TokensApart(tokens[i := Poll(fd)])
  {
  }

  /** The new token takes over the descriptor the completion announced. */
  lemma FdAccept(tokens: map<nat, Token>, cq: seq<Cqe>, streams: map<nat, Stream>, i: nat, fd: nat)
    requires FdInv(tokens, cq, streams) && cq != [] && AcceptedAs(cq[0], fd) && i !in tokens
    ensures FdInv(tokens[i := Poll(fd)], cq[1..], streams)
  {
    var tokens' := tokens[i := Poll(fd)];
    var cq' := cq[1..];
    forall x | x in streams && !(exists j :: j in tokens' && HasFd(tokens'[j], x))
      ensures exists k :: 0 <= k < |cq'| && AcceptedAs(cq'[k], x)
    {
      assert !HasFd(tokens'[i], x);
      assert forall j :: j in tokens ==> tokens'[j] == tokens[j];
      var k :| 0 <= k < |cq| && AcceptedAs(cq[k], x);
      assert AcceptedAs(cq'[k - 1], x);
    }
  }

  /** Replacing a token by one that holds the same buffers changes no ownership. */
  lemma BufInsert(tokens: map<nat, Token>, bufpool: seq<nat>, mem: map<nat, seq<byte>>, i: nat, t: Token)
    requires BufInv(tokens, bufpool, mem)
    requires forall b :: HasBuf(t, b) <==> i in tokens && HasBuf(tokens[i], b)
    ensures BufInv(tokens[i := t], bufpool, mem)
  {
    var tokens' := tokens[i := t];
    forall b | b in mem && b !in bufpool ensures exists j :: j in tokens' && HasBuf(tokens'[j], b) {
      var j :| j in tokens && HasBuf(tokens[j], b);
      assert HasBuf(tokens'[j], b);
    }
  }

  /** What each completion leaves behind is what the next operation needs. */
  lemma AcceptToPoll(w: World<nat>, res: nat)
    requires DoneOk(w, KAccept, res)
    ensures PendingOk(w, KPoll(res))
  {
  }

  lemma ReadToSend(w: World<nat>, op: KOp<nat>, res: int)
    requires op.KRecv? && 0 < res && DoneOk(w, op, res)
    ensures PendingOk(w, KSend(op.fd, op.buf, 0, res))
  {
  }

  lemma SendToSend(w: World<nat>, op: KOp<nat>, res: nat)
    requires op.KSend? && DoneOk(w, op, res) && op.offset + res < op.len
    ensures PendingOk(w, KSend(op.fd, op.buf, op.offset + res, op.len - (op.offset + res)))
  {
  }

  lemma SendToPoll(w: World<nat>, op: KOp<nat>, res: nat)
    requires op.KSend? && DoneOk(w, op, res) && op.offset + res >= op.len
    ensures PendingOk(w, KPoll(op.fd))
  {
    var log := w.streams[op.fd].log;
    assert Settled(Last(log));
    assert log == Front(log) + [Last(log)];
  }

  lemma HandleRead(s: State, tokenKey: nat, bufKey: nat)
    requires Inv(s) && s.cq != [] && 0 < s.cq[0].res && s.cq[0].entry.op.KRecv?
    ensures NoPanic(s) && Inv(Handle(s, tokenKey, bufKey))
  {
    hide TokenInv, TokensApart, BufInv, FdInv, DataInv, ClosedInv, PendingOk, DoneOk;
    NeverPanics(s);
    LookupSucceeds(s);
    var c := s.cq[0];
    var i, old_ := c.entry.userData, s.tokens[c.entry.userData];
    var t := Write(old_.fd, old_.buf, 0, c.res);
    ApartKeep(s.tokens, i, t);
    BufInsert(s.tokens, s.bufpool, s.world.mem, i, t);
    ReadToSend(s.world, c.entry.op, c.res);
    var s1 := Taken(s).(tokens := s.tokens[i := t]);
    HandleNext(s, s1, i, t);
    assert Handle(s, tokenKey, bufKey) == Push(s1, EntryOf(i, t));
  }

  lemma HandleWriteMore(s: State, tokenKey: nat, bufKey: nat)
    requires Inv(s) && s.cq != [] && 0 <= s.cq[0].res && s.cq[0].entry.op.KSend?
    requires s.cq[0].entry.op.offset + s.cq[0].res < s.cq[0].entry.op.len
    ensures NoPanic(s) && Inv(Handle(s, tokenKey, bufKey))
  {
    hide TokenInv, TokensApart, BufInv, FdInv, DataInv, ClosedInv, PendingOk, DoneOk;
    NeverPanics(s);
    LookupSucceeds(s);
    var c := s.cq[0];
    var i, old_ := c.entry.userData, s.tokens[c.entry.userData];
    var offset := old_.offset + c.res;
    var t := Write(old_.fd, old_.buf, offset, old_.len - offset);
    ApartKeep(s.tokens, i, t);
    BufInsert(s.tokens, s.bufpool, s.world.mem, i, t);
    SendToSend(s.world, c.entry.op, c.res);
    var s1 := Taken(s).(tokens := s.tokens[i := t]);
    HandleNext(s, s1, i, t);
    assert Handle(s, tokenKey, bufKey) == Push(s1, EntryOf(i, t));
  }

  lemma HandleWriteDone(s: State, tokenKey: nat, bufKey: nat)
    requires Inv(s) && s.cq != [] && 0 <= s.cq[0].res && s.cq[0].entry.op.KSend?
    requires s.cq[0].entry.op.offset + s.cq[0].res >= s.cq[0].entry.op.len
    ensures NoPanic(s) && Inv(Handle(s, tokenKey, bufKey))
  {
    hide TokenInv, TokensApart, BufInv, FdInv, DataInv, ClosedInv, PendingOk, DoneOk;
    NeverPanics(s);
    LookupSucceeds(s);
    var c := s.cq[0];
    var i, old_ := c.entry.userData, s.tokens[c.entry.userData];
    var t := Poll(old_.fd);
    SendToPoll(s.world, c.entry.op, c.res);
    ApartKeep(s.tokens, i, t);
    BufRelease(s.tokens, s.bufpool, s.world.mem, i, old_.buf, s.tokens[i := t]);
    var s1 := Taken(s).(tokens := s.tokens[i := t], bufpool := s.bufpool + [old_.buf]);
    HandleNext(s, s1, i, t);
    assert Handle(s, tokenKey, bufKey) == Push(s1, EntryOf(i, t));
  }

  /** Returning the buffer a token held to the pool. */
  lemma BufRelease(tokens: map<nat, Token>, bufpool: seq<nat>, mem: map<nat, seq<byte>>, i: nat, b: nat,
                   tokens': map<nat, Token>)
    requires BufInv(tokens, bufpool, mem) && TokensApart(tokens)
    requires i in tokens && HasBuf(tokens[i], b)
    requires forall j :: j != i ==> (j in tokens' <==> j in tokens)
    requires forall j :: j in tokens' && j != i ==> tokens'[j] == tokens[j]
    requires i in tokens' ==> forall x :: !HasBuf(tokens'[i], x)
    ensures BufInv(tokens', bufpool + [b], mem)
  {
    forall j, x | j in tokens' && HasBuf(tokens'[j], x) ensures x in mem && x !in bufpool + [b] {
      assert j != i && j in tokens && HasBuf(tokens[j], x);
    }
    forall x | x in mem && x !in bufpool + [b] ensures exists j :: j in tokens' && HasBuf(tokens'[j], x) {
      assert x !in bufpool && x != b;
      var j :| j in tokens && HasBuf(tokens[j], x);
      assert j != i && HasBuf(tokens'[j], x);
    }
  }

  /** A pooled buffer goes to the token that popped it. */
  lemma BufTake(tokens: map<nat, Token>, bufpool: seq<nat>, mem: map<nat, seq<byte>>, i: nat, t: Token)
    requires BufInv(tokens, bufpool, mem) && bufpool != [] && i in tokens
    requires forall b :: !HasBuf(tokens[i], b)
    requires forall b :: HasBuf(t, b) <==> b == Last(bufpool)
    ensures BufInv(tokens[i := t], Front(bufpool), mem)
  {
    var tokens' := tokens[i := t];
    var last := Last(bufpool);
    assert bufpool == Front(bufpool) + [last];
    assert multiset(bufpool) == multiset(Front(bufpool)) + multiset{last};
    assert last in bufpool && last !in Front(bufpool);
    assert forall b :: b in Front(bufpool) ==> b in bufpool && multiset(Front(bufpool))[b] == 1;
    forall b | b in mem && b !in Front(bufpool) ensures exists j :: j in tokens' && HasBuf(tokens'[j], b) {
      if b == last {
        assert HasBuf(tokens'[i], b);
      } else {
        var j :| j in tokens && HasBuf(tokens[j], b);
        assert HasBuf(tokens'[j], b);
      }
    }
  }

  /** A new buffer goes to the token it was allocated for. */
  lemma BufFresh(tokens: map<nat, Token>, bufpool: seq<nat>, mem: map<nat, seq<byte>>, i: nat, t: Token, b: nat)
    requires BufInv(tokens, bufpool, mem) && b !in mem && i in tokens
    requires forall x :: !HasBuf(tokens[i], x)
    requires forall x :: HasBuf(t, x) <==> x == b
    ensures BufInv(tokens[i := t], bufpool, mem[b := seq(BUF_LEN, _ => 0)])
  {
    var tokens' := tokens[i := t];
    forall x | (x in mem || x == b) && x !in bufpool ensures exists j :: j in tokens' && HasBuf(tokens'[j], x) {
      if x == b {
        assert HasBuf(tokens'[i], x);
      } else {
        var j :| j in tokens && HasBuf(tokens[j], x);
        assert HasBuf(tokens'[j], x);
      }
    }
  }

  /** The token's new buffer is held by no one else. */
  lemma ApartBuf(tokens: map<nat, Token>, bufpool: seq<nat>, mem: map<nat, seq<byte>>, i: nat, t: Token, b: nat)
    requires TokensApart(tokens) && BufInv(tokens, bufpool, mem) && i in tokens
    requires b in bufpool || b !in mem
    requires forall fd :: HasFd(t, fd) ==> HasFd(tokens[i], fd)
    requires forall x :: HasBuf(t, x) ==> x == b
    ensures TokensApart(tokens[i := t])
  {
  }

  lemma MemGrows(pending: multiset<Sqe>, cq: seq<Cqe>, w: World<nat>, b: nat, data: seq<byte>)
    requires DataInv(pending, cq, w) && b !in w.mem
    ensures DataInv(pending, cq, w.(mem := w.mem[b := data]))
  {
    var w' := w.(mem := w.mem[b := data]);
    forall e | e in pending ensures PendingOk(w', e.op) {
      assert PendingOk(w, e.op);
    }
    forall c | c in cq && 0 <= c.res ensures DoneOk(w', c.entry.op, c.res) {
      assert DoneOk(w, c.entry.op, c.res);
    }
  }

  lemma PollToRecv(w: World<nat>, fd: nat, res: int, mem: map<nat, seq<byte>>, b: nat)
    requires DoneOk(w, KPoll(fd), res) && b in mem && |mem[b]| == BUF_LEN
    ensures PendingOk(w.(mem := mem), KRecv(fd, b, BUF_LEN))
  {
  }

  lemma HandlePollPooled(s: State, tokenKey: nat, bufKey: nat)
    requires Inv(s) && s.cq != [] && 0 <= s.cq[0].res && s.cq[0].entry.op.KPoll? && s.bufpool != []
    ensures NoPanic(s) && Inv(Handle(s, tokenKey, bufKey))
  {
    hide TokenInv, TokensApart, FdInv, DataInv, PendingOk, DoneOk;
    NeverPanics(s);
    LookupSucceeds(s);
    var c := s.cq[0];
    var i, fd, b := c.entry.userData, c.entry.op.fd, Last(s.bufpool);
    var t := Read(fd, b);
    assert b in s.bufpool && |s.world.mem[b]| == BUF_LEN;
    hide BufInv;
    ApartBuf(s.tokens, s.bufpool, s.world.mem, i, t, b);
    BufTake(s.tokens, s.bufpool, s.world.mem, i, t);
    PollToRecv(s.world, fd, c.res, s.world.mem, b);
    var s1 := Taken(s).(tokens := s.tokens[i := t], bufpool := Front(s.bufpool));
    HandleNext(s, s1, i, t);
    assert Handle(s, tokenKey, bufKey) == Push(s1, EntryOf(i, t));
  }

  lemma HandlePollFresh(s: State, tokenKey: nat, bufKey: nat)
    requires Inv(s) && s.cq != [] && 0 <= s.cq[0].res && s.cq[0].entry.op.KPoll? && s.bufpool == []
    requires bufKey !in s.world.mem
    ensures NoPanic(s) && Inv(Handle(s, tokenKey, bufKey))
  {
    hide TokenInv, TokensApart, BufInv, FdInv, DataInv, ClosedInv, PendingOk, DoneOk;
    NeverPanics(s);
    LookupSucceeds(s);
    var c := s.cq[0];
    var i, fd := c.entry.userData, c.entry.op.fd;
    var t := Read(fd, bufKey);
    var mem := s.world.mem[bufKey := seq(BUF_LEN, _ => 0)];
    ApartBuf(s.tokens, s.bufpool, s.world.mem, i, t, bufKey);
    BufFresh(s.tokens, s.bufpool, s.world.mem, i, t, bufKey);
    PollToRecv(s.world, fd, c.res, mem, bufKey);
    MemGrows(Pending(s), s.cq, s.world, bufKey, seq(BUF_LEN, _ => 0));
    var s1 := Taken(s).(tokens := s.tokens[i := t], world := s.world.(mem := mem));
    HandleNext(s, s1, i, t);
    assert Handle(s, tokenKey, bufKey) == Push(s1, EntryOf(i, t));
  }

  /** Closing the descriptor of the removed token. */
  lemma HandleEof(s: State, tokenKey: nat, bufKey: nat)
    requires Inv(s) && s.cq != [] && s.cq[0].res == 0 && s.cq[0].entry.op.KRecv?
    ensures s.cq[0].entry.op.fd in s.world.streams
    ensures NoPanic(s) && Inv(Handle(s, tokenKey, bufKey))
  {
    hide TokenInv, TokensApart, BufInv, FdInv, DataInv, ClosedInv, PendingOk, DoneOk, Faithful, AllSettled;
    NeverPanics(s);
    LookupSucceeds(s);
    var s' := Handle(s, tokenKey, bufKey);
    var c := s.cq[0];
    var i, fd, b := c.entry.userData, c.entry.op.fd, c.entry.op.buf;
    CloseData(s);
    assert s' == Taken(s).(tokens := s.tokens - {i}, bufpool := s.bufpool + [b],
                           closed := s.closed + [s.world.streams[fd]],
                           world := s.world.(streams := s.world.streams - {fd}));
    TakenTotals(s);
    assert Total(s') == Total(Taken(s)) && Pending(s') == Pending(s);
    DropToken(s.tokens, s.acceptCount, Total(Taken(s)), i);
    ApartDrop(s.tokens, i);
    BufRelease(s.tokens, s.bufpool, s.world.mem, i, b, s.tokens - {i});
    FdTail(s.tokens, s.cq, s.world.streams);
    FdDrop(s.tokens, s'.cq, s.world.streams, i, fd);
    ClosedAppend(s.closed, s.world.streams[fd]);
  }

  lemma ClosedAppend(closed: seq<Stream>, st: Stream)
    requires ClosedInv(closed) && Faithful(st) && AllSettled(st.log)
    ensures ClosedInv(closed + [st])
  {
  }

  lemma ApartDrop(tokens: map<nat, Token>, i: nat)
    requires TokensApart(tokens)
    ensures TokensApart(tokens - {i})
  {
  }

  lemma FdDrop(tokens: map<nat, Token>, cq: seq<Cqe>, streams: map<nat, Stream>, i: nat, fd: nat)
    requires FdInv(tokens, cq, streams) && TokensApart(tokens) && i in tokens && HasFd(tokens[i], fd)
    ensures FdInv(tokens - {i}, cq, streams - {fd})
  {
    forall x | x in streams - {fd} && exists j :: j in tokens && HasFd(tokens[j], x)
      ensures exists j :: j in tokens - {i} && HasFd((tokens - {i})[j], x)
    {
      var j :| j in tokens && HasFd(tokens[j], x);
      assert j != i && HasFd((tokens - {i})[j], x);
    }
  }

  /** After the close, every remaining operation still finds its connection as it was. */
  lemma CloseData(s: State)
    requires Inv(s) && s.cq != [] && s.cq[0].entry.op.KRecv? && s.cq[0].res == 0
    ensures var fd := s.cq[0].entry.op.fd;
            && fd in s.world.streams && Faithful(s.world.streams[fd]) && AllSettled(s.world.streams[fd].log)
            && DataInv(Pending(s), s.cq[1..], s.world.(streams := s.world.streams - {fd}))
  {
    hide TokenInv, TokensApart, BufInv, FdInv, ClosedInv, PendingOk, Faithful, AllSettled;
    LookupSucceeds(s);
    TakenTotals(s);
    var c := s.cq[0];
    var fd := c.entry.op.fd;
    var w' := s.world.(streams := s.world.streams - {fd});
    forall e | e in Pending(s) ensures PendingOk(w', e.op) {
      OthersApart(s.tokens, s.acceptCount, Total(s), c.entry, e);
      CloseFrame(s.world, fd, e.op);
    }
    forall x | x in s.cq[1..] && 0 <= x.res ensures DoneOk(w', x.entry.op, x.res) {
      CloseCqe(s, x);
    }
  }

  lemma CloseCqe(s: State, x: Cqe)
    requires Inv(s) && s.cq != [] && s.cq[0].entry.op.KRecv? && x in s.cq[1..] && 0 <= x.res
    ensures DoneOk(s.world.(streams := s.world.streams - {s.cq[0].entry.op.fd}), x.entry.op, x.res)
  {
    hide TokenInv, TokensApart, BufInv, FdInv, ClosedInv, PendingOk, DoneOk, Faithful;
    LookupSucceeds(s);
    TakenTotals(s);
    var c := s.cq[0];
    var j :| 0 <= j < |s.cq[1..]| && s.cq[1..][j] == x;
    assert Entries(s.cq[1..])[j] == x.entry;
    OthersApart(s.tokens, s.acceptCount, Total(s), c.entry, x.entry);
    if x.entry.op.KAccept? {
      AnnouncedApart(s.tokens, s.cq, s.world.streams, c.entry, j + 1);
    }
    CloseFrame(s.world, c.entry.op.fd, x.entry.op);
  }

  lemma CloseFrame(w: World<nat>, fd: nat, x: KOp<nat>)
    requires x.KAccept? || x.fd != fd
    ensures PendingOk(w, x) ==> PendingOk(w.(streams := w.streams - {fd}), x)
    ensures forall res :: 0 <= res && DoneOk(w, x, res) && (x.KAccept? ==> res != fd) ==>
              DoneOk(w.(streams := w.streams - {fd}), x, res)
  {
  }
}
