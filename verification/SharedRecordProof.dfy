/**
 Reading the shared record at completion time is as good as carrying the tag by value,
 because a descriptor never has two operations at once.
 */
module SharedRecordProof {
  import opened Streams
  import opened Kernel
  import opened Echo
  import opened Bags
  import opened Census
  import opened SharedRecord

  function OpFd(e: Sqe): Option<nat> { if e.op.Accept? then None else Some(e.op.fd) }
  function DoneFd(c: Cqe): Option<nat> {
    if c.sqe.op.Accept? then (if c.res >= 0 then Some(c.res) else None) else Some(c.sqe.op.fd)
  }

  function TagOf(cfg: Config, op: Op): ConnInfo {
    match op
    case Accept => ConnInfo(cfg.listenFd, ACCEPT)
    case Recv(fd) => ConnInfo(fd, READ)
    case Send(fd, _) => ConnInfo(fd, WRITE)
  }

  /** The record the entry points to still says what it said when the entry was queued. */
  predicate Fresh(cfg: Config, conns: seq<ConnInfo>, e: Sqe) {
    && e.tag == TagOf(cfg, e.op) && e.ptr == e.tag.fd < |conns|
    && conns[e.ptr] == e.tag
    && (!e.op.Accept? ==> e.op.fd != cfg.listenFd)
  }

  ghost predicate RecordInv(cfg: Config, s: State) {
    && |s.conns| == cfg.table && cfg.listenFd < cfg.table && cfg.listenFd !in s.world.streams
    && (forall e :: e in s.sq ==> Fresh(cfg, s.conns, e))
    && (forall e :: e in s.kernel ==> Fresh(cfg, s.conns, e))
    && (forall c :: c in s.cq ==> Fresh(cfg, s.conns, c.sqe) && (c.sqe.op.Accept? ==> c.res != cfg.listenFd))
  }

  function Active(s: State): multiset<nat> {
    Count(s.sq, OpFd) + Count(s.kernel, OpFd) + Count(s.cq, DoneFd)
  }

  /** Every open connection has exactly one operation. */
  ghost predicate ActiveInv(s: State) {
    Active(s) == multiset(s.world.streams.Keys)
  }

  ghost predicate EntryHolds(w: World<nat>, e: Sqe) {
    e.op.Send? ==> Holds(w, e.op.fd, e.op.fd, e.op.size)
  }

  ghost predicate DoneHolds(w: World<nat>, c: Cqe) {
    c.sqe.op.Recv? && 0 < c.res ==> Holds(w, c.sqe.op.fd, c.sqe.op.fd, c.res)
  }

  ghost predicate DataInv(s: State) {
    && (forall e :: e in s.sq ==> EntryHolds(s.world, e))
    && (forall e :: e in s.kernel ==> EntryHolds(s.world, e))
    && (forall c :: c in s.cq ==> DoneHolds(s.world, c))
    && AllFaithful(s.world)
  }

  ghost predicate Inv(cfg: Config, s: State) {
    RecordInv(cfg, s) && ActiveInv(s) && DataInv(s)
  }

  // ---------------------------------------------------------------- nobody else has it

  lemma Elsewhere(rest: State, keys: set<nat>, fd: nat)
    requires Active(rest) + multiset{fd} == multiset(keys)
    ensures fd in keys
    ensures forall e :: e in rest.sq ==> OpFd(e) != Some(fd)
    ensures forall e :: e in rest.kernel ==> OpFd(e) != Some(fd)
    ensures forall c :: c in rest.cq ==> DoneFd(c) != Some(fd)
  {
    assert fd in Active(rest) + multiset{fd};
    assert multiset(keys)[fd] == 1;
    Absent(rest.sq, OpFd, fd);
    Absent(rest.kernel, OpFd, fd);
    Absent(rest.cq, DoneFd, fd);
  }

  // ---------------------------------------------------------------- kernel steps

  lemma TakeKeeps(cfg: Config, s: State)
    requires Inv(cfg, s) && s.sq != []
    ensures Inv(cfg, Take(s))
  {
    hide Count, Holds, Faithful;
    CountTail(s.sq, OpFd);
    CountAppend(s.kernel, s.sq[0], OpFd);
    Moved(Count(s.sq, OpFd), Count(s.sq[1..], OpFd), Count(s.kernel, OpFd), Count(Take(s).kernel, OpFd),
          Count(s.cq, DoneFd), One(OpFd(s.sq[0])));
  }

  function Without(s: State, k: nat): State
    requires k < |s.kernel|
  {
    s.(kernel := s.kernel[..k] + s.kernel[k + 1..])
  }

  lemma WithoutCounts(s: State, k: nat)
    requires k < |s.kernel|
    ensures Active(s) == Active(Without(s, k)) + One(OpFd(s.kernel[k]))
  {
    hide Count;
    CountRemove(s.kernel, k, OpFd);
    Released(Count(s.kernel, OpFd), Count(Without(s, k).kernel, OpFd), Count(s.sq, OpFd), Count(s.cq, DoneFd),
             One(OpFd(s.kernel[k])));
  }

  lemma FinishCounts(cfg: Config, reserved: set<nat>, s: State, k: nat, o: Outcome)
    requires CanFinish(cfg, reserved, s, k, o)
    ensures var s' := Finish(cfg, reserved, s, k, o);
            && Active(s') == Active(s) + (if o.Accepted? then multiset{o.fd} else multiset{})
            && s'.world.streams.Keys == s.world.streams.Keys + (if o.Accepted? then {o.fd} else {})
  {
    FinishKeys(cfg, reserved, s.world, s.kernel[k], o);
    hide Count, Exec, Allowed, KernelOp, DoneFd, OpFd, Res;
    var s' := Finish(cfg, reserved, s, k, o);
    var e, c := s.kernel[k], s'.cq[|s.cq|];
    CountRemove(s.kernel, k, OpFd);
    CountAppend(s.cq, c, DoneFd);
    if e.op.Accept? {
      Associative(Count(s.sq, OpFd) + Count(s.kernel, OpFd), Count(s.cq, DoneFd), One(DoneFd(c)));
    } else {
      Moved(Count(s.kernel, OpFd), Count(s'.kernel, OpFd), Count(s.cq, DoneFd), Count(s'.cq, DoneFd),
            Count(s.sq, OpFd), One(OpFd(e)));
    }
  }

  lemma FinishKeys(cfg: Config, reserved: set<nat>, w: World<nat>, e: Sqe, o: Outcome)
    requires Allowed(w, reserved + {cfg.listenFd}, KernelOp(cfg, e.op), o)
    ensures Exec(w, reserved + {cfg.listenFd}, KernelOp(cfg, e.op), o).streams.Keys ==
            w.streams.Keys + (if o.Accepted? then {o.fd} else {})
    ensures if e.op.Accept? then OpFd(e) == None && DoneFd(Cqe(e, Res(o))) == (if o.Accepted? then Some(o.fd) else None)
            else !o.Accepted? && DoneFd(Cqe(e, Res(o))) == OpFd(e)
  {
  }

  lemma FinishActive(cfg: Config, reserved: set<nat>, s: State, k: nat, o: Outcome)
    requires CanFinish(cfg, reserved, s, k, o) && ActiveInv(s)
    ensures ActiveInv(Finish(cfg, reserved, s, k, o))
  {
    hide Active, Finish;
    FinishCounts(cfg, reserved, s, k, o);
    if o.Accepted? { Joined(s.world.streams.Keys, multiset{o.fd}, multiset{}, o.fd); }
  }

  lemma FinishOthers(cfg: Config, reserved: set<nat>, s: State, k: nat, o: Outcome)
    requires Inv(cfg, s) && CanFinish(cfg, reserved, s, k, o)
    ensures var s' := Finish(cfg, reserved, s, k, o);
            && (forall e :: e in s.sq ==> EntryHolds(s'.world, e))
            && (forall e :: e in Without(s, k).kernel ==> EntryHolds(s'.world, e))
            && (forall c :: c in s.cq ==> DoneHolds(s'.world, c))
  {
    hide Active, RecordInv, Holds, Faithful, Exec;
    var op, all := s.kernel[k].op, reserved + {cfg.listenFd};
    if !op.Accept? {
      WithoutCounts(s, k);
      Elsewhere(Without(s, k), s.world.streams.Keys, op.fd);
    }
    forall e | e in s.sq && e.op.Send?
      ensures Holds(Exec(s.world, all, KernelOp(cfg, op), o), e.op.fd, e.op.fd, e.op.size) {
      assert EntryHolds(s.world, e) && OpFd(e) == Some(e.op.fd);
      HoldsFrame(s.world, all, KernelOp(cfg, op), o, e.op.fd, e.op.fd, e.op.size);
    }
    forall e | e in Without(s, k).kernel && e.op.Send?
      ensures Holds(Exec(s.world, all, KernelOp(cfg, op), o), e.op.fd, e.op.fd, e.op.size)
    {
      assert e in s.kernel && EntryHolds(s.world, e) && OpFd(e) == Some(e.op.fd);
      HoldsFrame(s.world, all, KernelOp(cfg, op), o, e.op.fd, e.op.fd, e.op.size);
    }
    forall c | c in s.cq && c.sqe.op.Recv? && 0 < c.res
      ensures Holds(Exec(s.world, all, KernelOp(cfg, op), o), c.sqe.op.fd, c.sqe.op.fd, c.res)
    {
      assert DoneHolds(s.world, c) && DoneFd(c) == Some(c.sqe.op.fd);
      HoldsFrame(s.world, all, KernelOp(cfg, op), o, c.sqe.op.fd, c.sqe.op.fd, c.res);
    }
  }

  lemma FinishOwn(cfg: Config, reserved: set<nat>, w: World<nat>, e: Sqe, o: Outcome)
    requires Allowed(w, reserved, KernelOp(cfg, e.op), o) && EntryHolds(w, e) && AllFaithful(w)
    ensures var w' := Exec(w, reserved, KernelOp(cfg, e.op), o); DoneHolds(w', Cqe(e, Res(o))) && AllFaithful(w')
  {
    hide Holds, Exec, AllFaithful;
    ExecKeepsEcho(w, reserved, KernelOp(cfg, e.op), o);
  }

  lemma FinishData(cfg: Config, reserved: set<nat>, s: State, k: nat, o: Outcome)
    requires Inv(cfg, s) && CanFinish(cfg, reserved, s, k, o)
    ensures DataInv(Finish(cfg, reserved, s, k, o))
  {
    hide ActiveInv, RecordInv, EntryHolds, DoneHolds, Faithful, Exec;
    FinishOthers(cfg, reserved, s, k, o);
    assert s.kernel[k] in s.kernel;
    FinishOwn(cfg, reserved + {cfg.listenFd}, s.world, s.kernel[k], o);
    var s' := Finish(cfg, reserved, s, k, o);
    assert s'.kernel == Without(s, k).kernel;
    assert s'.cq == s.cq + [Cqe(s.kernel[k], Res(o))];
  }

  lemma FinishRecords(cfg: Config, reserved: set<nat>, s: State, k: nat, o: Outcome)
    requires RecordInv(cfg, s) && CanFinish(cfg, reserved, s, k, o)
    ensures RecordInv(cfg, Finish(cfg, reserved, s, k, o))
  {
    hide Exec, Fresh, Active, Count;
    var s' := Finish(cfg, reserved, s, k, o);
    FinishCounts(cfg, reserved, s, k, o);
    assert s.kernel[k].op.Accept? ==> Res(o) != cfg.listenFd;
    assert s.kernel[k] in s.kernel;
    assert forall e :: e in s'.kernel ==> e in s.kernel;
    assert s'.cq == s.cq + [Cqe(s.kernel[k], Res(o))];
  }

  lemma FinishKeeps(cfg: Config, reserved: set<nat>, s: State, k: nat, o: Outcome)
    requires Inv(cfg, s) && CanFinish(cfg, reserved, s, k, o)
    ensures Inv(cfg, Finish(cfg, reserved, s, k, o))
  {
    hide ActiveInv, RecordInv, DataInv, Finish;
    FinishActive(cfg, reserved, s, k, o);
    FinishRecords(cfg, reserved, s, k, o);
    FinishData(cfg, reserved, s, k, o);
  }

  // ---------------------------------------------------------------- the handler

  /** An accept that failed, or whose descriptor has no record and no buffer. */
  predicate Wild(cfg: Config, c: Cqe) {
    c.sqe.op.Accept? && !(0 <= c.res < cfg.table)
  }

  /**
   The record seen at completion time is the tag written at submission. The handler stays
   inside its tables exactly when the completion is no accept that failed or overran them.
   */
  lemma RecordIsTag(cfg: Config, byTag: bool, s: State)
    requires RecordInv(cfg, s) && s.cq != []
    ensures s.cq[0].sqe.ptr < |s.conns| && Seen(byTag, s, s.cq[0]) == s.cq[0].sqe.tag == TagOf(cfg, s.cq[0].sqe.op)
    ensures InTable(cfg, byTag, s) <==> !Wild(cfg, s.cq[0])
  {
    assert s.cq[0] in s.cq;
  }

  /** The entries a completion makes the server queue. */
  function Queued(cfg: Config, c: Cqe): seq<Sqe> {
    match c.sqe.op
    case Accept =>
      if c.res < 0 then []
      else [Sqe(Accept, cfg.listenFd, ConnInfo(cfg.listenFd, ACCEPT)), Sqe(Recv(c.res), c.res, ConnInfo(c.res, READ))]
    case Recv(fd) => if c.res <= 0 then [] else [Sqe(Send(fd, c.res), fd, ConnInfo(fd, WRITE))]
    case Send(fd, _) => [Sqe(Recv(fd), fd, ConnInfo(fd, READ))]
  }

  predicate Closes(c: Cqe) {
    c.sqe.op.Recv? && c.res <= 0
  }

  /** The records after the queued entries have been written, one after the other. */
  function Written(conns: seq<ConnInfo>, q: seq<Sqe>): seq<ConnInfo>
    requires forall e :: e in q ==> e.tag.fd < |conns|
    ensures |Written(conns, q)| == |conns|
  {
    if q == [] then conns else Written(conns, q[..|q| - 1])[q[|q| - 1].tag.fd := q[|q| - 1].tag]
  }

  lemma HandleShape(cfg: Config, byTag: bool, s: State)
    requires RecordInv(cfg, s) && InTable(cfg, byTag, s)
    ensures var s', c, q := Handle(cfg, byTag, s), s.cq[0], Queued(cfg, s.cq[0]);
            && (forall e :: e in q ==> e.tag == TagOf(cfg, e.op) && e.ptr == e.tag.fd < |s.conns|)
            && s' == State(Written(s.conns, q), s.sq + q, s.kernel, s.cq[1..],
                           if Closes(c) then s.world.(streams := s.world.streams - {c.sqe.op.fd}) else s.world)
  {
    RecordIsTag(cfg, byTag, s);
    hide RecordInv;
    var c, q := s.cq[0], Queued(cfg, s.cq[0]);
    if |q| == 2 {
      assert q == [q[0], q[1]] && q[..1] == [q[0]];
      assert s.sq + q == s.sq + [q[0]] + [q[1]];
      assert Written(s.conns, [q[0]]) == s.conns[q[0].tag.fd := q[0].tag];
    } else if |q| == 1 {
      assert q == [q[0]];
    } else {
      assert s.sq + q == s.sq;
    }
  }

  lemma HandleBalance(cfg: Config, byTag: bool, s: State)
    requires RecordInv(cfg, s) && InTable(cfg, byTag, s)
    ensures Active(Handle(cfg, byTag, s)) + One(DoneFd(s.cq[0])) == Active(s) + Count(Queued(cfg, s.cq[0]), OpFd)
  {
    hide RecordInv, Count, Handle, Queued;
    HandleShape(cfg, byTag, s);
    var s', q := Handle(cfg, byTag, s), Queued(cfg, s.cq[0]);
    CountConcat(s.sq, q, OpFd);
    CountTail(s.cq, DoneFd);
    Exchanged(Count(s.sq, OpFd), Count(s'.sq, OpFd), Count(q, OpFd), Count(s.kernel, OpFd),
              Count(s.cq, DoneFd), Count(s'.cq, DoneFd), One(DoneFd(s.cq[0])));
  }

  lemma QueuedCarries(cfg: Config, c: Cqe)
    ensures Count(Queued(cfg, c), OpFd) == if Closes(c) then multiset{} else One(DoneFd(c))
  {
    hide Count;
    CountShort(Queued(cfg, c), OpFd);
  }

  lemma HandleActive(cfg: Config, byTag: bool, s: State)
    requires RecordInv(cfg, s) && ActiveInv(s) && InTable(cfg, byTag, s)
    ensures ActiveInv(Handle(cfg, byTag, s))
  {
    hide RecordInv, Count, Handle, Queued, Active, DoneFd;
    HandleBalance(cfg, byTag, s);
    HandleShape(cfg, byTag, s);
    QueuedCarries(cfg, s.cq[0]);
    var s', c := Handle(cfg, byTag, s), s.cq[0];
    if Closes(c) {
      ClosedFd(c);
      Departed(s.world.streams.Keys, Active(s'), c.sqe.op.fd);
      assert s'.world.streams.Keys == s.world.streams.Keys - {c.sqe.op.fd};
    } else {
      Same(Active(s'), Active(s), One(DoneFd(c)));
    }
  }

  lemma ClosedFd(c: Cqe)
    requires Closes(c)
    ensures DoneFd(c) == Some(c.sqe.op.fd)
  {
  }

  /** Nothing else under way concerns the connection of the completion at hand. */
  lemma HandleAlone(s: State)
    requires ActiveInv(s) && s.cq != [] && DoneFd(s.cq[0]).Some?
    ensures var fd := DoneFd(s.cq[0]).value;
            && (forall e :: e in s.sq ==> OpFd(e) != Some(fd))
            && (forall e :: e in s.kernel ==> OpFd(e) != Some(fd))
            && (forall c :: c in s.cq[1..] ==> DoneFd(c) != Some(fd))
  {
    var rest, fd := s.(cq := s.cq[1..]), DoneFd(s.cq[0]).value;
    assert Active(s) == Active(rest) + multiset{fd} by {
      hide Count;
      CountTail(s.cq, DoneFd);
      Associative(Count(s.sq, OpFd) + Count(s.kernel, OpFd), Count(s.cq[1..], DoneFd), multiset{fd});
    }
    hide Active;
    Elsewhere(rest, s.world.streams.Keys, fd);
  }

  /** Rewriting the record of a connection, or that of the listener, leaves the others fresh. */
  lemma StaysFresh(cfg: Config, conns: seq<ConnInfo>, q: seq<Sqe>, e: Sqe)
    requires Fresh(cfg, conns, e) && |q| <= 2
    requires forall x :: x in q ==> x.tag == TagOf(cfg, x.op) && x.tag.fd < |conns|
    requires forall x :: x in q && x.tag.fd == e.ptr ==> x.tag == e.tag
    ensures Fresh(cfg, Written(conns, q), e)
  {
  }

  lemma QueuedFresh(cfg: Config, s: State)
    requires RecordInv(cfg, s) && s.cq != [] && !Wild(cfg, s.cq[0])
    ensures var q := Queued(cfg, s.cq[0]);
            && (forall e :: e in q ==> e.tag == TagOf(cfg, e.op) && e.ptr == e.tag.fd < |s.conns|)
            && (forall e :: e in q ==> Fresh(cfg, Written(s.conns, q), e))
            && (forall e :: e in q ==> e.tag == ConnInfo(cfg.listenFd, ACCEPT) ||
                                       (DoneFd(s.cq[0]) == Some(e.tag.fd) && e.tag.fd != cfg.listenFd))
  {
    assert s.cq[0] in s.cq;
    hide RecordInv;
    var q := Queued(cfg, s.cq[0]);
    if |q| == 2 {
      assert q == [q[0], q[1]] && q[..1] == [q[0]];
      assert Written(s.conns, [q[0]]) == s.conns[q[0].tag.fd := q[0].tag];
    } else if |q| == 1 {
      assert q == [q[0]];
    }
  }

  lemma HandleRecords(cfg: Config, byTag: bool, s: State)
    requires RecordInv(cfg, s) && ActiveInv(s) && InTable(cfg, byTag, s)
    ensures RecordInv(cfg, Handle(cfg, byTag, s))
  {
    hide Handle, Queued, ActiveInv, Written;
    HandleShape(cfg, byTag, s);
    RecordIsTag(cfg, byTag, s);
    QueuedFresh(cfg, s);
    if DoneFd(s.cq[0]).Some? { HandleAlone(s); }
    var q := Queued(cfg, s.cq[0]);
    QueuedLength(cfg, s.cq[0]);
    forall e | e in s.sq || e in s.kernel ensures Fresh(cfg, Written(s.conns, q), e) {
      StaysFresh(cfg, s.conns, q, e);
    }
    forall c | c in s.cq[1..] ensures Fresh(cfg, Written(s.conns, q), c.sqe) {
      assert c in s.cq;
      StaysFresh(cfg, s.conns, q, c.sqe);
    }
  }

  lemma QueuedLength(cfg: Config, c: Cqe)
    ensures |Queued(cfg, c)| <= 2
  {
  }

  lemma QueuedHolds(cfg: Config, w: World<nat>, c: Cqe)
    requires DoneHolds(w, c)
    ensures forall e :: e in Queued(cfg, c) ==> EntryHolds(w, e)
  {
  }

  lemma HandleData(cfg: Config, byTag: bool, s: State)
    requires Inv(cfg, s) && InTable(cfg, byTag, s)
    ensures DataInv(Handle(cfg, byTag, s))
  {
    hide Handle, Queued, ActiveInv, RecordInv, Written, Holds, Faithful;
    HandleShape(cfg, byTag, s);
    var s', c, q := Handle(cfg, byTag, s), s.cq[0], Queued(cfg, s.cq[0]);
    assert c in s.cq;
    if Closes(c) {
      var gone := c.sqe.op.fd;
      NothingQueued(cfg, c);
      HandleAlone(s);
      forall e | (e in s.sq || e in s.kernel) && e.op.Send? ensures Holds(s'.world, e.op.fd, e.op.fd, e.op.size) {
        assert EntryHolds(s.world, e) && OpFd(e) == Some(e.op.fd);
        CloseFrame(s.world, gone, e.op.fd, e.op.fd, e.op.size);
      }
      forall x | x in s'.cq && x.sqe.op.Recv? && 0 < x.res ensures Holds(s'.world, x.sqe.op.fd, x.sqe.op.fd, x.res) {
        assert DoneHolds(s.world, x) && DoneFd(x) == Some(x.sqe.op.fd);
        CloseFrame(s.world, gone, x.sqe.op.fd, x.sqe.op.fd, x.res);
      }
    } else {
      QueuedHolds(cfg, s.world, c);
    }
  }

  lemma NothingQueued(cfg: Config, c: Cqe)
    requires Closes(c)
    ensures Queued(cfg, c) == []
  {
  }

  lemma HandleKeeps(cfg: Config, byTag: bool, s: State)
    requires Inv(cfg, s) && InTable(cfg, byTag, s)
    ensures Inv(cfg, Handle(cfg, byTag, s))
  {
    hide ActiveInv, RecordInv, DataInv, Handle;
    HandleActive(cfg, byTag, s);
    HandleRecords(cfg, byTag, s);
    HandleData(cfg, byTag, s);
  }

  // ---------------------------------------------------------------- theorems

  lemma InitInv(cfg: Config)
    requires cfg.listenFd < cfg.table
    ensures Inv(cfg, Init(cfg))
  {
    var s := Init(cfg);
    CountShort(s.sq, OpFd);
    assert s.world.streams.Keys == {};
  }

  lemma StepKeeps(cfg: Config, reserved: set<nat>, byTag: bool, s: State, e: Event)
    requires Inv(cfg, s) && Enabled(cfg, reserved, s, e) && (e.DoHandle? ==> InTable(cfg, byTag, s))
    ensures Inv(cfg, Apply(cfg, reserved, byTag, s, e))
  {
    hide Inv, Take, Finish, Handle, InTable, CanFinish;
    match e
    case DoTake => TakeKeeps(cfg, s);
    case DoFinish(k, o) => FinishKeeps(cfg, reserved, s, k, o);
    case DoHandle => HandleKeeps(cfg, byTag, s);
  }

  lemma SameStep(cfg: Config, reserved: set<nat>, s: State, e: Event)
    requires Inv(cfg, s) && Enabled(cfg, reserved, s, e)
    ensures e.DoHandle? ==> (InTable(cfg, true, s) <==> InTable(cfg, false, s))
    ensures (e.DoHandle? ==> InTable(cfg, false, s)) ==>
              Apply(cfg, reserved, false, s, e) == Apply(cfg, reserved, true, s, e)
  {
    if e.DoHandle? {
      RecordIsTag(cfg, true, s);
      RecordIsTag(cfg, false, s);
      hide RecordInv, ActiveInv, DataInv;
    }
  }

  lemma {:induction false} SameRunFrom(cfg: Config, reserved: set<nat>, s: State, es: seq<Event>, t: State)
    requires Inv(cfg, s)
    ensures Run(cfg, reserved, false, s, es, t) <==> Run(cfg, reserved, true, s, es, t)
    ensures Run(cfg, reserved, false, s, es, t) ==> Inv(cfg, t)
    decreases |es|
  {
    hide Inv, Apply, Enabled, InTable;
    if es != [] && Enabled(cfg, reserved, s, es[0]) {
      SameStep(cfg, reserved, s, es[0]);
      if es[0].DoHandle? ==> InTable(cfg, false, s) {
        StepKeeps(cfg, reserved, false, s, es[0]);
        SameRunFrom(cfg, reserved, Apply(cfg, reserved, false, s, es[0]), es[1..], t);
      }
    }
  }

  lemma {:induction false} RunThen(cfg: Config, reserved: set<nat>, s: State, es: seq<Event>, t: State, e: Event)
    requires Run(cfg, reserved, false, s, es, t) && Enabled(cfg, reserved, t, e) &&
             (e.DoHandle? ==> InTable(cfg, false, t))
    ensures Run(cfg, reserved, false, s, es + [e], Apply(cfg, reserved, false, t, e))
    decreases |es|
  {
    hide Enabled, Apply, InTable;
    if es == [] {
      assert es + [e] == [e];
    } else {
      RunThen(cfg, reserved, Apply(cfg, reserved, false, s, es[0]), es[1..], t, e);
      assert (es + [e])[1..] == es[1..] + [e];
    }
  }

  /** Some run leads to the state. */
  ghost predicate Visited(cfg: Config, reserved: set<nat>, s: State)
    requires cfg.listenFd < cfg.table
  {
    exists es :: Run(cfg, reserved, false, Init(cfg), es, s)
  }

  lemma VisitedStep(cfg: Config, reserved: set<nat>, s: State, e: Event)
    requires cfg.listenFd < cfg.table && Visited(cfg, reserved, s) && Enabled(cfg, reserved, s, e)
    requires e.DoHandle? ==> InTable(cfg, false, s)
    ensures Visited(cfg, reserved, Apply(cfg, reserved, false, s, e))
  {
    hide Run, Enabled, Apply, Init, Inv, InTable;
    var es :| Run(cfg, reserved, false, Init(cfg), es, s);
    RunThen(cfg, reserved, Init(cfg), es, s, e);
  }

  lemma VisitedInv(cfg: Config, reserved: set<nat>, s: State)
    requires cfg.listenFd < cfg.table && Visited(cfg, reserved, s)
    ensures Inv(cfg, s)
  {
    hide Run, Init, Inv;
    var es :| Run(cfg, reserved, false, Init(cfg), es, s);
    InitInv(cfg);
    SameRunFrom(cfg, reserved, Init(cfg), es, s);
  }

  /**
   The shared-record server and the server that carries its tags by value have exactly the
   same runs, whatever the order of completions.
   */
  lemma {:induction false} SameRuns(cfg: Config, reserved: set<nat>, es: seq<Event>, t: State)
    requires cfg.listenFd < cfg.table
    ensures Run(cfg, reserved, false, Init(cfg), es, t) <==> Run(cfg, reserved, true, Init(cfg), es, t)
  {
    InitInv(cfg);
    SameRunFrom(cfg, reserved, Init(cfg), es, t);
  }

  /**
   In every reachable state each unhandled completion finds in its record the tag it was
   queued with, and the handler stays inside its tables exactly when the completion at hand
   is no accept that failed or overran them.
   */
  lemma {:induction false} RecordAlwaysTag(cfg: Config, reserved: set<nat>, es: seq<Event>, t: State)
    requires cfg.listenFd < cfg.table && Run(cfg, reserved, false, Init(cfg), es, t)
    ensures forall c :: c in t.cq ==> c.sqe.ptr < |t.conns| && t.conns[c.sqe.ptr] == c.sqe.tag
    ensures forall e :: e in t.sq || e in t.kernel ==> e.ptr < |t.conns| && t.conns[e.ptr] == e.tag
    ensures t.cq != [] ==> (InTable(cfg, false, t) <==> !Wild(cfg, t.cq[0]))
  {
    InitInv(cfg);
    SameRunFrom(cfg, reserved, Init(cfg), es, t);
    hide ActiveInv, DataInv;
    if t.cq != [] { RecordIsTag(cfg, false, t); }
  }

  /**
   A connection's buffer is untouched between the read that filled it and the send that
   empties it: while a read is completed or its send is queued or in flight, the buffer holds
   the message, unsent. What goes back is message by message a prefix of what came in, in at
   most one send, and all of it exactly when every message had a full one.
   */
  lemma {:induction false} EchoTheorem(cfg: Config, reserved: set<nat>, es: seq<Event>, t: State, fd: nat)
    requires cfg.listenFd < cfg.table && Run(cfg, reserved, false, Init(cfg), es, t) && fd in t.world.streams
    ensures forall e :: (e in t.sq || e in t.kernel) && e.op.Send? && e.op.fd == fd ==>
            Holds(t.world, fd, fd, e.op.size)
    ensures forall c :: c in t.cq && c.sqe.op.Recv? && c.sqe.op.fd == fd && 0 < c.res ==> Holds(t.world, fd, fd, c.res)
    ensures Faithful(t.world.streams[fd])
    ensures forall m :: m in t.world.streams[fd].log ==> |m.results| <= 1
    ensures t.world.streams[fd].sent == t.world.streams[fd].received <==>
              forall m :: m in t.world.streams[fd].log ==> m.results == [|m.data|]
  {
    InitInv(cfg);
    SameRunFrom(cfg, reserved, Init(cfg), es, t);
    hide ActiveInv, RecordInv, Holds;
    forall e | (e in t.sq || e in t.kernel) && e.op.Send? ensures Holds(t.world, e.op.fd, e.op.fd, e.op.size) {
      assert EntryHolds(t.world, e);
    }
    forall c | c in t.cq && c.sqe.op.Recv? && 0 < c.res ensures Holds(t.world, c.sqe.op.fd, c.sqe.op.fd, c.res) {
      assert DoneHolds(t.world, c);
    }
    FullSendsExactly(t.world.streams[fd]);
  }

  // ---------------------------------------------------------------- what follows a completion

  /**
   In every run, handling a completion queues the entries that follow its operation, at the
   end of the queue and in this order, writes their records, and closes the connection
   exactly when a read brought nothing.
   */
  lemma {:induction false} CompletionAnswered(cfg: Config, reserved: set<nat>, es: seq<Event>, s: State)
    requires cfg.listenFd < cfg.table && Run(cfg, reserved, false, Init(cfg), es, s) && s.cq != []
    requires !Wild(cfg, s.cq[0])
    ensures InTable(cfg, false, s)
    ensures var t, c, q := Handle(cfg, false, s), s.cq[0], Queued(cfg, s.cq[0]);
            && t.sq == s.sq + q && t.cq == s.cq[1..] && t.kernel == s.kernel && t.world.mem == s.world.mem
            && t.world.streams == (if Closes(c) then s.world.streams - {c.sqe.op.fd} else s.world.streams)
            && |t.conns| == |s.conns| && forall e :: e in q ==> e.ptr < |t.conns| && t.conns[e.ptr] == e.tag
  {
    InitInv(cfg);
    SameRunFrom(cfg, reserved, Init(cfg), es, s);
    hide ActiveInv, DataInv, Run;
    RecordIsTag(cfg, false, s);
    HandleShape(cfg, false, s);
    QueuedFresh(cfg, s);
    hide RecordInv, Handle, InTable, Queued;
  }

  function AcceptOf(e: Sqe): Option<nat> { if e.op.Accept? then Some(0) else None }
  function DoneAccept(c: Cqe): Option<nat> { AcceptOf(c.sqe) }

  function Accepts(s: State): multiset<nat> {
    Count(s.sq, AcceptOf) + Count(s.kernel, AcceptOf) + Count(s.cq, DoneAccept)
  }

  lemma TakeAccepts(s: State)
    requires s.sq != []
    ensures Accepts(Take(s)) == Accepts(s)
  {
    hide Count;
    CountTail(s.sq, AcceptOf);
    CountAppend(s.kernel, s.sq[0], AcceptOf);
    Moved(Count(s.sq, AcceptOf), Count(s.sq[1..], AcceptOf), Count(s.kernel, AcceptOf), Count(Take(s).kernel, AcceptOf),
          Count(s.cq, DoneAccept), One(AcceptOf(s.sq[0])));
  }

  lemma FinishAccepts(cfg: Config, reserved: set<nat>, s: State, k: nat, o: Outcome)
    requires CanFinish(cfg, reserved, s, k, o)
    ensures Accepts(Finish(cfg, reserved, s, k, o)) == Accepts(s)
  {
    hide Count, Allowed, Exec;
    var t, c := Finish(cfg, reserved, s, k, o), Cqe(s.kernel[k], Res(o));
    CountRemove(s.kernel, k, AcceptOf);
    CountAppend(s.cq, c, DoneAccept);
    Moved(Count(s.kernel, AcceptOf), Count(t.kernel, AcceptOf), Count(s.cq, DoneAccept), Count(t.cq, DoneAccept),
          Count(s.sq, AcceptOf), One(AcceptOf(s.kernel[k])));
  }

  lemma QueuedAccepts(cfg: Config, c: Cqe)
    requires !Wild(cfg, c)
    ensures Count(Queued(cfg, c), AcceptOf) == One(DoneAccept(c))
  {
    hide Count, One;
    CountShort(Queued(cfg, c), AcceptOf);
    OneNone();
  }

  lemma HandleAccepts(cfg: Config, s: State)
    requires RecordInv(cfg, s) && InTable(cfg, false, s)
    ensures Accepts(Handle(cfg, false, s)) == Accepts(s)
  {
    var t, c, q := Handle(cfg, false, s), s.cq[0], Queued(cfg, s.cq[0]);
    hide Count, RecordInv, Handle, One, InTable, Queued, AcceptOf, DoneAccept, Wild, Written;
    HandleShape(cfg, false, s);
    RecordIsTag(cfg, false, s);
    QueuedAccepts(cfg, c);
    CountConcat(s.sq, q, AcceptOf);
    CountTail(s.cq, DoneAccept);
    Exchanged(Count(s.sq, AcceptOf), Count(t.sq, AcceptOf), Count(q, AcceptOf), Count(s.kernel, AcceptOf),
              Count(s.cq, DoneAccept), Count(t.cq, DoneAccept), One(DoneAccept(c)));
    Same(Accepts(t), Accepts(s), One(DoneAccept(c)));
  }

  lemma {:induction false} RunAccepts(cfg: Config, reserved: set<nat>, s: State, es: seq<Event>, t: State)
    requires Inv(cfg, s) && Run(cfg, reserved, false, s, es, t)
    ensures Inv(cfg, t) && Accepts(t) == Accepts(s)
    decreases |es|
  {
    hide Accepts, RecordInv, ActiveInv, DataInv, Finish, Take, Handle, CanFinish, InTable;
    if es != [] {
      StepKeeps(cfg, reserved, false, s, es[0]);
      match es[0] {
        case DoTake => TakeAccepts(s);
        case DoFinish(k, o) => FinishAccepts(cfg, reserved, s, k, o);
        case DoHandle => HandleAccepts(cfg, s);
      }
      RunAccepts(cfg, reserved, Apply(cfg, reserved, false, s, es[0]), es[1..], t);
    }
  }

  /** In every run each open connection has exactly one operation, no other has any, and there is exactly one accept. */
  lemma {:induction false} OneOperationOneAccept(cfg: Config, reserved: set<nat>, es: seq<Event>, t: State)
    requires cfg.listenFd < cfg.table && Run(cfg, reserved, false, Init(cfg), es, t)
    ensures forall fd :: Active(t)[fd] == if fd in t.world.streams then 1 else 0
    ensures Accepts(t) == multiset{0}
  {
    InitInv(cfg);
    var s := Init(cfg);
    CountShort(s.sq, AcceptOf);
    assert Accepts(s) == multiset{0};
    hide Run, Init, Accepts, RecordInv, DataInv, Active;
    RunAccepts(cfg, reserved, s, es, t);
  }
}
