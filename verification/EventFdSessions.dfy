/**
 The sessions of the eventfd server: on every descriptor operations complete in the order
 `Sessions` describes, and at any time exactly one job stands between the last completion
 and the next.
 */
module EventFdSessions {
  import opened Streams
  import opened Kernel
  import opened Census
  import opened Sessions
  import opened EventFd
  import opened EventFdInvariant
  import opened EventFdJobs
  import opened EventFdRefines
  import opened EventFdTheorems

  function ActOf(op: Op): Act {
    match op
    case Accept(_) => Accepts
    case Recv(fd) => Reads(fd)
    case Send(fd, size) => Sends(fd, size)
    case Close(fd) => Closes(fd)
  }

  function NoteOf(c: Cqe): Note {
    Note(ActOf(c.sqe.op), c.res)
  }

  function Notes(cs: seq<Cqe>): seq<Note> {
    seq(|cs|, i requires 0 <= i < |cs| => NoteOf(cs[i]))
  }

  lemma NotesLast(cs: seq<Cqe>, c: Cqe)
    ensures Notes(cs + [c]) == Notes(cs) + [NoteOf(c)]
  {
    hide NoteOf;
  }

  // ---------------------------------------------------------------- the job in between

  /** The connection a job keeps going; the end of a read on a bad descriptor keeps none. */
  function Serves(j: Job): Option<nat> {
    if j.Done? && j.event.etype == ETypeRead && j.event.res == -EBADF then None else JobFd(j)
  }

  /** The job leads from the completion to the next one. */
  predicate Leads(n: Note, j: Job) {
    match j
    case Do(op) => Answers(n, ActOf(op))
    case Done(e) => EventOf(n, e)
  }

  /** The event tells of the completion. */
  predicate EventOf(n: Note, e: EventInfo) {
    && e.res == n.res
    && match n.act
       case Accepts => e.etype == ETypeAccept
       case Reads(fd) => e.etype == ETypeRead && e.cfd == fd
       case Sends(fd, _) => e.etype == ETypeWrite && e.cfd == fd
       case Closes(fd) => e.etype == ETypeClose && e.cfd == fd
  }

  ghost predicate HasJob(bag: multiset<Job>, fd: nat) {
    exists j :: j in bag && Serves(j) == Some(fd)
  }

  ghost predicate SessionOf(bag: multiset<Job>, w: World<nat>, h: seq<Note>, fd: nat) {
    && Orderly(h)
    && (fd in w.streams <==> Running(h))
    && (fd in w.streams ==> (HasJob(bag, fd) <==> !Stalled(Last(h))))
    && (fd in w.streams ==> forall j :: j in bag && Serves(j) == Some(fd) ==> Leads(Last(h), j))
  }

  ghost predicate SessionInv(bag: multiset<Job>, w: World<nat>, ns: seq<Note>) {
    forall fd :: 0 <= fd ==> SessionOf(bag, w, History(ns, fd), fd)
  }

  // ---------------------------------------------------------------- an operation completes

  /** What the new event serves, for each kind of operation and result. */
  lemma DoneServes(op: Op, res: int, c: Cqe)
    requires c.sqe.op == op && c.res == res
    ensures var j := Done(NewEvent(op).(res := res));
            && Leads(NoteOf(c), j)
            && Serves(j) == (if op.Accept? then (if 0 <= res then Some(res) else None)
                             else if op.Close? || Stalled(NoteOf(c)) then None else Some(op.fd))
  {
  }

  /** Another descriptor does not notice. */
  lemma CompleteOther(bag: multiset<Job>, w: World<nat>, w': World<nat>, h: seq<Note>, fd: nat, op: Op, res: int)
    requires SessionOf(bag, w, h, fd) && Do(op) in bag && (fd in w'.streams <==> fd in w.streams)
    requires Serves(Do(op)) != Some(fd) && Serves(Done(NewEvent(op).(res := res))) != Some(fd)
    ensures SessionOf(Complete(bag, op, res), w', h, fd)
  {
    hide Serves, Orderly, Running, Stalled, Leads;
    var bag' := Complete(bag, op, res);
    assert forall j :: Serves(j) == Some(fd) ==> (j in bag' <==> j in bag);
  }

  lemma DoServes(op: Op)
    ensures Serves(Do(op)) == if op.Accept? then None else Some(op.fd)
  {
  }

  lemma CompleteOwn(reserved: set<nat>, bag: multiset<Job>, w: World<nat>, h: seq<Note>, fd: nat, c: Cqe, o: Outcome)
    requires OneEach(bag, w) && SessionOf(bag, w, h, fd) && Do(c.sqe.op) in bag && Concerns(NoteOf(c), fd)
    requires Allowed(w, reserved, KernelOp(c.sqe.op), o) && c.res == Res(o)
    ensures SessionOf(Complete(bag, c.sqe.op, c.res), Exec(w, reserved, KernelOp(c.sqe.op), o), h + [NoteOf(c)], fd)
  {
    var op := c.sqe.op;
    var w', bag' := Exec(w, reserved, KernelOp(op), o), Complete(bag, op, c.res);
    var done := Done(NewEvent(op).(res := c.res));
    CompleteKeys(reserved, w, op, o);
    DoServes(op);
    DoneServes(op, c.res, c);
    OwnFollows(bag, w, h, fd, c);
    OrderlyAppend(h, NoteOf(c));
    OnlyJob(bag, w, fd, op, c.res);
    OwnOpen(reserved, w, c, o, fd);
    assert Last(h + [NoteOf(c)]) == NoteOf(c);
    hide Serves, Orderly, Leads, OneEach, SessionOf, Exec, Allowed, KernelOp, NewEvent, Res, JobFd;
    if fd in w'.streams && !Stalled(NoteOf(c)) { assert done in bag' && Serves(done) == Some(fd); }
    assert SessionOf(bag', w', h + [NoteOf(c)], fd) by { Assemble(bag', w', h + [NoteOf(c)], fd); }
  }

  lemma Assemble(bag: multiset<Job>, w: World<nat>, h: seq<Note>, fd: nat)
    requires h != [] && Orderly(h) && (fd in w.streams <==> !Ended(Last(h)))
    requires fd in w.streams ==> (HasJob(bag, fd) <==> !Stalled(Last(h)))
    requires fd in w.streams ==> forall j :: j in bag && Serves(j) == Some(fd) ==> Leads(Last(h), j)
    ensures SessionOf(bag, w, h, fd)
  {
  }

  /** The operation was the job of its connection, so it answers the last completion. */
  lemma OwnFollows(bag: multiset<Job>, w: World<nat>, h: seq<Note>, fd: nat, c: Cqe)
    requires OneEach(bag, w) && SessionOf(bag, w, h, fd) && Do(c.sqe.op) in bag && Concerns(NoteOf(c), fd)
    requires c.sqe.op.Accept? ==> fd !in w.streams
    ensures if h == [] then c.sqe.op.Accept? else Follows(Last(h), NoteOf(c))
  {
    DoServes(c.sqe.op);
    hide Serves, Orderly;
    if !c.sqe.op.Accept? {
      assert JobFd(Do(c.sqe.op)) == Some(fd);
    }
  }

  /** Whether the descriptor is open afterwards. */
  lemma OwnOpen(reserved: set<nat>, w: World<nat>, c: Cqe, o: Outcome, fd: nat)
    requires Allowed(w, reserved, KernelOp(c.sqe.op), o) && c.res == Res(o) && Concerns(NoteOf(c), fd)
    requires !c.sqe.op.Accept? ==> fd in w.streams
    ensures fd in Exec(w, reserved, KernelOp(c.sqe.op), o).streams <==> !Ended(NoteOf(c))
  {
  }

  /** After the completion at most the new event serves the descriptor. */
  lemma OnlyJob(bag: multiset<Job>, w: World<nat>, fd: nat, op: Op, res: int)
    requires OneEach(bag, w) && Do(op) in bag
    requires if op.Accept? then fd !in w.streams else op.fd == fd
    ensures forall j :: j in Complete(bag, op, res) && Serves(j) == Some(fd) ==> j == Done(NewEvent(op).(res := res))
  {
    assert !op.Accept? ==> JobFd(Do(op)) == Some(fd);
    assert forall j :: Serves(j).Some? ==> JobFd(j) == Serves(j);
    hide NewEvent, JobFd, Serves;
  }

  lemma CompleteSession(reserved: set<nat>, bag: multiset<Job>, w: World<nat>, ns: seq<Note>, c: Cqe, o: Outcome)
    requires OneEach(bag, w) && SessionInv(bag, w, ns) && Do(c.sqe.op) in bag
    requires Allowed(w, reserved, KernelOp(c.sqe.op), o) && c.res == Res(o)
    ensures SessionInv(Complete(bag, c.sqe.op, c.res), Exec(w, reserved, KernelOp(c.sqe.op), o), ns + [NoteOf(c)])
  {
    hide OneEach, SessionOf, Complete;
    var op := c.sqe.op;
    forall fd | 0 <= fd
      ensures SessionOf(Complete(bag, op, c.res), Exec(w, reserved, KernelOp(op), o), History(ns + [NoteOf(c)], fd), fd)
    {
      HistoryLast(ns, NoteOf(c), fd);
      if Concerns(NoteOf(c), fd) {
        CompleteOwn(reserved, bag, w, History(ns, fd), fd, c, o);
      } else {
        CompleteKeys(reserved, w, op, o);
        DoServes(op);
        DoneServes(op, c.res, c);
        hide Serves, Exec, Allowed, KernelOp, NewEvent;
        CompleteOther(bag, w, Exec(w, reserved, KernelOp(op), o), History(ns, fd), fd, op, c.res);
      }
    }
  }

  // ---------------------------------------------------------------- a callback runs

  /** A callback goes on with the connection of its event, by the operation that answers it, or there is none. */
  lemma CallbackAnswers(e: EventInfo)
    ensures forall j :: j in Dos(Callback(e)) && Serves(j).Some? ==> Serves(j) == Serves(Done(e))
    ensures Serves(Done(e)).Some? ==> exists j :: j in Dos(Callback(e)) && Serves(j) == Serves(Done(e))
    ensures forall j, n :: j in Dos(Callback(e)) && Serves(j).Some? && EventOf(n, e) ==> Answers(n, ActOf(j.op))
    ensures forall j :: j in Dos(Callback(e)) ==> j.Do?
  {
    var q := Dos(Callback(e));
    match e.etype {
      case ETypeAccept => if e.res >= 0 { assert q[1] in q && q[1] == Do(Recv(e.res)); }
      case ETypeRead => if e.res != -EBADF { assert q[0] in q; }
      case ETypeWrite => assert q[0] in q;
      case _ =>
    }
  }

  lemma ReactSessionOf(bag: multiset<Job>, w: World<nat>, h: seq<Note>, e: EventInfo, fd: nat)
    requires OneEach(bag, w) && Done(e) in bag && SessionOf(bag, w, h, fd)
    ensures SessionOf(React(bag, e), w, h, fd)
  {
    CallbackAnswers(e);
    assert Serves(Done(e)).Some? ==> JobFd(Done(e)) == Serves(Done(e));
    assert forall j :: Serves(j).Some? ==> JobFd(j) == Serves(j);
    hide Serves, JobFd, Orderly, Running, Stalled, Callback, Dos, Answers, EventOf;
    var bag', q := React(bag, e), Dos(Callback(e));
    assert forall j :: j in multiset(q) <==> j in q;
    if Serves(Done(e)) == Some(fd) {
      if fd in w.streams { ReactOwn(bag, w, h, e, fd); }
    } else {
      assert forall j :: Serves(j) == Some(fd) ==> (j in bag' <==> j in bag);
    }
  }

  lemma ReactOwn(bag: multiset<Job>, w: World<nat>, h: seq<Note>, e: EventInfo, fd: nat)
    requires OneEach(bag, w) && Done(e) in bag && SessionOf(bag, w, h, fd)
    requires fd in w.streams && Serves(Done(e)) == Some(fd)
    ensures HasJob(React(bag, e), fd) && !Stalled(Last(h))
    ensures forall j :: j in React(bag, e) && Serves(j) == Some(fd) ==> Leads(Last(h), j)
  {
    CallbackAnswers(e);
    assert forall j :: Serves(j).Some? ==> JobFd(j) == Serves(j);
    hide Serves, JobFd, Orderly, Running, Stalled, Callback, Dos, Answers, EventOf;
    var bag', q := React(bag, e), Dos(Callback(e));
    assert Leads(Last(h), Done(e));
    assert forall j :: j in multiset(q) <==> j in q;
    assert forall j :: j in bag && Serves(j) == Some(fd) ==> j == Done(e);
    assert bag[Done(e)] == 1;
    var j :| j in q && Serves(j) == Some(fd);
    assert j in bag';
  }

  lemma ReactSession(bag: multiset<Job>, w: World<nat>, ns: seq<Note>, e: EventInfo)
    requires OneEach(bag, w) && SessionInv(bag, w, ns) && Done(e) in bag
    ensures SessionInv(React(bag, e), w, ns)
  {
    hide OneEach, SessionOf, React;
    forall fd | 0 <= fd ensures SessionOf(React(bag, e), w, History(ns, fd), fd) {
      ReactSessionOf(bag, w, History(ns, fd), e, fd);
    }
  }

  // ---------------------------------------------------------------- runs

  lemma StepPosted(reserved: set<nat>, s: State, e: Event)
    requires Shape(s) && Enabled(reserved, s, e)
    ensures Apply(reserved, s, e).posted ==
            if e.DoFinish? then s.posted + [Cqe(s.kernel[e.k], Res(e.o))] else s.posted
  {
    hide Exec, Allowed, Load, Callback;
  }

  lemma StepSession(reserved: set<nat>, s: State, e: Event)
    requires FullInv(s) && Enabled(reserved, s, e) && SessionInv(Jobs(s), s.world, Notes(s.posted))
    ensures var t := Apply(reserved, s, e); SessionInv(Jobs(t), t.world, Notes(t.posted))
  {
    hide Inv, Jobs, Complete, React, Exec, Allowed, Apply, Enabled, Load, KernelOp, Res, Shape, CanFinish, OneEach,
      SessionInv, JobHolds;
    assert Shape(s) by { InvShape(s); }
    EnabledMeans(reserved, s, e);
    StepRefines(reserved, s, e);
    StepPosted(reserved, s, e);
    match e
    case DoFinish(k, o) =>
      NotesLast(s.posted, Cqe(s.kernel[k], Res(o)));
      CompleteSession(reserved, Jobs(s), s.world, Notes(s.posted), Cqe(s.kernel[k], Res(o)), o);
    case DoCallSync => ReactSession(Jobs(s), s.world, Notes(s.posted), Load(s.heap, s.hand.value));
    case DoReceive(w) => ReactSession(Jobs(s), s.world, Notes(s.posted), Load(s.heap, s.channels[w][0]));
    case _ =>
  }

  lemma {:induction false} RunSession(reserved: set<nat>, s: State, es: seq<Event>, t: State)
    requires Shape(s) && FullInv(s) && SessionInv(Jobs(s), s.world, Notes(s.posted)) && Run(reserved, s, es, t)
    ensures SessionInv(Jobs(t), t.world, Notes(t.posted))
    decreases |es|
  {
    hide FullInv, Enabled, Apply, Shape, SessionInv, Jobs;
    if es != [] {
      StepKeepsFull(reserved, s, es[0]);
      StepSession(reserved, s, es[0]);
      RunSession(reserved, Apply(reserved, s, es[0]), es[1..], t);
    }
  }

  /** Exactly one job serves the connection. */
  ghost predicate OneJob(bag: multiset<Job>, fd: nat) {
    exists j :: j in bag && Serves(j) == Some(fd) && bag[j] == 1 &&
      forall k :: k in bag && Serves(k) == Some(fd) ==> k == j
  }

  /**
   In every run and for every descriptor: its completions are an orderly history; it is open
   exactly from an accept that hands it out to a close that succeeds; while it is open it has
   no job exactly when its last read found it bad or its close failed, and otherwise exactly
   one, which leads from the last completion to the next.
   */
  lemma {:induction false} SessionTheorem(reserved: set<nat>, sync: bool, workers: nat, lfd: nat, es: seq<Event>,
      t: State, fd: nat)
    requires 0 < workers && Run(reserved, Init(sync, workers, lfd), es, t)
    ensures var h := History(Notes(t.posted), fd);
            && Orderly(h)
            && (fd in t.world.streams <==> Running(h))
            && (fd in t.world.streams && Stalled(Last(h)) ==> !HasJob(Jobs(t), fd))
            && (fd in t.world.streams && !Stalled(Last(h)) ==> OneJob(Jobs(t), fd))
            && (fd in t.world.streams ==> forall j :: j in Jobs(t) && Serves(j) == Some(fd) ==> Leads(Last(h), j))
  {
    InitSession(sync, workers, lfd);
    InitInv(sync, workers, lfd);
    InitJobs(sync, workers, lfd);
    hide Run, Init, Jobs, SessionInv;
    Reach(reserved, sync, workers, lfd, es, t);
    assert FullInv(Init(sync, workers, lfd)) by { InitFull(sync, workers, lfd); }
    hide Inv, JobHolds;
    RunSession(reserved, Init(sync, workers, lfd), es, t);
    SessionAt(Jobs(t), t.world, Notes(t.posted), fd);
    if fd in t.world.streams && HasJob(Jobs(t), fd) { JobUnique(Jobs(t), t.world, fd); }
  }

  lemma SessionAt(bag: multiset<Job>, w: World<nat>, ns: seq<Note>, fd: nat)
    requires SessionInv(bag, w, ns)
    ensures SessionOf(bag, w, History(ns, fd), fd)
  {
  }

  lemma JobUnique(bag: multiset<Job>, w: World<nat>, fd: nat)
    requires OneEach(bag, w) && HasJob(bag, fd)
    ensures OneJob(bag, fd)
  {
    assert forall j :: Serves(j).Some? ==> JobFd(j) == Serves(j);
    hide Serves, JobFd;
    var j :| j in bag && Serves(j) == Some(fd);
  }

  lemma InitFull(sync: bool, workers: nat, lfd: nat)
    requires 0 < workers
    ensures Shape(Init(sync, workers, lfd)) && FullInv(Init(sync, workers, lfd))
  {
    hide Jobs, Inv;
    InitInv(sync, workers, lfd);
    InitJobs(sync, workers, lfd);
  }

  lemma InitSession(sync: bool, workers: nat, lfd: nat)
    requires 0 < workers
    ensures var s := Init(sync, workers, lfd); SessionInv(Jobs(s), s.world, Notes(s.posted))
  {
    hide Jobs;
    InitJobs(sync, workers, lfd);
  }

  // ---------------------------------------------------------------- the listener

  /** The job keeps the listener going. */
  predicate Listens(j: Job) {
    match j
    case Do(op) => op.Accept?
    case Done(e) => e.etype == ETypeAccept && 0 <= e.res
  }

  function ListenerOf(j: Job): nat
    requires Listens(j)
  {
    match j
    case Do(op) => op.lfd
    case Done(e) => e.lfd
  }

  ghost predicate AcceptInv(bag: multiset<Job>, lfd: nat, failed: nat) {
    && failed <= 1
    && (failed == 0 <==> exists j :: j in bag && Listens(j))
    && (forall j :: j in bag && Listens(j) ==> ListenerOf(j) == lfd && bag[j] == 1)
    && (forall j, k :: j in bag && k in bag && Listens(j) && Listens(k) ==> j == k)
  }

  lemma CompleteAccepts(bag: multiset<Job>, lfd: nat, ns: seq<Note>, c: Cqe)
    requires AcceptInv(bag, lfd, FailedAccepts(ns)) && Do(c.sqe.op) in bag
    ensures AcceptInv(Complete(bag, c.sqe.op, c.res), lfd, FailedAccepts(ns + [NoteOf(c)]))
  {
    FailedLast(ns, NoteOf(c));
    hide FailedAccepts;
    var op := c.sqe.op;
    var bag', done := Complete(bag, op, c.res), Done(NewEvent(op).(res := c.res));
    assert Listens(done) <==> op.Accept? && 0 <= c.res;
    assert op.Accept? ==> Listens(Do(op));
    assert op.Accept? && Listens(done) ==> ListenerOf(done) == op.lfd == lfd;
    if op.Accept? {
      assert forall j :: j in bag' && Listens(j) ==> j == done;
      if 0 <= c.res { assert done in bag'; }
    } else {
      assert forall j :: Listens(j) ==> bag'[j] == bag[j];
    }
  }

  lemma CallbackAccepts(e: EventInfo)
    ensures var q := multiset(Dos(Callback(e)));
            && (forall j :: j in q && Listens(j) ==> Listens(Done(e)) && j == Do(Accept(e.lfd)) && q[j] == 1)
            && (Listens(Done(e)) ==> Do(Accept(e.lfd)) in q)
  {
    var q := Dos(Callback(e));
    assert q == if |q| == 0 then [] else if |q| == 1 then [q[0]] else [q[0], q[1]];
  }

  lemma ReactAccepts(bag: multiset<Job>, lfd: nat, failed: nat, e: EventInfo)
    requires AcceptInv(bag, lfd, failed) && Done(e) in bag
    ensures AcceptInv(React(bag, e), lfd, failed)
  {
    CallbackAccepts(e);
    hide Callback;
    var bag', q := React(bag, e), multiset(Dos(Callback(e)));
    if Listens(Done(e)) {
      assert forall j :: j in bag' && Listens(j) ==> j == Do(Accept(e.lfd));
      assert Do(Accept(e.lfd)) in bag';
    } else {
      assert forall j :: Listens(j) ==> bag'[j] == bag[j];
    }
  }

  lemma StepAccepts(reserved: set<nat>, s: State, e: Event, lfd: nat)
    requires FullInv(s) && Enabled(reserved, s, e) && AcceptInv(Jobs(s), lfd, FailedAccepts(Notes(s.posted)))
    ensures var t := Apply(reserved, s, e); AcceptInv(Jobs(t), lfd, FailedAccepts(Notes(t.posted)))
  {
    hide Inv, Jobs, Complete, React, Exec, Allowed, Apply, Enabled, Load, KernelOp, Res, Shape, CanFinish, OneEach,
      AcceptInv, JobHolds, FailedAccepts;
    assert Shape(s) by { InvShape(s); }
    EnabledMeans(reserved, s, e);
    StepRefines(reserved, s, e);
    StepPosted(reserved, s, e);
    match e
    case DoFinish(k, o) =>
      NotesLast(s.posted, Cqe(s.kernel[k], Res(o)));
      CompleteAccepts(Jobs(s), lfd, Notes(s.posted), Cqe(s.kernel[k], Res(o)));
    case DoCallSync => ReactAccepts(Jobs(s), lfd, FailedAccepts(Notes(s.posted)), Load(s.heap, s.hand.value));
    case DoReceive(w) => ReactAccepts(Jobs(s), lfd, FailedAccepts(Notes(s.posted)), Load(s.heap, s.channels[w][0]));
    case _ =>
  }

  lemma {:induction false} RunAccepts(reserved: set<nat>, s: State, es: seq<Event>, t: State, lfd: nat)
    requires Shape(s) && FullInv(s) && AcceptInv(Jobs(s), lfd, FailedAccepts(Notes(s.posted)))
    requires Run(reserved, s, es, t)
    ensures AcceptInv(Jobs(t), lfd, FailedAccepts(Notes(t.posted)))
    decreases |es|
  {
    hide FullInv, Enabled, Apply, Shape, AcceptInv, Jobs, FailedAccepts;
    if es != [] {
      StepKeepsFull(reserved, s, es[0]);
      StepAccepts(reserved, s, es[0], lfd);
      RunAccepts(reserved, Apply(reserved, s, es[0]), es[1..], t, lfd);
    }
  }

  lemma InitAccepts(sync: bool, workers: nat, lfd: nat)
    requires 0 < workers
    ensures var s := Init(sync, workers, lfd); AcceptInv(Jobs(s), lfd, FailedAccepts(Notes(s.posted)))
  {
    InitJobs(sync, workers, lfd);
    hide Jobs;
    assert Do(Accept(lfd)) in Jobs(Init(sync, workers, lfd));
  }

  /**
   In every run there is exactly one accept under way, on the listener the server was started
   with, until an accept fails; from then on there is none.
   */
  lemma {:induction false} OneAcceptUntilFailure(reserved: set<nat>, sync: bool, workers: nat, lfd: nat,
      es: seq<Event>, t: State)
    requires 0 < workers && Run(reserved, Init(sync, workers, lfd), es, t)
    ensures var failed := FailedAccepts(Notes(t.posted));
            && failed <= 1
            && (failed == 1 ==> forall j :: j in Jobs(t) ==> !Listens(j))
            && (failed == 0 ==> exists j :: j in Jobs(t) && Listens(j) && ListenerOf(j) == lfd && Jobs(t)[j] == 1 &&
                                  forall k :: k in Jobs(t) && Listens(k) ==> k == j)
  {
    InitFull(sync, workers, lfd);
    InitAccepts(sync, workers, lfd);
    hide Run, Init, Jobs, FailedAccepts, FullInv;
    RunAccepts(reserved, Init(sync, workers, lfd), es, t, lfd);
  }
}
