/**
 The sessions of the server with several rings: whatever the interleaving, operations on a
 descriptor complete in the order `Sessions` describes, on whichever rings they run; an open
 connection has exactly one operation under way unless nothing can follow; and every ring
 that has started has exactly one accept under way until one fails.
 */
module MultiRingSessions {
  import opened Streams
  import opened Kernel
  import opened Census
  import opened Sessions
  import opened MultiRing
  import opened MultiRingProof

  function ActOf(op: Op): Act {
    match op
    case Accept => Accepts
    case Recv(fd, _) => Reads(fd)
    case Send(fd, _, size) => Sends(fd, size)
    case Close(fd) => Closes(fd)
  }

  function NoteOf(c: Cqe): Note {
    Note(ActOf(c.sqe.op), c.res)
  }

  function Notes(cs: seq<Cqe>): seq<Note> {
    seq(|cs|, i requires 0 <= i < |cs| => NoteOf(cs[i]))
  }

  lemma NotesLast(cs: seq<Cqe>, c: Cqe)
    ensures Notes(cs + [c]) == Notes(cs) + [NoteOf(c)]
  {
    hide NoteOf;
  }

  /** The completions a run posts. */
  function Posted(reserved: set<nat>, s: State, es: seq<Event>): seq<Cqe>
    decreases |es|
  {
    if es == [] || !Enabled(reserved, s, es[0]) || (es[0].DoHandle? && !Known(s, es[0].i)) then []
    else Posts(s, es[0]) + Posted(reserved, Apply(reserved, s, es[0]), es[1..])
  }

  function Posts(s: State, e: Event): seq<Cqe> {
    if e.DoFinish? && e.k < |s.kernel| && (e.o.Failed? ==> 0 < e.o.errno) then [Cqe(s.kernel[e.k], Res(e.o))] else []
  }

  // ---------------------------------------------------------------- what handling a completion queues

  /** The entries that follow a completion, on its own ring; buffers are those of the table at hand. */
  function Replies(c: Cqe, gen: nat, p: nat, q: nat): seq<Sqe> {
    var r := c.sqe.ring;
    match c.sqe.op
    case Accept => if c.res < 0 then [] else [Sqe(r, p, Accept), Sqe(r, q, Recv(c.res, gen))]
    case Recv(fd, _) =>
      if 0 < c.res then [Sqe(r, p, Send(fd, gen, c.res))] else if c.res == -9 then [] else [Sqe(r, p, Close(fd))]
    case Send(fd, _, _) => [Sqe(r, p, Recv(fd, gen))]
    case Close(_) => []
  }

  /** Handling a completion queues what follows its operation, at the end, and does nothing else. */
  lemma HandleAnswers(s: State, i: nat, p: nat, q: nat)
    requires OwnInv(s) && i < |s.cq|
    ensures Known(s, i)
    ensures var t := Handle(s, i, p, q);
            && t.sq == s.sq + Replies(s.cq[i], s.gen, p, q) && t.cq == s.cq[..i] + s.cq[i + 1..]
            && t.kernel == s.kernel && t.world == s.world && t.gen == s.gen && t.started == s.started
  {
    hide OwnInv;
    AlwaysKnown(s, i);
    var q := Replies(s.cq[i], s.gen, p, q);
    if |q| == 2 {
      assert s.sq + q == s.sq + [q[0]] + [q[1]];
    } else if |q| == 1 {
      assert q == [q[0]];
    } else {
      assert s.sq + q == s.sq;
    }
  }

  /** The same over runs. */
  lemma {:induction false} CompletionAnswered(reserved: set<nat>, listenFd: nat, rings: nat, es: seq<Event>, s: State,
      i: nat, p: nat, q: nat)
    requires Run(reserved, {}, Init(listenFd, rings), es, s) && Enabled(reserved, s, DoHandle(i, p, q))
    ensures Known(s, i)
    ensures var t := Apply(reserved, s, DoHandle(i, p, q));
            && t.sq == s.sq + Replies(s.cq[i], s.gen, p, q) && t.cq == s.cq[..i] + s.cq[i + 1..]
            && t.kernel == s.kernel && t.world == s.world && t.gen == s.gen && t.started == s.started
  {
    hide Run, Handle, Replies, OwnInv;
    assert OwnInv(s) by { RunOwn(reserved, listenFd, rings, es, s); }
    HandleAnswers(s, i, p, q);
  }

  lemma {:induction false} RunOwn(reserved: set<nat>, listenFd: nat, rings: nat, es: seq<Event>, s: State)
    requires Run(reserved, {}, Init(listenFd, rings), es, s)
    ensures Inv(s) && OwnInv(s)
  {
    InitInv(listenFd, rings);
    RunKeeps(reserved, {}, Init(listenFd, rings), es, s);
  }

  // ---------------------------------------------------------------- the invariant

  /** The connection a completion keeps going; a read on a bad descriptor keeps none. */
  function ServeFd(c: Cqe): Option<nat> {
    if c.sqe.op.Recv? && c.res == -EBADF then None else DoneFd(c)
  }

  function Serving(s: State): multiset<nat> {
    Count(s.sq, OpFd) + Count(s.kernel, OpFd) + Count(s.cq, ServeFd)
  }

  ghost predicate Leading(s: State, n: Note, fd: nat) {
    && (forall e :: e in s.sq && OpFd(e) == Some(fd) ==> Answers(n, ActOf(e.op)))
    && (forall e :: e in s.kernel && OpFd(e) == Some(fd) ==> Answers(n, ActOf(e.op)))
    && (forall c :: c in s.cq && ServeFd(c) == Some(fd) ==> NoteOf(c) == n)
  }

  ghost predicate SessionOf(s: State, h: seq<Note>, fd: nat) {
    && Orderly(h) && (fd in s.world.streams <==> Running(h))
    && Serving(s)[fd] == (if Running(h) && !Stalled(Last(h)) then 1 else 0)
    && (Running(h) ==> Leading(s, Last(h), fd))
  }

  ghost predicate SessionInv(s: State, ns: seq<Note>) {
    forall fd :: 0 <= fd ==> SessionOf(s, History(ns, fd), fd)
  }

  // ---------------------------------------------------------------- steps

  lemma TakeServing(s: State, i: nat)
    requires i < |s.sq|
    ensures Serving(Take(s, i)) == Serving(s)
  {
    hide Count, OpFd, ServeFd;
    var t := Take(s, i);
    CountRemove(s.sq, i, OpFd);
    CountAppend(s.kernel, s.sq[i], OpFd);
    Moved(Count(s.sq, OpFd), Count(t.sq, OpFd), Count(s.kernel, OpFd), Count(t.kernel, OpFd),
          Count(s.cq, ServeFd), One(OpFd(s.sq[i])));
  }

  lemma TakeSession(s: State, ns: seq<Note>, i: nat)
    requires SessionInv(s, ns) && i < |s.sq|
    ensures SessionInv(Take(s, i), ns)
  {
    hide Serving, Orderly, Running, Answers, History, Stalled, OpFd, ServeFd, ActOf, NoteOf;
    var t := Take(s, i);
    TakeServing(s, i);
    assert s.sq[i] in s.sq && forall e :: e in t.sq ==> e in s.sq;
    forall fd | 0 <= fd ensures SessionOf(t, History(ns, fd), fd) {
      assert SessionOf(s, History(ns, fd), fd);
    }
  }

  /** The operation leaves the kernel and its completion joins the queue. */
  lemma FinishServing(reserved: set<nat>, s: State, k: nat, o: Outcome)
    requires CanFinish(reserved, s, k, o)
    ensures var t, c := Finish(reserved, s, k, o), Cqe(s.kernel[k], Res(o));
            && Serving(s) == Serving(Without(s, k)) + One(OpFd(s.kernel[k]))
            && Serving(t) == Serving(Without(s, k)) + One(ServeFd(c))
  {
    hide Count, Allowed, Exec;
    var t, c := Finish(reserved, s, k, o), Cqe(s.kernel[k], Res(o));
    CountRemove(s.kernel, k, OpFd);
    CountAppend(s.cq, c, ServeFd);
    var w := Without(s, k);
    Released(Count(s.kernel, OpFd), Count(w.kernel, OpFd), Count(s.sq, OpFd), Count(s.cq, ServeFd),
             One(OpFd(s.kernel[k])));
    Associative(Count(s.sq, OpFd) + Count(w.kernel, OpFd), Count(s.cq, ServeFd), One(ServeFd(c)));
  }

  /** Which descriptors are open afterwards. */
  lemma FinishOpen(reserved: set<nat>, s: State, k: nat, o: Outcome, fd: nat)
    requires CanFinish(reserved, s, k, o)
    ensures var t, n := Finish(reserved, s, k, o), NoteOf(Cqe(s.kernel[k], Res(o)));
            && (!Concerns(n, fd) ==> (fd in t.world.streams <==> fd in s.world.streams))
            && (Concerns(n, fd) && n.act.Accepts? ==> fd !in s.world.streams && fd in t.world.streams)
            && (Concerns(n, fd) && !n.act.Accepts? && fd in s.world.streams ==> (fd in t.world.streams <==> !Ended(n)))
  {
  }

  lemma NobodyElse(w: State, fd: nat)
    requires Serving(w)[fd] == 0
    ensures forall e :: e in w.sq ==> OpFd(e) != Some(fd)
    ensures forall e :: e in w.kernel ==> OpFd(e) != Some(fd)
    ensures forall c :: c in w.cq ==> ServeFd(c) != Some(fd)
  {
    Absent(w.sq, OpFd, fd);
    Absent(w.kernel, OpFd, fd);
    Absent(w.cq, ServeFd, fd);
  }

  /** What the completion of an operation serves. */
  lemma NoteServes(c: Cqe, fd: nat)
    ensures OpFd(c.sqe) == Some(fd) ==> Concerns(NoteOf(c), fd)
    ensures ServeFd(c) == Some(fd) <==> Concerns(NoteOf(c), fd) && !Ended(NoteOf(c)) && !Stalled(NoteOf(c))
    ensures c.sqe.op.Accept? <==> NoteOf(c).act.Accepts?
    ensures !c.sqe.op.Accept? && Concerns(NoteOf(c), fd) ==> OpFd(c.sqe) == Some(fd)
  {
  }

  lemma FinishParts(reserved: set<nat>, s: State, k: nat, o: Outcome)
    requires CanFinish(reserved, s, k, o)
    ensures var t, w := Finish(reserved, s, k, o), Without(s, k);
            && t.sq == s.sq && t.kernel == w.kernel && t.cq == s.cq + [Cqe(s.kernel[k], Res(o))]
            && w.sq == s.sq && w.cq == s.cq
    ensures s.kernel[k] in s.kernel && forall e :: e in Finish(reserved, s, k, o).kernel ==> e in s.kernel
  {
    hide Allowed, Exec;
  }

  lemma NotCounted(a: multiset<nat>, x: Option<nat>, fd: nat)
    requires x != Some(fd)
    ensures (a + One(x))[fd] == a[fd]
  {
  }

  lemma FinishOther(reserved: set<nat>, s: State, h: seq<Note>, k: nat, o: Outcome, fd: nat)
    requires CanFinish(reserved, s, k, o) && SessionOf(s, h, fd)
    requires !Concerns(NoteOf(Cqe(s.kernel[k], Res(o))), fd)
    ensures SessionOf(Finish(reserved, s, k, o), h, fd)
  {
    var t, c := Finish(reserved, s, k, o), Cqe(s.kernel[k], Res(o));
    hide Finish, Serving, Concerns, NoteOf, ServeFd, OpFd, Leading, SessionOf, CanFinish, Without, Res, One, Answers,
      Running, Ended, Stalled, ActOf;
    FinishParts(reserved, s, k, o);
    FinishOpen(reserved, s, k, o, fd);
    OtherServing(reserved, s, k, o, fd);
    SessionCarried(s, t, [], [c], h, fd);
  }

  lemma OtherServing(reserved: set<nat>, s: State, k: nat, o: Outcome, fd: nat)
    requires CanFinish(reserved, s, k, o) && !Concerns(NoteOf(Cqe(s.kernel[k], Res(o))), fd)
    ensures var t, c := Finish(reserved, s, k, o), Cqe(s.kernel[k], Res(o));
            Serving(t)[fd] == Serving(s)[fd] && ServeFd(c) != Some(fd)
  {
    var c := Cqe(s.kernel[k], Res(o));
    hide Finish, Serving, Concerns, NoteOf, ServeFd, OpFd, CanFinish, Without, Res, One;
    FinishServing(reserved, s, k, o);
    NoteServes(c, fd);
    NotCounted(Serving(Without(s, k)), OpFd(c.sqe), fd);
    NotCounted(Serving(Without(s, k)), ServeFd(c), fd);
  }

  /** Nothing changes for the descriptor but entries and completions that lead on, or are of others. */
  lemma SessionCarried(s: State, t: State, rs: seq<Sqe>, ds: seq<Cqe>, h: seq<Note>, fd: nat)
    requires SessionOf(s, h, fd) && Serving(t)[fd] == Serving(s)[fd]
    requires fd in t.world.streams <==> fd in s.world.streams
    requires forall e :: e in t.sq ==> e in s.sq || e in rs
    requires forall e :: e in t.kernel ==> e in s.kernel
    requires forall c :: c in t.cq ==> c in s.cq || c in ds
    requires forall e :: e in rs && OpFd(e) == Some(fd) && Running(h) ==> Answers(Last(h), ActOf(e.op))
    requires forall c :: c in ds ==> ServeFd(c) != Some(fd)
    ensures SessionOf(t, h, fd)
  {
    hide Serving, Orderly, Running, Stalled, Answers, NoteOf, ServeFd, OpFd, ActOf;
  }

  lemma FinishOwn(reserved: set<nat>, s: State, h: seq<Note>, k: nat, o: Outcome, fd: nat)
    requires CanFinish(reserved, s, k, o) && SessionOf(s, h, fd)
    requires Concerns(NoteOf(Cqe(s.kernel[k], Res(o))), fd)
    ensures SessionOf(Finish(reserved, s, k, o), h + [NoteOf(Cqe(s.kernel[k], Res(o)))], fd)
  {
    var t, c := Finish(reserved, s, k, o), Cqe(s.kernel[k], Res(o));
    var n, w, e := NoteOf(c), Without(s, k), s.kernel[k];
    hide Finish, Serving, CanFinish, Without, Leading, Concerns, NoteOf, ServeFd, OpFd, Ended, Stalled, Answers,
      Orderly, Follows, Res, SessionOf;
    FinishParts(reserved, s, k, o);
    FinishServing(reserved, s, k, o);
    FinishOpen(reserved, s, k, o, fd);
    NoteServes(c, fd);
    OwnFollows(s, h, e, c, w, fd);
    NobodyElse(w, fd);
    OnlyNew(w, t, c, fd);
    OrderlyAppend(h, n);
    assert Last(h + [n]) == n;
    assert Serving(t)[fd] == if ServeFd(c) == Some(fd) then 1 else 0;
    OwnAssembled(t, h + [n], fd);
  }

  lemma OwnAssembled(s: State, h: seq<Note>, fd: nat)
    requires h != [] && Orderly(h) && (fd in s.world.streams <==> !Ended(Last(h))) && Leading(s, Last(h), fd)
    requires Serving(s)[fd] == if !Ended(Last(h)) && !Stalled(Last(h)) then 1 else 0
    ensures SessionOf(s, h, fd)
  {
    hide Serving, Orderly, Leading, Ended, Stalled;
  }

  lemma OnlyNew(w: State, t: State, c: Cqe, fd: nat)
    requires t.sq == w.sq && t.kernel == w.kernel && t.cq == w.cq + [c]
    requires forall e :: e in w.sq ==> OpFd(e) != Some(fd)
    requires forall e :: e in w.kernel ==> OpFd(e) != Some(fd)
    requires forall c :: c in w.cq ==> ServeFd(c) != Some(fd)
    ensures Leading(t, NoteOf(c), fd)
  {
  }

  /** The operation was the only one of its connection, so it answers the last completion. */
  lemma OwnFollows(s: State, h: seq<Note>, e: Sqe, c: Cqe, w: State, fd: nat)
    requires SessionOf(s, h, fd) && e in s.kernel && c.sqe == e && Concerns(NoteOf(c), fd)
    requires e.op.Accept? ==> fd !in s.world.streams
    requires Serving(s) == Serving(w) + One(OpFd(e))
    ensures !e.op.Accept? ==> fd in s.world.streams
    ensures Serving(w)[fd] == 0 && (if h == [] then NoteOf(c).act.Accepts? else Follows(Last(h), NoteOf(c)))
  {
    NoteServes(c, fd);
    hide Serving;
  }

  lemma FinishSession(reserved: set<nat>, s: State, ns: seq<Note>, k: nat, o: Outcome)
    requires CanFinish(reserved, s, k, o) && SessionInv(s, ns)
    ensures SessionInv(Finish(reserved, s, k, o), ns + [NoteOf(Cqe(s.kernel[k], Res(o)))])
  {
    hide Finish, SessionOf, NoteOf;
    var n := NoteOf(Cqe(s.kernel[k], Res(o)));
    forall fd | 0 <= fd ensures SessionOf(Finish(reserved, s, k, o), History(ns + [n], fd), fd) {
      HistoryLast(ns, n, fd);
      assert SessionOf(s, History(ns, fd), fd);
      if Concerns(n, fd) {
        FinishOwn(reserved, s, History(ns, fd), k, o, fd);
      } else {
        FinishOther(reserved, s, History(ns, fd), k, o, fd);
      }
    }
  }

  lemma RepliesServe(c: Cqe, gen: nat, p: nat, q: nat)
    ensures Count(Replies(c, gen, p, q), OpFd) == One(ServeFd(c))
  {
    hide Count, One;
    CountShort(Replies(c, gen, p, q), OpFd);
    OneNone();
  }

  lemma RepliesAnswer(c: Cqe, gen: nat, p: nat, q: nat)
    ensures forall e :: e in Replies(c, gen, p, q) && OpFd(e).Some? ==>
              OpFd(e) == ServeFd(c) && Answers(NoteOf(c), ActOf(e.op))
  {
  }

  lemma HandleServing(s: State, t: State, i: nat, rs: seq<Sqe>)
    requires i < |s.cq| && t.sq == s.sq + rs && t.kernel == s.kernel && t.cq == s.cq[..i] + s.cq[i + 1..]
    requires Count(rs, OpFd) == One(ServeFd(s.cq[i]))
    ensures Serving(t) == Serving(s)
  {
    hide Count, ServeFd, OpFd;
    CountConcat(s.sq, rs, OpFd);
    CountRemove(s.cq, i, ServeFd);
    Moved(Count(s.cq, ServeFd), Count(t.cq, ServeFd), Count(s.sq, OpFd), Count(t.sq, OpFd),
          Count(s.kernel, OpFd), One(ServeFd(s.cq[i])));
    Rearranged(Count(t.sq, OpFd), Count(s.kernel, OpFd), Count(t.cq, ServeFd));
    Rearranged(Count(s.sq, OpFd), Count(s.kernel, OpFd), Count(s.cq, ServeFd));
  }

  lemma Rearranged(a: multiset<nat>, b: multiset<nat>, c: multiset<nat>)
    ensures a + b + c == c + a + b
  {
  }

  lemma LeadsFrom(s: State, h: seq<Note>, c: Cqe, fd: nat)
    requires SessionOf(s, h, fd) && c in s.cq && ServeFd(c) == Some(fd) && Running(h)
    ensures NoteOf(c) == Last(h)
  {
  }

  lemma HandleSession(s: State, ns: seq<Note>, i: nat, p: nat, q: nat)
    requires OwnInv(s) && i < |s.cq| && SessionInv(s, ns)
    ensures Known(s, i) && SessionInv(Handle(s, i, p, q), ns)
  {
    hide OwnInv, Handle, Replies;
    HandleAnswers(s, i, p, q);
    var t, rs, c := Handle(s, i, p, q), Replies(s.cq[i], s.gen, p, q), s.cq[i];
    RepliesServe(c, s.gen, p, q);
    RepliesAnswer(c, s.gen, p, q);
    HandleServing(s, t, i, rs);
    assert c in s.cq && (forall d :: d in t.cq ==> d in s.cq) && forall e :: e in t.sq ==> e in s.sq || e in rs;
    hide Serving, Orderly, Running, Stalled, History, Answers, NoteOf, ServeFd, ActOf, OpFd, SessionOf;
    forall fd | 0 <= fd ensures SessionOf(t, History(ns, fd), fd) {
      var h := History(ns, fd);
      assert SessionOf(s, h, fd);
      if ServeFd(c) == Some(fd) && Running(h) { LeadsFrom(s, h, c, fd); }
      SessionCarried(s, t, rs, [], h, fd);
    }
  }

  lemma StartSession(s: State, ns: seq<Note>, ring: nat, ptr: nat)
    requires SessionInv(s, ns) && ring < |s.maps|
    ensures SessionInv(Start(s, ring, ptr), ns)
  {
    var t := Start(s, ring, ptr);
    assert t.sq == s.sq + [Sqe(ring, ptr, Accept)] && t.kernel == s.kernel && t.cq == s.cq;
    assert t.world.streams == s.world.streams;
    hide Start;
    assert Serving(t) == Serving(s) by {
      CountAppend(s.sq, Sqe(ring, ptr, Accept), OpFd);
    }
    hide Serving, History, SessionOf;
    forall fd | 0 <= fd ensures SessionOf(t, History(ns, fd), fd) {
      assert SessionOf(s, History(ns, fd), fd);
      SessionCarried(s, t, [Sqe(ring, ptr, Accept)], [], History(ns, fd), fd);
    }
  }

  // ---------------------------------------------------------------- runs

  lemma StepSession(reserved: set<nat>, s: State, cs: seq<Cqe>, e: Event)
    requires Inv(s) && SessionInv(s, Notes(cs)) && Enabled(reserved, s, e) && (e.DoHandle? ==> Known(s, e.i))
    ensures SessionInv(Apply(reserved, s, e), Notes(cs + Posts(s, e)))
  {
    hide SessionInv, Handle, Start, Take, Finish, Notes, Allowed, Unused, OwnInv, MapInv, ActiveInv;
    assert cs + [] == cs;
    match e
    case DoStart(ring, ptr) => StartSession(s, Notes(cs), ring, ptr);
    case DoTake(i) => TakeSession(s, Notes(cs), i);
    case DoFinish(k, o) =>
      PostsOne(reserved, s, k, o);
      NotesLast(cs, Cqe(s.kernel[k], Res(o)));
      FinishSession(reserved, s, Notes(cs), k, o);
    case DoHandle(i, p, q) => HandleSession(s, Notes(cs), i, p, q);
  }

  lemma PostsOne(reserved: set<nat>, s: State, k: nat, o: Outcome)
    requires CanFinish(reserved, s, k, o)
    ensures Posts(s, DoFinish(k, o)) == [Cqe(s.kernel[k], Res(o))]
  {
  }

  lemma {:induction false} RunSession(reserved: set<nat>, s: State, cs: seq<Cqe>, es: seq<Event>, t: State)
    requires Inv(s) && SessionInv(s, Notes(cs)) && Run(reserved, {}, s, es, t)
    ensures SessionInv(t, Notes(cs + Posted(reserved, s, es)))
    decreases |es|
  {
    hide SessionInv, Enabled, Apply, Inv, Known, Posts, Notes;
    if es == [] {
      assert cs + [] == cs;
    } else {
      StepKeeps(reserved, s, es[0]);
      StepSession(reserved, s, cs, es[0]);
      var s', ps := Apply(reserved, s, es[0]), Posts(s, es[0]);
      RunSession(reserved, s', cs + ps, es[1..], t);
      assert cs + ps + Posted(reserved, s', es[1..]) == cs + (ps + Posted(reserved, s', es[1..]));
    }
  }

  lemma InitSession(listenFd: nat, rings: nat)
    ensures SessionInv(Init(listenFd, rings), Notes([]))
  {
  }

  /**
   In every interleaving and for every descriptor: its completions are an orderly history; it
   is open exactly from an accept that hands it out to a close that succeeds; while it is open
   it has no operation that keeps it going exactly when its last read found it bad or its
   close failed, and otherwise exactly one, over all rings, which is the one that follows.
   */
  lemma {:induction false} SessionTheorem(reserved: set<nat>, listenFd: nat, rings: nat, es: seq<Event>, t: State,
      fd: nat)
    requires Run(reserved, {}, Init(listenFd, rings), es, t)
    ensures var h := History(Notes(Posted(reserved, Init(listenFd, rings), es)), fd);
            && Orderly(h) && (fd in t.world.streams <==> Running(h))
            && Serving(t)[fd] == (if Running(h) && !Stalled(Last(h)) then 1 else 0)
            && (Running(h) ==> Leading(t, Last(h), fd))
  {
    InitInv(listenFd, rings);
    InitSession(listenFd, rings);
    hide Run, Inv, SessionInv, Init, Posted, Notes;
    RunSession(reserved, Init(listenFd, rings), [], es, t);
    var cs := Posted(reserved, Init(listenFd, rings), es);
    assert [] + cs == cs;
    SessionAt(t, Notes(cs), fd);
  }

  lemma SessionAt(s: State, ns: seq<Note>, fd: nat)
    requires SessionInv(s, ns)
    ensures SessionOf(s, History(ns, fd), fd)
  {
  }

  // ---------------------------------------------------------------- the listener

  function AcceptOn(e: Sqe): Option<nat> { if e.op.Accept? then Some(e.ring) else None }
  function AcceptedOn(c: Cqe): Option<nat> { if c.sqe.op.Accept? && 0 <= c.res then Some(c.sqe.ring) else None }
  function FailedOn(c: Cqe): Option<nat> { if c.sqe.op.Accept? && c.res < 0 then Some(c.sqe.ring) else None }

  /** The rings with an accept under way. */
  function Listening(s: State): multiset<nat> {
    Count(s.sq, AcceptOn) + Count(s.kernel, AcceptOn) + Count(s.cq, AcceptedOn)
  }

  ghost predicate AcceptInv(s: State, cs: seq<Cqe>) {
    Listening(s) + Count(cs, FailedOn) == multiset(s.started)
  }

  lemma TakeListening(s: State, i: nat)
    requires i < |s.sq|
    ensures Listening(Take(s, i)) == Listening(s)
  {
    hide Count;
    var t := Take(s, i);
    CountRemove(s.sq, i, AcceptOn);
    CountAppend(s.kernel, s.sq[i], AcceptOn);
    Moved(Count(s.sq, AcceptOn), Count(t.sq, AcceptOn), Count(s.kernel, AcceptOn), Count(t.kernel, AcceptOn),
          Count(s.cq, AcceptedOn), One(AcceptOn(s.sq[i])));
  }

  lemma FinishListening(reserved: set<nat>, s: State, k: nat, o: Outcome)
    requires CanFinish(reserved, s, k, o)
    ensures Listening(s) == Listening(Finish(reserved, s, k, o)) + One(FailedOn(Cqe(s.kernel[k], Res(o))))
  {
    hide Count, Allowed, Exec;
    var t, c, w := Finish(reserved, s, k, o), Cqe(s.kernel[k], Res(o)), Without(s, k);
    CountRemove(s.kernel, k, AcceptOn);
    CountAppend(s.cq, c, AcceptedOn);
    var a, b, d := Count(s.sq, AcceptOn), Count(w.kernel, AcceptOn), Count(s.cq, AcceptedOn);
    assert One(AcceptOn(s.kernel[k])) == One(AcceptedOn(c)) + One(FailedOn(c));
    Shuffle(a, b, d, One(AcceptedOn(c)), One(FailedOn(c)));
  }

  lemma Shuffle(a: multiset<nat>, b: multiset<nat>, d: multiset<nat>, x: multiset<nat>, y: multiset<nat>)
    ensures a + (b + (x + y)) + d == a + b + (d + x) + y
  {
  }

  lemma HandleListening(s: State, t: State, i: nat, rs: seq<Sqe>)
    requires i < |s.cq| && t.sq == s.sq + rs && t.kernel == s.kernel && t.cq == s.cq[..i] + s.cq[i + 1..]
    requires Count(rs, AcceptOn) == One(AcceptedOn(s.cq[i]))
    ensures Listening(t) == Listening(s)
  {
    hide Count, AcceptOn, AcceptedOn;
    CountConcat(s.sq, rs, AcceptOn);
    CountRemove(s.cq, i, AcceptedOn);
    Moved(Count(s.cq, AcceptedOn), Count(t.cq, AcceptedOn), Count(s.sq, AcceptOn), Count(t.sq, AcceptOn),
          Count(s.kernel, AcceptOn), One(AcceptedOn(s.cq[i])));
    Rearranged(Count(t.sq, AcceptOn), Count(s.kernel, AcceptOn), Count(t.cq, AcceptedOn));
    Rearranged(Count(s.sq, AcceptOn), Count(s.kernel, AcceptOn), Count(s.cq, AcceptedOn));
  }

  lemma RepliesListen(c: Cqe, gen: nat, p: nat, q: nat)
    ensures Count(Replies(c, gen, p, q), AcceptOn) == One(AcceptedOn(c))
  {
    hide Count, One;
    CountShort(Replies(c, gen, p, q), AcceptOn);
    OneNone();
  }

  lemma StartListening(s: State, ring: nat, ptr: nat)
    requires ring < |s.maps| && ring !in s.started
    ensures var t := Start(s, ring, ptr);
            Listening(t) == Listening(s) + multiset{ring} && multiset(t.started) == multiset(s.started) + multiset{ring}
  {
    hide Count;
    CountAppend(s.sq, Sqe(ring, ptr, Accept), AcceptOn);
    Released(Count(Start(s, ring, ptr).sq, AcceptOn), Count(s.sq, AcceptOn), Count(s.kernel, AcceptOn),
             Count(s.cq, AcceptedOn), multiset{ring});
  }

  lemma StepAccepts(reserved: set<nat>, s: State, cs: seq<Cqe>, e: Event)
    requires Inv(s) && AcceptInv(s, cs) && Enabled(reserved, s, e) && (e.DoHandle? ==> Known(s, e.i))
    ensures AcceptInv(Apply(reserved, s, e), cs + Posts(s, e))
  {
    hide Count, Listening, Handle, Allowed, Unused, OwnInv, MapInv, ActiveInv, Replies, Produce, NewTable, Exec;
    assert cs + [] == cs;
    match e
    case DoStart(ring, ptr) =>
      StartListening(s, ring, ptr);
      Associative(Listening(s), multiset{ring}, Count(cs, FailedOn));
    case DoTake(i) => TakeListening(s, i);
    case DoFinish(k, o) =>
      PostsOne(reserved, s, k, o);
      var t, c := Finish(reserved, s, k, o), Cqe(s.kernel[k], Res(o));
      CountAppend(cs, c, FailedOn);
      FinishListening(reserved, s, k, o);
      Associative(Listening(t), One(FailedOn(c)), Count(cs, FailedOn));
      Associative(Listening(t), Count(cs, FailedOn), One(FailedOn(c)));
    case DoHandle(i, p, q) =>
      HandleAnswers(s, i, p, q);
      RepliesListen(s.cq[i], s.gen, p, q);
      HandleListening(s, Handle(s, i, p, q), i, Replies(s.cq[i], s.gen, p, q));
  }

  lemma {:induction false} RunAccepts(reserved: set<nat>, s: State, cs: seq<Cqe>, es: seq<Event>, t: State)
    requires Inv(s) && AcceptInv(s, cs) && Run(reserved, {}, s, es, t)
    ensures AcceptInv(t, cs + Posted(reserved, s, es))
    decreases |es|
  {
    hide AcceptInv, Enabled, Apply, Inv, Known, Posts;
    if es == [] {
      assert cs + [] == cs;
    } else {
      StepKeeps(reserved, s, es[0]);
      StepAccepts(reserved, s, cs, es[0]);
      var s', ps := Apply(reserved, s, es[0]), Posts(s, es[0]);
      RunAccepts(reserved, s', cs + ps, es[1..], t);
      assert cs + ps + Posted(reserved, s', es[1..]) == cs + (ps + Posted(reserved, s', es[1..]));
    }
  }

  /** In every interleaving each ring that has started has exactly one accept under way, or one that failed. */
  lemma {:induction false} OneAcceptPerRing(reserved: set<nat>, listenFd: nat, rings: nat, es: seq<Event>, t: State)
    requires Run(reserved, {}, Init(listenFd, rings), es, t)
    ensures Listening(t) + Count(Posted(reserved, Init(listenFd, rings), es), FailedOn) == multiset(t.started)
  {
    InitInv(listenFd, rings);
    assert AcceptInv(Init(listenFd, rings), []);
    hide Run, Inv, Init, Posted, Listening;
    RunAccepts(reserved, Init(listenFd, rings), [], es, t);
    var cs := Posted(reserved, Init(listenFd, rings), es);
    assert [] + cs == cs;
  }
}
