/**
 The eventfd server carries out the bag of jobs: in every step of every actor the jobs
 spread over locks, ring, map, heap and channels change exactly as the bag allows.
 */
module EventFdRefines {
  import opened Kernel
  import opened Bags
  import opened EventFd
  import opened EventFdInvariant
  import opened EventFdJobs

  function DoLists(todo: seq<seq<Op>>): seq<seq<Job>> {
    seq(|todo|, t requires 0 <= t < |todo| => Dos(todo[t]))
  }

  function Dones(es: seq<EventInfo>): seq<Job> {
    seq(|es|, i requires 0 <= i < |es| => Done(es[i]))
  }

  function DoneLists(ws: seq<seq<EventInfo>>): seq<seq<Job>> {
    seq(|ws|, t requires 0 <= t < |ws| => Dones(ws[t]))
  }

  function Flying(q: seq<Sqe>): seq<Job> {
    seq(|q|, i requires 0 <= i < |q| => Do(q[i].op))
  }

  function Landed(q: seq<Cqe>): seq<Job> {
    seq(|q|, i requires 0 <= i < |q| => Done(Completed(q[i])))
  }

  function ToSubmit(s: State): multiset<Job> { All(DoLists(s.todo)) }

  function AtLock(s: State): multiset<Job> {
    if s.holder.Some? then multiset{Do(s.holder.value.sqe.op)} else multiset{}
  }

  function InKernel(s: State): multiset<Job> { multiset(Flying(s.kernel)) }

  function OnRing(s: State): multiset<Job> { multiset(Landed(s.cq)) }

  function InHand(s: State): multiset<Job> {
    if s.hand.Some? then multiset{Done(Load(s.heap, s.hand.value))} else multiset{}
  }

  function InChannels(s: State): multiset<Job> { All(DoneLists(Waiting(s))) }

  /** Everything that is still to be done, wherever it is. */
  function Jobs(s: State): multiset<Job> {
    ToSubmit(s) + AtLock(s) + InKernel(s) + OnRing(s) + InHand(s) + InChannels(s)
  }

  // ---------------------------------------------------------------- single queues

  lemma FlyingAppend(q: seq<Sqe>, e: Sqe)
    ensures multiset(Flying(q + [e])) == multiset(Flying(q)) + multiset{Do(e.op)}
  {
    assert Flying(q + [e]) == Flying(q) + [Do(e.op)];
  }

  lemma FlyingRemove(q: seq<Sqe>, k: nat)
    requires k < |q|
    ensures multiset(Flying(q)) == multiset(Flying(q[..k] + q[k + 1..])) + multiset{Do(q[k].op)}
  {
    assert Flying(q[..k] + q[k + 1..]) == Flying(q)[..k] + Flying(q)[k + 1..];
    RemoveAt(Flying(q), k);
  }

  lemma LandedAppend(q: seq<Cqe>, c: Cqe)
    ensures multiset(Landed(q + [c])) == multiset(Landed(q)) + multiset{Done(Completed(c))}
  {
    hide Completed;
    assert Landed(q + [c]) == Landed(q) + [Done(Completed(c))];
  }

  lemma LandedTail(q: seq<Cqe>)
    requires q != []
    ensures multiset(Landed(q)) == multiset(Landed(q[1..])) + multiset{Done(Completed(q[0]))}
  {
    hide Completed;
    assert Landed(q) == [Done(Completed(q[0]))] + Landed(q[1..]);
  }

  lemma SubmitFirst(todo: seq<seq<Op>>, t: nat)
    requires t < |todo| && todo[t] != []
    ensures All(DoLists(todo)) == All(DoLists(todo[t := todo[t][1..]])) + multiset{Do(todo[t][0])}
  {
    hide All;
    var ls := DoLists(todo);
    assert DoLists(todo[t := todo[t][1..]]) == ls[t := ls[t][1..]] by {
      assert Dos(todo[t][1..]) == Dos(todo[t])[1..];
    }
    AllTail(ls, t);
  }

  lemma SubmitMore(todo: seq<seq<Op>>, t: nat, ops: seq<Op>)
    requires t < |todo| && todo[t] == []
    ensures All(DoLists(todo[t := ops])) == All(DoLists(todo)) + multiset(Dos(ops))
  {
    hide All;
    var ls := DoLists(todo);
    assert DoLists(todo[t := ops]) == ls[t := Dos(ops)];
    assert ls[t] == [];
    AllUpdate(ls, t, Dos(ops));
  }

  lemma WaitFirst(ws: seq<seq<EventInfo>>, ws': seq<seq<EventInfo>>, t: nat, e: EventInfo)
    requires t < |ws| && |ws'| == |ws| && ws[t] == [e] + ws'[t]
    requires forall i: nat :: i < |ws| && i != t ==> ws'[i] == ws[i]
    ensures All(DoneLists(ws)) == All(DoneLists(ws')) + multiset{Done(e)}
  {
    hide All;
    var ls := DoneLists(ws);
    assert ls[t] == [Done(e)] + Dones(ws'[t]);
    assert DoneLists(ws') == ls[t := ls[t][1..]];
    AllTail(ls, t);
  }

  lemma WaitMore(ws: seq<seq<EventInfo>>, t: nat, e: EventInfo)
    requires t < |ws|
    ensures All(DoneLists(ws[t := ws[t] + [e]])) == All(DoneLists(ws)) + multiset{Done(e)}
  {
    hide All;
    var ls := DoneLists(ws);
    assert Dones(ws[t] + [e]) == ls[t] + [Done(e)];
    assert DoneLists(ws[t := ws[t] + [e]]) == ls[t := ls[t] + [Done(e)]];
    AllAppend(ls, t, Done(e));
  }

  // ---------------------------------------------------------------- steps no job notices

  lemma QuietJobs(s: State, s': State)
    requires Quiet(s, s')
    ensures InHand(s') == InHand(s) && InChannels(s') == InChannels(s)
  {
    hide All, Load;
    WaitingFrame(s, s');
  }

  /** `x` moves from one of six places to another. */
  lemma Six(a: multiset<Job>, b: multiset<Job>, c: multiset<Job>, d: multiset<Job>, e: multiset<Job>,
      f: multiset<Job>, x: multiset<Job>)
    ensures (a + x) + b + c + d + e + f == a + (b + x) + c + d + e + f
    ensures a + (b + x) + c + d + e + f == a + b + (c + x) + d + e + f
    ensures a + b + c + (d + x) + e + f == a + b + c + d + (e + x) + f
    ensures a + b + c + d + (e + x) + f == a + b + c + d + e + (f + x)
    ensures a + b + (c + x) + d + e + f == a + b + c + d + e + f + x
    ensures a + b + c + (d + x) + e + f == a + b + c + d + e + f + x
    ensures a + b + c + d + (e + x) + f == a + b + c + d + e + f + x
    ensures a + b + c + d + e + (f + x) == a + b + c + d + e + f + x
    ensures (a + x) + b + c + d + e + f == a + b + c + d + e + f + x
  {
  }

  lemma BeginJobs(s: State, t: nat, ptr: nat)
    requires Inv(s) && t < |s.todo| && s.todo[t] != [] && s.holder.None? && ptr !in s.heap
    ensures Jobs(Begin(s, t, ptr)) == Jobs(s)
  {
    var s', x := Begin(s, t, ptr), multiset{Do(s.todo[t][0])};
    BeginQuiet(s, t, ptr);
    hide Inv, Quiet, All, Waiting, Load, NewEvent, DoLists, DoneLists;
    QuietJobs(s, s');
    SubmitFirst(s.todo, t);
    assert AtLock(s) + x == x;
    hide Flying, Landed, InHand, InChannels;
    Six(ToSubmit(s'), AtLock(s), InKernel(s), OnRing(s), InHand(s), InChannels(s), x);
  }

  lemma RegisterJobs(s: State)
    requires s.holder.Some?
    ensures Jobs(Register(s)) == Jobs(s)
  {
    hide All, Waiting, Load, DoLists, DoneLists, Flying, Landed;
    assert Quiet(s, Register(s)) by { hide All; }
    QuietJobs(s, Register(s));
  }

  lemma SubmitJobs(s: State)
    requires s.holder.Some?
    ensures Jobs(Submit(s)) == Jobs(s)
  {
    hide All, Waiting, Load, DoLists, DoneLists, Flying, Landed;
    var s', e := Submit(s), s.holder.value.sqe;
    assert Quiet(s, s');
    QuietJobs(s, s');
    FlyingAppend(s.kernel, e);
    var x := multiset{Do(e.op)};
    assert AtLock(s) == AtLock(s') + x;
    hide InHand, InChannels;
    Six(ToSubmit(s), AtLock(s'), InKernel(s), OnRing(s), InHand(s), InChannels(s), x);
  }

  lemma PeekJobs(s: State)
    requires Inv(s) && s.cq != [] && s.hand.None?
    ensures Jobs(Peek(s)) == Jobs(s)
  {
    var s', c := Peek(s), s.cq[0];
    PeekFinds(s);
    Counted(s, c.sqe.ptr);
    hide Inv, Peek, All, Completed, DoLists, DoneLists, Flying, Landed, Waiting;
    WaitingFrame(s, s');
    LandedTail(s.cq);
    var x := multiset{Done(Completed(c))};
    assert InHand(s') == InHand(s) + x;
    hide Load;
    Six(ToSubmit(s), AtLock(s), InKernel(s), OnRing(s'), InHand(s), InChannels(s), x);
  }

  lemma DispatchJobs(s: State)
    requires Shape(s) && s.hand.Some?
    ensures Jobs(Dispatch(s)) == Jobs(s)
  {
    var s', e := Dispatch(s), Load(s.heap, s.hand.value);
    DispatchWaiting(s);
    WaitingSize(s);
    hide All, Load, DoLists, DoneLists, Flying, Landed, Waiting;
    WaitMore(Waiting(s), Index(s, e), e);
    var x := multiset{Done(e)};
    assert InHand(s) == InHand(s') + x;
    hide Dispatch, Index;
    Six(ToSubmit(s), AtLock(s), InKernel(s), OnRing(s), InHand(s'), InChannels(s), x);
    hide InHand, InChannels;
    assert s'.todo == s.todo && s'.holder == s.holder && s'.kernel == s.kernel && s'.cq == s.cq by { DispatchRest(s); }
  }

  lemma DispatchRest(s: State)
    requires Shape(s) && s.hand.Some?
    ensures var s' := Dispatch(s); s'.todo == s.todo && s'.holder == s.holder && s'.kernel == s.kernel && s'.cq == s.cq
  {
  }

  lemma CollectQuiet(s: State, p: nat)
    requires !Reachable(s, p)
    ensures Quiet(s, Collect(s, p))
  {
    Elsewhere(s, p);
    hide Reachable, All;
  }

  lemma CollectJobs(s: State, p: nat)
    requires !Reachable(s, p)
    ensures Jobs(Collect(s, p)) == Jobs(s)
  {
    hide Reachable, All, Waiting, DoLists, DoneLists, Flying, Landed, InHand, InChannels, Quiet;
    CollectQuiet(s, p);
    QuietJobs(s, Collect(s, p));
  }

  // ---------------------------------------------------------------- steps of the bag

  lemma Swap(bag: multiset<Job>, rest: multiset<Job>, bag': multiset<Job>, x: multiset<Job>, y: multiset<Job>)
    requires bag == rest + x && bag' == rest + y
    ensures bag' == bag - x + y && x <= bag
  {
  }

  lemma FinishJobs(reserved: set<nat>, s: State, k: nat, o: Outcome)
    requires CanFinish(reserved, s, k, o)
    ensures Do(s.kernel[k].op) in Jobs(s)
    ensures Jobs(Finish(reserved, s, k, o)) == Complete(Jobs(s), s.kernel[k].op, Res(o))
  {
    hide Exec, All, Waiting, Load, DoLists, DoneLists, Flying, Landed;
    var s', op := Finish(reserved, s, k, o), s.kernel[k].op;
    var x, y := multiset{Do(op)}, multiset{Done(NewEvent(op).(res := Res(o)))};
    assert Quiet(s, s');
    QuietJobs(s, s');
    FlyingRemove(s.kernel, k);
    LandedAppend(s.cq, Cqe(s.kernel[k], Res(o)));
    hide InHand, InChannels, Quiet, Res, Allowed;
    var rest := ToSubmit(s) + AtLock(s) + InKernel(s') + OnRing(s) + InHand(s) + InChannels(s);
    Six(ToSubmit(s), AtLock(s), InKernel(s'), OnRing(s), InHand(s), InChannels(s), x);
    Six(ToSubmit(s), AtLock(s), InKernel(s'), OnRing(s), InHand(s), InChannels(s), y);
    Swap(Jobs(s), rest, Jobs(s'), x, y);
    assert Do(op) in x;
  }

  lemma CallSyncJobs(s: State)
    requires Shape(s) && HandInv(s) && s.hand.Some?
    ensures var e := Load(s.heap, s.hand.value); Done(e) in Jobs(s) && Jobs(CallSync(s)) == React(Jobs(s), e)
  {
    hide All, Waiting, Load, DoLists, DoneLists, Flying, Landed, Callback, Dos, Completed;
    var s', e, n := CallSync(s), Load(s.heap, s.hand.value), |s.channels|;
    WaitingFrame(s, s');
    SubmitMore(s.todo, n, Callback(e));
    var x, y := multiset{Done(e)}, multiset(Dos(Callback(e)));
    assert InHand(s) == InHand(s') + x && InChannels(s') == InChannels(s);
    assert s'.holder == s.holder && s'.kernel == s.kernel && s'.cq == s.cq;
    hide InHand, InChannels;
    var rest := ToSubmit(s) + AtLock(s) + InKernel(s) + OnRing(s) + InHand(s') + InChannels(s);
    Six(ToSubmit(s), AtLock(s), InKernel(s), OnRing(s), InHand(s'), InChannels(s), x);
    Six(ToSubmit(s), AtLock(s), InKernel(s), OnRing(s), InHand(s'), InChannels(s), y);
    Swap(Jobs(s), rest, Jobs(s'), x, y);
    assert Done(e) in x;
  }

  lemma ReceiveJobs(s: State, w: nat)
    requires Shape(s) && w < |s.channels| && s.channels[w] != [] && Idle(s, w)
    ensures var e := Load(s.heap, s.channels[w][0]); Done(e) in Jobs(s) && Jobs(Receive(s, w)) == React(Jobs(s), e)
  {
    hide All, Waiting, Load, DoLists, DoneLists, Flying, Landed, Callback, Dos;
    var s', e := Receive(s, w), Load(s.heap, s.channels[w][0]);
    ReceiveWaiting(s, w);
    WaitingSize(s);
    WaitingSize(s');
    WaitFirst(Waiting(s), Waiting(s'), w, e);
    SubmitMore(s.todo, w, Callback(e));
    var x, y := multiset{Done(e)}, multiset(Dos(Callback(e)));
    assert InHand(s') == InHand(s) && InChannels(s) == InChannels(s') + x;
    assert s'.holder == s.holder && s'.kernel == s.kernel && s'.cq == s.cq;
    hide InHand, InChannels;
    var rest := ToSubmit(s) + AtLock(s) + InKernel(s) + OnRing(s) + InHand(s) + InChannels(s');
    Six(ToSubmit(s), AtLock(s), InKernel(s), OnRing(s), InHand(s), InChannels(s'), x);
    Six(ToSubmit(s), AtLock(s), InKernel(s), OnRing(s), InHand(s), InChannels(s'), y);
    Swap(Jobs(s), rest, Jobs(s'), x, y);
    assert Done(e) in x;
  }

  /** The step of the bag, and what it does to the connections. */
  ghost predicate Mirrored(reserved: set<nat>, s: State, e: Event, s': State)
    requires Shape(s) && Enabled(reserved, s, e)
  {
    match e
    case DoFinish(k, o) =>
      && Do(s.kernel[k].op) in Jobs(s) && Jobs(s') == Complete(Jobs(s), s.kernel[k].op, Res(o))
      && s'.world == Exec(s.world, reserved, KernelOp(s.kernel[k].op), o)
    case DoCallSync =>
      var ev := Load(s.heap, s.hand.value);
      Done(ev) in Jobs(s) && Jobs(s') == React(Jobs(s), ev) && s'.world == s.world
    case DoReceive(w) =>
      var ev := Load(s.heap, s.channels[w][0]);
      Done(ev) in Jobs(s) && Jobs(s') == React(Jobs(s), ev) && s'.world == s.world
    case _ => Jobs(s') == Jobs(s) && s'.world == s.world
  }

  lemma WorldAfter(reserved: set<nat>, s: State, e: Event)
    requires Shape(s) && Enabled(reserved, s, e)
    ensures Apply(reserved, s, e).world
         == if e.DoFinish? then Exec(s.world, reserved, KernelOp(s.kernel[e.k].op), e.o) else s.world
  {
    hide Load, Exec, Allowed, Index, Callback, Reachable;
  }

  /**
   Refinement: a completion is a step of the bag, running a callback is a step of the bag,
   and every other step of every actor leaves the bag and the connections alone.
   */
  lemma StepRefines(reserved: set<nat>, s: State, e: Event)
    requires Inv(s) && Enabled(reserved, s, e)
    ensures Mirrored(reserved, s, e, Apply(reserved, s, e))
  {
    assert Shape(s) && HandInv(s);
    WorldAfter(reserved, s, e);
    hide Inv, Jobs, Load, Complete, React, Reachable, HandInv, Exec, Allowed, Index, Callback,
      Begin, Register, Submit, Finish, Peek, Dispatch, CallSync, Receive, Collect;
    match e
    case DoBegin(t, ptr) => BeginJobs(s, t, ptr);
    case DoRegister => RegisterJobs(s);
    case DoSubmit => SubmitJobs(s);
    case DoFinish(k, o) => FinishJobs(reserved, s, k, o);
    case DoPeek => PeekJobs(s);
    case DoDispatch => DispatchJobs(s);
    case DoCallSync => CallSyncJobs(s);
    case DoReceive(w) => ReceiveJobs(s, w);
    case DoCollect(p) => CollectJobs(s, p);
  }
}
