/**
 What every step of the eventfd server keeps: the map knows exactly the operations that
 will come back, no two live uses share an event object, and each worker's history and
 channel together are its share of the completions, in the order they came.
 */
module EventFdInvariant {
  import opened Streams
  import opened Kernel
  import opened Census
  import opened Bags
  import opened EventFd

  // ---------------------------------------------------------------- the map

  function PtrOf(e: Sqe): Option<nat> { Some(e.ptr) }
  function DonePtr(c: Cqe): Option<nat> { Some(c.sqe.ptr) }

  function Held(s: State, registered: bool): multiset<nat> {
    if s.holder.Some? && s.holder.value.registered == registered then multiset{s.holder.value.sqe.ptr} else multiset{}
  }

  /** The addresses under which completions will come back. */
  function Awaited(s: State): multiset<nat> {
    Count(s.kernel, PtrOf) + Count(s.cq, DonePtr) + Held(s, true)
  }

  ghost predicate MapInv(s: State) {
    Awaited(s) == multiset(s.mapEvent.Keys)
  }

  /** The operation's object is there, as it was made. */
  ghost predicate Made(s: State, e: Sqe) {
    e.ptr in s.heap && s.heap[e.ptr] == NewEvent(e.op)
  }

  ghost predicate Own(s: State, e: Sqe) {
    Made(s, e) && e.ptr in s.mapEvent && s.mapEvent[e.ptr] == e.ptr
  }

  ghost predicate OwnInv(s: State) {
    && (forall e :: e in s.kernel ==> Own(s, e))
    && (forall c :: c in s.cq ==> Own(s, c.sqe))
    && (s.holder.Some? ==> Made(s, s.holder.value.sqe) && (s.holder.value.registered ==> Own(s, s.holder.value.sqe)))
    && (forall u :: u in s.mapEvent ==> s.mapEvent[u] == u)
  }

  // ---------------------------------------------------------------- the heap

  /** Every use of an event object. */
  function Live(s: State): multiset<nat> {
    multiset(s.mapEvent.Keys) + Held(s, false) + One(s.hand) + All(s.channels)
  }

  ghost predicate LiveInv(s: State) {
    Live(s) <= multiset(s.heap.Keys)
  }

  // ---------------------------------------------------------------- the order of events

  function Contents(heap: map<nat, EventInfo>, q: seq<nat>): seq<EventInfo> {
    seq(|q|, i requires 0 <= i < |q| => Load(heap, q[i]))
  }

  /** The events waiting for each thread; the subscriber has no channel. */
  function Waiting(s: State): seq<seq<EventInfo>> {
    seq(|s.channels| + 1,
        t requires 0 <= t <= |s.channels| => if t < |s.channels| then Contents(s.heap, s.channels[t]) else [])
  }

  /** The descriptor an operation is for. */
  function FdOfOp(op: Op): nat {
    match op
    case Accept(lfd) => lfd
    case Recv(fd) => fd
    case Send(fd, _) => fd
    case Close(fd) => fd
  }

  /** The thread that is to run the callback of an operation. */
  function Runner(sync: bool, n: nat, op: Op): nat
    requires 0 < n
  {
    if sync then n else FdOfOp(op) % n
  }

  /** A thread's share of the completions, as events, in order. */
  function Share(sync: bool, n: nat, cs: seq<Cqe>, t: nat): seq<EventInfo>
    requires 0 < n
  {
    if cs == [] then [] else
      Share(sync, n, Front(cs), t) + if Runner(sync, n, Last(cs).sqe.op) == t then [Completed(Last(cs))] else []
  }

  /** The completions taken off the ring and passed on. */
  function Passed(s: State): seq<Cqe> {
    if s.hand.Some? && s.consumed != [] then Front(s.consumed) else s.consumed
  }

  ghost predicate HandInv(s: State)
    requires Shape(s)
  {
    s.hand.Some? ==>
      s.consumed != [] && Load(s.heap, s.hand.value) == Completed(Last(s.consumed)) && s.todo[|s.channels|] == []
  }

  ghost predicate ShareInv(s: State)
    requires Shape(s)
  {
    forall t: nat :: t <= |s.channels| ==>
      s.ran[t] + Waiting(s)[t] == Share(s.sync, |s.channels|, Passed(s), t)
  }

  ghost predicate Inv(s: State) {
    && Shape(s) && MapInv(s) && OwnInv(s) && LiveInv(s) && HandInv(s) && ShareInv(s)
    && s.posted == s.consumed + s.cq && s.missed == 0
  }

  // ---------------------------------------------------------------- objects keep apart

  lemma Counted(s: State, p: nat)
    requires LiveInv(s)
    ensures p in s.mapEvent ==> p in s.heap && p !in Held(s, false) && s.hand != Some(p) && p !in All(s.channels)
    ensures p in Held(s, false) ==> p in s.heap && p !in s.mapEvent && s.hand != Some(p) && p !in All(s.channels)
    ensures s.hand == Some(p) ==> p in s.heap && p !in All(s.channels)
    ensures p in All(s.channels) ==> p in s.heap
  {
    hide All, Held;
    assert Live(s)[p] <= multiset(s.heap.Keys)[p] <= 1;
    assert Live(s)[p] == multiset(s.mapEvent.Keys)[p] + Held(s, false)[p] + One(s.hand)[p] + All(s.channels)[p];
    assert multiset(s.mapEvent.Keys)[p] == if p in s.mapEvent then 1 else 0;
  }

  /** The channels do not see a change to an object outside them. */
  lemma WaitingFrame(s: State, s': State)
    requires s'.channels == s.channels
    requires forall p :: p in All(s.channels) ==> Load(s'.heap, p) == Load(s.heap, p)
    ensures Waiting(s') == Waiting(s)
  {
    hide All, Load;
    forall t: nat | t < |s.channels| ensures Contents(s'.heap, s.channels[t]) == Contents(s.heap, s.channels[t]) {
      forall i: nat | i < |s.channels[t]| ensures Load(s'.heap, s.channels[t][i]) == Load(s.heap, s.channels[t][i]) {
        AllMember(s.channels, t, s.channels[t][i]);
      }
    }
  }

  /** Where nothing that orders events changes, the shares stay. */
  lemma ShareFrame(s: State, s': State)
    requires Shape(s) && Shape(s') && ShareInv(s)
    requires s'.channels == s.channels && s'.sync == s.sync && s'.ran == s.ran
    requires Waiting(s') == Waiting(s) && Passed(s') == Passed(s)
    ensures ShareInv(s')
  {
    hide Waiting, Share, Passed;
    WaitingSize(s);
    forall t: nat | t <= |s.channels|
      ensures s'.ran[t] + Waiting(s')[t] == Share(s'.sync, |s'.channels|, Passed(s'), t) {
      assert s.ran[t] + Waiting(s)[t] == Share(s.sync, |s.channels|, Passed(s), t);
    }
  }

  lemma WaitingSize(s: State)
    ensures |Waiting(s)| == |s.channels| + 1
  {
  }

  /** The subscriber, the channels, their objects and the histories are as before. */
  ghost predicate Quiet(s: State, s': State) {
    && s'.channels == s.channels && s'.sync == s.sync && s'.ran == s.ran
    && s'.hand == s.hand && s'.consumed == s.consumed
    && |s'.todo| == |s.todo| && (forall t :: 0 <= t < |s.todo| && s.todo[t] == [] ==> s'.todo[t] == [])
    && (forall p :: p in All(s.channels) || s.hand == Some(p) ==> Load(s'.heap, p) == Load(s.heap, p))
  }

  lemma QuietShare(s: State, s': State)
    requires Shape(s) && HandInv(s) && ShareInv(s) && Quiet(s, s')
    ensures Shape(s') && HandInv(s') && ShareInv(s')
  {
    hide All, Share, Waiting, ShareInv, Load;
    WaitingFrame(s, s');
    ShareFrame(s, s');
  }

  // ---------------------------------------------------------------- submitting

  lemma BeginKeeps(s: State, t: nat, ptr: nat)
    requires Inv(s) && t < |s.todo| && s.todo[t] != [] && s.holder.None? && ptr !in s.heap
    ensures Inv(Begin(s, t, ptr))
  {
    hide MapInv, OwnInv, LiveInv, HandInv, ShareInv, All;
    var s' := Begin(s, t, ptr);
    BeginLive(s, t, ptr);
    BeginOwn(s, t, ptr);
    assert MapInv(s') by { SameMap(s, s'); }
    BeginQuiet(s, t, ptr);
    QuietShare(s, s');
  }

  lemma BeginQuiet(s: State, t: nat, ptr: nat)
    requires LiveInv(s) && t < |s.todo| && s.todo[t] != [] && ptr !in s.heap
    ensures Quiet(s, Begin(s, t, ptr))
  {
    hide LiveInv, All;
    var s' := Begin(s, t, ptr);
    forall p | p in All(s.channels) || s.hand == Some(p) ensures Load(s'.heap, p) == Load(s.heap, p) { Counted(s, p); }
  }

  lemma SameMap(s: State, s': State)
    requires MapInv(s) && s'.kernel == s.kernel && s'.cq == s.cq && s'.mapEvent == s.mapEvent &&
             Held(s', true) == Held(s, true)
    ensures MapInv(s')
  {
    hide Count;
  }

  lemma BeginOwn(s: State, t: nat, ptr: nat)
    requires OwnInv(s) && t < |s.todo| && s.todo[t] != [] && s.holder.None? && ptr !in s.heap
    ensures OwnInv(Begin(s, t, ptr))
  {
    hide NewEvent;
    var s' := Begin(s, t, ptr);
    forall e | e in s'.kernel ensures Own(s', e) { assert Own(s, e); }
    forall c | c in s'.cq ensures Own(s', c.sqe) { assert Own(s, c.sqe); }
  }

  lemma BeginLive(s: State, t: nat, ptr: nat)
    requires LiveInv(s) && t < |s.todo| && s.todo[t] != [] && s.holder.None? && ptr !in s.heap
    ensures LiveInv(Begin(s, t, ptr))
  {
    hide Live, Begin, NewEvent;
    BeginUses(s, t, ptr);
    JoinsBelow(Live(s), s.heap.Keys, ptr);
  }

  lemma BeginUses(s: State, t: nat, ptr: nat)
    requires t < |s.todo| && s.todo[t] != [] && s.holder.None?
    ensures Live(Begin(s, t, ptr)) == Live(s) + multiset{ptr}
    ensures Begin(s, t, ptr).heap.Keys == s.heap.Keys + {ptr}
  {
    hide All, NewEvent;
    Inserted(multiset(s.mapEvent.Keys), multiset{ptr}, One(s.hand), All(s.channels));
  }

  lemma Inserted(a: multiset<nat>, x: multiset<nat>, c: multiset<nat>, d: multiset<nat>)
    ensures a + multiset{} + c + d + x == a + x + c + d
  {
  }

  lemma RegisterKeeps(s: State)
    requires Inv(s) && s.holder.Some? && !s.holder.value.registered
    ensures Inv(Register(s))
  {
    hide MapInv, OwnInv, LiveInv, HandInv, ShareInv, All;
    RegisterSets(s);
    RegisterOwn(s);
    assert Quiet(s, Register(s));
    QuietShare(s, Register(s));
  }

  lemma RegisterSets(s: State)
    requires MapInv(s) && LiveInv(s) && s.holder.Some? && !s.holder.value.registered
    ensures MapInv(Register(s)) && LiveInv(Register(s))
  {
    hide All, Count;
    var s', ptr := Register(s), s.holder.value.sqe.ptr;
    assert ptr in Held(s, false);
    Counted(s, ptr);
    assert s'.mapEvent.Keys == s.mapEvent.Keys + {ptr};
    assert multiset(s'.mapEvent.Keys) == multiset(s.mapEvent.Keys) + multiset{ptr};
    assert Awaited(s') == Awaited(s) + multiset{ptr};
    assert Live(s') == Live(s);
  }

  lemma RegisterOwn(s: State)
    requires OwnInv(s) && s.holder.Some?
    ensures OwnInv(Register(s))
  {
    hide NewEvent;
    var s' := Register(s);
    forall e | e in s'.kernel ensures Own(s', e) { assert Own(s, e); }
    forall c | c in s'.cq ensures Own(s', c.sqe) { assert Own(s, c.sqe); }
  }

  lemma SubmitKeeps(s: State)
    requires Inv(s) && s.holder.Some? && s.holder.value.registered
    ensures Inv(Submit(s))
  {
    hide MapInv, OwnInv, LiveInv, HandInv, ShareInv, All;
    SubmitSets(s);
    SubmitOwn(s);
    assert Quiet(s, Submit(s));
    QuietShare(s, Submit(s));
  }

  lemma SubmitSets(s: State)
    requires MapInv(s) && LiveInv(s) && s.holder.Some? && s.holder.value.registered
    ensures MapInv(Submit(s)) && LiveInv(Submit(s))
  {
    hide All, Count;
    var s', e := Submit(s), s.holder.value.sqe;
    CountAppend(s.kernel, e, PtrOf);
    assert Live(s') == Live(s);
    Moved(Held(s, true), Held(s', true), Count(s.kernel, PtrOf), Count(s'.kernel, PtrOf), Count(s.cq, DonePtr),
          multiset{e.ptr});
    Associative(Count(s.kernel, PtrOf), Count(s.cq, DonePtr), Held(s, true));
    Associative(Count(s'.kernel, PtrOf), Count(s.cq, DonePtr), Held(s', true));
  }

  lemma SubmitOwn(s: State)
    requires OwnInv(s) && s.holder.Some? && s.holder.value.registered
    ensures OwnInv(Submit(s))
  {
    hide NewEvent;
    var s' := Submit(s);
    forall e | e in s'.kernel ensures Own(s', e) { assert Own(s, e); }
    forall c | c in s'.cq ensures Own(s', c.sqe) { assert Own(s, c.sqe); }
  }

  // ---------------------------------------------------------------- the kernel completes an operation

  lemma FinishKeeps(reserved: set<nat>, s: State, k: nat, o: Outcome)
    requires Inv(s) && CanFinish(reserved, s, k, o)
    ensures Inv(Finish(reserved, s, k, o))
  {
    hide MapInv, OwnInv, LiveInv, HandInv, ShareInv, All, Exec, Allowed, Res;
    var s' := Finish(reserved, s, k, o);
    FinishSets(reserved, s, k, o);
    FinishOwn(reserved, s, k, o);
    assert Quiet(s, s');
    QuietShare(s, s');
    assert s'.posted == s'.consumed + s'.cq;
  }

  lemma FinishSets(reserved: set<nat>, s: State, k: nat, o: Outcome)
    requires MapInv(s) && LiveInv(s) && CanFinish(reserved, s, k, o)
    ensures MapInv(Finish(reserved, s, k, o)) && LiveInv(Finish(reserved, s, k, o))
  {
    hide All, Count, Exec;
    var s' := Finish(reserved, s, k, o);
    CountRemove(s.kernel, k, PtrOf);
    CountAppend(s.cq, Cqe(s.kernel[k], Res(o)), DonePtr);
    assert Live(s') == Live(s);
    Moved(Count(s.kernel, PtrOf), Count(s'.kernel, PtrOf), Count(s.cq, DonePtr), Count(s'.cq, DonePtr), Held(s, true),
          multiset{s.kernel[k].ptr});
  }

  lemma FinishOwn(reserved: set<nat>, s: State, k: nat, o: Outcome)
    requires OwnInv(s) && CanFinish(reserved, s, k, o)
    ensures OwnInv(Finish(reserved, s, k, o))
  {
    hide NewEvent, Exec, Allowed, Res;
    var s' := Finish(reserved, s, k, o);
    assert s.kernel[k] in s.kernel;
    assert forall e :: e in s'.kernel ==> e in s.kernel;
    assert forall e :: Own(s', e) == Own(s, e);
  }

  // ---------------------------------------------------------------- the subscriber

  /** The completion finds the event object made for its operation. */
  lemma PeekFinds(s: State)
    requires OwnInv(s) && s.cq != []
    ensures var c := s.cq[0]; Own(s, c.sqe)
    ensures var c := s.cq[0];
            Peek(s) == s.(cq := s.cq[1..], mapEvent := s.mapEvent - {c.sqe.ptr},
                          heap := s.heap[c.sqe.ptr := Completed(c)],
                          hand := Some(c.sqe.ptr), consumed := s.consumed + [c])
  {
    assert s.cq[0] in s.cq;
  }

  /** No other operation awaits a completion under the same address. */
  lemma AddressElsewhere(s: State)
    requires MapInv(s) && OwnInv(s) && s.cq != []
    ensures var c := s.cq[0];
            && Count(s.kernel, PtrOf) + Count(s.cq[1..], DonePtr) + Held(s, true) + multiset{c.sqe.ptr} == Awaited(s)
            && (forall e :: e in s.kernel ==> e.ptr != c.sqe.ptr)
            && (forall d :: d in s.cq[1..] ==> d.sqe.ptr != c.sqe.ptr)
            && c.sqe.ptr !in Held(s, true)
  {
    hide OwnInv, Held;
    var ptr := s.cq[0].sqe.ptr;
    CountTail(s.cq, DonePtr);
    var rest := Count(s.kernel, PtrOf) + Count(s.cq[1..], DonePtr) + Held(s, true);
    Released(Count(s.cq, DonePtr), Count(s.cq[1..], DonePtr), Count(s.kernel, PtrOf), Held(s, true), multiset{ptr});
    assert multiset(s.mapEvent.Keys)[ptr] <= 1;
    assert ptr !in rest;
    Absent(s.kernel, PtrOf, ptr);
    Absent(s.cq[1..], DonePtr, ptr);
    hide Count;
    forall e | e in s.kernel ensures e.ptr != ptr { assert PtrOf(e) == Some(e.ptr); }
    forall d | d in s.cq[1..] ensures d.sqe.ptr != ptr { assert DonePtr(d) == Some(d.sqe.ptr); }
  }

  lemma PeekOwn(s: State)
    requires MapInv(s) && OwnInv(s) && LiveInv(s) && s.cq != []
    ensures OwnInv(Peek(s))
  {
    hide MapInv, OwnInv, LiveInv, Peek, Awaited, Held, Count, Completed, Own;
    PeekFinds(s);
    AddressElsewhere(s);
    HolderElsewhere(s);
    DropOwn(s, Peek(s), s.cq[0].sqe.ptr);
  }

  /** One object is unregistered and changed; nobody else uses it. */
  lemma DropOwn(s: State, s': State, ptr: nat)
    requires OwnInv(s) && s.cq != []
    requires forall e :: e in s.kernel ==> e.ptr != ptr
    requires forall d :: d in s.cq[1..] ==> d.sqe.ptr != ptr
    requires s.holder.Some? ==> s.holder.value.sqe.ptr != ptr
    requires s'.cq == s.cq[1..] && s'.kernel == s.kernel && s'.holder == s.holder && s'.mapEvent == s.mapEvent - {ptr}
    requires forall p :: p in s.heap && p != ptr ==> p in s'.heap && s'.heap[p] == s.heap[p]
    ensures OwnInv(s')
  {
    hide NewEvent;
    forall e | Own(s, e) && e.ptr != ptr ensures Own(s', e) {
    }
  }

  lemma HolderElsewhere(s: State)
    requires MapInv(s) && OwnInv(s) && LiveInv(s) && s.cq != []
    ensures s.holder.Some? ==> s.holder.value.sqe.ptr != s.cq[0].sqe.ptr
  {
    PeekFinds(s);
    AddressElsewhere(s);
    hide MapInv, OwnInv, LiveInv, Peek, Awaited;
    Counted(s, s.cq[0].sqe.ptr);
  }

  lemma PeekKeeps(s: State)
    requires Inv(s) && s.cq != [] && s.hand.None? && Idle(s, |s.channels|)
    ensures Inv(Peek(s))
  {
    hide OwnInv, MapInv, LiveInv, HandInv, ShareInv, Peek, Completed, Own;
    PeekShare(s);
    PeekOwn(s);
    PeekCounts(s);
    PeekFinds(s);
    assert s.cq == [s.cq[0]] + s.cq[1..];
    assert s.consumed + s.cq == s.consumed + [s.cq[0]] + s.cq[1..];
  }

  lemma PeekCounts(s: State)
    requires MapInv(s) && OwnInv(s) && LiveInv(s) && s.cq != [] && s.hand.None?
    ensures MapInv(Peek(s)) && LiveInv(Peek(s))
  {
    hide OwnInv, MapInv, LiveInv, Peek, Completed, Awaited, Held, Count, All;
    PeekFinds(s);
    AddressElsewhere(s);
    PeekSets(s, Peek(s));
  }

  lemma PeekShare(s: State)
    requires Inv(s) && s.cq != [] && s.hand.None? && Idle(s, |s.channels|)
    ensures Shape(Peek(s)) && HandInv(Peek(s)) && ShareInv(Peek(s))
  {
    PeekFinds(s);
    var s', c := Peek(s), s.cq[0];
    Counted(s, c.sqe.ptr);
    hide Peek, OwnInv, MapInv, LiveInv, ShareInv, Waiting, All, Completed;
    WaitingFrame(s, s');
    assert Passed(s') == s.consumed;
    ShareFrame(s, s');
  }

  lemma PeekSets(s: State, s': State)
    requires MapInv(s) && LiveInv(s) && s.cq != [] && s.hand.None? && s.cq[0].sqe.ptr in s.mapEvent &&
             s.cq[0].sqe.ptr in s.heap
    requires Count(s.kernel, PtrOf) + Count(s.cq[1..], DonePtr) + Held(s, true) +
             multiset{s.cq[0].sqe.ptr} == Awaited(s)
    requires s'.cq == s.cq[1..] && s'.kernel == s.kernel && s'.holder == s.holder && s'.channels == s.channels
    requires s'.mapEvent == s.mapEvent - {s.cq[0].sqe.ptr} && s'.hand == Some(s.cq[0].sqe.ptr) &&
             s'.heap.Keys == s.heap.Keys
    ensures MapInv(s') && LiveInv(s')
  {
    hide Count, All;
    var ptr := s.cq[0].sqe.ptr;
    Departed(s.mapEvent.Keys, Awaited(s'), ptr);
    assert s'.mapEvent.Keys == s.mapEvent.Keys - {ptr};
    assert multiset(s.mapEvent.Keys) == multiset(s'.mapEvent.Keys) + multiset{ptr};
    assert Live(s') == Live(s);
  }

  // ---------------------------------------------------------------- passing an event on

  lemma ShareLast(sync: bool, n: nat, cs: seq<Cqe>, t: nat)
    requires 0 < n && cs != []
    ensures Share(sync, n, cs, t) ==
            Share(sync, n, Front(cs), t) +
            if Runner(sync, n, Last(cs).sqe.op) == t then [Completed(Last(cs))] else []
  {
  }

  lemma DispatchWaiting(s: State)
    requires Shape(s) && s.hand.Some?
    ensures var e := Load(s.heap, s.hand.value);
            Waiting(Dispatch(s)) == Waiting(s)[Index(s, e) := Waiting(s)[Index(s, e)] + [e]]
  {
    hide Load;
    var s', i := Dispatch(s), Index(s, Load(s.heap, s.hand.value));
    assert Contents(s.heap, s'.channels[i]) == Contents(s.heap, s.channels[i]) + [Load(s.heap, s.hand.value)];
  }

  lemma DispatchKeeps(s: State)
    requires Inv(s) && !s.sync && s.hand.Some?
    ensures Inv(Dispatch(s))
  {
    hide MapInv, OwnInv, LiveInv, ShareInv, Load;
    SameMap(s, Dispatch(s));
    DispatchSets(s);
    DispatchShare(s);
    SameOwn(s, Dispatch(s));
  }

  lemma SameOwn(s: State, s': State)
    requires OwnInv(s) && s'.kernel == s.kernel && s'.cq == s.cq && s'.mapEvent == s.mapEvent &&
             s'.holder == s.holder && s'.heap == s.heap
    ensures OwnInv(s')
  {
    hide NewEvent;
    assert forall e :: Own(s', e) == Own(s, e);
  }

  lemma DispatchSets(s: State)
    requires Shape(s) && LiveInv(s) && s.hand.Some?
    ensures LiveInv(Dispatch(s))
  {
    hide All, Load;
    var s', i := Dispatch(s), Index(s, Load(s.heap, s.hand.value));
    AllAppend(s.channels, i, s.hand.value);
    DispatchLive(multiset(s.mapEvent.Keys) + Held(s, false), s.hand.value, All(s.channels));
  }

  lemma DispatchShare(s: State)
    requires Shape(s) && HandInv(s) && ShareInv(s) && !s.sync && s.hand.Some?
    ensures ShareInv(Dispatch(s))
  {
    var s', e := Dispatch(s), Load(s.heap, s.hand.value);
    DispatchWaiting(s);
    WaitingSize(s);
    assert Key(e) == FdOfOp(Last(s.consumed).sqe.op);
    hide Load, Share, Waiting, Completed, Key, FdOfOp;
    forall t: nat | t <= |s'.channels|
      ensures s'.ran[t] + Waiting(s')[t] == Share(s'.sync, |s'.channels|, Passed(s'), t)
    {
      ShareLast(s.sync, |s.channels|, s.consumed, t);
      assert s.ran[t] + Waiting(s)[t] == Share(s.sync, |s.channels|, Front(s.consumed), t);
      assert s.ran[t] + (Waiting(s)[t] + [e]) == s.ran[t] + Waiting(s)[t] + [e];
    }
  }

  lemma DispatchLive(a: multiset<nat>, p: nat, c: multiset<nat>)
    ensures a + One(Some(p)) + c == a + One(None) + (c + multiset{p})
  {
  }

  // ---------------------------------------------------------------- running a callback

  lemma CallSyncKeeps(s: State)
    requires Inv(s) && s.sync && s.hand.Some?
    ensures Inv(CallSync(s))
  {
    hide MapInv, OwnInv, LiveInv, ShareInv, Load, Callback;
    SameMap(s, CallSync(s));
    CallSyncLive(s);
    CallSyncShare(s);
    SameOwn(s, CallSync(s));
  }

  lemma CallSyncLive(s: State)
    requires Shape(s) && LiveInv(s) && s.hand.Some?
    ensures LiveInv(CallSync(s))
  {
    hide All, Load, Callback;
    assert Live(CallSync(s)) <= Live(s);
  }

  lemma CallSyncShare(s: State)
    requires Shape(s) && HandInv(s) && ShareInv(s) && s.sync && s.hand.Some?
    ensures ShareInv(CallSync(s))
  {
    var s', e := CallSync(s), Load(s.heap, s.hand.value);
    WaitingFrame(s, s');
    WaitingSize(s);
    assert Waiting(s)[|s.channels|] == [];
    hide Load, Share, Waiting, Completed, Callback;
    forall t: nat | t <= |s'.channels|
      ensures s'.ran[t] + Waiting(s')[t] == Share(s'.sync, |s'.channels|, Passed(s'), t)
    {
      ShareLast(s.sync, |s.channels|, s.consumed, t);
      assert s.ran[t] + Waiting(s)[t] == Share(s.sync, |s.channels|, Front(s.consumed), t);
    }
  }

  lemma ReceiveWaiting(s: State, w: nat)
    requires Shape(s) && w < |s.channels| && s.channels[w] != []
    ensures Waiting(s)[w] == [Load(s.heap, s.channels[w][0])] + Waiting(Receive(s, w))[w]
    ensures forall t: nat :: t <= |s.channels| && t != w ==> Waiting(Receive(s, w))[t] == Waiting(s)[t]
  {
    hide Load, Callback;
    var s' := Receive(s, w);
    assert s'.channels[w] == s.channels[w][1..];
    assert Contents(s.heap, s.channels[w]) == [Load(s.heap, s.channels[w][0])] + Contents(s.heap, s.channels[w][1..]);
  }

  lemma ReceiveKeeps(s: State, w: nat)
    requires Inv(s) && w < |s.channels| && s.channels[w] != []
    ensures Inv(Receive(s, w))
  {
    hide MapInv, OwnInv, LiveInv, ShareInv, Load, Callback;
    SameMap(s, Receive(s, w));
    ReceiveLive(s, w);
    ReceiveShare(s, w);
    SameOwn(s, Receive(s, w));
  }

  lemma ReceiveLive(s: State, w: nat)
    requires Shape(s) && LiveInv(s) && w < |s.channels| && s.channels[w] != []
    ensures LiveInv(Receive(s, w))
  {
    hide All, Load, Callback;
    AllTail(s.channels, w);
    assert Live(Receive(s, w)) <= Live(s);
  }

  lemma ReceiveShare(s: State, w: nat)
    requires Shape(s) && ShareInv(s) && w < |s.channels| && s.channels[w] != []
    ensures ShareInv(Receive(s, w))
  {
    var s', e := Receive(s, w), Load(s.heap, s.channels[w][0]);
    ReceiveWaiting(s, w);
    WaitingSize(s);
    WaitingSize(s');
    assert Passed(s') == Passed(s);
    hide Load, Share, Waiting, Callback, Passed;
    forall t: nat | t <= |s'.channels|
      ensures s'.ran[t] + Waiting(s')[t] == Share(s'.sync, |s'.channels|, Passed(s'), t)
    {
      assert s.ran[t] + Waiting(s)[t] == Share(s.sync, |s.channels|, Passed(s), t);
      assert s.ran[w] + ([e] + Waiting(s')[w]) == s.ran[w] + [e] + Waiting(s')[w];
    }
  }

  // ---------------------------------------------------------------- the collector

  lemma CollectKeeps(s: State, p: nat)
    requires Inv(s) && p in s.heap && !Reachable(s, p)
    ensures Inv(Collect(s, p))
  {
    hide MapInv, OwnInv, LiveInv, HandInv, ShareInv, All, Reachable;
    var s' := Collect(s, p);
    SameMap(s, s');
    CollectLive(s, p);
    CollectOwn(s, p);
    Elsewhere(s, p);
    assert Quiet(s, s');
    QuietShare(s, s');
  }

  lemma {:induction false} NotIn(ss: seq<seq<nat>>, p: nat)
    requires forall t :: 0 <= t < |ss| ==> p !in ss[t]
    ensures p !in All(ss)
  {
    if ss != [] {
      assert ss[|ss| - 1] == ss[|ss| - 1];
      NotIn(ss[..|ss| - 1], p);
    }
  }

  lemma Elsewhere(s: State, p: nat)
    requires !Reachable(s, p)
    ensures p !in All(s.channels) && s.hand != Some(p) && p !in Held(s, true) && p !in Held(s, false)
  {
    NotIn(s.channels, p);
  }

  lemma CollectLive(s: State, p: nat)
    requires OwnInv(s) && LiveInv(s) && p in s.heap && !Reachable(s, p)
    ensures LiveInv(Collect(s, p))
  {
    hide Reachable, All, Made, Own;
    Elsewhere(s, p);
    CollectMapped(s, p);
    var s' := Collect(s, p);
    assert Live(s') == Live(s) && p !in Live(s);
    assert s'.heap.Keys == s.heap.Keys - {p};
    StaysBelow(Live(s), s.heap.Keys, p);
  }

  lemma CollectMapped(s: State, p: nat)
    requires OwnInv(s) && !Reachable(s, p)
    ensures p !in s.mapEvent
  {
    assert forall u :: u in s.mapEvent ==> u != p;
  }

  lemma StaysBelow(a: multiset<nat>, keys: set<nat>, p: nat)
    requires a <= multiset(keys) && p !in a
    ensures a <= multiset(keys - {p})
  {
    forall q ensures a[q] <= multiset(keys - {p})[q] {
      assert a[q] <= multiset(keys)[q];
    }
  }

  lemma CollectOwn(s: State, p: nat)
    requires OwnInv(s) && !Reachable(s, p)
    ensures OwnInv(Collect(s, p))
  {
    hide NewEvent;
    var s' := Collect(s, p);
    forall e | Own(s, e) ensures Own(s', e) {
      assert s.mapEvent[e.ptr] == e.ptr;
    }
  }

  // ---------------------------------------------------------------- runs

  lemma InitInv(sync: bool, workers: nat, lfd: nat)
    requires 0 < workers
    ensures Inv(Init(sync, workers, lfd))
  {
    var s := Init(sync, workers, lfd);
    AllEmpty(s.channels);
    assert s.mapEvent.Keys == {};
    forall t: nat | t <= |s.channels| ensures s.ran[t] + Waiting(s)[t] == [] {
    }
  }

  lemma StepKeeps(reserved: set<nat>, s: State, e: Event)
    requires Inv(s) && Enabled(reserved, s, e)
    ensures Inv(Apply(reserved, s, e))
  {
    hide Inv, Begin, Register, Submit, Finish, Peek, Dispatch, CallSync, Receive, Collect, CanFinish, Reachable;
    match e
    case DoBegin(t, ptr) => BeginKeeps(s, t, ptr);
    case DoRegister => RegisterKeeps(s);
    case DoSubmit => SubmitKeeps(s);
    case DoFinish(k, o) => FinishKeeps(reserved, s, k, o);
    case DoPeek => PeekKeeps(s);
    case DoDispatch => DispatchKeeps(s);
    case DoCallSync => CallSyncKeeps(s);
    case DoReceive(w) => ReceiveKeeps(s, w);
    case DoCollect(p) => CollectKeeps(s, p);
  }
}
