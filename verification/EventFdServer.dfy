/**
 The eventfd server in the form of its source: global tables updated in place by the
 subscriber, the workers and whoever holds the submit lock. Each method is one stretch of
 code between two points where another goroutine may run.
 */
module EventFdServer {
  import opened Streams
  import opened Kernel
  import opened Census
  import opened EventFd
  import opened EventFdInvariant
  import opened EventFdTheorems

  class EchoServer {
    const sync: bool
    ghost const lfd: nat
    const todo: array<seq<Op>>
    const channels: array<seq<nat>>
    const ran: array<seq<EventInfo>>
    var holder: Option<Holding>
    var heap: map<nat, EventInfo>
    var mapEvent: map<nat, nat>
    var kernel: seq<Sqe>
    var cq: seq<Cqe>
    var hand: Option<nat>
    var world: World<nat>
    var consumed: seq<Cqe>
    var posted: seq<Cqe>
    var missed: nat

    function Abs(): State
      reads this, todo, channels, ran
    {
      State(sync, todo[..], holder, heap, mapEvent, kernel, cq, hand, channels[..], world, ran[..], consumed, posted,
            missed)
    }

    /** The object is in a state some run of the state machine leads to. */
    ghost predicate Reached(reserved: set<nat>)
      reads this, todo, channels, ran
    {
      0 < channels.Length && Shape(Abs()) && Visited(reserved, sync, channels.Length, lfd, Abs())
    }

    constructor (sync: bool, workers: nat, lfd: nat)
      requires 0 < workers
      ensures fresh(todo) && fresh(channels) && fresh(ran)
      ensures Abs() == Init(sync, workers, lfd) && forall reserved :: Reached(reserved)
    {
      this.sync := sync;
      this.lfd := lfd;
      todo := new seq<Op>[workers + 2](i => if i == workers + 1 then [Accept(lfd)] else []);
      channels := new seq<nat>[workers](_ => []);
      ran := new seq<EventInfo>[workers + 1](_ => []);
      holder, heap, mapEvent, kernel, cq, hand := None, map[], map[], [], [], None;
      world := World(map[], map i: nat | i < TABLE && IsSlot(i) :: seq(MAX_MSG_LEN, _ => 0));
      consumed, posted, missed := [], [], 0;
      new;
      assert todo[..] == seq(workers + 1, _ => []) + [[Accept(lfd)]];
      assert channels[..] == seq(workers, _ => []);
      assert ran[..] == seq(workers + 1, _ => []);
      assert Abs() == Init(sync, workers, lfd);
      forall reserved: set<nat> ensures Reached(reserved) {
        assert Run(reserved, Init(sync, workers, lfd), [], Abs());
      }
    }

    /** The `ProduceSocket*` functions up to `submit`: lock, fill an entry, allocate the event. */
    method FillEntry(t: nat, ptr: nat)
      requires t < todo.Length && todo[t] != []
      modifies this`holder, this`heap, todo
      ensures Abs() == Begin(old(Abs()), t, ptr)
    {
      var op := todo[t][0];
      todo[t] := todo[t][1..];
      holder := Some(Holding(t, Sqe(ptr, op), false));
      heap := heap[ptr := NewEvent(op)];
    }

    method RegisterEvent()
      requires holder.Some?
      modifies this`holder, this`mapEvent
      ensures Abs() == Register(old(Abs()))
    {
      var ptr := holder.value.sqe.ptr;
      mapEvent := mapEvent[ptr := ptr];
      holder := Some(holder.value.(registered := true));
    }

    method SubmitEntry()
      requires holder.Some?
      modifies this`holder, this`kernel
      ensures Abs() == Submit(old(Abs()))
    {
      kernel := kernel + [holder.value.sqe];
      holder := None;
    }

    /** The subscriber after a signal; `ok` is false if the completion has no event. */
    method TakeCompletion() returns (ok: bool)
      requires cq != []
      modifies this`cq, this`missed, this`mapEvent, this`heap, this`hand, this`consumed
      ensures Abs() == Peek(old(Abs())) && ok == (old(cq[0].sqe.ptr) in old(mapEvent))
    {
      var c := cq[0];
      cq := cq[1..];
      if c.sqe.ptr !in mapEvent {
        missed := missed + 1;
        return false;
      }
      var p := mapEvent[c.sqe.ptr];
      mapEvent := mapEvent - {c.sqe.ptr};
      heap := heap[p := Load(heap, p).(res := c.res)];
      hand := Some(p);
      consumed := consumed + [c];
      return true;
    }

    /** `dispatch`: by the listening descriptor if there is one, else by the connection. */
    method DispatchEvent()
      requires 0 < channels.Length && Shape(Abs()) && hand.Some?
      modifies this`hand, channels
      ensures Abs() == Dispatch(old(Abs()))
    {
      var event := Load(heap, hand.value);
      var fd := event.lfd;
      if fd <= 0 {
        fd := event.cfd;
      }
      var index := fd % channels.Length;
      channels[index] := channels[index] + [hand.value];
      hand := None;
    }

    /** Run the callback of an event: what it will submit becomes the thread's work. */
    method RunCallback(t: nat, e: EventInfo)
      requires Shape(Abs()) && t <= channels.Length
      modifies todo, ran
      ensures Abs() == Call(old(Abs()), t, e)
    {
      var ops: seq<Op> := [];
      match e.etype {
        case ETypeAccept =>
          if 0 <= e.res {
            ops := [Accept(e.lfd), Recv(e.res)];
          }
        case ETypeRead =>
          if e.res <= 0 {
            if e.res != -EBADF {
              ops := [Close(e.cfd)];
            }
          } else {
            ops := [Send(e.cfd, e.res)];
          }
        case ETypeWrite =>
          ops := [Recv(e.cfd)];
        case _ =>
      }
      ran[t] := ran[t] + [e];
      todo[t] := ops;
    }

    method CallInSubscriber()
      requires Shape(Abs()) && hand.Some?
      modifies this`hand, todo, ran
      ensures Abs() == CallSync(old(Abs()))
    {
      var event := Load(heap, hand.value);
      hand := None;
      RunCallback(channels.Length, event);
    }

    /** One turn of `runEventCbFromDispatch`. */
    method ReceiveEvent(w: nat)
      requires Shape(Abs()) && w < channels.Length && channels[w] != []
      modifies channels, todo, ran
      ensures Abs() == Receive(old(Abs()), w)
    {
      var event := Load(heap, channels[w][0]);
      channels[w] := channels[w][1..];
      RunCallback(w, event);
    }

    method KernelCompletes(reserved: set<nat>, k: nat, o: Outcome)
      requires CanFinish(reserved, Abs(), k, o)
      modifies this`kernel, this`cq, this`posted, this`world
      ensures Abs() == Finish(reserved, old(Abs()), k, o)
    {
      var e := kernel[k];
      kernel := kernel[..k] + kernel[k + 1..];
      cq := cq + [Cqe(e, Res(o))];
      posted := posted + [Cqe(e, Res(o))];
      world := Exec(world, reserved, KernelOp(e.op), o);
    }

    /** One stretch of one actor. */
    method Step(reserved: set<nat>, e: Event)
      requires Shape(Abs()) && Enabled(reserved, Abs(), e)
      modifies this, todo, channels, ran
      ensures Abs() == Apply(reserved, old(Abs()), e)
    {
      hide Begin, Register, Submit, Finish, Peek, Dispatch, CallSync, Receive, Reachable, CanFinish, Load, Index;
      match e {
        case DoBegin(t, ptr) => FillEntry(t, ptr);
        case DoRegister => RegisterEvent();
        case DoSubmit => SubmitEntry();
        case DoFinish(k, o) => KernelCompletes(reserved, k, o);
        case DoPeek => var _ := TakeCompletion();
        case DoDispatch => DispatchEvent();
        case DoCallSync => CallInSubscriber();
        case DoReceive(w) => ReceiveEvent(w);
        case DoCollect(p) => heap := heap - {p};
      }
    }

    /**
     Any interleaving is a run of the state machine, in which every event that can happen does,
     and no completion is ever without its event.
     */
    method Serve(reserved: set<nat>, es: seq<Event>)
      requires Reached(reserved)
      modifies this, todo, channels, ran
      ensures Reached(reserved) && FullInv(Abs()) && missed == 0
      ensures Abs() == After(reserved, old(Abs()), es)
    {
      hide FullInv, Shape, Enabled, Apply, Visited;
      var n := channels.Length;
      VisitedInv(reserved, sync, n, lfd, Abs());
      for i := 0 to |es|
        invariant Visited(reserved, sync, n, lfd, Abs()) && FullInv(Abs()) && Shape(Abs())
        invariant Abs() == After(reserved, old(Abs()), es[..i])
      {
        AfterNext(reserved, old(Abs()), es, i);
        if Enabled(reserved, Abs(), es[i]) {
          VisitedStep(reserved, sync, n, lfd, Abs(), es[i]);
          Step(reserved, es[i]);
          VisitedInv(reserved, sync, n, lfd, Abs());
        }
      }
      assert es[..|es|] == es;
      NoneMissed(Abs());
    }
  }

  /** The state after the events, of which those that cannot happen are passed over. */
  function After(reserved: set<nat>, s: State, es: seq<Event>): (t: State)
    requires Shape(s)
    ensures Shape(t)
  {
    if es == [] then s
    else
      var t, e := After(reserved, s, Front(es)), Last(es);
      if Enabled(reserved, t, e) then Apply(reserved, t, e) else t
  }

  lemma AfterNext(reserved: set<nat>, s: State, es: seq<Event>, n: nat)
    requires Shape(s) && n < |es|
    ensures var t, e := After(reserved, s, es[..n]), es[n];
            After(reserved, s, es[..n + 1]) == if Enabled(reserved, t, e) then Apply(reserved, t, e) else t
  {
    hide Enabled, Apply, Shape;
    assert Front(es[..n + 1]) == es[..n] && Last(es[..n + 1]) == es[n];
  }

  lemma VisitedInv(reserved: set<nat>, sync: bool, workers: nat, lfd: nat, s: State)
    requires 0 < workers && Visited(reserved, sync, workers, lfd, s)
    ensures FullInv(s) && Shape(s)
  {
    hide Run, FullInv;
    var es :| Run(reserved, Init(sync, workers, lfd), es, s);
    Reach(reserved, sync, workers, lfd, es, s);
    InvShape(s) by { FullParts(s); }
  }

  lemma FullParts(s: State)
    requires FullInv(s)
    ensures Inv(s)
  {
  }

  lemma NoneMissed(s: State)
    requires FullInv(s)
    ensures s.missed == 0
  {
  }
}
