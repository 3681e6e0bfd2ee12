/**
 The provided-buffer server in the form of its source: functions that fill in the next
 submission entry, and an event loop that walks over the completions present and then
 advances the completion queue by their number.
 */
module ProvidedServer {
  import opened Streams
  import opened Kernel
  import opened ProvidedBuffers
  import opened ProvidedInvariant
  import opened ProvidedSteps
  import opened ProvidedTheorems

  /** The server leaves when it handles the completion. */
  predicate Leaves(listenFd: nat, c: Cqe) {
    React(listenFd, c.sqe.tag, c.res, c.flags).Exit?
  }

  /** The state after the `k` oldest completions have been handled, none of which makes the server leave. */
  function HandleMany(s: State, k: nat): State
    requires k <= |s.cq| && forall i :: 0 <= i < k ==> !Leaves(s.listenFd, s.cq[i])
    ensures var t := HandleMany(s, k); t.cq == s.cq[k..] && t.listenFd == s.listenFd && t.exited == s.exited
  {
    if k == 0 then s
    else
      var t := HandleMany(s, k - 1);
      assert t.cq[0] == s.cq[k - 1] && !Leaves(s.listenFd, s.cq[k - 1]);
      Handle(t)
  }

  /** A batch: completions are handled until there is none or the server leaves. */
  function Batch(s: State): State
    decreases |s.cq|, !s.exited
  {
    if s.cq == [] || s.exited then s
    else
      BatchEnds(s);
      Batch(Handle(s))
  }

  lemma BatchEnds(s: State)
    requires s.cq != []
    ensures Handle(s) == s.(exited := true) || (Handle(s).cq == s.cq[1..] && Handle(s).exited == s.exited)
  {
  }

  lemma {:induction false} BatchMany(s: State, k: nat)
    requires k <= |s.cq| && (forall i :: 0 <= i < k ==> !Leaves(s.listenFd, s.cq[i])) && !s.exited
    ensures Batch(s) == Batch(HandleMany(s, k))
  {
    if k > 0 { BatchMany(s, k - 1); }
  }

  lemma BatchIs(s: State, k: nat, t: State)
    requires k <= |s.cq| && (forall i :: 0 <= i < k ==> !Leaves(s.listenFd, s.cq[i])) && !s.exited
    requires t == HandleMany(s, k).(exited := t.exited)
    requires if t.exited then k < |s.cq| && Leaves(s.listenFd, s.cq[k]) else k == |s.cq|
    ensures Batch(s) == t
  {
    hide HandleMany;
    BatchMany(s, k);
    var u := HandleMany(s, k);
    if t.exited {
      assert u.cq[0] == s.cq[k];
      assert Handle(u) == t;
    }
  }

  function ActedAll(n: nat, reserved: set<nat>, s: State, es: seq<Event>): State {
    if es == [] then s
    else
      var t, e := ActedAll(n, reserved, s, Front(es)), Last(es);
      if !e.DoHandle? && Enabled(n, reserved, t, e) then Apply(n, reserved, t, e) else t
  }

  function Turns(n: nat, reserved: set<nat>, s: State, turns: seq<seq<Event>>): State {
    if turns == [] then s else Batch(ActedAll(n, reserved, Turns(n, reserved, s, Front(turns)), Last(turns)))
  }

  lemma TurnsNone(n: nat, reserved: set<nat>, s: State)
    ensures Turns(n, reserved, s, []) == s
  {
  }

  lemma TurnsNext(n: nat, reserved: set<nat>, s: State, turns: seq<seq<Event>>, k: nat)
    requires k < |turns|
    ensures Turns(n, reserved, s, turns[..k + 1]) ==
            Batch(ActedAll(n, reserved, Turns(n, reserved, s, turns[..k]), turns[k]))
  {
    hide ActedAll, Batch;
    assert Front(turns[..k + 1]) == turns[..k] && Last(turns[..k + 1]) == turns[k];
  }

  class EchoServer {
    var listenFd: nat
    var pool: set<nat>
    var sq: seq<Sqe>
    var kernel: seq<InFlight>
    var cq: seq<Cqe>
    var world: World<nat>
    var exited: bool

    function Abs(): State
      reads this
    {
      State(listenFd, pool, sq, kernel, cq, world, exited)
    }

    /** Start-up: provide all buffers, queue the first accept. */
    constructor (listenFd: nat)
      ensures Abs() == Init(listenFd)
    {
      this.listenFd := listenFd;
      pool := Below(BUFFERS_COUNT);
      sq, kernel, cq := [AddAccept(listenFd)], [], [];
      world := World(map[], map b | b in Below(BUFFERS_COUNT) :: seq(MAX_MESSAGE_LEN, _ => 0));
      exited := false;
    }

    /** `io_uring_get_sqe` and the preparation of the entry; without a free entry it yields NULL. */
    method AddEntry(e: Sqe)
      requires |sq| < RING_ENTRIES
      modifies this`sq
      ensures sq == old(sq) + [e]
    {
      sq := sq + [e];
    }

    /** The body of the loop for one completion. */
    method HandleCqe(c: Cqe)
      requires |sq| + 2 <= RING_ENTRIES
      modifies this`sq, this`world, this`exited
      ensures match React(listenFd, c.sqe.tag, c.res, c.flags)
              case Exit => exited && sq == old(sq) && world == old(world)
              case Continue(queued, closed) =>
                && exited == old(exited) && sq == old(sq) + queued
                && world == old(world).(streams := old(world).streams - closed)
    {
      var tag := c.sqe.tag;
      assert world.streams - {} == world.streams;
      if c.res == -ENOBUFS {
        exited := true;
      } else if tag.kind == PROV_BUF {
        if c.res < 0 { exited := true; }
      } else if tag.kind == ACCEPT {
        if c.res >= 0 { AddEntry(AddRead(c.res)); }
        AddEntry(AddAccept(listenFd));
      } else if tag.kind == READ {
        var bid := c.flags / BUFFER_SHIFT;
        if c.res <= 0 {
          AddEntry(AddProvide(bid));
          world := world.(streams := world.streams - {tag.fd});
        } else {
          AddEntry(AddWrite(tag.fd, bid, c.res));
        }
      } else {
        AddEntry(AddProvide(tag.bid));
        AddEntry(AddRead(tag.fd));
      }
    }

    /**
     One batch: the completions present are handled in order, up to a failed provide, which
     makes the server leave; without one the queue is advanced by their number and the
     server does not leave. No entry request fails on the way.
     */
    method HandleBatch(ghost n: nat, ghost reserved: set<nat>, ghost lfd: nat) returns (count: nat)
      requires n <= BUFFERS_COUNT && Visited(n, reserved, lfd, Abs()) && !exited
      modifies this
      ensures Visited(n, reserved, lfd, Abs()) && count <= |old(cq)| && cq == old(cq)[count..]
      ensures forall i :: 0 <= i < count ==> !Leaves(old(listenFd), old(cq)[i]) && !FailedProvide(old(cq)[i])
      ensures Abs() == HandleMany(old(Abs()), count).(exited := exited)
      ensures if exited then count < |old(cq)| && FailedProvide(old(cq)[count]) else count == |old(cq)|
      ensures Abs() == Batch(old(Abs()))
    {
      hide Inv, Handle, Visited, FailedProvide;
      count := 0;
      ghost var s0 := Abs();
      while count < |cq| && !exited
        invariant count <= |cq| && cq == old(cq) && listenFd == s0.listenFd
        invariant forall i :: 0 <= i < count ==> !Leaves(s0.listenFd, s0.cq[i]) && !FailedProvide(s0.cq[i])
        invariant Abs().(cq := cq[count..]) == HandleMany(s0, count).(exited := exited)
        invariant Visited(n, reserved, lfd, Abs().(cq := cq[count..]))
        invariant exited ==> count < |cq| && FailedProvide(cq[count]) && Leaves(s0.listenFd, s0.cq[count])
        decreases |cq| - count, !exited
      {
        ghost var s := HandleMany(s0, count);
        VisitedInv(n, reserved, lfd, s);
        QueueBound(n, s);
        HandleKeeps(n, s);
        VisitedStep(n, reserved, lfd, s, DoHandle);
        HandleCqe(cq[count]);
        HandleUnfolds(s);
        if !exited { count := count + 1; }
      }
      cq := cq[count..];
      BatchIs(s0, count, Abs());
    }

    /** What the kernel does between two batches, if it can. */
    method KernelActs(n: nat, reserved: set<nat>, activity: seq<Event>, ghost lfd: nat)
      requires Visited(n, reserved, lfd, Abs())
      modifies this
      ensures Visited(n, reserved, lfd, Abs()) && exited == old(exited)
      ensures Abs() == ActedAll(n, reserved, old(Abs()), activity)
    {
      hide Enabled, Apply, Visited;
      for i := 0 to |activity|
        invariant Visited(n, reserved, lfd, Abs()) && exited == old(exited)
        invariant Abs() == ActedAll(n, reserved, old(Abs()), activity[..i])
      {
        assert Front(activity[..i + 1]) == activity[..i] && Last(activity[..i + 1]) == activity[i];
        if !activity[i].DoHandle? && Enabled(n, reserved, Abs(), activity[i]) {
          VisitedStep(n, reserved, lfd, Abs(), activity[i]);
          KernelStays(n, reserved, Abs(), activity[i]);
          var s := Apply(n, reserved, Abs(), activity[i]);
          listenFd, pool, sq, kernel, cq, world, exited := s.listenFd, s.pool, s.sq, s.kernel, s.cq, s.world, s.exited;
        }
      }
      assert activity[..|activity|] == activity;
    }

    /**
     The event loop, observed for any number of turns, is a run of the state machine. Each turn
     is the kernel's activity and one batch. It ends early only at a failed provide, which is
     then the oldest completion.
     */
    method Serve(n: nat, reserved: set<nat>, turns: seq<seq<Event>>)
      requires Abs() == Init(listenFd) && n <= BUFFERS_COUNT
      modifies this
      ensures Visited(n, reserved, old(listenFd), Abs())
      ensures exited ==> cq != [] && FailedProvide(cq[0])
      ensures exists k :: 0 <= k <= |turns| && (!exited ==> k == |turns|) &&
                Abs() == Turns(n, reserved, old(Abs()), turns[..k])
    {
      ghost var lfd := listenFd;
      hide Visited, Init, Run, FailedProvide, Turns;
      TurnsNone(n, reserved, Abs());
      assert Visited(n, reserved, lfd, Abs()) by { VisitedFirst(n, reserved, lfd); }
      assert !exited by { InitStays(lfd); }
      var i := 0;
      while i < |turns| && !exited
        invariant i <= |turns| && Abs() == Turns(n, reserved, old(Abs()), turns[..i])
        invariant Visited(n, reserved, lfd, Abs()) && (exited ==> cq != [] && FailedProvide(cq[0]))
      {
        TurnsNext(n, reserved, old(Abs()), turns, i);
        KernelActs(n, reserved, turns[i], lfd);
        var _ := HandleBatch(n, reserved, lfd);
        i := i + 1;
      }
    }
  }

  lemma InitStays(listenFd: nat)
    ensures !Init(listenFd).exited
  {
  }

  lemma VisitedFirst(n: nat, reserved: set<nat>, listenFd: nat)
    ensures Visited(n, reserved, listenFd, Init(listenFd))
  {
    hide Init;
    RunNothing(n, reserved, Init(listenFd));
  }

  lemma HandleUnfolds(s: State)
    requires s.cq != []
    ensures Handle(s) ==
            match React(s.listenFd, s.cq[0].sqe.tag, s.cq[0].res, s.cq[0].flags)
            case Exit => s.(exited := true)
            case Continue(queued, closed) =>
              s.(cq := s.cq[1..], sq := s.sq + queued, world := s.world.(streams := s.world.streams - closed))
  {
  }
}
