/**
 The multi-ring server in the form of its source: an array of maps, one per goroutine,
 updated in place, and one table of buffers that every goroutine replaces as it starts.
 */
module MultiRingServer {
  import opened Streams
  import opened Kernel
  import opened MultiRing
  import opened MultiRingProof

  class EchoServer {
    const listenFd: nat
    const events: array<map<nat, EventInfo>>
    var started: set<nat>
    var gen: nat
    var sq: seq<Sqe>
    var kernel: seq<Sqe>
    var cq: seq<Cqe>
    var world: World<(nat, nat)>

    function Abs(): State
      reads this, events
    {
      State(listenFd, events[..], started, gen, sq, kernel, cq, world)
    }

    constructor (listenFd: nat, rings: nat)
      ensures this.listenFd == listenFd && fresh(events) && Abs() == Init(listenFd, rings) && Inv(Abs())
      ensures forall reserved :: Visited(reserved, listenFd, events.Length, Abs())
    {
      this.listenFd := listenFd;
      events := new map<nat, EventInfo>[rings](_ => map[]);
      started, gen, sq, kernel, cq := {}, 0, [], [], [];
      world := World(map[], map[]);
      new;
      assert events[..] == seq(rings, _ => map[]);
      InitInv(listenFd, rings);
      forall reserved: set<nat> ensures Visited(reserved, listenFd, events.Length, Abs()) {
        assert Run(reserved, {}, Init(listenFd, rings), [], Abs());
      }
    }

    /** The four `ProduceSocket*` functions: fill an entry, then remember its event. */
    method ProduceSqe(ring: nat, ptr: nat, op: Op)
      requires ring < events.Length
      modifies this`sq, events
      ensures Abs() == Produce(old(Abs()), ring, ptr, op)
    {
      sq := sq + [Sqe(ring, ptr, op)];
      events[ring] := events[ring][ptr := InfoOf(listenFd, op)];
    }

    /** The beginning of a goroutine. */
    method StartRing(ring: nat, ptr: nat)
      requires Inv(Abs()) && ring < events.Length && Unused(Abs(), ptr)
      modifies this, events
      ensures Abs() == Start(old(Abs()), ring, ptr) && Inv(Abs())
    {
      hide Inv, NewTable, Unused, Produce;
      StartKeeps(Abs(), ring, ptr);
      started := started + {ring};
      gen := gen + 1;
      world := world.(mem := world.mem + NewTable(gen));
      ProduceSqe(ring, ptr, Accept);
    }

    /**
     One completion. The exit for an unknown `user_data` is there, as in the source;
     the contract says it is not taken.
     */
    method HandleCqe(i: nat, p: nat, q: nat) returns (ok: bool)
      requires Inv(Abs()) && i < |cq| && Unused(Abs(), p) && Unused(Abs(), q) && p != q
      modifies this, events
      ensures ok && old(Known(Abs(), i))
      ensures Abs() == Handle(old(Abs()), i, p, q) && Inv(Abs())
    {
      hide Inv, Unused, Produce;
      HandleKeeps(Abs(), i, p, q);
      var c := cq[i];
      var r := c.sqe.ring;
      if c.sqe.ptr !in events[r] {
        return false;
      }
      var info := events[r][c.sqe.ptr];
      events[r] := events[r] - {c.sqe.ptr};
      cq := cq[..i] + cq[i + 1..];
      match info.etype {
        case ETypeAccept =>
          if c.res >= 0 {
            ProduceSqe(r, p, Accept);
            ProduceSqe(r, q, Recv(c.res, gen));
          }
        case ETypeRead =>
          if c.res <= 0 {
            if c.res != -EBADF {
              ProduceSqe(r, p, Close(info.cfd));
            }
          } else {
            ProduceSqe(r, p, Send(info.cfd, gen, c.res));
          }
        case ETypeWrite =>
          ProduceSqe(r, p, Recv(info.cfd, gen));
        case ETypeClose =>
      }
      return true;
    }

    /** An entry is taken by the kernel, or an operation completes. */
    method KernelStep(reserved: set<nat>, e: Event)
      requires Inv(Abs()) && (e.DoTake? || e.DoFinish?) && Enabled(reserved, Abs(), e)
      modifies this
      ensures Abs() == Apply(reserved, old(Abs()), e) && Inv(Abs())
    {
      hide Inv;
      StepKeeps(reserved, Abs(), e);
      match e {
        case DoTake(i) =>
          kernel := kernel + [sq[i]];
          sq := sq[..i] + sq[i + 1..];
        case DoFinish(k, o) =>
          var op := kernel[k];
          kernel := kernel[..k] + kernel[k + 1..];
          cq := cq + [Cqe(op, Res(o))];
          world := Exec(world, reserved, KernelOp(op.op), o);
      }
    }

    /**
     Any interleaving of the goroutines and the kernel is a run, in which every event that can
     happen does, and no goroutine ever leaves its loop.
     */
    method Serve(reserved: set<nat>, es: seq<Event>) returns (ok: bool)
      requires Visited(reserved, listenFd, events.Length, Abs())
      modifies this, events
      ensures ok && Visited(reserved, listenFd, events.Length, Abs())
      ensures Abs() == After(reserved, old(Abs()), es)
    {
      hide Inv, Start, Handle, Enabled, Known, Visited, CanFinish, Apply;
      ok := true;
      for n := 0 to |es|
        invariant ok && Visited(reserved, listenFd, events.Length, Abs())
        invariant Abs() == After(reserved, old(Abs()), es[..n])
      {
        var e := es[n];
        AfterNext(reserved, old(Abs()), es, n);
        if Enabled(reserved, Abs(), e) {
          ghost var before := Abs();
          EnabledMeans(reserved, Abs(), e);
          VisitedStep(reserved, listenFd, events.Length, Abs(), e);
          match e {
            case DoStart(ring, ptr) => StartRing(ring, ptr);
            case DoHandle(i, p, q) => ok := HandleCqe(i, p, q);
            case _ => KernelStep(reserved, e);
          }
          ApplyIs(reserved, before, e);
        }
      }
      assert es[..|es|] == es;
    }
  }

  /** The state after the events, of which those that cannot happen are passed over. */
  function After(reserved: set<nat>, s: State, es: seq<Event>): State {
    if es == [] then s
    else
      var t, e := After(reserved, s, Front(es)), Last(es);
      if Enabled(reserved, t, e) && (e.DoHandle? ==> Known(t, e.i)) then Apply(reserved, t, e) else t
  }

  lemma AfterNext(reserved: set<nat>, s: State, es: seq<Event>, n: nat)
    requires n < |es|
    ensures var t, e := After(reserved, s, es[..n]), es[n];
            After(reserved, s, es[..n + 1]) ==
            if Enabled(reserved, t, e) && (e.DoHandle? ==> Known(t, e.i)) then Apply(reserved, t, e) else t
  {
    hide Enabled, Known, Apply;
    assert Front(es[..n + 1]) == es[..n] && Last(es[..n + 1]) == es[n];
  }

  lemma ApplyIs(reserved: set<nat>, s: State, e: Event)
    requires Enabled(reserved, s, e) && (e.DoHandle? ==> Known(s, e.i))
    ensures e.DoStart? ==> Apply(reserved, s, e) == Start(s, e.ring, e.ptr)
    ensures e.DoHandle? ==> Apply(reserved, s, e) == Handle(s, e.i, e.p, e.q)
  {
    hide Start, Handle;
  }

  lemma EnabledMeans(reserved: set<nat>, s: State, e: Event)
    requires Enabled(reserved, s, e)
    ensures e.DoStart? ==> e.ring < |s.maps| && Unused(s, e.ptr)
    ensures e.DoHandle? ==> e.i < |s.cq| && Unused(s, e.p) && Unused(s, e.q) && e.p != e.q
  {
  }
}
