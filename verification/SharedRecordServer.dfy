/**
 The shared-record server in the form of its source: a table of records overwritten in
 place, and a loop over a batch of completions that looks each one up in that table.
 */
module SharedRecordServer {
  import opened Streams
  import opened Kernel
  import opened SharedRecord
  import opened SharedRecordProof

  /** How many completions one batch may hold. */
  const BACKLOG := 8192

  class EchoServer {
    const cfg: Config
    const conns: array<ConnInfo>
    var sq: seq<Sqe>
    var kernel: seq<Sqe>
    var cq: seq<Cqe>
    var world: World<nat>

    ghost function Abs(): State
      reads this, conns
    {
      State(conns[..], sq, kernel, cq, world)
    }

    constructor (cfg: Config)
      requires cfg.listenFd < cfg.table
      ensures this.cfg == cfg && fresh(conns) && Abs() == Init(cfg)
      ensures forall reserved :: Visited(cfg, reserved, Abs())
    {
      this.cfg := cfg;
      conns := new ConnInfo[cfg.table](_ => ConnInfo(0, ACCEPT));
      sq, kernel, cq := [], [], [];
      world := World(map[], map i: nat | i < cfg.table && IsSlot(i) :: seq(cfg.msgLen, _ => 0));
      new;
      assert conns[..] == seq(cfg.table, _ => ConnInfo(0, ACCEPT));
      AddEntry(Accept, ConnInfo(cfg.listenFd, ACCEPT));
      forall reserved: set<nat> ensures Visited(cfg, reserved, Abs()) {
        assert Run(cfg, reserved, false, Init(cfg), [], Abs());
      }
    }

    /** `add_accept`, `add_socket_read`, `add_socket_write`: overwrite the record, point the entry to it. */
    method AddEntry(op: Op, info: ConnInfo)
      requires info.fd < conns.Length
      modifies this`sq, conns
      ensures Abs() == Add(old(Abs()), op, info)
    {
      conns[info.fd] := info;
      sq := sq + [Sqe(op, info.fd, info)];
    }

    /** One completion: the record is read now, through the pointer the entry carried. */
    method HandleNext()
      requires InTable(cfg, false, Abs())
      modifies this, conns
      ensures Abs() == Handle(cfg, false, old(Abs()))
    {
      var c := cq[0];
      var info := conns[c.sqe.ptr];
      cq := cq[1..];
      if info.kind == ACCEPT {
        AddEntry(Accept, ConnInfo(cfg.listenFd, ACCEPT));
        AddEntry(Recv(c.res), ConnInfo(c.res, READ));
      } else if info.kind == READ {
        if c.res <= 0 {
          world := world.(streams := world.streams - {info.fd});
        } else {
          AddEntry(Send(info.fd, c.res), ConnInfo(info.fd, WRITE));
        }
      } else {
        AddEntry(Recv(info.fd), ConnInfo(info.fd, READ));
      }
    }

    /**
     One batch of at most `BACKLOG` completions. `wild` reports that the next one is an accept
     that failed or overran the tables, where the source would index outside them.
     */
    method HandleBatch(ghost reserved: set<nat>) returns (count: nat, wild: bool)
      requires cfg.listenFd < cfg.table && Visited(cfg, reserved, Abs())
      modifies this, conns
      ensures Visited(cfg, reserved, Abs()) && count <= |old(cq)| && cq == old(cq)[count..]
      ensures !wild ==> count == if |old(cq)| <= BACKLOG then |old(cq)| else BACKLOG
      ensures wild ==> cq != [] && Wild(cfg, cq[0])
      ensures Abs() == Batch(cfg, old(Abs()), if |old(cq)| <= BACKLOG then |old(cq)| else BACKLOG)
    {
      hide Inv, Handle, Visited, InTable, Batch;
      var batch := if |cq| <= BACKLOG then |cq| else BACKLOG;
      count, wild := 0, false;
      while count < batch
        invariant count <= batch && Visited(cfg, reserved, Abs()) && cq == old(cq)[count..]
        invariant Batch(cfg, Abs(), batch - count) == Batch(cfg, old(Abs()), batch)
      {
        VisitedSees(cfg, reserved, Abs());
        BatchIs(cfg, Abs(), batch - count);
        if conns[cq[0].sqe.ptr].kind == ACCEPT && !(0 <= cq[0].res < cfg.table) {
          return count, true;
        }
        VisitedStep(cfg, reserved, Abs(), DoHandle);
        ghost var before := Abs();
        HandleNext();
        HandleTakesOne(cfg, before);
        count := count + 1;
      }
      BatchIs(cfg, Abs(), 0);
    }

    /** Kernel activity between batches, where it can happen. */
    method KernelActs(reserved: set<nat>, activity: seq<Event>)
      requires cfg.listenFd < cfg.table && Visited(cfg, reserved, Abs())
      modifies this
      ensures Visited(cfg, reserved, Abs()) && Abs() == ActedAll(cfg, reserved, old(Abs()), activity)
    {
      hide Inv, Visited;
      for i := 0 to |activity|
        invariant Visited(cfg, reserved, Abs()) && Abs() == ActedAll(cfg, reserved, old(Abs()), activity[..i])
      {
        var e := activity[i];
        assert Front(activity[..i + 1]) == activity[..i] && Last(activity[..i + 1]) == e;
        match e {
          case DoTake =>
            if sq != [] {
              VisitedStep(cfg, reserved, Abs(), e);
              kernel, sq := kernel + [sq[0]], sq[1..];
            }
          case DoFinish(k, o) =>
            if k < |kernel| && Allowed(world, reserved + {cfg.listenFd}, KernelOp(cfg, kernel[k].op), o) {
              VisitedStep(cfg, reserved, Abs(), e);
              var x := kernel[k];
              kernel, cq := kernel[..k] + kernel[k + 1..], cq + [Cqe(x, Res(o))];
              world := Exec(world, reserved + {cfg.listenFd}, KernelOp(cfg, x.op), o);
            }
          case DoHandle =>
        }
      }
      assert activity[..|activity|] == activity;
    }

    /**
     The event loop, observed for any number of turns or up to a wild accept, is a run of the
     state machine. Each turn is the kernel's activity and one batch.
     */
    method Serve(reserved: set<nat>, turns: seq<seq<Event>>) returns (wild: bool)
      requires cfg.listenFd < cfg.table && Visited(cfg, reserved, Abs())
      modifies this, conns
      ensures Visited(cfg, reserved, Abs())
      ensures wild ==> cq != [] && Wild(cfg, cq[0])
      ensures exists n :: 0 <= n <= |turns| && (!wild ==> n == |turns|) &&
                Abs() == Turns(cfg, reserved, old(Abs()), turns[..n])
    {
      hide Visited, Turns;
      wild := false;
      var i := 0;
      TurnsNone(cfg, reserved, Abs());
      while i < |turns|
        invariant i <= |turns| && !wild
        invariant Visited(cfg, reserved, Abs()) && Abs() == Turns(cfg, reserved, old(Abs()), turns[..i])
      {
        var count;
        TurnsNext(cfg, reserved, old(Abs()), turns, i);
        KernelActs(reserved, turns[i]);
        count, wild := HandleBatch(reserved);
        i := i + 1;
        if wild {
          return;
        }
      }
    }
  }

  // ---------------------------------------------------------------- the parts of a turn

  /** What the kernel does on its own, where it can. */
  function ActedAll(cfg: Config, reserved: set<nat>, s: State, es: seq<Event>): State {
    if es == [] then s
    else
      var t, e := ActedAll(cfg, reserved, s, Front(es)), Last(es);
      if !e.DoHandle? && Enabled(cfg, reserved, t, e) then Apply(cfg, reserved, false, t, e) else t
  }

  /** Up to `n` completions are handled, as far as the table reaches. */
  function Batch(cfg: Config, s: State, n: nat): State
    decreases n
  {
    if n == 0 || !InTable(cfg, false, s) then s else Batch(cfg, Handle(cfg, false, s), n - 1)
  }

  lemma BatchIs(cfg: Config, s: State, n: nat)
    ensures Batch(cfg, s, n) == if n == 0 || !InTable(cfg, false, s) then s
                                else Batch(cfg, Handle(cfg, false, s), n - 1)
  {
    hide InTable, Handle;
  }

  function Turns(cfg: Config, reserved: set<nat>, s: State, turns: seq<seq<Event>>): State {
    if turns == [] then s
    else
      var t := ActedAll(cfg, reserved, Turns(cfg, reserved, s, Front(turns)), Last(turns));
      Batch(cfg, t, if |t.cq| <= BACKLOG then |t.cq| else BACKLOG)
  }

  lemma TurnsNone(cfg: Config, reserved: set<nat>, s: State)
    ensures Turns(cfg, reserved, s, []) == s
  {
  }

  lemma TurnsNext(cfg: Config, reserved: set<nat>, s: State, turns: seq<seq<Event>>, n: nat)
    requires n < |turns|
    ensures var t := ActedAll(cfg, reserved, Turns(cfg, reserved, s, turns[..n]), turns[n]);
            Turns(cfg, reserved, s, turns[..n + 1]) == Batch(cfg, t, if |t.cq| <= BACKLOG then |t.cq| else BACKLOG)
  {
    hide ActedAll, Batch;
    assert Front(turns[..n + 1]) == turns[..n] && Last(turns[..n + 1]) == turns[n];
  }

  /** What the handler reads of the completion at hand. */
  lemma VisitedSees(cfg: Config, reserved: set<nat>, s: State)
    requires cfg.listenFd < cfg.table && Visited(cfg, reserved, s) && s.cq != []
    ensures s.cq[0].sqe.ptr < |s.conns| && (s.conns[s.cq[0].sqe.ptr].kind == ACCEPT <==> s.cq[0].sqe.op.Accept?)
    ensures InTable(cfg, false, s) <==> !Wild(cfg, s.cq[0])
  {
    hide Visited, ActiveInv, DataInv, InTable;
    VisitedInv(cfg, reserved, s);
    RecordIsTag(cfg, false, s);
  }

  lemma HandleTakesOne(cfg: Config, s: State)
    requires InTable(cfg, false, s)
    ensures Handle(cfg, false, s).cq == s.cq[1..]
  {
  }
}
