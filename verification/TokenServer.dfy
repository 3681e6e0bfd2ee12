/**
 The token server in the form of its source: an object whose methods are the loops of
 `main`, each tied to the state machine of TokenMachine. What the kernel does in between
 is passed in.
 */
module TokenServer {
  import opened Streams
  import opened Kernel
  import opened TokenMachine
  import opened TokenInvariant
  import opened TokenTheorems
  import opened TokenReplies
  import opened TokenTurns

  class EchoServer {
    var tokens: map<nat, Token>
    var bufpool: seq<nat>
    var acceptCount: nat
    var backlog: seq<Sqe>
    var sq: seq<Sqe>
    var published: nat
    var stale: nat
    var kernel: seq<Sqe>
    var cq: seq<Cqe>
    var world: World<nat>
    ghost var dropped: seq<Sqe>
    ghost var failed: seq<Cqe>
    ghost var closed: seq<Stream>

    ghost function Abs(): State
      reads this
    {
      State(tokens, bufpool, acceptCount, backlog, sq, published, stale, kernel, cq, world, dropped, failed, closed)
    }

    /** All entries on their way to completion, oldest first. */
    ghost function Line(): seq<Sqe>
      reads this
    {
      kernel + sq + backlog
    }

    constructor ()
      ensures Abs() == Init() && forall reserved :: Visited(reserved, Abs())
    {
      tokens, bufpool, acceptCount, backlog := map[ACCEPT_TOKEN := Accept], [], ACCEPT_BUDGET, [];
      sq, published, stale, kernel, cq, world := [], 0, 0, [], [], World(map[], map[]);
      dropped, failed, closed := [], [], [];
      new;
      forall reserved: set<nat> ensures Visited(reserved, Abs()) {
        assert Run(Init(), reserved, [], Abs());
      }
    }

    /** `AcceptCount::push_to`: push accepts until the budget or the queue is used up, then sync. */
    method PushAccepts(ghost reserved: set<nat>)
      requires Visited(reserved, Abs())
      modifies this`acceptCount, this`sq, this`published, this`stale
      ensures Visited(reserved, Abs())
      ensures acceptCount <= old(acceptCount)
      ensures sq == old(sq) + seq(old(acceptCount) - acceptCount, _ => ACCEPT_ENTRY)
      ensures acceptCount == 0 || old(stale) + |sq| >= RING_ENTRIES
      ensures published == |sq| && stale == 0
      ensures Abs() == PushedAll(old(Abs()))
    {
      hide Inv, Visited;
      while acceptCount > 0 && stale + |sq| < RING_ENTRIES
        invariant Visited(reserved, Abs()) && stale == old(stale) && acceptCount <= old(acceptCount)
        invariant PushedAll(Abs()) == PushedAll(old(Abs()))
        invariant sq == old(sq) + seq(old(acceptCount) - acceptCount, _ => ACCEPT_ENTRY)
        decreases acceptCount
      {
        VisitedStep(reserved, Abs(), DoPushAccept);
        sq := sq + [ACCEPT_ENTRY];
        acceptCount := acceptCount - 1;
      }
      SyncQueue(reserved);
    }

    /** `sq.push(..)` with the backlog as fallback. */
    method Enqueue(e: Sqe)
      modifies this`sq, this`backlog
      ensures Abs() == Push(old(Abs()), e)
    {
      if stale + |sq| >= RING_ENTRIES {
        backlog := backlog + [e];
      } else {
        sq := sq + [e];
      }
    }

    /** The kernel takes published entries in order, as many as it chooses and there are. */
    method Submit(count: nat, ghost reserved: set<nat>)
      requires Visited(reserved, Abs())
      modifies this`sq, this`published, this`stale, this`kernel
      ensures Visited(reserved, Abs())
      ensures kernel + sq == old(kernel + sq) && Line() == old(Line())
      ensures |old(sq)| - |sq| == if count <= old(published) then count else old(published)
      ensures stale + |sq| == old(stale + |sq|) && Abs() == Consumed(old(Abs()), count)
    {
      hide Inv, Visited, Consumed;
      var n := 0;
      PublishedInQueue(reserved, Abs());
      while n < count && published > 0
        invariant Visited(reserved, Abs()) && n <= count && published == old(published) - n
        invariant kernel + sq == old(kernel + sq) && |sq| == |old(sq)| - n && stale == old(stale) + n
        invariant Consumed(Abs(), count - n) == Consumed(old(Abs()), count)
      {
        PublishedInQueue(reserved, Abs());
        VisitedStep(reserved, Abs(), DoConsume);
        ConsumedStep(Abs(), count - n);
        assert kernel + sq == kernel + [sq[0]] + sq[1..];
        kernel, sq, published, stale := kernel + [sq[0]], sq[1..], published - 1, stale + 1;
        n := n + 1;
      }
      ConsumedEnd(Abs(), count - n);
    }

    /** Move the oldest backlog entry to the queue; the result of that push is ignored. */
    method PopFront() returns (lost: bool)
      requires backlog != [] && stale == 0
      modifies this`sq, this`backlog, this`dropped
      ensures Abs() == PopBacklog(old(Abs())) && backlog == old(backlog)[1..]
      ensures lost <==> old(|sq|) >= RING_ENTRIES
      ensures !lost ==> Line() == old(Line()) && dropped == old(dropped)
      ensures lost ==> |dropped| == |old(dropped)| + 1
      ensures multiset(Line()) + multiset(dropped) ==
              old(multiset(Line()) + multiset(dropped))
    {
      var e := backlog[0];
      assert kernel + sq + backlog == kernel + sq + [e] + backlog[1..];
      backlog := backlog[1..];
      lost := |sq| >= RING_ENTRIES;
      if !lost {
        sq := sq + [e];
      } else {
        dropped := dropped + [e];
      }
    }

    /**
     The backlog loop. `starved` reports that a successful submit followed by the sync left
     the queue full; the entry popped then is lost, and no entry is lost otherwise.
     */
    method CleanBacklog(submits: seq<SubmitResult>, ghost reserved: set<nat>) returns (starved: bool)
      requires Visited(reserved, Abs())
      modifies this`sq, this`published, this`stale, this`kernel, this`backlog, this`dropped
      ensures Visited(reserved, Abs()) && Abs() == Cleaned(old(Abs()), submits, 0)
      ensures !starved ==> dropped == old(dropped) && Line() == old(Line())
      ensures |old(dropped)| + (if starved then 1 else 0) <= |dropped|
      ensures multiset(Line()) + multiset(dropped) ==
              old(multiset(Line()) + multiset(dropped))
    {
      hide Inv, Visited, PopBacklog, Sync, EchoServer.Line, Consumed, Cleaned;
      starved := false;
      var i := 0;
      while true
        invariant Visited(reserved, Abs()) && Cleaned(Abs(), submits, i) == Cleaned(old(Abs()), submits, 0)
        invariant !starved ==> dropped == old(dropped) && Line() == old(Line())
        invariant |old(dropped)| + (if starved then 1 else 0) <= |dropped|
        invariant multiset(Line()) + multiset(dropped) ==
                  old(multiset(Line()) + multiset(dropped))
        decreases |backlog|
      {
        ghost var s := Abs();
        if stale + |sq| >= RING_ENTRIES {
          var r := if i < |submits| then submits[i] else Busy;
          if r == Busy {
            CleanedBusy(s, submits, i);
            break;
          }
          Submit(r.count, reserved);
        }
        SyncQueue(reserved);
        CleanedRound(s, submits, i, Abs());
        if backlog == [] {
          break;
        }
        VisitedStep(reserved, Abs(), DoPopBacklog);
        var lost := PopFront();
        starved := starved || lost;
        i := i + 1;
      }
    }

    /** `sq.sync()` */
    method SyncQueue(ghost reserved: set<nat>)
      requires Visited(reserved, Abs())
      modifies this`published, this`stale
      ensures Abs() == Sync(old(Abs())) && Visited(reserved, Abs()) && published == |sq| && stale == 0 &&
              Line() == old(Line())
    {
      hide Inv, Visited;
      VisitedStep(reserved, Abs(), DoSync);
      published, stale := |sq|, 0;
    }

    method AcceptArm(fd: nat, tokenKey: nat)
      modifies this`acceptCount, this`tokens, this`sq, this`backlog
      ensures Abs() == OnAccept(old(Abs()), fd, tokenKey)
    {
      acceptCount := acceptCount + 1;
      tokens := tokens[tokenKey := Poll(fd)];
      Enqueue(Sqe(KPoll(fd), tokenKey));
    }

    method PollArm(i: nat, fd: nat, bufKey: nat)
      requires bufpool != [] ==> Last(bufpool) in world.mem
      modifies this`bufpool, this`world, this`tokens, this`sq, this`backlog
      ensures Abs() == OnPoll(old(Abs()), i, fd, bufKey)
    {
      var buf;
      if bufpool != [] {
        buf := bufpool[|bufpool| - 1];
        bufpool := bufpool[..|bufpool| - 1];
      } else {
        buf := bufKey;
        world := world.(mem := world.mem[buf := seq(BUF_LEN, _ => 0)]);
      }
      tokens := tokens[i := Read(fd, buf)];
      Enqueue(Sqe(KRecv(fd, buf, |world.mem[buf]|), i));
    }

    method ReadArm(i: nat, fd: nat, buf: nat, res: nat)
      modifies this`bufpool, this`world, this`tokens, this`sq, this`backlog, this`closed
      ensures Abs() == OnRead(old(Abs()), i, fd, buf, res)
    {
      if res == 0 {
        bufpool := bufpool + [buf];
        tokens := tokens - {i};
        if fd in world.streams {
          closed := closed + [world.streams[fd]];
          world := world.(streams := world.streams - {fd});
        }
      } else {
        tokens := tokens[i := Write(fd, buf, 0, res)];
        Enqueue(Sqe(KSend(fd, buf, 0, res), i));
      }
    }

    method WriteArm(i: nat, fd: nat, buf: nat, offset: nat, len: nat, res: nat)
      modifies this`bufpool, this`tokens, this`sq, this`backlog
      ensures Abs() == OnWrite(old(Abs()), i, fd, buf, offset, len, res)
    {
      var entry;
      if offset + res >= len {
        bufpool := bufpool + [buf];
        tokens := tokens[i := Poll(fd)];
        entry := Sqe(KPoll(fd), i);
      } else {
        var offset' := offset + res;
        var len' := len - offset';
        tokens := tokens[i := Write(fd, buf, offset', len')];
        entry := Sqe(KSend(fd, buf, offset', len'), i);
      }
      Enqueue(entry);
    }

    /** One iteration of the completion loop. The slabs pick `tokenKey` and `bufKey` among their vacant keys. */
    method HandleCompletion(tokenKey: nat, bufKey: nat, ghost reserved: set<nat>)
      requires Visited(reserved, Abs()) && cq != [] && tokenKey !in tokens && bufKey !in world.mem
      modifies this
      ensures Visited(reserved, Abs()) && old(NoPanic(Abs()))
      ensures Abs() == Handle(old(Abs()), tokenKey, bufKey)
    {
      hide Inv, Visited, OnAccept, OnPoll, OnRead, OnWrite;
      VisitedStep(reserved, Abs(), DoHandle(tokenKey, bufKey));
      var c := cq[0];
      var i := c.entry.userData;
      cq := cq[1..];
      if c.res < 0 {
        failed := failed + [c];
        return;
      }
      match tokens[i] {
        case Accept => AcceptArm(c.res, tokenKey);
        case Poll(fd) => PollArm(i, fd, bufKey);
        case Read(fd, buf) => ReadArm(i, fd, buf, c.res);
        case Write(fd, buf, offset, len) => WriteArm(i, fd, buf, offset, len, c.res);
      }
    }

    /** Kernel activity: entries taken and operations completed, in the order given. */
    method KernelActs(reserved: set<nat>, activity: seq<Event>)
      requires Visited(reserved, Abs())
      modifies this`sq, this`published, this`stale, this`kernel, this`cq, this`world
      ensures Visited(reserved, Abs()) && Abs() == ActedAll(reserved, old(Abs()), activity)
    {
      hide Inv, Visited, Consumed;
      for n := 0 to |activity|
        invariant Visited(reserved, Abs()) && Abs() == ActedAll(reserved, old(Abs()), activity[..n])
      {
        var e := activity[n];
        assert Front(activity[..n + 1]) == activity[..n] && Last(activity[..n + 1]) == e;
        match e {
          case DoConsume =>
            Submit(1, reserved);
          case DoComplete(k, o) =>
            if k < |kernel| && Allowed(world, reserved, kernel[k].op, o) {
              VisitedStep(reserved, Abs(), e);
              ghost var before := Abs();
              var entry := kernel[k];
              world := Exec(world, reserved, entry.op, o);
              kernel := kernel[..k] + kernel[k + 1..];
              cq := cq + [Cqe(entry, Res(o))];
              assert Abs() == Complete(before, reserved, k, o);
            }
          case _ =>
        }
      }
      assert activity[..|activity|] == activity;
    }

    /**
     The `for cqe in &mut cq` loop. The entries that follow the completions go, in completion
     order, to the end of the queue as far as it has room and then to the end of the backlog.
     `keys` are the token keys and buffers used.
     */
    method HandleAll(ghost reserved: set<nat>) returns (ghost keys: seq<(nat, nat)>)
      requires Visited(reserved, Abs())
      modifies this
      ensures Visited(reserved, Abs()) && cq == [] && dropped == old(dropped)
      ensures |keys| == |old(cq)| && Spread(old(Abs()), Abs(), Replies(old(cq), keys))
    {
      hide Visited, Inv, Handle, NoPanic, Spread, Placed, Pooled, Reply, Replies, Full;
      keys := [];
      ghost var s, k := Abs(), 0;
      SpreadNothing(s);
      assert s.cq[..0] == [] && Replies([], []) == [] by { RepliesNothing(); }
      while cq != []
        invariant Visited(reserved, Abs()) && dropped == old(dropped)
        invariant k == |keys| <= |s.cq| && cq == s.cq[k..] && Spread(s, Abs(), Replies(s.cq[..k], keys))
        decreases |cq|
      {
        var tokenKey := VacantKey(tokens.Keys);
        var bufKey := VacantKey(world.mem.Keys);
        ghost var before := Abs();
        VisitedInv(reserved, before);
        HandleAnswers(before, tokenKey, bufKey);
        HandleCompletion(tokenKey, bufKey, reserved);
        ghost var buf := BufferFor(before, bufKey);
        RepliesLast(s.cq[..k], keys, s.cq[k], (tokenKey, buf));
        assert s.cq[..k] + [s.cq[k]] == s.cq[..k + 1];
        ReplyShort(s.cq[k], tokenKey, buf);
        SpreadMore(s, before, Replies(s.cq[..k], keys), Abs(), Reply(s.cq[k], tokenKey, buf));
        keys, k := keys + [(tokenKey, buf)], k + 1;
      }
      assert s.cq[..k] == s.cq;
    }

    /**
     The outer loop, observed for any number of turns, is a run of the state machine: after
     the first accepts, each turn consists of the kernel's activity, the backlog loop, the
     accepts and the completions, in this order. `states` and `phases` tell the states between
     turns and within them. `starved` reports that in some turn the backlog loop found the
     queue full right after a submit and a sync; entries are lost exactly then.
     */
    method Serve(reserved: set<nat>, turns: seq<Turn>)
        returns (starved: bool, ghost states: seq<State>, ghost phases: seq<Phases>)
      requires Visited(reserved, Abs())
      modifies this
      ensures Visited(reserved, Abs())
      ensures !starved ==> dropped == old(dropped)
      ensures starved ==> |old(dropped)| < |dropped|
      ensures |phases| == |turns| && |states| == |turns| + 1
      ensures states[0] == PushedAll(old(Abs())) && states[|turns|] == Abs()
      ensures Chain(reserved, states, turns, phases)
    {
      hide Visited, TurnOf, PushedAll, Cleaned, ActedAll, Spread, Replies, HandledAll, Chain, EchoServer.Line;
      starved := false;
      PushAccepts(reserved);
      states, phases := [Abs()], [];
      ChainNone(reserved, Abs());
      for n := 0 to |turns|
        invariant Visited(reserved, Abs())
        invariant if starved then |old(dropped)| < |dropped| else dropped == old(dropped)
        invariant |phases| == n && |states| == n + 1 && states[0] == PushedAll(old(Abs())) && states[n] == Abs()
        invariant Chain(reserved, states, turns[..n], phases)
      {
        ghost var s := Abs();
        KernelActs(reserved, turns[n].kernelActivity);
        ghost var acted := Abs();
        var full := CleanBacklog(turns[n].submits, reserved);
        ghost var cleaned := Abs();
        starved := starved || full;
        PushAccepts(reserved);
        ghost var pushed := Abs();
        ghost var keys := HandleAll(reserved);
        TurnEnds(reserved, s, turns[n], Phases(acted, cleaned, pushed), Abs(), keys);
        ChainMore(reserved, states, turns[..n], phases, turns[n], Phases(acted, cleaned, pushed), Abs());
        assert turns[..n] + [turns[n]] == turns[..n + 1];
        states, phases := states + [Abs()], phases + [Phases(acted, cleaned, pushed)];
      }
      assert turns[..|turns|] == turns;
    }
  }

  lemma PublishedInQueue(reserved: set<nat>, s: State)
    requires Visited(reserved, s)
    ensures s.published <= |s.sq|
  {
    VisitedInv(reserved, s);
  }

  /** Some key a slab has not handed out. */
  method VacantKey(used: set<nat>) returns (k: nat)
    ensures k !in used
  {
    k := 0;
    var rest := used;
    while rest != {}
      invariant rest <= used && forall x :: x in used && x !in rest ==> x < k
      decreases rest
    {
      var x :| x in rest;
      if k <= x { k := x + 1; }
      rest := rest - {x};
    }
  }
}
