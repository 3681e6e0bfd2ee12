/**
 How many buffers the token server allocates: in every run exactly as many as tokens ever
 held one at the same time.
 */
module TokenBuffers {
  import opened Streams
  import opened Kernel
  import opened TokenMachine
  import opened TokenInvariant
  import opened TokenTheorems
  import opened TokenReplies

  // ---------------------------------------------------------------- holders and buffers

  /** The tokens that hold a buffer. */
  function Holders(tokens: map<nat, Token>): set<nat> {
    set i | i in tokens && (tokens[i].Read? || tokens[i].Write?)
  }

  function BufOf(t: Token): nat {
    if t.Read? || t.Write? then t.buf else 0
  }

  /** Tokens with different buffers hold as many buffers as they are. */
  lemma {:induction false} AsManyBuffers(tokens: map<nat, Token>, holders: set<nat>, bufs: set<nat>)
    requires TokensApart(tokens) && holders <= Holders(tokens)
    requires forall b :: b in bufs <==> exists i :: i in holders && BufOf(tokens[i]) == b
    ensures |bufs| == |holders|
    decreases holders
  {
    if holders != {} {
      var x :| x in holders;
      var b := BufOf(tokens[x]);
      assert HasBuf(tokens[x], b) && b in bufs;
      forall i | i in holders && i != x ensures BufOf(tokens[i]) != b {
        assert HasBuf(tokens[i], BufOf(tokens[i]));
      }
      AsManyBuffers(tokens, holders - {x}, bufs - {b});
    } else {
      assert bufs == {};
    }
  }

  lemma {:induction false} PoolSize(pool: seq<nat>, bufs: set<nat>)
    requires (forall b :: b in bufs <==> b in pool) && forall b :: b in pool ==> multiset(pool)[b] == 1
    ensures |bufs| == |pool|
    decreases |pool|
  {
    if pool != [] {
      var b := Last(pool);
      assert pool == Front(pool) + [b];
      assert multiset(pool) == multiset(Front(pool)) + multiset{b};
      forall x | x in Front(pool) ensures multiset(Front(pool))[x] == 1 && x != b {
        assert multiset(pool)[x] == 1 && x in multiset(Front(pool));
      }
      PoolSize(Front(pool), bufs - {b});
    }
  }

  /** The buffers that are not pooled. */
  function Unpooled(pool: seq<nat>, mem: map<nat, seq<byte>>): set<nat> {
    mem.Keys - (set b | b in mem && b in pool)
  }

  lemma HeldOrPooled(tokens: map<nat, Token>, pool: seq<nat>, mem: map<nat, seq<byte>>, b: nat)
    requires BufInv(tokens, pool, mem)
    ensures b in Unpooled(pool, mem) <==> exists i :: i in Holders(tokens) && BufOf(tokens[i]) == b
  {
    if b in Unpooled(pool, mem) {
      var i :| i in tokens && HasBuf(tokens[i], b);
      assert i in Holders(tokens) && BufOf(tokens[i]) == b;
    }
    if i :| i in Holders(tokens) && BufOf(tokens[i]) == b {
      assert HasBuf(tokens[i], b);
    }
  }

  lemma UnpooledSize(pool: seq<nat>, mem: map<nat, seq<byte>>)
    requires forall b :: b in pool ==> b in mem && multiset(pool)[b] == 1
    ensures |mem| == |pool| + |Unpooled(pool, mem)|
  {
    var pooled := set b | b in mem && b in pool;
    PoolSize(pool, pooled);
    assert mem.Keys == pooled + Unpooled(pool, mem);
  }

  /** Every buffer is pooled or held, so the numbers add up. */
  lemma BuffersAddUp(tokens: map<nat, Token>, pool: seq<nat>, mem: map<nat, seq<byte>>)
    requires TokensApart(tokens) && BufInv(tokens, pool, mem)
    ensures |mem| == |pool| + |Holders(tokens)|
  {
    assert forall b :: b in pool ==> b in mem && multiset(pool)[b] == 1;
    hide BufInv, Unpooled, TokensApart;
    UnpooledSize(pool, mem);
    forall b ensures b in Unpooled(pool, mem) <==> exists i :: i in Holders(tokens) && BufOf(tokens[i]) == b {
      HeldOrPooled(tokens, pool, mem, b);
    }
    AsManyBuffers(tokens, Holders(tokens), Unpooled(pool, mem));
  }

  lemma InvAddsUp(s: State)
    requires Inv(s)
    ensures |s.world.mem| == |s.bufpool| + |Holders(s.tokens)|
  {
    hide TokenInv, FdInv, DataInv, ClosedInv, TokensApart, BufInv;
    BuffersAddUp(s.tokens, s.bufpool, s.world.mem);
  }

  // ---------------------------------------------------------------- steps

  lemma ExecMem(w: World<nat>, reserved: set<nat>, op: KOp<nat>, o: Outcome)
    requires Allowed(w, reserved, op, o)
    ensures Exec(w, reserved, op, o).mem.Keys == w.mem.Keys
  {
  }

  /** A step leaves the number of buffers, or adds one, which is held like all the others. */
  lemma StepBuffers(s: State, reserved: set<nat>, e: Event)
    requires Inv(s) && Enabled(s, reserved, e)
    ensures e.DoHandle? ==> NoPanic(s)
    ensures var t := Apply(s, reserved, e);
            || |t.world.mem| == |s.world.mem|
            || (|t.world.mem| == |s.world.mem| + 1 && |Holders(t.tokens)| == |t.world.mem|)
  {
    hide Inv, Handle, NoPanic, Exec, Allowed, Holders, Consume, PopBacklog, PushAccept, Sync;
    if e.DoHandle? {
      HandleBuffers(s, e.tokenKey, e.bufKey);
    } else if e.DoComplete? {
      ExecMem(s.world, reserved, s.kernel[e.k].op, e.o);
      assert |Apply(s, reserved, e).world.mem.Keys| == |s.world.mem.Keys|;
    } else {
      QuietBuffers(s, reserved, e);
    }
  }

  lemma HandleBuffers(s: State, tokenKey: nat, bufKey: nat)
    requires Inv(s) && CanHandle(s, tokenKey, bufKey)
    ensures NoPanic(s)
    ensures var t := Handle(s, tokenKey, bufKey);
            || |t.world.mem| == |s.world.mem|
            || (|t.world.mem| == |s.world.mem| + 1 && |Holders(t.tokens)| == |t.world.mem|)
  {
    hide Inv, Handle, NoPanic, Reply, Placed, Holders;
    HandleAnswers(s, tokenKey, bufKey);
    HandleKeeps(s, tokenKey, bufKey);
    var t := Handle(s, tokenKey, bufKey);
    InvAddsUp(t);
    assert |t.world.mem| == |t.world.mem.Keys| && |s.world.mem| == |s.world.mem.Keys|;
  }

  lemma QuietBuffers(s: State, reserved: set<nat>, e: Event)
    requires Enabled(s, reserved, e) && !e.DoHandle? && !e.DoComplete?
    ensures Apply(s, reserved, e).world == s.world
  {
  }

  // ---------------------------------------------------------------- runs

  /** The state in the middle of a run. */
  lemma {:induction false} Middle(s: State, reserved: set<nat>, es: seq<Event>, t: State, k: nat) returns (u: State)
    requires Run(s, reserved, es, t) && k <= |es|
    ensures Run(s, reserved, es[..k], u) && Run(u, reserved, es[k..], t)
    decreases k
  {
    hide Enabled, Apply, NoPanic;
    if k == 0 {
      u := s;
      assert es[0..] == es;
    } else {
      u := Middle(Apply(s, reserved, es[0]), reserved, es[1..], t, k - 1);
      assert es[..k][1..] == es[1..][..k - 1] && es[1..][k - 1..] == es[k..];
    }
  }

  lemma {:induction false} SameEnd(s: State, reserved: set<nat>, es: seq<Event>, t: State, u: State)
    requires Run(s, reserved, es, t) && Run(s, reserved, es, u)
    ensures t == u
    decreases |es|
  {
    hide Enabled, Apply, NoPanic;
    if es != [] { SameEnd(Apply(s, reserved, es[0]), reserved, es[1..], t, u); }
  }

  lemma {:induction false} MemGrows(s: State, reserved: set<nat>, es: seq<Event>, t: State)
    requires Inv(s) && Run(s, reserved, es, t)
    ensures |s.world.mem| <= |t.world.mem|
    decreases |es|
  {
    hide Inv, Enabled, Apply, NoPanic;
    if es != [] {
      StepBuffers(s, reserved, es[0]);
      StepKeeps(s, reserved, es[0]);
      MemGrows(Apply(s, reserved, es[0]), reserved, es[1..], t);
    }
  }

  lemma LastStep(s: State, reserved: set<nat>, e: Event, t: State)
    requires Run(s, reserved, [e], t)
    ensures Enabled(s, reserved, e) && (e.DoHandle? ==> NoPanic(s)) && t == Apply(s, reserved, e)
  {
    hide Enabled, Apply, NoPanic;
    assert [e][1..] == [];
  }

  lemma NoneAtFirst(reserved: set<nat>, t: State)
    requires Run(Init(), reserved, [], t)
    ensures |Holders(t.tokens)| == |t.world.mem| == 0
  {
    assert Holders(t.tokens) == {};
  }

  /** At some point of the run all buffers there are at its end were held. */
  lemma {:induction false} AllHeldOnce(reserved: set<nat>, es: seq<Event>, t: State) returns (k: nat, u: State)
    requires Run(Init(), reserved, es, t)
    ensures k <= |es| && Run(Init(), reserved, es[..k], u) && |Holders(u.tokens)| == |t.world.mem|
    decreases |es|
  {
    hide Run, Init, Enabled, Apply, NoPanic, Inv, Holders;
    if es == [] {
      k, u := 0, t;
      NoneAtFirst(reserved, t);
    } else {
      var n := |es| - 1;
      var s := Middle(Init(), reserved, es, t, n);
      assert es[n..] == [es[n]];
      LastStep(s, reserved, es[n], t);
      Reachable(reserved, es[..n], s);
      StepBuffers(s, reserved, es[n]);
      if |t.world.mem| == |s.world.mem| {
        k, u := AllHeldOnce(reserved, es[..n], s);
        assert es[..n][..k] == es[..k];
      } else {
        k, u := |es|, t;
        assert es[..k] == es;
      }
    }
  }

  /** The number of tokens holding a buffer at some point of the run. */
  ghost predicate HeldAt(reserved: set<nat>, es: seq<Event>, k: nat, n: nat) {
    k <= |es| && exists u :: Run(Init(), reserved, es[..k], u) && |Holders(u.tokens)| == n
  }

  /**
   The buffers allocated in a run are exactly as many as tokens held at the same time at most.
   */
  lemma {:induction false} BuffersArePeak(reserved: set<nat>, es: seq<Event>, t: State)
    requires Run(Init(), reserved, es, t)
    ensures exists k: nat :: HeldAt(reserved, es, k, |t.world.mem|)
    ensures forall k: nat, n: nat :: HeldAt(reserved, es, k, n) ==> n <= |t.world.mem|
  {
    hide Run, Init, Inv, Holders;
    var k, u := AllHeldOnce(reserved, es, t);
    assert HeldAt(reserved, es, k, |t.world.mem|);
    forall k: nat, n: nat | HeldAt(reserved, es, k, n) ensures n <= |t.world.mem| {
      var u :| Run(Init(), reserved, es[..k], u) && |Holders(u.tokens)| == n;
      var v := Middle(Init(), reserved, es, t, k);
      SameEnd(Init(), reserved, es[..k], u, v);
      Reachable(reserved, es[..k], u);
      InvAddsUp(u);
      MemGrows(u, reserved, es[k..], t);
    }
  }

  /** Tokens that hold a buffer serve different open connections. */
  lemma {:induction false} NoMoreThanConnections(tokens: map<nat, Token>, holders: set<nat>, fds: set<nat>)
    requires TokensApart(tokens) && holders <= Holders(tokens)
    requires forall i :: i in holders ==> tokens[i].fd in fds
    ensures |holders| <= |fds|
    decreases holders
  {
    if holders != {} {
      var x :| x in holders;
      var fd := tokens[x].fd;
      assert HasFd(tokens[x], fd);
      forall i | i in holders && i != x ensures tokens[i].fd != fd {
        assert HasFd(tokens[i], tokens[i].fd);
      }
      NoMoreThanConnections(tokens, holders - {x}, fds - {fd});
    }
  }

  lemma InvHolders(s: State)
    requires Inv(s)
    ensures |Holders(s.tokens)| <= |s.world.streams|
  {
    hide TokenInv, DataInv, ClosedInv, TokensApart, BufInv;
    forall i | i in Holders(s.tokens) ensures s.tokens[i].fd in s.world.streams.Keys {
      assert HasFd(s.tokens[i], s.tokens[i].fd);
    }
    hide FdInv;
    NoMoreThanConnections(s.tokens, Holders(s.tokens), s.world.streams.Keys);
  }

  /** At no point of the run are more than `n` connections open. */
  ghost predicate AtMost(reserved: set<nat>, es: seq<Event>, n: nat) {
    forall k: nat, u :: k <= |es| && Run(Init(), reserved, es[..k], u) ==> |u.world.streams| <= n
  }

  /** As many buffers as connections are enough: a connection that is served alone uses one. */
  lemma {:induction false} BuffersPerConnection(reserved: set<nat>, es: seq<Event>, t: State, n: nat)
    requires Run(Init(), reserved, es, t) && AtMost(reserved, es, n)
    ensures |t.world.mem| <= n
  {
    hide Run, Init, Inv, Holders;
    BuffersArePeak(reserved, es, t);
    var k: nat :| HeldAt(reserved, es, k, |t.world.mem|);
    var u :| Run(Init(), reserved, es[..k], u) && |Holders(u.tokens)| == |t.world.mem|;
    Reachable(reserved, es[..k], u);
    InvHolders(u);
  }
}
