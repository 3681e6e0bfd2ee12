/**
 What handling a completion of the token server leads to, said of the completed operation
 and not of the server's tables: which entry follows it, where that entry goes, and which
 buffer is taken from the pool or given back to it.
 */
module TokenReplies {
  import opened Streams
  import opened Kernel
  import opened TokenMachine
  import opened TokenInvariant
  import opened TokenTheorems

  /** The send has covered what it was asked to. */
  predicate SendEnds(c: Cqe)
    requires c.entry.op.KSend?
  {
    c.res >= c.entry.op.len - c.entry.op.offset
  }

  /** The entry that follows a completion; `buf` is the buffer for a read after a poll. */
  function Reply(c: Cqe, tokenKey: nat, buf: nat): seq<Sqe> {
    if c.res < 0 then []
    else
      match c.entry.op
      case KAccept => [Sqe(KPoll(c.res), tokenKey)]
      case KPoll(fd) => [Sqe(KRecv(fd, buf, 2048), c.entry.userData)]
      case KRecv(fd, b, _) => if c.res == 0 then [] else [Sqe(KSend(fd, b, 0, c.res), c.entry.userData)]
      case KSend(fd, b, offset, len) =>
        if SendEnds(c) then [Sqe(KPoll(fd), c.entry.userData)]
        else [Sqe(KSend(fd, b, offset + c.res, len - (offset + c.res)), c.entry.userData)]
      case KClose(_) => []
  }

  /** The buffer a completed poll gets: the one pooled last, or a new one if the pool is empty. */
  function BufferFor(s: State, bufKey: nat): nat {
    if s.bufpool == [] then bufKey else s.bufpool[|s.bufpool| - 1]
  }

  predicate Polled(c: Cqe) {
    0 <= c.res && c.entry.op.KPoll?
  }

  /** The completion ends the use of the buffer it names: the connection closed, or the message is finished. */
  predicate Releases(c: Cqe) {
    || (c.res == 0 && c.entry.op.KRecv?)
    || (0 <= c.res && c.entry.op.KSend? && SendEnds(c))
  }

  ghost predicate CanHandle(s: State, tokenKey: nat, bufKey: nat) {
    s.cq != [] && tokenKey !in s.tokens && bufKey !in s.world.mem
  }

  // ---------------------------------------------------------------- one completion

  /** Entries are only added, at the end: to the queue while it has room, else to the backlog. */
  ghost predicate Placed(s: State, t: State, r: seq<Sqe>) {
    if s.stale + |s.sq| >= 4096 then t.sq == s.sq && t.backlog == s.backlog + r
    else t.sq == s.sq + r && t.backlog == s.backlog
  }

  predicate Blank(data: seq<byte>) {
    |data| == 2048 && forall i :: 0 <= i < |data| ==> data[i] == 0
  }

  ghost predicate Pooled(s: State, t: State, c: Cqe, bufKey: nat) {
    if Polled(c) && s.bufpool == [] then
      && t.bufpool == [] && t.world.mem.Keys == s.world.mem.Keys + {bufKey} && Blank(t.world.mem[bufKey])
      && forall b :: b in s.world.mem && b != bufKey ==> t.world.mem[b] == s.world.mem[b]
    else
      && t.world.mem == s.world.mem
      && t.bufpool == if Polled(c) then s.bufpool[..|s.bufpool| - 1]
                      else if Releases(c) then s.bufpool + [c.entry.op.buf] else s.bufpool
  }

  lemma NothingPlaced(s: State, t: State)
    requires t.sq == s.sq && t.backlog == s.backlog
    ensures Placed(s, t, [])
  {
  }

  lemma ErrorAnswered(s: State, tokenKey: nat, bufKey: nat)
    requires s.cq != [] && s.cq[0].res < 0
    ensures var t := Handle(s, tokenKey, bufKey);
            && Placed(s, t, Reply(s.cq[0], tokenKey, BufferFor(s, bufKey))) && Pooled(s, t, s.cq[0], bufKey)
            && t.cq == s.cq[1..] && t.stale == s.stale && t.dropped == s.dropped
  {
    NothingPlaced(s, Handle(s, tokenKey, bufKey));
  }

  lemma ConnectionAnswered(s: State, tokenKey: nat, bufKey: nat)
    requires s.cq != [] && 0 <= s.cq[0].res && Matches(s.tokens, s.cq[0].entry) && NoPanic(s)
    requires s.cq[0].entry.op.KAccept? || s.cq[0].entry.op.KRecv? || s.cq[0].entry.op.KSend?
    ensures var t := Handle(s, tokenKey, bufKey);
            && Placed(s, t, Reply(s.cq[0], tokenKey, BufferFor(s, bufKey))) && Pooled(s, t, s.cq[0], bufKey)
            && t.cq == s.cq[1..] && t.stale == s.stale && t.dropped == s.dropped
  {
    if s.cq[0].entry.op.KRecv? && s.cq[0].res == 0 { NothingPlaced(s, Handle(s, tokenKey, bufKey)); }
  }

  lemma PollAnswered(s: State, tokenKey: nat, bufKey: nat)
    requires s.cq != [] && 0 <= s.cq[0].res && Matches(s.tokens, s.cq[0].entry) && NoPanic(s)
    requires s.cq[0].entry.op.KPoll? && forall b :: b in s.world.mem ==> |s.world.mem[b]| == 2048
    ensures var t := Handle(s, tokenKey, bufKey);
            && Placed(s, t, Reply(s.cq[0], tokenKey, BufferFor(s, bufKey))) && Pooled(s, t, s.cq[0], bufKey)
            && t.cq == s.cq[1..] && t.stale == s.stale && t.dropped == s.dropped
  {
    var t := Handle(s, tokenKey, bufKey);
    if s.bufpool == [] { assert t.world.mem.Keys == s.world.mem.Keys + {bufKey}; }
  }

  /**
   One completion, in every state of the invariant: the entry that follows it goes to the end
   of the queue, or of the backlog if the queue is full; a poll takes the buffer pooled last
   and allocates one of 2048 zeros only if there is none; the end of a message or of a connection pools its
   buffer, and nothing else touches pool or memory.
   */
  lemma HandleAnswers(s: State, tokenKey: nat, bufKey: nat)
    requires Inv(s) && CanHandle(s, tokenKey, bufKey)
    ensures NoPanic(s)
    ensures var t := Handle(s, tokenKey, bufKey);
            && Placed(s, t, Reply(s.cq[0], tokenKey, BufferFor(s, bufKey))) && Pooled(s, t, s.cq[0], bufKey)
            && t.cq == s.cq[1..] && t.stale == s.stale && t.dropped == s.dropped
  {
    NeverPanics(s);
    LookupSucceeds(s);
    HeadIsNotClose(s);
    assert forall b :: b in s.world.mem ==> |s.world.mem[b]| == 2048;
    hide Inv, Handle, NoPanic, Matches, Reply, Placed, Pooled, DoneOk;
    if s.cq[0].res < 0 {
      ErrorAnswered(s, tokenKey, bufKey);
    } else if s.cq[0].entry.op.KPoll? {
      PollAnswered(s, tokenKey, bufKey);
    } else {
      ConnectionAnswered(s, tokenKey, bufKey);
    }
  }

  /** The same over runs. */
  lemma {:induction false} CompletionAnswered(reserved: set<nat>, es: seq<Event>, s: State, tokenKey: nat, bufKey: nat)
    requires Run(Init(), reserved, es, s) && Enabled(s, reserved, DoHandle(tokenKey, bufKey))
    ensures NoPanic(s)
    ensures var t := Apply(s, reserved, DoHandle(tokenKey, bufKey));
            var r := Reply(s.cq[0], tokenKey, BufferFor(s, bufKey));
            && (if s.stale + |s.sq| >= 4096 then t.sq == s.sq && t.backlog == s.backlog + r
                else t.sq == s.sq + r && t.backlog == s.backlog)
            && Pooled(s, t, s.cq[0], bufKey)
  {
    hide Run, Init, Inv, Handle, NoPanic, Reply, Pooled;
    Reachable(reserved, es, s);
    HandleAnswers(s, tokenKey, bufKey);
  }

  // ---------------------------------------------------------------- a batch of completions

  /** The entries that follow completions, in completion order; each comes with its token key and its buffer. */
  function Replies(cs: seq<Cqe>, keys: seq<(nat, nat)>): seq<Sqe>
    requires |cs| == |keys|
  {
    if cs == [] then []
    else Replies(Front(cs), Front(keys)) + Reply(Last(cs), Last(keys).0, Last(keys).1)
  }

  lemma RepliesNothing()
    ensures Replies([], []) == []
  {
  }

  lemma RepliesLast(cs: seq<Cqe>, keys: seq<(nat, nat)>, c: Cqe, key: (nat, nat))
    requires |cs| == |keys|
    ensures Replies(cs + [c], keys + [key]) == Replies(cs, keys) + Reply(c, key.0, key.1)
  {
    assert Front(cs + [c]) == cs && Front(keys + [key]) == keys;
  }

  /** How many entries the queue still takes. */
  function Room(s: State): nat {
    if s.stale + |s.sq| >= 4096 then 0 else 4096 - (s.stale + |s.sq|)
  }

  /** The first entries go to the queue, as many as it takes, the others to the backlog. */
  ghost predicate Spread(s: State, t: State, rs: seq<Sqe>) {
    var m := if Room(s) <= |rs| then Room(s) else |rs|;
    t.sq == s.sq + rs[..m] && t.backlog == s.backlog + rs[m..] && t.stale == s.stale
  }

  lemma SpreadNothing(s: State)
    ensures Spread(s, s, [])
  {
  }

  lemma ReplyShort(c: Cqe, tokenKey: nat, buf: nat)
    ensures |Reply(c, tokenKey, buf)| <= 1
  {
  }

  lemma SpreadMore(s: State, t: State, rs: seq<Sqe>, u: State, r: seq<Sqe>)
    requires Spread(s, t, rs) && Placed(t, u, r) && u.stale == t.stale && |r| <= 1
    ensures Spread(s, u, rs + r)
  {
    var m := if Room(s) <= |rs| then Room(s) else |rs|;
    if t.stale + |t.sq| >= 4096 {
      assert (rs + r)[..m] == rs[..m] && (rs + r)[m..] == rs[m..] + r;
    } else {
      assert rs[..m] == rs && rs[m..] == [] && (rs + r)[..|rs + r|] == rs + r;
    }
  }
}
