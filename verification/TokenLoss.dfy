/**
 A run of the token server that loses an entry. Connections are accepted one per turn until
 there are more of them than the queue has slots; an accept fails, so that a turn ends with
 nothing queued; then every connection becomes readable at once. Handling these completions
 fills the queue with entries that are not published and puts one on the backlog. In the
 next turn the submit finds nothing to take, and the entry popped from the backlog is lost.

 The server's steps come in the order of its main loop: wait, empty the backlog, push
 accepts, handle completions.
 */
module TokenLoss {
  import opened Streams
  import opened Kernel
  import opened TokenMachine
  import opened TokenTheorems

  const A := ACCEPT_ENTRY

  /** Token 0 is for accepts, token `i` for descriptor `m + i`; the first `j` wait for a read, the others for a poll. */
  function TokenOf(m: nat, j: nat, i: nat): Token {
    if i == 0 then Accept else if i <= j then Read(m + i, i - 1) else Poll(m + i)
  }

  function Tokens(m: nat, k: nat, j: nat): map<nat, Token> {
    if k == 0 then map[0 := Accept] else Tokens(m, k - 1, j)[k := TokenOf(m, j, k)]
  }

  function Conns(m: nat, k: nat): map<nat, Stream> {
    if k == 0 then map[] else Conns(m, k - 1)[m + k := EMPTY_STREAM]
  }

  /** The buffer taken for each of the connections from `m + 1` to `m + j`, numbered from 0. */
  function Buffers(m: nat, j: nat): map<nat, seq<byte>> {
    if j == 0 then map[] else Buffers(m, j - 1)[j - 1 := seq(BUF_LEN, _ => 0)]
  }

  lemma {:induction false} TokensAre(m: nat, k: nat, j: nat)
    ensures forall i :: i in Tokens(m, k, j) <==> 0 <= i <= k
    ensures forall i :: i in Tokens(m, k, j) ==> Tokens(m, k, j)[i] == TokenOf(m, j, i)
  {
    if k > 0 { TokensAre(m, k - 1, j); }
  }

  lemma {:induction false} ConnsAre(m: nat, k: nat)
    ensures forall fd :: fd in Conns(m, k) <==> m < fd <= m + k
  {
    if k > 0 { ConnsAre(m, k - 1); }
  }

  lemma {:induction false} BuffersAre(m: nat, j: nat)
    ensures forall b :: b in Buffers(m, j) <==> 0 <= b < j
  {
    if j > 0 { BuffersAre(m, j - 1); }
  }

  function P(m: nat, i: nat): Sqe { Sqe(KPoll(m + i), i) }

  function Polls(m: nat, k: nat): seq<Sqe> { seq(k, i requires 0 <= i < k => P(m, i + 1)) }

  function Done(m: nat, k: nat): seq<Cqe> { seq(k, i requires 0 <= i < k => Cqe(P(m, i + 1), 1)) }

  function Q(m: nat, i: nat): Sqe
    requires 0 < i
  {
    Sqe(KRecv(m + i, i - 1, BUF_LEN), i)
  }

  function Reads(m: nat, k: nat): seq<Sqe> { seq(k, i requires 0 <= i < k => Q(m, i + 1)) }

  // ---------------------------------------------------------------- chaining steps

  ghost predicate Follows(reserved: set<nat>, s: State, e: Event, t: State) {
    Enabled(s, reserved, e) && (e.DoHandle? ==> NoPanic(s)) && Apply(s, reserved, e) == t
  }

  lemma {:induction false} Then(reserved: set<nat>, es: seq<Event>, s: State, e: Event, t: State)
      returns (es': seq<Event>)
    requires Run(Init(), reserved, es, s) && Follows(reserved, s, e, t)
    ensures Run(Init(), reserved, es', t)
  {
    hide Run, Init, Enabled, Apply, NoPanic;
    RunThen(Init(), reserved, es, s, e);
    es' := es + [e];
  }

  // ---------------------------------------------------------------- connections are accepted

  /** At the top of the loop with `k` connections; the poll of the last one is queued, not published. */
  function Accepted1(m: nat, k: nat, stale: nat): State
    requires 0 < k
  {
    State(Tokens(m, k, 0), [], 1, [], [P(m, k)], 0, stale, [A] + Polls(m, k - 1) + [A], [], World(Conns(m, k), map[]),
          [], [], [])
  }

  lemma TokenAdded(m: nat, k: nat)
    ensures Tokens(m, k, 0)[k + 1 := Poll(m + k + 1)] == Tokens(m, k + 1, 0) && k + 1 !in Tokens(m, k, 0)
    ensures Conns(m, k)[m + k + 1 := EMPTY_STREAM] == Conns(m, k + 1) && m + k + 1 !in Conns(m, k)
    ensures 0 in Tokens(m, k, 0) && Tokens(m, k, 0)[0] == Accept
  {
    TokensAre(m, k, 0);
    ConnsAre(m, k);
  }

  lemma PollAdded(m: nat, k: nat)
    requires 0 < k
    ensures Polls(m, k) == Polls(m, k - 1) + [P(m, k)]
  {
  }

  lemma {:induction false} Begins(reserved: set<nat>, m: nat) returns (es: seq<Event>)
    requires forall r :: r in reserved ==> r <= m
    ensures Run(Init(), reserved, es, Accepted1(m, 1, 0))
  {
    TokenAdded(m, 0);
    assert Tokens(m, 0, 0) == map[ACCEPT_TOKEN := Accept] && Conns(m, 0) == map[];
    hide Tokens, Conns, Polls;
    var s0 := Init();
    var s1 := s0.(acceptCount := 2, sq := [A]);
    var s2 := s0.(acceptCount := 1, sq := [A, A]);
    var s3 := s0.(acceptCount := 0, sq := [A, A, A]);
    var s4 := s3.(published := 3);
    var s5 := s4.(sq := [A, A], kernel := [A], published := 2, stale := 1);
    var s6 := s4.(sq := [A], kernel := [A, A], published := 1, stale := 2);
    var s7 := s4.(sq := [], kernel := [A, A, A], published := 0, stale := 3);
    assert Follows(reserved, s0, DoPushAccept, s1);
    assert Follows(reserved, s1, DoPushAccept, s2);
    assert Follows(reserved, s2, DoPushAccept, s3);
    assert Follows(reserved, s3, DoSync, s4);
    assert Follows(reserved, s4, DoConsume, s5);
    assert Follows(reserved, s5, DoConsume, s6);
    assert Follows(reserved, s6, DoConsume, s7);
    hide Follows, Run;
    es := RunsNowhere(reserved);
    es := Then(reserved, es, s0, DoPushAccept, s1);
    es := Then(reserved, es, s1, DoPushAccept, s2);
    es := Then(reserved, es, s2, DoPushAccept, s3);
    es := Then(reserved, es, s3, DoSync, s4);
    es := Then(reserved, es, s4, DoConsume, s5);
    es := Then(reserved, es, s5, DoConsume, s6);
    es := Then(reserved, es, s6, DoConsume, s7);
    es := FirstConnection(reserved, m, es, s7);
  }

  lemma RunsNowhere(reserved: set<nat>) returns (es: seq<Event>)
    ensures Run(Init(), reserved, es, Init())
  {
    es := [];
  }

  lemma {:induction false} FirstConnection(reserved: set<nat>, m: nat, es: seq<Event>, s: State)
      returns (es': seq<Event>)
    requires (forall r :: r in reserved ==> r <= m) && Run(Init(), reserved, es, s)
    requires s == Init().(acceptCount := 0, sq := [], kernel := [A, A, A], stale := 3)
    ensures Run(Init(), reserved, es', Accepted1(m, 1, 0))
  {
    TokenAdded(m, 0);
    assert Tokens(m, 0, 0) == map[ACCEPT_TOKEN := Accept] && Conns(m, 0) == map[];
    assert Polls(m, 0) == [] && [A] + [] + [A] == [A, A];
    hide Tokens, Conns, Polls, Run;
    var s1 := s.(kernel := [A, A], cq := [Cqe(A, m + 1)], world := World(Conns(m, 1), map[]));
    var s2 := s1.(stale := 0);
    assert Follows(reserved, s, DoComplete(2, Accepted(m + 1)), s1);
    assert Follows(reserved, s1, DoSync, s2);
    assert Follows(reserved, s2, DoHandle(1, 0), Accepted1(m, 1, 0));
    hide Follows, Accepted1;
    es' := Then(reserved, es, s, DoComplete(2, Accepted(m + 1)), s1);
    es' := Then(reserved, es', s1, DoSync, s2);
    es' := Then(reserved, es', s2, DoHandle(1, 0), Accepted1(m, 1, 0));
  }

  // The states of one turn: one more connection.

  function Turn1(m: nat, k: nat, stale: nat): State
    requires 0 < k
  {
    Accepted1(m, k, stale).(
      kernel := [A] + Polls(m, k - 1), cq := [Cqe(A, m + k + 1)], world := World(Conns(m, k + 1), map[]))
  }

  function Turn2(m: nat, k: nat, stale: nat): State
    requires 0 < k
  {
    Turn1(m, k, stale).(published := 1, stale := 0)
  }

  function Turn3(m: nat, k: nat, stale: nat): State
    requires 0 < k
  {
    Turn2(m, k, stale).(acceptCount := 0, sq := [P(m, k), A])
  }

  function Turn4(m: nat, k: nat, stale: nat): State
    requires 0 < k
  {
    Turn3(m, k, stale).(published := 2)
  }

  function Turn5(m: nat, k: nat, stale: nat): State
    requires 0 < k
  {
    Turn4(m, k, stale).(tokens := Tokens(m, k + 1, 0), acceptCount := 1, sq := [P(m, k), A, P(m, k + 1)], cq := [])
  }

  function Turn6(m: nat, k: nat, stale: nat): State
    requires 0 < k
  {
    Turn5(m, k, stale).(kernel := [A] + Polls(m, k), sq := [A, P(m, k + 1)], published := 1, stale := 1)
  }

  lemma TurnFollows(reserved: set<nat>, m: nat, k: nat, stale: nat)
    requires 0 < k && forall r :: r in reserved ==> r <= m
    ensures Follows(reserved, Accepted1(m, k, stale), DoComplete(k, Accepted(m + k + 1)), Turn1(m, k, stale))
    ensures Follows(reserved, Turn1(m, k, stale), DoSync, Turn2(m, k, stale))
    ensures Follows(reserved, Turn2(m, k, stale), DoPushAccept, Turn3(m, k, stale))
    ensures Follows(reserved, Turn3(m, k, stale), DoSync, Turn4(m, k, stale))
  {
    TokenAdded(m, k);
    hide Tokens, Conns;
    var s := Accepted1(m, k, stale);
    assert s.kernel[k] == A;
    assert s.kernel[..k] + s.kernel[k + 1..] == [A] + Polls(m, k - 1);
    hide Polls;
  }

  lemma TurnEnds(reserved: set<nat>, m: nat, k: nat, stale: nat)
    requires 0 < k
    ensures Follows(reserved, Turn4(m, k, stale), DoHandle(k + 1, 0), Turn5(m, k, stale))
    ensures Follows(reserved, Turn5(m, k, stale), DoConsume, Turn6(m, k, stale))
    ensures Follows(reserved, Turn6(m, k, stale), DoConsume, Accepted1(m, k + 1, 2))
  {
    TokenAdded(m, k);
    PollAdded(m, k);
    hide Tokens, Conns, Polls;
    assert [A] + Polls(m, k - 1) + [P(m, k)] == [A] + Polls(m, k);
  }

  lemma {:induction false} Turn(reserved: set<nat>, m: nat, k: nat, stale: nat, es: seq<Event>)
      returns (es': seq<Event>)
    requires 0 < k && (forall r :: r in reserved ==> r <= m) && Run(Init(), reserved, es, Accepted1(m, k, stale))
    ensures Run(Init(), reserved, es', Accepted1(m, k + 1, 2))
  {
    hide Run, Init, Follows, Accepted1, Turn1, Turn2, Turn3, Turn4, Turn5, Turn6;
    TurnFollows(reserved, m, k, stale);
    TurnEnds(reserved, m, k, stale);
    es' := Then(reserved, es, Accepted1(m, k, stale), DoComplete(k, Accepted(m + k + 1)), Turn1(m, k, stale));
    es' := Then(reserved, es', Turn1(m, k, stale), DoSync, Turn2(m, k, stale));
    es' := Then(reserved, es', Turn2(m, k, stale), DoPushAccept, Turn3(m, k, stale));
    es' := Then(reserved, es', Turn3(m, k, stale), DoSync, Turn4(m, k, stale));
    es' := Then(reserved, es', Turn4(m, k, stale), DoHandle(k + 1, 0), Turn5(m, k, stale));
    es' := Then(reserved, es', Turn5(m, k, stale), DoConsume, Turn6(m, k, stale));
    es' := Then(reserved, es', Turn6(m, k, stale), DoConsume, Accepted1(m, k + 1, 2));
  }

  lemma {:induction false} Accepts(reserved: set<nat>, m: nat, k: nat) returns (es: seq<Event>, stale: nat)
    requires 0 < k && forall r :: r in reserved ==> r <= m
    ensures Run(Init(), reserved, es, Accepted1(m, k, stale))
  {
    hide Run, Init, Accepted1;
    if k == 1 {
      es := Begins(reserved, m);
      stale := 0;
    } else {
      es, stale := Accepts(reserved, m, k - 1);
      es := Turn(reserved, m, k - 1, stale, es);
      stale := 2;
    }
  }

  // ---------------------------------------------------------------- a turn that queues nothing

  /** All polls in flight, nothing queued, the first `j` polls completed. */
  function Readable(m: nat, n: nat, j: nat, stale: nat): State
    requires j <= n
  {
    State(Tokens(m, n, 0), [], 0, [], [], 0, stale, [A] + Polls(m, n)[j..] + [A], Done(m, n)[..j],
          World(Conns(m, n), map[]), [], [Cqe(A, -1)], [])
  }

  lemma FailedAccept(reserved: set<nat>, m: nat, n: nat, stale: nat)
    requires 0 < n
    ensures var s := Accepted1(m, n, stale);
            var s1 := s.(kernel := [A] + Polls(m, n - 1), cq := [Cqe(A, -1)]);
            var s2 := s1.(published := 1, stale := 0);
            var s3 := s2.(acceptCount := 0, sq := [P(m, n), A]);
            var s4 := s3.(published := 2);
            var s5 := s4.(cq := [], failed := [Cqe(A, -1)]);
            && Follows(reserved, s, DoComplete(n, Failed(1)), s1) && Follows(reserved, s1, DoSync, s2)
            && Follows(reserved, s2, DoPushAccept, s3) && Follows(reserved, s3, DoSync, s4)
            && Follows(reserved, s4, DoHandle(n + 1, 0), s5)
  {
    TokenAdded(m, n);
    hide Tokens, Conns;
    var s := Accepted1(m, n, stale);
    assert s.kernel[n] == A;
    assert s.kernel[..n] + s.kernel[n + 1..] == [A] + Polls(m, n - 1);
    hide Polls;
  }

  lemma QueueTaken(reserved: set<nat>, m: nat, n: nat)
    requires 0 < n
    ensures var s5 := Accepted1(m, n, 0).(kernel := [A] + Polls(m, n - 1), acceptCount := 0, sq := [P(m, n), A],
                                          published := 2, failed := [Cqe(A, -1)]);
            var s6 := s5.(kernel := [A] + Polls(m, n), sq := [A], published := 1, stale := 1);
            Follows(reserved, s5, DoConsume, s6) && Follows(reserved, s6, DoConsume, Readable(m, n, 0, 2))
  {
    PollAdded(m, n);
    hide Tokens, Conns;
    assert [A] + Polls(m, n - 1) + [P(m, n)] == [A] + Polls(m, n);
    assert Polls(m, n)[0..] == Polls(m, n) && Done(m, n)[..0] == [];
    hide Polls, Done;
  }

  lemma {:induction false} QuietTurn(reserved: set<nat>, m: nat, n: nat, stale: nat, es: seq<Event>)
      returns (es': seq<Event>)
    requires 0 < n && Run(Init(), reserved, es, Accepted1(m, n, stale))
    ensures Run(Init(), reserved, es', Readable(m, n, 0, 2))
  {
    hide Run, Init, Follows, Tokens, Conns, Polls, Readable;
    FailedAccept(reserved, m, n, stale);
    QueueTaken(reserved, m, n);
    var s := Accepted1(m, n, stale);
    var s1 := s.(kernel := [A] + Polls(m, n - 1), cq := [Cqe(A, -1)]);
    var s2 := s1.(published := 1, stale := 0);
    var s3 := s2.(acceptCount := 0, sq := [P(m, n), A]);
    var s4 := s3.(published := 2);
    var s5 := s4.(cq := [], failed := [Cqe(A, -1)]);
    var s6 := s5.(kernel := [A] + Polls(m, n), sq := [A], published := 1, stale := 1);
    es' := Then(reserved, es, s, DoComplete(n, Failed(1)), s1);
    es' := Then(reserved, es', s1, DoSync, s2);
    es' := Then(reserved, es', s2, DoPushAccept, s3);
    es' := Then(reserved, es', s3, DoSync, s4);
    es' := Then(reserved, es', s4, DoHandle(n + 1, 0), s5);
    es' := Then(reserved, es', s5, DoConsume, s6);
    es' := Then(reserved, es', s6, DoConsume, Readable(m, n, 0, 2));
  }

  // ---------------------------------------------------------------- everything becomes readable

  lemma PollCompletes(reserved: set<nat>, m: nat, n: nat, j: nat, stale: nat)
    requires j < n
    ensures Follows(reserved, Readable(m, n, j, stale), DoComplete(1, Ready(1)), Readable(m, n, j + 1, stale))
  {
    hide Tokens, Conns;
    var s := Readable(m, n, j, stale);
    assert s.kernel[1] == P(m, j + 1);
    assert s.kernel[..1] + s.kernel[2..] == [A] + Polls(m, n)[j + 1..] + [A];
    assert Done(m, n)[..j] + [Cqe(P(m, j + 1), 1)] == Done(m, n)[..j + 1];
    hide Polls, Done;
  }

  lemma {:induction false} PollsComplete(reserved: set<nat>, m: nat, n: nat, j: nat, stale: nat, es: seq<Event>)
      returns (es': seq<Event>)
    requires j <= n && Run(Init(), reserved, es, Readable(m, n, 0, stale))
    ensures Run(Init(), reserved, es', Readable(m, n, j, stale))
  {
    hide Run, Init, Readable, Follows;
    es' := es;
    if j > 0 {
      es' := PollsComplete(reserved, m, n, j - 1, stale, es);
      PollCompletes(reserved, m, n, j - 1, stale);
      es' := Then(reserved, es', Readable(m, n, j - 1, stale), DoComplete(1, Ready(1)), Readable(m, n, j, stale));
    }
  }

  // ---------------------------------------------------------------- the completions are handled

  /** The first `j` completions are handled; their reads are queued, none is published. */
  function Handled(m: nat, n: nat, j: nat): State
    requires j <= n
  {
    State(Tokens(m, n, j), [], 0, [], Reads(m, j), 0, 0, [A, A], Done(m, n)[j..], World(Conns(m, n), Buffers(m, j)),
          [], [Cqe(A, -1)], [])
  }

  lemma HandlingBegins(reserved: set<nat>, m: nat, n: nat, stale: nat)
    ensures Follows(reserved, Readable(m, n, n, stale), DoSync, Handled(m, n, 0))
  {
    hide Tokens, Conns;
    var s := Readable(m, n, n, stale);
    assert s.kernel == [A, A] && s.cq == Done(m, n)[0..];
    assert Buffers(m, 0) == map[] && Reads(m, 0) == [];
  }

  lemma TokenMoves(m: nat, n: nat, j: nat)
    requires j < n
    ensures j + 1 in Tokens(m, n, j) && Tokens(m, n, j)[j + 1] == Poll(m + j + 1)
    ensures Tokens(m, n, j)[j + 1 := Read(m + j + 1, j)] == Tokens(m, n, j + 1)
    ensures n + 1 !in Tokens(m, n, j) && j !in Buffers(m, j)
    ensures Buffers(m, j)[j := seq(BUF_LEN, _ => 0)] == Buffers(m, j + 1)
  {
    TokensAre(m, n, j);
    TokensAre(m, n, j + 1);
    BuffersAre(m, j);
    hide Tokens;
  }

  lemma ReadQueued(m: nat, j: nat)
    ensures Reads(m, j + 1) == Reads(m, j) + [Q(m, j + 1)]
  {
  }

  lemma DoneHead(m: nat, n: nat, j: nat)
    requires j < n
    ensures Done(m, n)[j..] != [] && Done(m, n)[j..][0] == Cqe(P(m, j + 1), 1) &&
            Done(m, n)[j..][1..] == Done(m, n)[j + 1..]
  {
  }

  lemma HandleOne(reserved: set<nat>, m: nat, n: nat, j: nat)
    requires j < n && j < RING_ENTRIES
    ensures Follows(reserved, Handled(m, n, j), DoHandle(n + 1, j), Handled(m, n, j + 1))
  {
    TokenMoves(m, n, j);
    ReadQueued(m, j);
    DoneHead(m, n, j);
    assert |Reads(m, j)| == j;
    hide Tokens, Conns, Buffers, Reads, Done;
  }

  lemma {:induction false} HandleMany(reserved: set<nat>, m: nat, n: nat, j: nat, es: seq<Event>)
      returns (es': seq<Event>)
    requires j <= n && j <= RING_ENTRIES && Run(Init(), reserved, es, Handled(m, n, 0))
    ensures Run(Init(), reserved, es', Handled(m, n, j))
  {
    hide Run, Init, Handled, Follows;
    es' := es;
    if j > 0 {
      es' := HandleMany(reserved, m, n, j - 1, es);
      HandleOne(reserved, m, n, j - 1);
      es' := Then(reserved, es', Handled(m, n, j - 1), DoHandle(n + 1, j - 1), Handled(m, n, j));
    }
  }

  // ---------------------------------------------------------------- the entry is lost

  /** The queue is full, nothing is published, and one read waits on the backlog. */
  function Overfull(m: nat): State {
    var n := RING_ENTRIES + 1;
    Handled(m, n, n).(sq := Reads(m, RING_ENTRIES), backlog := [Q(m, n)])
  }

  lemma LastOne(reserved: set<nat>, m: nat)
    ensures Follows(reserved, Handled(m, RING_ENTRIES + 1, RING_ENTRIES), DoHandle(RING_ENTRIES + 2, RING_ENTRIES),
                    Overfull(m))
  {
    var n, j := RING_ENTRIES + 1, RING_ENTRIES;
    TokenMoves(m, n, j);
    DoneHead(m, n, j);
    assert |Reads(m, j)| == j && Done(m, n)[j + 1..] == [];
    hide Tokens, Conns, Buffers, Reads, Done;
  }

  lemma Loses(reserved: set<nat>, m: nat)
    ensures var s := Overfull(m);
            var s1 := s.(kernel := [A], cq := [Cqe(A, -1)]);
            var s2 := s1.(published := RING_ENTRIES);
            && Follows(reserved, s, DoComplete(0, Failed(1)), s1) && Follows(reserved, s1, DoSync, s2)
            && Follows(reserved, s2, DoPopBacklog, s2.(backlog := [], dropped := [Q(m, RING_ENTRIES + 1)]))
  {
    assert |Reads(m, RING_ENTRIES)| == RING_ENTRIES;
    assert Done(m, RING_ENTRIES + 1)[RING_ENTRIES + 1..] == [];
    hide Tokens, Conns, Buffers, Reads, Done;
  }

  /** The read of one connection is lost, in a run from the start and without a single error on a connection. */
  lemma EntryLost(reserved: set<nat>, m: nat) returns (es: seq<Event>, t: State)
    requires forall r :: r in reserved ==> r <= m
    ensures Run(Init(), reserved, es, t) && t.dropped == [Q(m, RING_ENTRIES + 1)]
    ensures forall c :: c in t.failed ==> c.entry == ACCEPT_ENTRY
  {
    hide Run, Init, Follows, Accepted1, Readable;
    var n := RING_ENTRIES + 1;
    var stale;
    es, stale := Accepts(reserved, m, n);
    es := QuietTurn(reserved, m, n, stale, es);
    es := PollsComplete(reserved, m, n, n, 2, es);
    HandlingBegins(reserved, m, n, 2);
    es := Then(reserved, es, Readable(m, n, n, 2), DoSync, Handled(m, n, 0));
    es := HandleMany(reserved, m, n, RING_ENTRIES, es);
    es, t := LosesAtLast(reserved, m, es);
  }

  lemma {:induction false} LosesAtLast(reserved: set<nat>, m: nat, es: seq<Event>) returns (es': seq<Event>, t: State)
    requires Run(Init(), reserved, es, Handled(m, RING_ENTRIES + 1, RING_ENTRIES))
    ensures Run(Init(), reserved, es', t) && t.dropped == [Q(m, RING_ENTRIES + 1)] && t.failed == [Cqe(A, -1)]
  {
    hide Run, Init, Follows, Tokens, Conns, Buffers, Reads, Done;
    LastOne(reserved, m);
    Loses(reserved, m);
    var s := Overfull(m);
    var s1 := s.(kernel := [A], cq := [Cqe(A, -1)]);
    var s2 := s1.(published := RING_ENTRIES);
    t := s2.(backlog := [], dropped := [Q(m, RING_ENTRIES + 1)]);
    es' := Then(reserved, es, Handled(m, RING_ENTRIES + 1, RING_ENTRIES), DoHandle(RING_ENTRIES + 2, RING_ENTRIES), s);
    es' := Then(reserved, es', s, DoComplete(0, Failed(1)), s1);
    es' := Then(reserved, es', s1, DoSync, s2);
    es' := Then(reserved, es', s2, DoPopBacklog, t);
  }
}
