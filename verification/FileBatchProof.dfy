/** What the file wrapper keeps, over every run and for every order and result of completions. */
module FileBatchProof {
  import opened Streams
  import opened Bags
  import opened Blocks
  import opened FileBatch

  function Reqs(q: seq<Entry>): seq<Request> {
    seq(|q|, i requires 0 <= i < |q| => q[i].req)
  }

  function Cbs(fs: seq<Fired>): seq<Request> {
    seq(|fs|, i requires 0 <= i < |fs| => fs[i].cb)
  }

  /** All requests whose callback has not been called. */
  function Outstanding(s: State): multiset<Request> {
    multiset(Reqs(s.sq)) + multiset(Reqs(s.kernel)) + multiset(Reqs(Entries(s.cq))) + multiset(s.lost)
  }

  predicate Registered(m: map<nat, Request>, r: Request) {
    r.fd in m && m[r.fd] == r
  }

  /** The map holds exactly these, each once, under its own descriptor. */
  ghost predicate MapInv(s: State) {
    && (forall r :: Outstanding(s)[r] == if Registered(s.cbMap, r) then 1 else 0)
    && (forall fd :: fd in s.cbMap ==> s.cbMap[fd].fd == fd)
    && s.cbMap.Keys <= s.open
  }

  /** No request is lost or served twice. */
  ghost predicate Conserved(s: State) {
    Outstanding(s) + multiset(Cbs(s.fired)) == multiset(s.asked)
  }

  /** A read's blocks have the lengths of the layout. */
  predicate WellMade(e: Entry) {
    e.req.code.Read? ==> Fits(e.blocks, PushLens(|e.req.data|))
  }

  ghost predicate MadeInv(s: State) {
    && (forall e :: e in s.sq ==> WellMade(e))
    && (forall e :: e in s.kernel ==> WellMade(e))
    && (forall d :: d in s.posted ==> WellMade(d.entry) && Possible(d))
  }

  /** The call that belongs to a completion. */
  function CallOf(d: Completion): Fired {
    Fired(d.entry.req, d.res, Bytes(d))
  }

  /** Callbacks were called for the first completions, in order, each successful. */
  ghost predicate OrderInv(s: State) {
    && |s.fired| <= |s.posted| && s.cq == s.posted[|s.fired|..]
    && (forall i :: 0 <= i < |s.fired| ==> s.fired[i] == CallOf(s.posted[i]) && 0 <= s.posted[i].res)
  }

  ghost predicate Inv(s: State) {
    MapInv(s) && Conserved(s) && MadeInv(s) && OrderInv(s) && !s.panicked
  }

  // ---------------------------------------------------------------- pushing

  lemma ReqsAppend(q: seq<Entry>, e: Entry)
    ensures Reqs(q + [e]) == Reqs(q) + [e.req]
  {
  }

  lemma PushOutstanding(s: State, req: Request, ok: bool, memory: seq<byte>)
    requires ok ==> Supplied(req, memory) && |s.sq| < QUEUE_DEPTH
    ensures Outstanding(Push(s, req, ok, memory)) == Outstanding(s) + multiset{req}
  {
    if ok { ReqsAppend(s.sq, MakeEntry(req, memory)); }
    hide Reqs;
    Four(multiset(Reqs(s.sq)), multiset(Reqs(s.kernel)), multiset(Reqs(Entries(s.cq))), multiset(s.lost),
         multiset{req});
  }

  lemma Four(a: multiset<Request>, b: multiset<Request>, c: multiset<Request>, d: multiset<Request>,
      x: multiset<Request>)
    ensures (a + x) + b + c + d == a + b + c + d + x
    ensures a + b + c + (d + x) == a + b + c + d + x
    ensures a + b + (c + x) + d == a + b + c + d + x
    ensures a + (b + x) + c + d == a + b + (c + x) + d
  {
  }

  lemma PushMap(s: State, req: Request, ok: bool, memory: seq<byte>)
    requires MapInv(s) && req.fd !in s.open && (ok ==> Supplied(req, memory) && |s.sq| < QUEUE_DEPTH)
    ensures MapInv(Push(s, req, ok, memory))
  {
    hide Outstanding, MakeEntry;
    PushOutstanding(s, req, ok, memory);
    var s' := Push(s, req, ok, memory);
    forall r ensures Outstanding(s')[r] == if Registered(s'.cbMap, r) then 1 else 0 {
      assert Outstanding(s)[r] == if Registered(s.cbMap, r) then 1 else 0;
    }
  }

  lemma PushMade(req: Request, memory: seq<byte>)
    requires Supplied(req, memory)
    ensures WellMade(MakeEntry(req, memory)) && MakeEntry(req, memory).req == req
  {
    if req.code.Read? {
      PushPopAgree(|req.data|);
      CutFits(memory, PushLens(|req.data|));
    }
  }

  lemma PushKeeps(s: State, req: Request, ok: bool, memory: seq<byte>)
    requires Inv(s) && req.fd !in s.open && (ok ==> Supplied(req, memory) && |s.sq| < QUEUE_DEPTH)
    ensures Inv(Push(s, req, ok, memory))
  {
    hide MapInv, Outstanding, WellMade, Possible, CallOf, MakeEntry, Supplied;
    PushMap(s, req, ok, memory);
    PushOutstanding(s, req, ok, memory);
    if ok { PushMade(req, memory); }
    Aside(Outstanding(s), multiset(Cbs(s.fired)), multiset(s.asked), multiset{}, multiset{req});
  }

  // ---------------------------------------------------------------- popping

  lemma HeadOutstanding(s: State)
    requires s.cq != []
    ensures Outstanding(s) == Outstanding(s.(cq := s.cq[1..])) + multiset{s.cq[0].entry.req}
  {
    assert Reqs(Entries(s.cq)) == [s.cq[0].entry.req] + Reqs(Entries(s.cq[1..]));
    hide Reqs;
    Four(multiset(Reqs(s.sq)), multiset(Reqs(s.kernel)), multiset(Reqs(Entries(s.cq[1..]))), multiset(s.lost),
         multiset{s.cq[0].entry.req});
  }

  /** The completion at the head finds the callback of its own request. */
  lemma FireOwn(s: State)
    requires MapInv(s) && s.cq != []
    ensures var d := s.cq[0]; var fd := d.entry.req.fd;
            && Registered(s.cbMap, d.entry.req)
            && Fire(s) == s.(cq := s.cq[1..], cbMap := s.cbMap - {fd}, open := s.open - {fd},
                             fired := s.fired + [CallOf(d)])
  {
    hide Bytes, Outstanding;
    HeadOutstanding(s);
    var r := s.cq[0].entry.req;
    assert Outstanding(s)[r] >= 1;
  }

  lemma FireOutstanding(s: State)
    requires MapInv(s) && s.cq != []
    ensures Outstanding(s) == Outstanding(Fire(s)) + multiset{s.cq[0].entry.req}
  {
    FireOwn(s);
    HeadOutstanding(s);
    hide MapInv, Fire, CallOf, Reqs;
  }

  lemma FireMap(s: State)
    requires MapInv(s) && s.cq != []
    ensures MapInv(Fire(s))
  {
    FireOwn(s);
    FireOutstanding(s);
    hide Fire, CallOf, Outstanding;
    var s', x := Fire(s), s.cq[0].entry.req;
    forall r ensures Outstanding(s')[r] == if Registered(s'.cbMap, r) then 1 else 0 {
      assert Outstanding(s)[r] == if Registered(s.cbMap, r) then 1 else 0;
    }
  }

  lemma FireConserves(s: State)
    requires MapInv(s) && Conserved(s) && s.cq != []
    ensures Conserved(Fire(s))
  {
    FireOwn(s);
    FireOutstanding(s);
    assert Cbs(s.fired + [CallOf(s.cq[0])]) == Cbs(s.fired) + [s.cq[0].entry.req];
    hide MapInv, Fire, Outstanding, Cbs, CallOf;
  }

  lemma FireOrder(s: State)
    requires MapInv(s) && OrderInv(s) && s.cq != [] && 0 <= s.cq[0].res
    ensures OrderInv(Fire(s))
  {
    FireOwn(s);
    hide MapInv, Fire, CallOf;
    var s', k := Fire(s), |s.fired|;
    assert s.posted[k] == s.cq[0];
    assert s'.cq == s.posted[k + 1..];
  }

  /** One turn of the loop. */
  lemma PopIs(s: State)
    requires Inv(s)
    ensures !s.panicked && Inv(Pop(s)) && Pop(s).spinning == s.spinning && SameQueue(s, Pop(s))
    ensures PopRet(s) == if s.cq == [] then -EAGAIN else if s.cq[0].res < 0 then s.cq[0].res else 0
    ensures if s.cq == [] || s.cq[0].res < 0 then Pop(s) == s
            else Pop(s).cq == s.cq[1..] && |Pop(s).fired| == |s.fired| + 1
  {
    hide MapInv, Conserved, OrderInv, CallOf, WellMade, Possible;
    if s.cq != [] && 0 <= s.cq[0].res {
      FireMap(s);
      FireConserves(s);
      FireOrder(s);
      FireOwn(s);
    }
  }

  /** What popping leaves alone. */
  ghost predicate SameQueue(s: State, t: State) {
    && t.sq == s.sq && t.kernel == s.kernel && t.posted == s.posted && t.asked == s.asked && t.lost == s.lost
    && t.queueSize == s.queueSize
  }

  lemma {:induction false} DrainKeeps(s: State, n: nat)
    requires Inv(s)
    ensures Inv(Drain(s, n)) && SameQueue(s, Drain(s, n))
    decreases n
  {
    hide Inv, Pop, PopRet;
    FlagsKeep(s);
    PopIs(s);
    if n > 0 { DrainKeeps(Pop(s), n - 1); }
  }

  lemma FlagsKeep(s: State)
    requires Inv(s)
    ensures Inv(s.(spinning := true)) && Inv(s.(queueSize := 0))
  {
    hide WellMade, Possible, CallOf, Reqs;
    assert Outstanding(s.(spinning := true)) == Outstanding(s) == Outstanding(s.(queueSize := 0));
    hide Outstanding;
  }

  // ---------------------------------------------------------------- the loop of `submitAndPop`

  /** How many completions come before the first failed one. */
  function Successes(q: seq<Completion>): nat {
    if q == [] || q[0].res < 0 then 0 else 1 + Successes(q[1..])
  }

  lemma {:induction false} SuccessesAre(q: seq<Completion>)
    ensures Successes(q) <= |q|
    ensures forall i :: 0 <= i < Successes(q) ==> 0 <= q[i].res
    ensures Successes(q) < |q| ==> q[Successes(q)].res < 0
  {
    if q != [] && q[0].res >= 0 {
      SuccessesAre(q[1..]);
      forall i | 0 <= i < Successes(q) ensures 0 <= q[i].res {
        if i > 0 { assert q[i] == q[1..][i - 1]; }
      }
    }
  }

  /** The loop goes round for ever: it wants more than what comes before a completion it cannot get past. */
  predicate Stuck(q: seq<Completion>, n: nat) {
    SuccessesAre(q);
    Successes(q) < n && (Successes(q) == |q| || q[Successes(q)].res == -EAGAIN)
  }

  lemma SuccessesStep(q: seq<Completion>)
    requires q != [] && 0 <= q[0].res
    ensures Successes(q) == 1 + Successes(q[1..]) <= |q|
    ensures forall n: nat :: 0 < n ==> (Stuck(q, n) <==> Stuck(q[1..], n - 1))
  {
    SuccessesAre(q);
    SuccessesAre(q[1..]);
  }

  /**
   The loop calls exactly the callbacks of the completions before the first failed one, up
   to the number it was asked to pop, and leaves the failed one on the ring.
   */
  lemma {:induction false} DrainExactly(s: State, n: nat)
    requires Inv(s) && !s.spinning
    ensures var k := if n <= Successes(s.cq) then n else Successes(s.cq);
            k <= |s.cq| && Drain(s, n).cq == s.cq[k..] && |Drain(s, n).fired| == |s.fired| + k
    ensures Drain(s, n).spinning <==> Stuck(s.cq, n)
    decreases n
  {
    hide Inv, Pop, PopRet;
    SuccessesAre(s.cq);
    PopIs(s);
    if n > 0 && PopRet(s) != -EAGAIN {
      DrainExactly(Pop(s), n - 1);
      if s.cq[0].res >= 0 {
        SuccessesStep(s.cq);
      }
    }
  }

  lemma {:induction false} TurnsStuck(s: State, n: nat, k: nat)
    requires PopRet(s) == -EAGAIN
    ensures Turns(s, n, k) == (s, n)
    decreases k
  {
    if k > 0 { TurnsStuck(s, n, k - 1); }
  }

  lemma {:induction false} TurnsDrain(s: State, n: nat, k: nat)
    requires Inv(s) && !s.spinning
    ensures Turns(s, n, k).1 == 0 ==> Turns(s, n, k).0 == Drain(s, n) && !Drain(s, n).spinning
    ensures !Drain(s, n).spinning && n <= k ==> Turns(s, n, k).1 == 0
    decreases k
  {
    hide Inv, Pop, PopRet;
    PopIs(s);
    if n > 0 {
      if PopRet(s) == -EAGAIN {
        TurnsStuck(s, n, k);
      } else if k > 0 {
        TurnsDrain(Pop(s), n - 1, k - 1);
      }
    }
  }

  /** The loop ends exactly when it is not stuck, and then in the state `Drain` gives. */
  lemma EndsExactly(s: State, n: nat)
    requires Inv(s) && !s.spinning
    ensures (exists k :: Turns(s, n, k).1 == 0) <==> !Stuck(s.cq, n)
    ensures forall k :: Turns(s, n, k).1 == 0 ==> Turns(s, n, k).0 == Drain(s, n)
  {
    hide Inv, Stuck, Drain, Turns;
    DrainExactly(s, n);
    forall k: nat ensures Turns(s, n, k).1 == 0 ==> Turns(s, n, k).0 == Drain(s, n) && !Drain(s, n).spinning {
      TurnsDrain(s, n, k);
    }
    if !Drain(s, n).spinning {
      TurnsDrain(s, n, n);
      assert Turns(s, n, n).1 == 0;
    }
  }

  // ---------------------------------------------------------------- completions arrive

  lemma WithoutLast(a: seq<Entry>, b: seq<Entry>, i: nat)
    requires a != [] && multiset(a) == multiset(b) && i < |b| && b[i] == a[|a| - 1]
    ensures multiset(a[..|a| - 1]) == multiset(b[..i] + b[i + 1..])
  {
    assert a == a[..|a| - 1] + [a[|a| - 1]];
    RemoveAt(b, i);
    Same(multiset(a[..|a| - 1]), multiset(b[..i] + b[i + 1..]), multiset{b[i]});
  }

  /** The same entries in another order are the same requests. */
  lemma {:induction false} ReorderedReqs(a: seq<Entry>, b: seq<Entry>)
    requires multiset(a) == multiset(b)
    ensures multiset(Reqs(a)) == multiset(Reqs(b)) && |a| == |b|
  {
    assert |multiset(a)| == |a| && |multiset(b)| == |b|;
    if a == [] {
      assert b == [];
    } else {
      var e := a[|a| - 1];
      assert e in multiset(b);
      var i :| 0 <= i < |b| && b[i] == e;
      WithoutLast(a, b, i);
      var b' := b[..i] + b[i + 1..];
      ReorderedReqs(a[..|a| - 1], b');
      assert Reqs(a) == Reqs(a[..|a| - 1]) + [e.req];
      assert Reqs(b') == Reqs(b)[..i] + Reqs(b)[i + 1..];
      RemoveAt(Reqs(b), i);
    }
  }

  /** The batch has been accepted and waited for. */
  function Waited(s: State, done: seq<Completion>, flying: seq<Entry>): State {
    s.(sq := [], kernel := flying, cq := s.cq + done, posted := s.posted + done)
  }

  lemma WaitedOutstanding(s: State, done: seq<Completion>, flying: seq<Entry>)
    requires multiset(Entries(done) + flying) == multiset(s.kernel + s.sq)
    ensures Outstanding(Waited(s, done, flying)) == Outstanding(s)
  {
    ReorderedReqs(Entries(done) + flying, s.kernel + s.sq);
    assert Reqs(Entries(done) + flying) == Reqs(Entries(done)) + Reqs(flying);
    assert Reqs(s.kernel + s.sq) == Reqs(s.kernel) + Reqs(s.sq);
    assert Reqs(Entries(s.cq + done)) == Reqs(Entries(s.cq)) + Reqs(Entries(done));
    assert Reqs(Waited(s, done, flying).sq) == [];
    hide Reqs;
    WaitedBag(multiset(Reqs(s.sq)), multiset(Reqs(s.kernel)), multiset(Reqs(flying)), multiset(Reqs(Entries(s.cq))),
              multiset(Reqs(Entries(done))), multiset(s.lost));
  }

  lemma WaitedBag(sq: multiset<Request>, kernel: multiset<Request>, flying: multiset<Request>, cq: multiset<Request>,
                  done: multiset<Request>, lost: multiset<Request>)
    requires done + flying == kernel + sq
    ensures multiset{} + flying + (cq + done) + lost == sq + kernel + cq + lost
  {
    assert multiset{} + flying + (cq + done) + lost == cq + (done + flying) + lost;
  }

  lemma WaitedMade(s: State, done: seq<Completion>, flying: seq<Entry>)
    requires MadeInv(s) && BatchOf(s, Accepted(done, flying))
    ensures MadeInv(Waited(s, done, flying))
  {
    hide WellMade, Possible;
    var all := multiset(s.kernel + s.sq);
    forall e | e in flying ensures WellMade(e) {
      assert e in multiset(Entries(done) + flying);
      assert e in all;
    }
    forall i | 0 <= i < |done| ensures WellMade(done[i].entry) && Possible(done[i]) {
      assert Entries(done)[i] == done[i].entry && done[i].entry in multiset(Entries(done) + flying);
      assert done[i].entry in all;
    }
  }

  /** Where the outstanding requests, the map and the calls are the same, so are map and balance. */
  lemma SameBalance(s: State, t: State)
    requires MapInv(s) && Conserved(s) && Outstanding(t) == Outstanding(s)
    requires t.cbMap == s.cbMap && t.open == s.open && t.fired == s.fired && t.asked == s.asked
    ensures MapInv(t) && Conserved(t)
  {
    hide Outstanding;
  }

  /** New completions are posted behind the others. */
  lemma PostedKeeps(s: State, t: State, done: seq<Completion>)
    requires OrderInv(s) && t.fired == s.fired && t.cq == s.cq + done && t.posted == s.posted + done
    ensures OrderInv(t)
  {
    hide CallOf;
    assert t.cq == t.posted[|t.fired|..];
  }

  lemma WaitedKeeps(s: State, done: seq<Completion>, flying: seq<Entry>)
    requires Inv(s) && BatchOf(s, Accepted(done, flying))
    ensures Inv(Waited(s, done, flying))
  {
    hide MapInv, Conserved, MadeInv, OrderInv, Outstanding, Possible;
    WaitedMade(s, done, flying);
    WaitedOutstanding(s, done, flying);
    SameBalance(s, Waited(s, done, flying));
    PostedKeeps(s, Waited(s, done, flying), done);
  }

  lemma ArriveOutstanding(s: State, k: nat, res: int)
    requires k < |s.kernel|
    ensures Outstanding(Arrive(s, k, res)) == Outstanding(s)
  {
    var s', e := Arrive(s, k, res), s.kernel[k];
    assert Reqs(s'.kernel) == Reqs(s.kernel)[..k] + Reqs(s.kernel)[k + 1..];
    RemoveAt(Reqs(s.kernel), k);
    assert Reqs(Entries(s'.cq)) == Reqs(Entries(s.cq)) + [e.req];
    hide Reqs;
    Four(multiset(Reqs(s.sq)), multiset(Reqs(s'.kernel)), multiset(Reqs(Entries(s.cq))), multiset(s.lost),
         multiset{e.req});
  }

  lemma ArriveKeeps(s: State, k: nat, res: int)
    requires Inv(s) && k < |s.kernel| && Possible(Completion(s.kernel[k], res))
    ensures Inv(Arrive(s, k, res))
  {
    hide MapInv, Conserved, OrderInv, Outstanding, WellMade, Possible;
    var t := Arrive(s, k, res);
    ArriveOutstanding(s, k, res);
    SameBalance(s, t);
    PostedKeeps(s, t, [Completion(s.kernel[k], res)]);
    assert s.kernel[k] in s.kernel;
    assert forall e :: e in t.kernel ==> e in s.kernel;
  }

  lemma SubmitKeeps(s: State, b: Batch)
    requires Inv(s) && BatchOf(s, b)
    ensures Inv(SubmitAndPop(s, b))
  {
    hide Inv, BatchOf, Drain;
    match b
    case Refused => FlagsKeep(s);
    case Accepted(done, flying) =>
      WaitedKeeps(s, done, flying);
      DrainKeeps(Waited(s, done, flying), s.queueSize);
      FlagsKeep(Drain(Waited(s, done, flying), s.queueSize));
  }
}
