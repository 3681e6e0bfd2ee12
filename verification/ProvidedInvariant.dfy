/**
 Why the provided-buffer server never finds the pool empty and never overfills its
 submission queue: every buffer is in one place, every connection has one operation,
 and provides stay ahead of the reads queued behind them.
 */
module ProvidedInvariant {
  import opened Kernel
  import opened Echo
  import opened Census
  import opened ProvidedBuffers

  // ---------------------------------------------------------------- who carries what

  function OpFd(e: Sqe): Option<nat> {
    if e.op.Read? || e.op.Write? then Some(e.op.fd) else None
  }
  function OpBid(e: Sqe): Option<nat> {
    if e.op.Write? || e.op.Provide? then Some(e.op.bid) else None
  }
  function ReadOf(e: Sqe): Option<nat> { if e.op.Read? then Some(e.op.fd) else None }
  function WriteOf(e: Sqe): Option<nat> { if e.op.Write? then Some(e.op.fd) else None }
  function ProvideOf(e: Sqe): Option<nat> { if e.op.Provide? then Some(e.op.bid) else None }
  function AcceptOf(e: Sqe): Option<nat> { if e.op.Accept? then Some(0) else None }

  function FlightFd(x: InFlight): Option<nat> { OpFd(x.sqe) }
  function FlightBid(x: InFlight): Option<nat> { if x.sqe.op.Read? then x.bid else OpBid(x.sqe) }
  function FlightAccept(x: InFlight): Option<nat> { AcceptOf(x.sqe) }

  /** The connection a completion speaks for; a successful accept speaks for its new one. */
  function DoneFd(c: Cqe): Option<nat> {
    match c.sqe.op
    case Accept => if c.res >= 0 then Some(c.res) else None
    case Read(fd) => Some(fd)
    case Write(fd, _, _) => Some(fd)
    case Provide(_) => None
  }

  /** A read that found the pool empty. */
  predicate Dry(c: Cqe) {
    c.sqe.op.Read? && c.res == -ENOBUFS
  }

  /** The buffer a completion speaks for; a failed provide still has the one it did not give back. */
  function DoneBid(c: Cqe): Option<nat> {
    match c.sqe.op
    case Read(_) => if Dry(c) then None else Some(c.flags / BUFFER_SHIFT)
    case Write(_, bid, _) => Some(bid)
    case Provide(bid) => if FailedProvide(c) then Some(bid) else None
    case Accept => None
  }
  function DoneNew(c: Cqe): Option<nat> {
    if c.sqe.op.Accept? then DoneFd(c) else None
  }
  function DoneAccept(c: Cqe): Option<nat> { AcceptOf(c.sqe) }
  function DryOf(c: Cqe): Option<nat> { if Dry(c) then Some(0) else None }
  function RefusedOf(c: Cqe): Option<nat> { if FailedProvide(c) then Some(0) else None }

  // ---------------------------------------------------------------- the invariant

  /** The tag a completion brings back is the one that belongs to its operation. */
  predicate Tagged(listenFd: nat, e: Sqe) {
    match e.op
    case Accept => e == AddAccept(listenFd)
    case Read(fd) => e == AddRead(fd)
    case Write(fd, bid, size) => e == AddWrite(fd, bid, size)
    case Provide(bid) => e == AddProvide(bid)
  }

  ghost predicate TagInv(s: State) {
    && (forall e :: e in s.sq ==> Tagged(s.listenFd, e))
    && (forall x :: x in s.kernel ==>
        Tagged(s.listenFd, x.sqe) && !x.sqe.op.Provide? && (x.bid.Some? ==> x.sqe.op.Read?))
    && (forall c :: c in s.cq ==> Tagged(s.listenFd, c.sqe) && (c.res == -ENOBUFS ==> Dry(c) || FailedProvide(c)))
  }

  /**
   A failed provide comes before every read that found the pool empty, and the server has
   left only if it met one.
   */
  ghost predicate ExitInv(s: State) {
    && (forall i :: 0 <= i < |s.cq| && Dry(s.cq[i]) ==> exists j :: 0 <= j < i && FailedProvide(s.cq[j]))
    && (s.exited ==> s.cq != [] && FailedProvide(s.cq[0]))
  }

  /** The buffers outside the pool, with multiplicity. */
  function Abroad(s: State): multiset<nat> {
    Count(s.sq, OpBid) + Count(s.kernel, FlightBid) + Count(s.cq, DoneBid)
  }

  /** Every buffer id is in exactly one place. */
  ghost predicate PlaceInv(s: State) {
    multiset(s.pool) + Abroad(s) == multiset(Below(BUFFERS_COUNT))
  }

  function Active(s: State): multiset<nat> {
    Count(s.sq, OpFd) + Count(s.kernel, FlightFd) + Count(s.cq, DoneFd)
  }

  function Accepts(s: State): multiset<nat> {
    Count(s.sq, AcceptOf) + Count(s.kernel, FlightAccept) + Count(s.cq, DoneAccept)
  }

  /** Every open connection has exactly one operation, and there is exactly one accept. */
  ghost predicate ActiveInv(s: State) {
    && Active(s) == multiset(s.world.streams.Keys)
    && Accepts(s) == multiset{0}
  }

  /**
   In every tail of the queue, provides exceed reads by at most `slack`: whatever part of
   the queue has been executed, the buffers still on their way back are accounted for by
   reads still to come or by connections not open.
   */
  ghost predicate Paced(sq: seq<Sqe>, slack: int) {
    forall i :: 0 <= i <= |sq| ==> |Count(sq[i..], ProvideOf)| <= |Count(sq[i..], ReadOf)| + slack
  }

  function Slack(n: nat, s: State): int {
    |Count(s.cq, DoneNew)| + n - |s.world.streams|
  }

  ghost predicate PaceInv(n: nat, s: State) {
    |s.world.streams| <= n && Paced(s.sq, Slack(n, s))
  }

  ghost predicate EntryHolds(w: World<nat>, e: Sqe) {
    e.op.Write? ==> Holds(w, e.op.fd, e.op.bid, e.op.size)
  }

  ghost predicate DoneHolds(w: World<nat>, c: Cqe) {
    c.sqe.op.Read? && 0 < c.res ==> Holds(w, c.sqe.op.fd, c.flags / BUFFER_SHIFT, c.res)
  }

  ghost predicate DataInv(s: State) {
    && (forall b :: b in s.world.mem <==> b in Below(BUFFERS_COUNT))
    && (forall b :: b in s.world.mem ==> |s.world.mem[b]| == MAX_MESSAGE_LEN)
    && (forall e :: e in s.sq ==> EntryHolds(s.world, e))
    && (forall x :: x in s.kernel ==> EntryHolds(s.world, x.sqe))
    && (forall c :: c in s.cq ==> DoneHolds(s.world, c))
    && AllFaithful(s.world)
  }

  ghost predicate Inv(n: nat, s: State) {
    TagInv(s) && PlaceInv(s) && ActiveInv(s) && PaceInv(n, s) && DataInv(s) && ExitInv(s)
  }

  // ---------------------------------------------------------------- the two bounds

  lemma {:induction false} BelowSize(k: nat)
    ensures |Below(k)| == k
  {
    if k > 0 {
      BelowSize(k - 1);
      assert IsId(k - 1);
      assert Below(k) == Below(k - 1) + {k - 1};
    }
  }

  lemma {:induction false} SetSize(a: set<nat>)
    ensures |multiset(a)| == |a|
  {
    if a != {} {
      var x :| x in a;
      SetSize(a - {x});
      assert multiset(a) == multiset(a - {x}) + multiset{x};
    }
  }

  /** The queue's share of the two censuses, by kind of entry. */
  lemma {:induction false} QueueKinds(sq: seq<Sqe>)
    ensures |Count(sq, OpFd)| == |Count(sq, ReadOf)| + |Count(sq, WriteOf)|
    ensures |Count(sq, OpBid)| == |Count(sq, ProvideOf)| + |Count(sq, WriteOf)|
    ensures |sq| == |Count(sq, ReadOf)| + |Count(sq, WriteOf)| + |Count(sq, ProvideOf)| + |Count(sq, AcceptOf)|
  {
    hide Count;
    SizeLast(sq, OpFd);
    SizeLast(sq, OpBid);
    SizeLast(sq, ReadOf);
    SizeLast(sq, WriteOf);
    SizeLast(sq, ProvideOf);
    SizeLast(sq, AcceptOf);
    if sq != [] { QueueKinds(sq[..|sq| - 1]); }
  }

  /** In flight, only an operation of a connection holds a buffer. */
  lemma FlightKinds(kernel: seq<InFlight>)
    requires forall x :: x in kernel ==> !x.sqe.op.Provide? && (x.bid.Some? ==> x.sqe.op.Read?)
    ensures |Count(kernel, FlightBid)| <= |Count(kernel, FlightFd)|
    ensures (exists x :: x in kernel && x.sqe.op.Read? && x.bid.None?) ==>
              |Count(kernel, FlightBid)| < |Count(kernel, FlightFd)|
  {
    CountLess(kernel, FlightBid, FlightFd);
    if x :| x in kernel && x.sqe.op.Read? && x.bid.None? {
      assert FlightFd(x).Some? && FlightBid(x).None?;
    }
  }

  /** Among completions, a connection comes with a buffer, is new, or found no buffer; a failed provide has only one. */
  lemma {:induction false} DoneKinds(cq: seq<Cqe>)
    ensures |Count(cq, DoneFd)| + |Count(cq, RefusedOf)| ==
            |Count(cq, DoneBid)| + |Count(cq, DoneNew)| + |Count(cq, DryOf)|
  {
    hide Count;
    SizeLast(cq, RefusedOf);
    SizeLast(cq, DryOf);
    SizeLast(cq, DoneFd);
    SizeLast(cq, DoneBid);
    SizeLast(cq, DoneNew);
    if cq != [] { DoneKinds(cq[..|cq| - 1]); }
  }

  /** Connections and buffers counted out: the two equations behind both bounds. */
  lemma Tally(n: nat, s: State)
    requires Inv(n, s)
    ensures |s.pool| + |Count(s.sq, ProvideOf)| + |Count(s.sq, WriteOf)| + |Count(s.kernel, FlightBid)| +
            |Count(s.cq, DoneBid)|
              == BUFFERS_COUNT
    ensures |Count(s.sq, ReadOf)| + |Count(s.sq, WriteOf)| + |Count(s.kernel, FlightFd)| + |Count(s.cq, DoneFd)|
              == |s.world.streams| <= n
    ensures |Count(s.cq, DoneFd)| + |Count(s.cq, RefusedOf)| ==
            |Count(s.cq, DoneBid)| + |Count(s.cq, DoneNew)| + |Count(s.cq, DryOf)|
    ensures |Count(s.cq, DoneNew)| <= |Count(s.cq, DoneFd)|
    ensures |Count(s.sq, ProvideOf)| <= |Count(s.sq, ReadOf)| + Slack(n, s)
    ensures |Count(s.sq, AcceptOf)| <= 1
  {
    hide TagInv, DataInv, ExitInv, Count;
    QueueKinds(s.sq);
    DoneKinds(s.cq);
    CountLess(s.cq, DoneNew, DoneFd);
    BelowSize(BUFFERS_COUNT);
    SetSize(Below(BUFFERS_COUNT));
    SetSize(s.pool);
    SetSize(s.world.streams.Keys);
    assert s.sq[0..] == s.sq;
    assert |multiset(s.pool) + Abroad(s)| == BUFFERS_COUNT;
    assert |Accepts(s)| == 1;
  }

  /** No provide on its way to the server has failed. */
  ghost predicate Unrefused(s: State) {
    forall c :: c in s.cq ==> !FailedProvide(c)
  }

  lemma {:induction false} NoneCounted<T>(s: seq<T>, f: T -> Option<nat>)
    requires forall x :: x in s ==> f(x).None?
    ensures |Count(s, f)| == 0
  {
    if s != [] {
      assert forall x :: x in s[..|s| - 1] ==> x in s;
      NoneCounted(s[..|s| - 1], f);
    }
  }

  lemma NoneDry(s: State)
    requires ExitInv(s) && Unrefused(s)
    ensures !s.exited && forall c :: c in s.cq ==> !Dry(c)
  {
  }

  /**
   The pool is never empty when a read needs a buffer, as long as no more connections
   are open than there are buffers and every provide succeeded.
   */
  lemma PoolNeverEmpty(n: nat, s: State, k: nat)
    requires Inv(n, s) && n <= BUFFERS_COUNT && WaitsForBuffer(s, k) && Unrefused(s)
    ensures s.pool != {}
  {
    Tally(n, s);
    NoneDry(s);
    hide PlaceInv, ActiveInv, PaceInv, DataInv, ExitInv, Count;
    NoneCounted(s.cq, DryOf);
    NoneCounted(s.cq, RefusedOf);
    FlightKinds(s.kernel);
    assert s.kernel[k] in s.kernel;
  }

  /** With at most `n` connections the submission queue never holds more than 2n + 1 entries. */
  lemma QueueBound(n: nat, s: State)
    requires Inv(n, s)
    ensures |s.sq| <= 2 * n + 1
  {
    Tally(n, s);
    hide TagInv, PlaceInv, ActiveInv, PaceInv, DataInv, ExitInv, Count;
    QueueKinds(s.sq);
  }
}
