/** Every step of the provided-buffer server and of its kernel keeps the invariant. */
module ProvidedSteps {
  import opened Streams
  import opened Kernel
  import opened Echo
  import opened Bags
  import opened Census
  import opened ProvidedBuffers
  import opened ProvidedInvariant

  // ---------------------------------------------------------------- pacing

  lemma PacedTail(sq: seq<Sqe>, slack: int)
    requires Paced(sq, slack) && sq != []
    ensures Paced(sq[1..], slack)
  {
    hide Count;
    forall i | 0 <= i <= |sq[1..]|
      ensures |Count(sq[1..][i..], ProvideOf)| <= |Count(sq[1..][i..], ReadOf)| + slack
    {
      assert sq[1..][i..] == sq[i + 1..];
    }
  }

  /** Appending entries moves the allowance by the provides they add and the reads they add. */
  lemma PacedAppend(sq: seq<Sqe>, slack: int, queued: seq<Sqe>, slack': int)
    requires Paced(sq, slack) && Paced(queued, slack')
    requires slack + |Count(queued, ProvideOf)| <= |Count(queued, ReadOf)| + slack'
    ensures Paced(sq + queued, slack')
  {
    hide Count;
    forall i | 0 <= i <= |sq + queued|
      ensures |Count((sq + queued)[i..], ProvideOf)| <= |Count((sq + queued)[i..], ReadOf)| + slack'
    {
      if i <= |sq| {
        assert (sq + queued)[i..] == sq[i..] + queued;
        CountConcat(sq[i..], queued, ProvideOf);
        CountConcat(sq[i..], queued, ReadOf);
      } else {
        assert (sq + queued)[i..] == queued[i - |sq|..];
      }
    }
  }

  lemma PacedOne(e: Sqe, slack: int)
    requires 0 <= slack && (e.op.Provide? ==> 1 <= slack)
    ensures Paced([e], slack)
    ensures |Count([e], ProvideOf)| == (if e.op.Provide? then 1 else 0)
    ensures |Count([e], ReadOf)| == (if e.op.Read? then 1 else 0)
  {
    CountOne(e, ProvideOf);
    CountOne(e, ReadOf);
    assert [e][0..] == [e] && [e][1..] == [];
  }

  /** Two entries in the order the server queues them: no provide is second, none is first without a read behind. */
  lemma PacedTwo(e: Sqe, x: Sqe, slack: int)
    requires 0 <= slack && !x.op.Provide? && (e.op.Provide? ==> x.op.Read?)
    ensures Paced([e, x], slack)
    ensures |Count([e, x], ProvideOf)| == (if e.op.Provide? then 1 else 0)
    ensures |Count([e, x], ReadOf)| == (if e.op.Read? then 1 else 0) + (if x.op.Read? then 1 else 0)
  {
    CountTwo(e, x, ProvideOf);
    CountTwo(e, x, ReadOf);
    PacedOne(x, slack);
    hide Count;
    forall i | 0 <= i <= 2 ensures |Count([e, x][i..], ProvideOf)| <= |Count([e, x][i..], ReadOf)| + slack {
      if i == 0 {
        assert [e, x][0..] == [e, x];
      } else {
        assert [e, x][i..] == [x][i - 1..];
      }
    }
  }

  // ---------------------------------------------------------------- nobody else has it

  /** With one unit of `fd` accounted for elsewhere, the rest of the state does not mention it. */
  lemma FdElsewhere(rest: State, keys: set<nat>, fd: nat)
    requires Active(rest) + multiset{fd} == multiset(keys)
    ensures fd in keys
    ensures forall e :: e in rest.sq ==> OpFd(e) != Some(fd)
    ensures forall x :: x in rest.kernel ==> FlightFd(x) != Some(fd)
    ensures forall c :: c in rest.cq ==> DoneFd(c) != Some(fd)
  {
    assert fd in Active(rest) + multiset{fd};
    assert multiset(keys)[fd] == 1;
    Absent(rest.sq, OpFd, fd);
    Absent(rest.kernel, FlightFd, fd);
    Absent(rest.cq, DoneFd, fd);
  }

  lemma BidElsewhere(rest: State, bid: nat)
    requires multiset(rest.pool) + Abroad(rest) + multiset{bid} == multiset(Below(BUFFERS_COUNT))
    ensures bid in Below(BUFFERS_COUNT) && bid !in rest.pool
    ensures forall e :: e in rest.sq ==> OpBid(e) != Some(bid)
    ensures forall x :: x in rest.kernel ==> FlightBid(x) != Some(bid)
    ensures forall c :: c in rest.cq ==> DoneBid(c) != Some(bid)
  {
    assert bid in multiset(rest.pool) + Abroad(rest) + multiset{bid};
    assert multiset(Below(BUFFERS_COUNT))[bid] == 1;
    Absent(rest.sq, OpBid, bid);
    Absent(rest.kernel, FlightBid, bid);
    Absent(rest.cq, DoneBid, bid);
  }

  // ---------------------------------------------------------------- the kernel takes an entry

  lemma TakeActive(s: State)
    requires s.sq != []
    ensures Active(Take(s)) == Active(s)
  {
    hide Count;
    var e := s.sq[0];
    CountTail(s.sq, OpFd);
    if e.op.Provide? {
      CountAppend(s.cq, Cqe(e, 0, 0), DoneFd);
    } else {
      CountAppend(s.kernel, InFlight(e, None), FlightFd);
      Moved(Count(s.sq, OpFd), Count(s.sq[1..], OpFd), Count(s.kernel, FlightFd), Count(Take(s).kernel, FlightFd),
            Count(s.cq, DoneFd), One(OpFd(e)));
    }
  }

  lemma TakeAbroad(s: State)
    requires s.sq != []
    ensures Abroad(s) == Abroad(Take(s)) + One(ProvideOf(s.sq[0]))
  {
    hide Count, One;
    OneNone();
    var e := s.sq[0];
    CountTail(s.sq, OpBid);
    if e.op.Provide? {
      CountAppend(s.cq, Cqe(e, 0, 0), DoneBid);
      Released(Count(s.sq, OpBid), Count(s.sq[1..], OpBid), Count(s.kernel, FlightBid), Count(s.cq, DoneBid),
               One(OpBid(e)));
    } else {
      CountAppend(s.kernel, InFlight(e, None), FlightBid);
      Moved(Count(s.sq, OpBid), Count(s.sq[1..], OpBid), Count(s.kernel, FlightBid), Count(Take(s).kernel, FlightBid),
            Count(s.cq, DoneBid), One(OpBid(e)));
    }
  }

  lemma TakeAccepts(s: State)
    requires s.sq != []
    ensures Accepts(Take(s)) == Accepts(s)
    ensures Count(Take(s).cq, DoneNew) == Count(s.cq, DoneNew)
  {
    hide Count;
    var e := s.sq[0];
    CountTail(s.sq, AcceptOf);
    if e.op.Provide? {
      CountAppend(s.cq, Cqe(e, 0, 0), DoneAccept);
      CountAppend(s.cq, Cqe(e, 0, 0), DoneNew);
    } else {
      CountAppend(s.kernel, InFlight(e, None), FlightAccept);
      Moved(Count(s.sq, AcceptOf), Count(s.sq[1..], AcceptOf), Count(s.kernel, FlightAccept),
            Count(Take(s).kernel, FlightAccept), Count(s.cq, DoneAccept), One(AcceptOf(e)));
    }
  }

  lemma TakeContents(s: State)
    requires s.sq != [] && TagInv(s) && DataInv(s)
    ensures TagInv(Take(s)) && DataInv(Take(s))
  {
    hide Holds, Faithful;
  }

  lemma TakeKeeps(n: nat, s: State)
    requires Inv(n, s) && s.sq != []
    ensures Inv(n, Take(s))
  {
    hide TagInv, DataInv, ExitInv, Count, Paced, Active, Abroad, Accepts;
    var s' := Take(s);
    TakeExit(s);
    TakeContents(s);
    TakeActive(s);
    TakeAccepts(s);
    PacedTail(s.sq, Slack(n, s));
    TakePlace(s);
  }

  lemma TakePlace(s: State)
    requires s.sq != [] && PlaceInv(s)
    ensures PlaceInv(Take(s))
  {
    hide Count, Abroad;
    TakeAbroad(s);
    var s' := Take(s);
    if s.sq[0].op.Provide? {
      var bid := s.sq[0].op.bid;
      SamePlaces(s', s.pool);
      Associative(multiset(s.pool), Abroad(s'), multiset{bid});
      BidElsewhere(s'.(pool := s.pool), bid);
      Joined(s.pool, Abroad(s), Abroad(s'), bid);
    }
  }

  /** A new completion at the end, with a failed provide before it if it is dry, leaves the order as it is. */
  lemma ExitAppend(s: State, s': State, c: Cqe)
    requires ExitInv(s) && s'.cq == s.cq + [c] && s'.exited == s.exited && (Dry(c) ==> !Unrefused(s))
    ensures ExitInv(s')
  {
    forall i | 0 <= i < |s'.cq| && Dry(s'.cq[i]) ensures exists j :: 0 <= j < i && FailedProvide(s'.cq[j]) {
      if i < |s.cq| {
        assert Dry(s.cq[i]);
        var j :| 0 <= j < i && FailedProvide(s.cq[j]);
        assert FailedProvide(s'.cq[j]);
      } else {
        var x :| x in s.cq && FailedProvide(x);
        var j :| 0 <= j < |s.cq| && s.cq[j] == x;
        assert FailedProvide(s'.cq[j]);
      }
    }
  }

  lemma TakeExit(s: State)
    requires s.sq != [] && ExitInv(s)
    ensures ExitInv(Take(s))
  {
    hide ExitInv;
    if s.sq[0].op.Provide? { ExitAppend(s, Take(s), Cqe(s.sq[0], 0, 0)); } else { ExitSame(s, Take(s)); }
  }

  lemma ExitSame(s: State, s': State)
    requires ExitInv(s) && s'.cq == s.cq && s'.exited == s.exited
    ensures ExitInv(s')
  {
  }

  lemma SamePlaces(s: State, pool: set<nat>)
    ensures Abroad(s.(pool := pool)) == Abroad(s)
  {
  }

  // ---------------------------------------------------------------- a provide fails

  ghost predicate Refusable(s: State) {
    s.sq != [] && s.sq[0].op.Provide?
  }

  lemma RefuseCounts(s: State, errno: nat)
    requires Refusable(s) && 0 < errno
    ensures var s' := Refuse(s, errno);
            && Active(s') == Active(s) && Abroad(s') == Abroad(s) && Accepts(s') == Accepts(s)
            && Count(s'.cq, DoneNew) == Count(s.cq, DoneNew)
  {
    hide Count;
    var s', e := Refuse(s, errno), s.sq[0];
    var c := s'.cq[|s.cq|];
    assert DoneBid(c) == OpBid(e) && OpFd(e) == DoneFd(c) == AcceptOf(e) == DoneAccept(c) == DoneNew(c) == None;
    CountTail(s.sq, OpFd);
    CountAppend(s.cq, c, DoneFd);
    CountTail(s.sq, OpBid);
    CountAppend(s.cq, c, DoneBid);
    Moved(Count(s.sq, OpBid), Count(s'.sq, OpBid), Count(s.cq, DoneBid), Count(s'.cq, DoneBid),
          Count(s.kernel, FlightBid), One(OpBid(e)));
    CountTail(s.sq, AcceptOf);
    CountAppend(s.cq, c, DoneAccept);
    CountAppend(s.cq, c, DoneNew);
  }

  lemma RefuseContents(s: State, errno: nat)
    requires Refusable(s) && 0 < errno && TagInv(s) && DataInv(s)
    ensures TagInv(Refuse(s, errno)) && DataInv(Refuse(s, errno))
  {
    hide Holds, Faithful;
  }

  lemma RefuseKeeps(n: nat, s: State, errno: nat)
    requires Inv(n, s) && Refusable(s) && 0 < errno
    ensures Inv(n, Refuse(s, errno))
  {
    hide TagInv, DataInv, ExitInv, Count, Paced, Active, Abroad, Accepts, Unrefused;
    ExitAppend(s, Refuse(s, errno), Cqe(s.sq[0], -(errno as int), 0));
    RefuseContents(s, errno);
    RefuseCounts(s, errno);
    PacedTail(s.sq, Slack(n, s));
  }

  // ---------------------------------------------------------------- a read finds no buffer

  lemma NoBufferCounts(s: State, k: nat)
    requires WaitsForBuffer(s, k)
    ensures var s' := NoBuffer(s, k);
            && Active(s') == Active(s) && Abroad(s') == Abroad(s) && Accepts(s') == Accepts(s)
            && Count(s'.cq, DoneNew) == Count(s.cq, DoneNew)
  {
    hide Count;
    var s', x := NoBuffer(s, k), s.kernel[k];
    var c := s'.cq[|s.cq|];
    assert DoneFd(c) == FlightFd(x) && FlightBid(x) == DoneBid(c) == None;
    assert FlightAccept(x) == DoneAccept(c) == DoneNew(c) == None;
    CountRemove(s.kernel, k, FlightFd);
    CountAppend(s.cq, c, DoneFd);
    Moved(Count(s.kernel, FlightFd), Count(s'.kernel, FlightFd), Count(s.cq, DoneFd), Count(s'.cq, DoneFd),
          Count(s.sq, OpFd), One(FlightFd(x)));
    CountRemove(s.kernel, k, FlightBid);
    CountAppend(s.cq, c, DoneBid);
    CountRemove(s.kernel, k, FlightAccept);
    CountAppend(s.cq, c, DoneAccept);
    CountAppend(s.cq, c, DoneNew);
  }

  lemma NoBufferContents(s: State, k: nat)
    requires WaitsForBuffer(s, k) && TagInv(s) && DataInv(s)
    ensures TagInv(NoBuffer(s, k)) && DataInv(NoBuffer(s, k))
  {
    hide Holds, Faithful;
    assert s.kernel[k] in s.kernel;
    assert forall x :: x in NoBuffer(s, k).kernel ==> x in s.kernel;
  }

  lemma NoBufferKeeps(n: nat, s: State, k: nat)
    requires Inv(n, s) && WaitsForBuffer(s, k) && !Unrefused(s)
    ensures Inv(n, NoBuffer(s, k))
  {
    hide TagInv, DataInv, ExitInv, Count, Paced, Active, Abroad, Accepts, Unrefused;
    ExitAppend(s, NoBuffer(s, k), Cqe(s.kernel[k].sqe, -ENOBUFS, 0));
    NoBufferContents(s, k);
    NoBufferCounts(s, k);
  }

  // ---------------------------------------------------------------- a read gets its buffer

  lemma SelectCounts(s: State, k: nat, bid: nat)
    requires WaitsForBuffer(s, k)
    ensures var s' := Select(s, k, bid);
            && Count(s'.kernel, FlightFd) == Count(s.kernel, FlightFd)
            && Count(s'.kernel, FlightBid) == Count(s.kernel, FlightBid) + multiset{bid}
            && Count(s'.kernel, FlightAccept) == Count(s.kernel, FlightAccept)
  {
    hide Count;
    var s' := Select(s, k, bid);
    assert s'.kernel[..k] + s'.kernel[k + 1..] == s.kernel[..k] + s.kernel[k + 1..];
    CountRemove(s.kernel, k, FlightFd);
    CountRemove(s'.kernel, k, FlightFd);
    CountRemove(s.kernel, k, FlightBid);
    CountRemove(s'.kernel, k, FlightBid);
    CountRemove(s.kernel, k, FlightAccept);
    CountRemove(s'.kernel, k, FlightAccept);
  }

  lemma SelectContents(s: State, k: nat, bid: nat)
    requires WaitsForBuffer(s, k) && TagInv(s) && DataInv(s)
    ensures TagInv(Select(s, k, bid)) && DataInv(Select(s, k, bid))
  {
    hide Holds, Faithful;
    var s' := Select(s, k, bid);
    assert s.kernel[k] in s.kernel;
    assert forall x :: x in s'.kernel ==> x in s.kernel || x == s'.kernel[k];
  }

  lemma SelectPlace(s: State, k: nat, bid: nat)
    requires WaitsForBuffer(s, k) && bid in s.pool && PlaceInv(s)
    ensures PlaceInv(Select(s, k, bid))
  {
    SelectCounts(s, k, bid);
    hide Count;
    var s' := Select(s, k, bid);
    var c := Count(s.sq, OpBid);
    Associative(c, Count(s.kernel, FlightBid), multiset{bid});
    Associative(c + Count(s.kernel, FlightBid), multiset{bid}, Count(s.cq, DoneBid));
    assert Abroad(s') == Abroad(s) + multiset{bid};
    assert multiset(s.pool) == multiset(s'.pool) + multiset{bid};
    Associative(multiset(s'.pool), Abroad(s), multiset{bid});
  }

  lemma SelectKeeps(n: nat, s: State, k: nat, bid: nat)
    requires Inv(n, s) && WaitsForBuffer(s, k) && bid in s.pool
    ensures Inv(n, Select(s, k, bid))
  {
    hide TagInv, DataInv, PlaceInv, ExitInv, Count, Paced;
    ExitSame(s, Select(s, k, bid));
    SelectContents(s, k, bid);
    SelectCounts(s, k, bid);
    SelectPlace(s, k, bid);
  }

  // ---------------------------------------------------------------- an operation completes

  function Flags(x: InFlight): nat {
    if x.sqe.op.Read? && x.bid.Some? then x.bid.value * BUFFER_SHIFT + 1 else 0
  }

  lemma BidSurvives(bid: nat)
    ensures (bid * BUFFER_SHIFT + 1) / BUFFER_SHIFT == bid
  {
  }

  ghost predicate Finishing(s: State, reserved: set<nat>, k: nat, o: Outcome) {
    k < |s.kernel| && CanFinish(s, reserved, k, o)
  }

  lemma FinishActive(s: State, reserved: set<nat>, k: nat, o: Outcome)
    requires Finishing(s, reserved, k, o)
    ensures Active(Finish(s, reserved, k, o)) == Active(s) + if o.Accepted? then multiset{o.fd} else multiset{}
  {
    hide Count;
    var s' := Finish(s, reserved, k, o);
    var x, c := s.kernel[k], s'.cq[|s.cq|];
    CountRemove(s.kernel, k, FlightFd);
    CountAppend(s.cq, c, DoneFd);
    assert DoneFd(c) == if o.Accepted? then Some(o.fd) else FlightFd(x);
    if x.sqe.op.Accept? {
      Associative(Count(s.sq, OpFd) + Count(s.kernel, FlightFd), Count(s.cq, DoneFd), One(DoneFd(c)));
    } else {
      Moved(Count(s.kernel, FlightFd), Count(s'.kernel, FlightFd), Count(s.cq, DoneFd), Count(s'.cq, DoneFd),
            Count(s.sq, OpFd), One(FlightFd(x)));
    }
  }

  lemma FinishAbroad(s: State, reserved: set<nat>, k: nat, o: Outcome)
    requires Finishing(s, reserved, k, o)
    ensures Abroad(Finish(s, reserved, k, o)) == Abroad(s)
  {
    hide Count;
    var s' := Finish(s, reserved, k, o);
    var x, c := s.kernel[k], s'.cq[|s.cq|];
    CountRemove(s.kernel, k, FlightBid);
    CountAppend(s.cq, c, DoneBid);
    if x.sqe.op.Read? { BidSurvives(x.bid.value); }
    assert DoneBid(c) == FlightBid(x);
    Moved(Count(s.kernel, FlightBid), Count(s'.kernel, FlightBid), Count(s.cq, DoneBid), Count(s'.cq, DoneBid),
          Count(s.sq, OpBid), One(FlightBid(x)));
  }

  lemma FinishAccepts(s: State, reserved: set<nat>, k: nat, o: Outcome)
    requires Finishing(s, reserved, k, o)
    ensures Accepts(Finish(s, reserved, k, o)) == Accepts(s)
    ensures |Count(Finish(s, reserved, k, o).cq, DoneNew)| == |Count(s.cq, DoneNew)| + if o.Accepted? then 1 else 0
  {
    hide Count;
    var s' := Finish(s, reserved, k, o);
    var x, c := s.kernel[k], s'.cq[|s.cq|];
    CountRemove(s.kernel, k, FlightAccept);
    CountAppend(s.cq, c, DoneAccept);
    CountAppend(s.cq, c, DoneNew);
    Moved(Count(s.kernel, FlightAccept), Count(s'.kernel, FlightAccept), Count(s.cq, DoneAccept),
          Count(s'.cq, DoneAccept),
          Count(s.sq, AcceptOf), One(FlightAccept(x)));
  }

  lemma FinishStreams(s: State, reserved: set<nat>, k: nat, o: Outcome)
    requires Finishing(s, reserved, k, o)
    ensures Finish(s, reserved, k, o).world.streams.Keys == s.world.streams.Keys + if o.Accepted? then {o.fd} else {}
    ensures Finish(s, reserved, k, o).world.mem.Keys == s.world.mem.Keys
    ensures forall b :: b in s.world.mem ==> |Finish(s, reserved, k, o).world.mem[b]| == |s.world.mem[b]|
    ensures o.Accepted? ==> o.fd !in s.world.streams
  {
  }

  lemma FinishTags(s: State, reserved: set<nat>, k: nat, o: Outcome)
    requires Finishing(s, reserved, k, o) && TagInv(s)
    ensures TagInv(Finish(s, reserved, k, o))
  {
    var s' := Finish(s, reserved, k, o);
    assert s.kernel[k] in s.kernel;
    assert forall x :: x in s'.kernel ==> x in s.kernel;
  }

  /** The state without the operation that completes. */
  function Without(s: State, k: nat): State
    requires k < |s.kernel|
  {
    s.(kernel := s.kernel[..k] + s.kernel[k + 1..])
  }

  lemma WithoutCounts(s: State, k: nat)
    requires k < |s.kernel|
    ensures Active(s) == Active(Without(s, k)) + One(FlightFd(s.kernel[k]))
    ensures Abroad(s) == Abroad(Without(s, k)) + One(FlightBid(s.kernel[k]))
  {
    hide Count;
    CountRemove(s.kernel, k, FlightFd);
    CountRemove(s.kernel, k, FlightBid);
    var x := s.kernel[k];
    var t := Without(s, k);
    Released(Count(s.kernel, FlightFd), Count(t.kernel, FlightFd), Count(s.sq, OpFd), Count(s.cq, DoneFd),
             One(FlightFd(x)));
    Released(Count(s.kernel, FlightBid), Count(t.kernel, FlightBid), Count(s.sq, OpBid), Count(s.cq, DoneBid),
             One(FlightBid(x)));
  }

  /** No other entry, operation or completion shares the connection or the buffer. */
  lemma FinishAlone(s: State, k: nat, fd: nat)
    requires k < |s.kernel| && ActiveInv(s) && FlightFd(s.kernel[k]) == Some(fd)
    ensures fd in s.world.streams
    ensures forall e :: e in s.sq ==> OpFd(e) != Some(fd)
    ensures forall x :: x in Without(s, k).kernel ==> FlightFd(x) != Some(fd)
    ensures forall c :: c in s.cq ==> DoneFd(c) != Some(fd)
  {
    hide Active, Abroad, Count;
    WithoutCounts(s, k);
    FdElsewhere(Without(s, k), s.world.streams.Keys, fd);
  }

  lemma FinishAloneBid(s: State, k: nat, bid: nat)
    requires k < |s.kernel| && PlaceInv(s) && FlightBid(s.kernel[k]) == Some(bid)
    ensures bid in Below(BUFFERS_COUNT)
    ensures forall e :: e in s.sq ==> OpBid(e) != Some(bid)
    ensures forall x :: x in Without(s, k).kernel ==> FlightBid(x) != Some(bid)
    ensures forall c :: c in s.cq ==> DoneBid(c) != Some(bid)
  {
    hide Active, Abroad, Count;
    WithoutCounts(s, k);
    Associative(multiset(s.pool), Abroad(Without(s, k)), multiset{bid});
    BidElsewhere(Without(s, k), bid);
  }

  /** Everything but the completed operation keeps what its buffer holds. */
  lemma FinishOthers(s: State, reserved: set<nat>, k: nat, o: Outcome)
    requires Finishing(s, reserved, k, o) && ActiveInv(s) && PlaceInv(s) && DataInv(s) && TagInv(s)
    ensures var s' := Finish(s, reserved, k, o);
            && (forall e :: e in s.sq ==> EntryHolds(s'.world, e))
            && (forall x :: x in Without(s, k).kernel ==> EntryHolds(s'.world, x.sqe))
            && (forall c :: c in s.cq ==> DoneHolds(s'.world, c))
  {
    var op := KernelOp(s.kernel[k]);
    assert op.KSend? || op.KRecv? ==> FlightFd(s.kernel[k]) == Some(op.fd);
    if op.KSend? || op.KRecv? { FinishAlone(s, k, op.fd); }
    assert op.KRecv? ==> FlightBid(s.kernel[k]) == Some(op.buf);
    if op.KRecv? { FinishAloneBid(s, k, op.buf); }
    hide ActiveInv, PlaceInv, Holds, TagInv, Exec, Faithful;
    var w := s.world;
    forall e | e in s.sq && e.op.Write? ensures Holds(Exec(w, reserved, op, o), e.op.fd, e.op.bid, e.op.size) {
      assert OpFd(e) == Some(e.op.fd) && OpBid(e) == Some(e.op.bid) && EntryHolds(w, e);
      HoldsFrame(w, reserved, op, o, e.op.fd, e.op.bid, e.op.size);
    }
    forall x | x in Without(s, k).kernel && x.sqe.op.Write?
      ensures Holds(Exec(w, reserved, op, o), x.sqe.op.fd, x.sqe.op.bid, x.sqe.op.size)
    {
      assert x in s.kernel && EntryHolds(w, x.sqe);
      assert FlightFd(x) == Some(x.sqe.op.fd) && FlightBid(x) == Some(x.sqe.op.bid);
      HoldsFrame(w, reserved, op, o, x.sqe.op.fd, x.sqe.op.bid, x.sqe.op.size);
    }
    forall c | c in s.cq && c.sqe.op.Read? && 0 < c.res
      ensures Holds(Exec(w, reserved, op, o), c.sqe.op.fd, c.flags / BUFFER_SHIFT, c.res)
    {
      assert DoneFd(c) == Some(c.sqe.op.fd) && DoneBid(c) == Some(c.flags / BUFFER_SHIFT) && DoneHolds(w, c);
      HoldsFrame(w, reserved, op, o, c.sqe.op.fd, c.flags / BUFFER_SHIFT, c.res);
    }
  }

  /** The completed operation leaves a faithful stream, and a read leaves its message in the buffer. */
  lemma FinishOwn(w: World<nat>, reserved: set<nat>, x: InFlight, o: Outcome)
    requires !x.sqe.op.Provide? && (x.sqe.op.Read? ==> x.bid.Some?) && Allowed(w, reserved, KernelOp(x), o)
    requires EntryHolds(w, x.sqe) && AllFaithful(w)
    ensures var w' := Exec(w, reserved, KernelOp(x), o);
            DoneHolds(w', Cqe(x.sqe, Res(o), Flags(x))) && AllFaithful(w')
  {
    hide Holds, Exec, AllFaithful;
    if x.sqe.op.Read? { BidSurvives(x.bid.value); }
    ExecKeepsEcho(w, reserved, KernelOp(x), o);
  }

  lemma FinishData(s: State, reserved: set<nat>, k: nat, o: Outcome)
    requires Finishing(s, reserved, k, o) && ActiveInv(s) && PlaceInv(s) && DataInv(s) && TagInv(s)
    ensures DataInv(Finish(s, reserved, k, o))
  {
    hide ActiveInv, PlaceInv, TagInv, EntryHolds, DoneHolds, Faithful, Exec;
    FinishOthers(s, reserved, k, o);
    assert s.kernel[k] in s.kernel;
    FinishOwn(s.world, reserved, s.kernel[k], o);
    FinishStreams(s, reserved, k, o);
    var s' := Finish(s, reserved, k, o);
    assert s'.kernel == Without(s, k).kernel;
    assert s'.cq == s.cq + [Cqe(s.kernel[k].sqe, Res(o), Flags(s.kernel[k]))];
  }

  lemma FinishExit(s: State, reserved: set<nat>, k: nat, o: Outcome)
    requires Finishing(s, reserved, k, o) && ExitInv(s)
    ensures ExitInv(Finish(s, reserved, k, o))
  {
    hide ExitInv, Exec, Allowed;
    var s' := Finish(s, reserved, k, o);
    assert !Dry(s'.cq[|s.cq|]) by { assert Res(o) != -ENOBUFS; }
    ExitAppend(s, s', s'.cq[|s.cq|]);
  }

  lemma FinishKeeps(n: nat, s: State, reserved: set<nat>, k: nat, o: Outcome)
    requires Inv(n, s) && Finishing(s, reserved, k, o) && (o.Accepted? ==> |s.world.streams| < n)
    ensures Inv(n, Finish(s, reserved, k, o))
  {
    hide TagInv, DataInv, ExitInv, Paced, Count, Active, Abroad, Accepts;
    FinishExit(s, reserved, k, o);
    FinishTags(s, reserved, k, o);
    FinishData(s, reserved, k, o);
    FinishActive(s, reserved, k, o);
    FinishAbroad(s, reserved, k, o);
    FinishAccepts(s, reserved, k, o);
    FinishStreams(s, reserved, k, o);
  }

  // ---------------------------------------------------------------- the server handles a completion

  /** The oldest completion is neither a failed provide nor a read that found the pool empty. */
  ghost predicate Calm(s: State) {
    s.cq != [] && !FailedProvide(s.cq[0]) && !Dry(s.cq[0])
  }

  /** Then the server does not leave. */
  lemma NoExit(s: State)
    requires TagInv(s) && Calm(s)
    ensures React(s.listenFd, s.cq[0].sqe.tag, s.cq[0].res, s.cq[0].flags).Continue?
    ensures Tagged(s.listenFd, s.cq[0].sqe)
  {
    assert s.cq[0] in s.cq;
  }

  function Queued(s: State): seq<Sqe>
    requires s.cq != []
  {
    var r := React(s.listenFd, s.cq[0].sqe.tag, s.cq[0].res, s.cq[0].flags);
    if r.Continue? then r.queued else []
  }

  /** What a handled completion gives up and what the queued entries take on. */
  lemma HandleBalance(s: State)
    requires TagInv(s) && Calm(s)
    ensures Active(Handle(s)) + One(DoneFd(s.cq[0])) == Active(s) + Count(Queued(s), OpFd)
    ensures Abroad(Handle(s)) + One(DoneBid(s.cq[0])) == Abroad(s) + Count(Queued(s), OpBid)
    ensures Accepts(Handle(s)) + One(DoneAccept(s.cq[0])) == Accepts(s) + Count(Queued(s), AcceptOf)
  {
    NoExit(s);
    hide Count, TagInv;
    var s' := Handle(s);
    var q := Queued(s);
    CountConcat(s.sq, q, OpFd);
    CountTail(s.cq, DoneFd);
    Exchanged(Count(s.sq, OpFd), Count(s'.sq, OpFd), Count(q, OpFd), Count(s.kernel, FlightFd),
              Count(s.cq, DoneFd), Count(s'.cq, DoneFd), One(DoneFd(s.cq[0])));
    CountConcat(s.sq, q, OpBid);
    CountTail(s.cq, DoneBid);
    Exchanged(Count(s.sq, OpBid), Count(s'.sq, OpBid), Count(q, OpBid), Count(s.kernel, FlightBid),
              Count(s.cq, DoneBid), Count(s'.cq, DoneBid), One(DoneBid(s.cq[0])));
    CountConcat(s.sq, q, AcceptOf);
    CountTail(s.cq, DoneAccept);
    Exchanged(Count(s.sq, AcceptOf), Count(s'.sq, AcceptOf), Count(q, AcceptOf), Count(s.kernel, FlightAccept),
              Count(s.cq, DoneAccept), Count(s'.cq, DoneAccept), One(DoneAccept(s.cq[0])));
  }

  ghost predicate Closes(c: Cqe) {
    c.sqe.op.Read? && c.res <= 0
  }

  /** The queued entries take on the connection given up, unless it is closed. */
  lemma QueuedFd(s: State)
    requires TagInv(s) && Calm(s)
    ensures Count(Queued(s), OpFd) == if Closes(s.cq[0]) then multiset{} else One(DoneFd(s.cq[0]))
  {
    hide Count, TagInv, One;
    QueuedKinds(s);
    CountShort(Queued(s), OpFd);
    OneNone();
  }

  lemma QueuedBid(s: State)
    requires TagInv(s) && Calm(s)
    ensures Count(Queued(s), OpBid) == One(DoneBid(s.cq[0]))
  {
    hide Count, TagInv, One;
    QueuedKinds(s);
    CountShort(Queued(s), OpBid);
    OneNone();
  }

  lemma QueuedAccept(s: State)
    requires TagInv(s) && Calm(s)
    ensures Count(Queued(s), AcceptOf) == One(DoneAccept(s.cq[0]))
  {
    hide Count, TagInv, One;
    QueuedKinds(s);
    CountShort(Queued(s), AcceptOf);
    OneNone();
  }

  /** The queued entries take on exactly the buffer, the accept and, unless it is closed, the connection given up. */
  lemma QueuedCarries(s: State)
    requires TagInv(s) && Calm(s)
    ensures Count(Queued(s), OpFd) == if Closes(s.cq[0]) then multiset{} else One(DoneFd(s.cq[0]))
    ensures Count(Queued(s), OpBid) == One(DoneBid(s.cq[0]))
    ensures Count(Queued(s), AcceptOf) == One(DoneAccept(s.cq[0]))
  {
    hide Count, TagInv, One, DoneFd, DoneBid, DoneAccept, Queued;
    QueuedFd(s);
    QueuedBid(s);
    QueuedAccept(s);
  }

  /** The arms of the loop body, by what was completed. */
  lemma QueuedKinds(s: State)
    requires TagInv(s) && Calm(s)
    ensures var c, q := s.cq[0], Queued(s);
            match c.sqe.op
            case Accept => q == if c.res >= 0 then [AddRead(c.res), AddAccept(s.listenFd)] else [AddAccept(s.listenFd)]
            case Read(fd) =>
              q == if c.res <= 0 then [AddProvide(c.flags / BUFFER_SHIFT)]
                   else [AddWrite(fd, c.flags / BUFFER_SHIFT, c.res)]
            case Write(fd, bid, _) => q == [AddProvide(bid), AddRead(fd)]
            case Provide(_) => q == []
  {
    hide TagInv;
    NoExit(s);
  }

  lemma HandleActive(s: State)
    requires TagInv(s) && Calm(s) && ActiveInv(s)
    ensures ActiveInv(Handle(s))
  {
    hide TagInv, Active, Accepts, Count, One, DoneFd, DoneAccept;
    HandleBalance(s);
    QueuedCarries(s);
    var c := s.cq[0];
    Same(Accepts(Handle(s)), Accepts(s), One(DoneAccept(c)));
    if Closes(c) {
      CloseBalance(s);
      HandleCloseKeys(s);
    } else {
      Same(Active(Handle(s)), Active(s), One(DoneFd(c)));
      KeepsStreams(s);
    }
  }

  lemma KeepsStreams(s: State)
    requires TagInv(s) && Calm(s) && !Closes(s.cq[0])
    ensures Handle(s).world == s.world
  {
    hide TagInv;
    NoExit(s);
    assert s.world.streams - {} == s.world.streams;
  }

  lemma CloseBalance(s: State)
    requires TagInv(s) && Calm(s) && Closes(s.cq[0])
    ensures Active(Handle(s)) + multiset{s.cq[0].sqe.op.fd} == Active(s)
    ensures Handle(s).world == s.world.(streams := s.world.streams - {s.cq[0].sqe.op.fd})
  {
    hide TagInv, Active, Count;
    HandleBalance(s);
    QueuedCarries(s);
    NoExit(s);
  }

  lemma HandleCloseKeys(s: State)
    requires Calm(s) && TagInv(s) && ActiveInv(s) && Closes(s.cq[0])
    ensures Active(Handle(s)) == multiset(Handle(s).world.streams.Keys)
    ensures s.cq[0].sqe.op.fd in s.world.streams
    ensures Handle(s).world.streams.Keys == s.world.streams.Keys - {s.cq[0].sqe.op.fd}
  {
    hide TagInv, Active, Accepts, Handle;
    CloseBalance(s);
    Departed(s.world.streams.Keys, Active(Handle(s)), s.cq[0].sqe.op.fd);
  }

  lemma HandlePlace(s: State)
    requires TagInv(s) && Calm(s) && PlaceInv(s)
    ensures PlaceInv(Handle(s))
  {
    hide TagInv, Abroad, Count;
    HandleBalance(s);
    QueuedCarries(s);
    NoExit(s);
    Same(Abroad(Handle(s)), Abroad(s), One(DoneBid(s.cq[0])));
  }

  lemma HandlePace(n: nat, s: State)
    requires TagInv(s) && Calm(s) && ActiveInv(s) && PaceInv(n, s)
    ensures PaceInv(n, Handle(s))
  {
    hide TagInv, ActiveInv, Count, Paced;
    NoExit(s);
    HandleSize(s);
    var s', q := Handle(s), Queued(s);
    CountTail(s.cq, DoneNew);
    if q == [] {
      assert s.sq + q == s.sq;
    } else {
      if |q| == 1 {
        assert q == [q[0]];
        PacedOne(q[0], Slack(n, s'));
      } else {
        assert q == [q[0], q[1]];
        PacedTwo(q[0], q[1], Slack(n, s'));
      }
      PacedAppend(s.sq, Slack(n, s), q, Slack(n, s'));
    }
  }

  lemma HandleSize(s: State)
    requires TagInv(s) && Calm(s) && ActiveInv(s)
    ensures |Handle(s).world.streams| == |s.world.streams| - if Closes(s.cq[0]) then 1 else 0
  {
    hide TagInv, ActiveInv, Handle;
    if Closes(s.cq[0]) { HandleCloseKeys(s); } else { KeepsStreams(s); }
  }

  lemma HandleTags(s: State)
    requires TagInv(s) && Calm(s)
    ensures TagInv(Handle(s)) && !Handle(s).exited == !s.exited
  {
    NoExit(s);
  }

  /** After a close no remaining buffer was held for the closed connection. */
  lemma HandleCloseData(s: State)
    requires TagInv(s) && Calm(s) && ActiveInv(s) && DataInv(s) && Closes(s.cq[0])
    ensures DataInv(Handle(s))
  {
    hide TagInv, ActiveInv, Faithful, Holds, Active;
    HandleAlone(s);
    CloseBalance(s);
    NoExit(s);
    var s', gone := Handle(s), s.cq[0].sqe.op.fd;
    forall e | e in s.sq && e.op.Write? ensures Holds(s'.world, e.op.fd, e.op.bid, e.op.size) {
      assert EntryHolds(s.world, e) && OpFd(e) == Some(e.op.fd);
      CloseFrame(s.world, gone, e.op.fd, e.op.bid, e.op.size);
    }
    forall x | x in s.kernel && x.sqe.op.Write? ensures Holds(s'.world, x.sqe.op.fd, x.sqe.op.bid, x.sqe.op.size) {
      assert EntryHolds(s.world, x.sqe) && FlightFd(x) == Some(x.sqe.op.fd);
      CloseFrame(s.world, gone, x.sqe.op.fd, x.sqe.op.bid, x.sqe.op.size);
    }
    forall c | c in s'.cq && c.sqe.op.Read? && 0 < c.res
      ensures Holds(s'.world, c.sqe.op.fd, c.flags / BUFFER_SHIFT, c.res) {
      assert DoneHolds(s.world, c) && DoneFd(c) == Some(c.sqe.op.fd);
      CloseFrame(s.world, gone, c.sqe.op.fd, c.flags / BUFFER_SHIFT, c.res);
    }
  }

  lemma HandleData(s: State)
    requires TagInv(s) && Calm(s) && ActiveInv(s) && DataInv(s)
    ensures DataInv(Handle(s))
  {
    hide TagInv, ActiveInv, Faithful, Holds;
    if Closes(s.cq[0]) {
      HandleCloseData(s);
    } else {
      KeepsStreams(s);
      NoExit(s);
      assert DoneHolds(s.world, s.cq[0]);
      assert forall e :: e in Handle(s).sq ==> e in s.sq || e in Queued(s);
    }
  }

  lemma HandleAlone(s: State)
    requires Calm(s) && TagInv(s) && ActiveInv(s) && Closes(s.cq[0])
    ensures var fd := s.cq[0].sqe.op.fd;
            && (forall e :: e in s.sq ==> OpFd(e) != Some(fd))
            && (forall x :: x in s.kernel ==> FlightFd(x) != Some(fd))
            && (forall c :: c in s.cq[1..] ==> DoneFd(c) != Some(fd))
  {
    hide TagInv, Active, Accepts, Count;
    CloseBalance(s);
    NoExit(s);
    var fd := s.cq[0].sqe.op.fd;
    FdElsewhere(Handle(s), s.world.streams.Keys, fd);
    assert forall e :: e in s.sq ==> e in Handle(s).sq;
  }

  lemma HandleExit(s: State)
    requires TagInv(s) && s.cq != [] && ExitInv(s) && !s.exited
    ensures !Dry(s.cq[0]) && ExitInv(Handle(s)) && (Handle(s).exited <==> FailedProvide(s.cq[0]))
    ensures FailedProvide(s.cq[0]) ==> Handle(s) == s.(exited := true)
  {
    assert s.cq[0] in s.cq;
    if FailedProvide(s.cq[0]) {
    } else {
      assert !Dry(s.cq[0]);
      NoExit(s);
      var s' := Handle(s);
      forall i | 0 <= i < |s'.cq| && Dry(s'.cq[i]) ensures exists j :: 0 <= j < i && FailedProvide(s'.cq[j]) {
        assert Dry(s.cq[i + 1]);
        var j :| 0 <= j < i + 1 && FailedProvide(s.cq[j]);
        assert FailedProvide(s'.cq[j - 1]);
      }
    }
  }

  lemma ExitKeeps(n: nat, s: State)
    requires Inv(n, s) && ExitInv(s.(exited := true))
    ensures Inv(n, s.(exited := true))
  {
    hide Count, Paced, Holds, Faithful;
  }

  lemma HandleKeeps(n: nat, s: State)
    requires Inv(n, s) && s.cq != [] && !s.exited
    ensures Inv(n, Handle(s)) && (Handle(s).exited <==> FailedProvide(s.cq[0]))
  {
    HandleExit(s);
    hide TagInv, PlaceInv, ActiveInv, PaceInv, DataInv, ExitInv;
    if FailedProvide(s.cq[0]) {
      ExitKeeps(n, s);
      return;
    }
    HandleTags(s);
    HandlePlace(s);
    HandleActive(s);
    HandlePace(n, s);
    HandleData(s);
  }
}
