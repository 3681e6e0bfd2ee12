/**
 One turn of the token server's outer loop: what the kernel did meanwhile, the loop that
 empties the backlog, the accepts, and the completions.
 */
module TokenTurns {
  import opened Streams
  import opened Kernel
  import opened TokenMachine
  import opened TokenReplies

  /** What `submitter.submit()` returns: the kernel took some entries, or was busy. */
  datatype SubmitResult = Took(count: nat) | Busy

  /** One turn of the outer loop: kernel activity, then the submits of the backlog loop. */
  datatype Turn = Turn(kernelActivity: seq<Event>, submits: seq<SubmitResult>)

  /** The kernel takes up to `count` published entries. */
  function Consumed(s: State, count: nat): State
    decreases count
  {
    if count == 0 || s.published == 0 || s.sq == [] then s else Consumed(Consume(s), count - 1)
  }

  /** What the kernel does on its own, where it can. */
  function Acted(reserved: set<nat>, s: State, e: Event): State {
    match e
    case DoConsume => Consumed(s, 1)
    case DoComplete(k, o) =>
      if k < |s.kernel| && Allowed(s.world, reserved, s.kernel[k].op, o) then Complete(s, reserved, k, o) else s
    case _ => s
  }

  function ActedAll(reserved: set<nat>, s: State, es: seq<Event>): State {
    if es == [] then s else Acted(reserved, ActedAll(reserved, s, Front(es)), Last(es))
  }

  /** The backlog loop, from its `i`-th round on. */
  function Cleaned(s: State, submits: seq<SubmitResult>, i: nat): State
    decreases |s.backlog|
  {
    var r := if i < |submits| then submits[i] else Busy;
    if Full(s) && r == Busy then s
    else
      var s1 := Sync(if Full(s) then Consumed(s, r.count) else s);
      ConsumedBacklog(s, if r == Busy then 0 else r.count);
      if s1.backlog == [] then s1 else Cleaned(PopBacklog(s1), submits, i + 1)
  }

  lemma ConsumedBacklog(s: State, count: nat)
    ensures Consumed(s, count).backlog == s.backlog
    decreases count
  {
  }

  function PushedAll(s: State): State
    decreases s.acceptCount
  {
    if s.acceptCount > 0 && !Full(s) then PushedAll(PushAccept(s)) else Sync(s)
  }

  /** All completions are handled, and what follows them is queued in their order. */
  ghost predicate HandledAll(s: State, t: State) {
    t.cq == [] && t.dropped == s.dropped && exists keys :: |keys| == |s.cq| && Spread(s, t, Replies(s.cq, keys))
  }

  /** The states between the parts of one turn of the outer loop. */
  datatype Phases = Phases(acted: State, cleaned: State, pushed: State)

  ghost predicate TurnOf(reserved: set<nat>, s: State, turn: Turn, p: Phases, t: State) {
    && p.acted == ActedAll(reserved, s, turn.kernelActivity)
    && p.cleaned == Cleaned(p.acted, turn.submits, 0)
    && p.pushed == PushedAll(p.cleaned)
    && HandledAll(p.pushed, t)
  }

  lemma TurnEnds(reserved: set<nat>, s: State, turn: Turn, p: Phases, t: State, keys: seq<(nat, nat)>)
    requires p.acted == ActedAll(reserved, s, turn.kernelActivity) && p.cleaned == Cleaned(p.acted, turn.submits, 0)
    requires p.pushed == PushedAll(p.cleaned) && t.cq == [] && t.dropped == p.pushed.dropped
    requires |keys| == |p.pushed.cq| && Spread(p.pushed, t, Replies(p.pushed.cq, keys))
    ensures TurnOf(reserved, s, turn, p, t)
  {
  }

  lemma CleanedBusy(s: State, submits: seq<SubmitResult>, i: nat)
    requires Full(s) && (i < |submits| ==> submits[i] == Busy)
    ensures Cleaned(s, submits, i) == s
  {
  }

  /** One round, up to the pop. */
  lemma CleanedRound(s: State, submits: seq<SubmitResult>, i: nat, s1: State)
    requires Full(s) ==> i < |submits| && submits[i].Took?
    requires s1 == Sync(if Full(s) then Consumed(s, submits[i].count) else s)
    ensures Cleaned(s, submits, i) == if s1.backlog == [] then s1 else Cleaned(PopBacklog(s1), submits, i + 1)
  {
    ConsumedBacklog(s, if i < |submits| && submits[i].Took? then submits[i].count else 0);
  }

  /** Turn after turn. */
  ghost predicate Chain(reserved: set<nat>, states: seq<State>, turns: seq<Turn>, phases: seq<Phases>) {
    && |phases| == |turns| && |states| == |turns| + 1
    && forall i :: 0 <= i < |turns| ==> TurnOf(reserved, states[i], turns[i], phases[i], states[i + 1])
  }

  lemma ChainNone(reserved: set<nat>, s: State)
    ensures Chain(reserved, [s], [], [])
  {
  }

  lemma ChainMore(reserved: set<nat>, states: seq<State>, turns: seq<Turn>, phases: seq<Phases>, turn: Turn, p: Phases,
      t: State)
    requires Chain(reserved, states, turns, phases) && TurnOf(reserved, Last(states), turn, p, t)
    ensures Chain(reserved, states + [t], turns + [turn], phases + [p])
  {
    hide TurnOf;
  }

  lemma ConsumedStep(s: State, count: nat)
    requires 0 < count && 0 < s.published && s.sq != []
    ensures Consumed(s, count) == Consumed(Consume(s), count - 1)
  {
  }

  lemma ConsumedEnd(s: State, count: nat)
    requires count == 0 || s.published == 0
    ensures Consumed(s, count) == s
  {
  }

  // ---------------------------------------------------------------- what the backlog loop achieves

  /** Every submit of the backlog loop takes something. */
  ghost predicate Obliging(submits: seq<SubmitResult>) {
    forall r :: r in submits ==> r.Took? && 0 < r.count
  }

  lemma {:induction false} ConsumedIs(s: State, count: nat)
    requires s.published <= |s.sq|
    ensures var t, n := Consumed(s, count), if count <= s.published then count else s.published;
            && t == s.(kernel := s.kernel + s.sq[..n], sq := s.sq[n..], published := s.published - n,
                       stale := s.stale + n)
    decreases count
  {
    if count == 0 || s.published == 0 {
      assert s.kernel + s.sq[..0] == s.kernel;
    } else {
      ConsumedIs(Consume(s), count - 1);
      var n := if count <= s.published then count else s.published;
      assert s.kernel + [s.sq[0]] + s.sq[1..][..n - 1] == s.kernel + s.sq[..n];
    }
  }

  /**
   The loop ends with the backlog empty and everything published, or at a busy submit with the
   queue full; it has moved or lost the oldest entries of the backlog only.
   */
  lemma {:induction false} CleanedEnds(s: State, submits: seq<SubmitResult>, i: nat)
    requires s.published <= |s.sq|
    ensures var t := Cleaned(s, submits, i); var k := |s.backlog| - |t.backlog|;
            && 0 <= k && t.backlog == s.backlog[k..]
            && ((t.backlog == [] && t.published == |t.sq| && t.stale == 0) ||
                (t.stale + |t.sq| >= 4096 && (i + k < |submits| ==> submits[i + k] == Busy)))
    decreases |s.backlog|
  {
    var r := if i < |submits| then submits[i] else Busy;
    if Full(s) && r == Busy {
      CleanedBusy(s, submits, i);
    } else {
      if Full(s) { ConsumedIs(s, r.count); }
      var s1 := Sync(if Full(s) then Consumed(s, r.count) else s);
      CleanedRound(s, submits, i, s1);
      if s1.backlog != [] { CleanedEnds(PopBacklog(s1), submits, i + 1); }
    }
  }

  /**
   While the kernel takes something whenever it is asked, and had something to take at the
   start, the loop loses nothing.
   */
  lemma {:induction false} ObligingLosesNone(s: State, submits: seq<SubmitResult>, i: nat)
    requires s.published <= |s.sq| && s.stale + |s.sq| <= 4096 && Obliging(submits)
    requires 0 < s.published || s.stale + |s.sq| < 4096
    ensures Cleaned(s, submits, i).dropped == s.dropped
    decreases |s.backlog|
  {
    var r := if i < |submits| then submits[i] else Busy;
    if Full(s) && r == Busy {
      CleanedBusy(s, submits, i);
    } else {
      if Full(s) { ConsumedIs(s, r.count); }
      var s1 := Sync(if Full(s) then Consumed(s, r.count) else s);
      CleanedRound(s, submits, i, s1);
      if s1.backlog != [] { ObligingLosesNone(PopBacklog(s1), submits, i + 1); }
    }
  }
}
