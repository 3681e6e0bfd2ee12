/**
 The eventfd server seen from far away: a bag of jobs, each an operation somebody has yet
 to carry out or an event whose callback has yet to run. The kernel turns an operation
 into its event, a callback turns an event into its next operations; locks, the map, the
 heap and the channels are invisible.
 */
module EventFdJobs {
  import opened Kernel
  import opened Echo
  import opened Census
  import opened EventFd

  datatype Job = Do(op: Op) | Done(event: EventInfo)

  function Dos(ops: seq<Op>): seq<Job> {
    seq(|ops|, i requires 0 <= i < |ops| => Do(ops[i]))
  }

  /** The connection a job belongs to; a completed close belongs to none any more. */
  function JobFd(j: Job): Option<nat> {
    match j
    case Do(op) => if op.Accept? then None else Some(op.fd)
    case Done(e) =>
      match e.etype
      case ETypeAccept => if e.res >= 0 then Some(e.res) else None
      case ETypeRead => Some(e.cfd)
      case ETypeWrite => Some(e.cfd)
      case _ => None
  }

  /** At most one job per open connection, and none for a closed one. */
  ghost predicate OneEach(bag: multiset<Job>, w: World<nat>) {
    && (forall j :: j in bag && JobFd(j).Some? ==> JobFd(j).value in w.streams && bag[j] == 1)
    && (forall j, k :: j in bag && k in bag && JobFd(j).Some? && JobFd(j) == JobFd(k) ==> j == k)
  }

  ghost predicate JobHolds(w: World<nat>, j: Job) {
    match j
    case Do(op) => op.Send? ==> Holds(w, op.fd, op.fd, op.size)
    case Done(e) => e.etype == ETypeRead && 0 < e.res ==> Holds(w, e.cfd, e.cfd, e.res)
  }

  ghost predicate BagInv(bag: multiset<Job>, w: World<nat>) {
    OneEach(bag, w) && (forall j :: j in bag ==> JobHolds(w, j)) && AllFaithful(w)
  }

  // ---------------------------------------------------------------- the kernel completes an operation

  function Complete(bag: multiset<Job>, op: Op, res: int): multiset<Job> {
    bag - multiset{Do(op)} + multiset{Done(NewEvent(op).(res := res))}
  }

  /** Which connections are open afterwards, and whom the event belongs to. */
  lemma CompleteKeys(reserved: set<nat>, w: World<nat>, op: Op, o: Outcome)
    requires Allowed(w, reserved, KernelOp(op), o)
    ensures var keys, keys', fd := w.streams.Keys, Exec(w, reserved, KernelOp(op), o).streams.Keys,
            JobFd(Done(NewEvent(op).(res := Res(o))));
            && (forall x :: x in keys' <==> (x in keys && !(o.Closed? && x == op.fd)) || (o.Accepted? && x == o.fd))
            && (if op.Accept? then o.Accepted? ==> fd == Some(o.fd) && o.fd !in keys
                else fd.Some? ==> fd == Some(op.fd))
            && (op.Accept? && !o.Accepted? ==> fd.None?) && (op.Close? ==> fd.None?)
            && (o.Closed? ==> op.Close?) && (o.Accepted? ==> op.Accept?)
  {
  }

  lemma CompleteOneEach(reserved: set<nat>, bag: multiset<Job>, w: World<nat>, op: Op, o: Outcome)
    requires OneEach(bag, w) && Do(op) in bag && Allowed(w, reserved, KernelOp(op), o)
    ensures OneEach(Complete(bag, op, Res(o)), Exec(w, reserved, KernelOp(op), o))
  {
    CompleteKeys(reserved, w, op, o);
    var w', done := Exec(w, reserved, KernelOp(op), o), Done(NewEvent(op).(res := Res(o)));
    var bag' := Complete(bag, op, Res(o));
    assert JobFd(Do(op)) == if op.Accept? then None else Some(op.fd);
    hide Allowed, Exec, KernelOp, NewEvent, Res, JobFd;
    forall j | j in bag' && j != done ensures j in bag && (j == Do(op) ==> bag[j] >= 2) {
    }
    forall j | j in bag' && JobFd(j).Some? ensures JobFd(j).value in w'.streams && bag'[j] == 1 {
    }
    forall j, k | j in bag' && k in bag' && JobFd(j).Some? && JobFd(j) == JobFd(k) ensures j == k {
    }
  }

  lemma OtherJob(reserved: set<nat>, w: World<nat>, op: Op, o: Outcome, j: Job)
    requires Allowed(w, reserved, KernelOp(op), o) && JobHolds(w, j)
    requires !op.Accept? ==> JobFd(j) != Some(op.fd)
    ensures JobHolds(Exec(w, reserved, KernelOp(op), o), j)
  {
    hide Holds, Exec, Allowed;
    match j
    case Do(mine) =>
      if mine.Send? { HoldsFrame(w, reserved, KernelOp(op), o, mine.fd, mine.fd, mine.size); }
    case Done(e) =>
      if e.etype == ETypeRead && 0 < e.res { HoldsFrame(w, reserved, KernelOp(op), o, e.cfd, e.cfd, e.res); }
  }

  lemma CompleteData(reserved: set<nat>, w: World<nat>, op: Op, o: Outcome)
    requires Allowed(w, reserved, KernelOp(op), o) && JobHolds(w, Do(op)) && AllFaithful(w)
    ensures var w' := Exec(w, reserved, KernelOp(op), o);
            JobHolds(w', Done(NewEvent(op).(res := Res(o)))) && AllFaithful(w')
  {
    hide Holds, Exec, AllFaithful;
    ExecKeepsEcho(w, reserved, KernelOp(op), o);
  }

  lemma CompleteKeeps(reserved: set<nat>, bag: multiset<Job>, w: World<nat>, op: Op, o: Outcome)
    requires BagInv(bag, w) && Do(op) in bag && Allowed(w, reserved, KernelOp(op), o)
    ensures BagInv(Complete(bag, op, Res(o)), Exec(w, reserved, KernelOp(op), o))
  {
    hide AllFaithful, Exec, Allowed, JobHolds, KernelOp, NewEvent;
    CompleteOneEach(reserved, bag, w, op, o);
    CompleteData(reserved, w, op, o);
    var w', done, bag' := Exec(w, reserved, KernelOp(op), o), Done(NewEvent(op).(res := Res(o))),
      Complete(bag, op, Res(o));
    forall j | j in bag' && j != done ensures JobHolds(w', j) {
      assert j in bag;
      assert !op.Accept? ==> JobFd(j) != Some(op.fd) by {
        assert JobFd(Do(op)) == if op.Accept? then None else Some(op.fd);
        assert j == Do(op) ==> bag[j] >= 2;
      }
      OtherJob(reserved, w, op, o, j);
    }
  }

  // ---------------------------------------------------------------- a callback runs

  function React(bag: multiset<Job>, e: EventInfo): multiset<Job> {
    bag - multiset{Done(e)} + multiset(Dos(Callback(e)))
  }

  /** A callback submits at most one operation on a connection, the connection of its event. */
  lemma CallbackJobs(w: World<nat>, e: EventInfo)
    requires JobHolds(w, Done(e))
    ensures forall j :: j in multiset(Dos(Callback(e))) ==>
              j.Do? && JobHolds(w, j) && (JobFd(j).Some? ==> JobFd(j) == JobFd(Done(e)))
    ensures forall j, k :: j in multiset(Dos(Callback(e))) && k in multiset(Dos(Callback(e))) ==>
              JobFd(j).Some? && JobFd(k).Some? ==> j == k
    ensures forall j :: JobFd(j).Some? ==> multiset(Dos(Callback(e)))[j] <= 1
  {
    var q := Dos(Callback(e));
    assert q == if |q| == 0 then [] else if |q| == 1 then [q[0]] else [q[0], q[1]];
  }

  lemma ReactKeeps(bag: multiset<Job>, w: World<nat>, e: EventInfo)
    requires BagInv(bag, w) && Done(e) in bag
    ensures BagInv(React(bag, e), w)
  {
    hide JobHolds, AllFaithful, Callback, JobFd;
    CallbackJobs(w, e);
    var next, bag' := multiset(Dos(Callback(e))), React(bag, e);
    forall j | j in bag' ensures JobHolds(w, j) {
      if j !in next { assert j in bag; }
    }
    forall j | j in bag' && JobFd(j).Some? ensures JobFd(j).value in w.streams && bag'[j] == 1 {
      if j in next { assert j !in bag; } else { assert j in bag; }
    }
    forall j, k | j in bag' && k in bag' && JobFd(j).Some? && JobFd(j) == JobFd(k) ensures j == k {
      ReactApart(bag, w, e, j, k);
    }
  }

  lemma ReactApart(bag: multiset<Job>, w: World<nat>, e: EventInfo, j: Job, k: Job)
    requires OneEach(bag, w) && Done(e) in bag
    requires forall j :: j in multiset(Dos(Callback(e))) ==>
              j.Do? && (JobFd(j).Some? ==> JobFd(j) == JobFd(Done(e)))
    requires forall j, k :: j in multiset(Dos(Callback(e))) && k in multiset(Dos(Callback(e))) ==>
              JobFd(j).Some? && JobFd(k).Some? ==> j == k
    requires j in React(bag, e) && k in React(bag, e) && JobFd(j).Some? && JobFd(j) == JobFd(k)
    ensures j == k
  {
    hide Callback, JobFd;
    var next := multiset(Dos(Callback(e)));
    assert j in next || (j in bag && (j == Done(e) ==> bag[j] >= 2));
    assert k in next || (k in bag && (k == Done(e) ==> bag[k] >= 2));
  }
}
