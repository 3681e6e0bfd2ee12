/** The file wrapper in the form of its source: global tables, and the loops over them. */
module FileBatchLoop {
  import opened Streams
  import opened Blocks
  import opened FileBatch
  import opened FileBatchTheorems

  class Wrapper {
    var queueSize: nat
    var cbMap: map<nat, Request>
    var sq: seq<Entry>
    var kernel: seq<Entry>
    var cq: seq<Completion>
    var open: set<nat>
    var spinning: bool
    var panicked: bool
    var asked: seq<Request>
    var lost: seq<Request>
    var posted: seq<Completion>
    var fired: seq<Fired>

    function Abs(): State
      reads this
    {
      State(queueSize, cbMap, sq, kernel, cq, open, spinning, panicked, asked, lost, posted, fired)
    }

    constructor ()
      ensures Abs() == INIT && forall accepting :: Visited(Abs(), accepting)
    {
      queueSize, cbMap, sq, kernel, cq, open := 0, map[], [], [], [], {};
      spinning, panicked := false, false;
      asked, lost, posted, fired := [], [], [], [];
      new;
      assert Run(INIT, [], Abs()) && Accepting([]);
    }

    /** `push_read_request` or `push_write_request`, with the map entry made before it. */
    method PushRequest(req: Request, ok: bool, memory: seq<byte>) returns (ret: int)
      requires ok ==> Supplied(req, memory)
      modifies this
      ensures Abs() == Push(old(Abs()), req, ok, memory) && (ret < 0 <==> !ok)
    {
      hide Cut, PushLens, Layout, PopCount, Sum;
      open := open + {req.fd};
      asked := asked + [req];
      cbMap := cbMap[req.fd := req];
      if !ok {
        lost := lost + [req];
        return -1;
      }
      var blocks: seq<seq<byte>> := [];
      if req.code.Read? {
        blocks := AllocateBlocks(memory);
      }
      if |sq| >= QUEUE_DEPTH {
        panicked := true;
        return 0;
      }
      sq := sq + [Entry(req, blocks)];
      queueSize := queueSize + 1;
      return 0;
    }

    /** `pop_request`, with `read_callback` or `write_callback`. */
    method PopRequest() returns (ret: int)
      modifies this
      ensures Abs() == Pop(old(Abs())) && ret == PopRet(old(Abs()))
    {
      hide Scatter, Concat, PopCount;
      if cq == [] {
        return -EAGAIN;
      }
      var d := cq[0];
      if d.res < 0 {
        return d.res;
      }
      var req := d.entry.req;
      var bytes := [];
      if req.code.Read? && d.res <= |req.data| {
        var total := PopBlocks(|req.data|);
        if total <= |Memory(d)| {
          bytes := Gather(Memory(d)[..total]);
        }
      }
      if req.fd !in cbMap || cbMap[req.fd].code != req.code {
        panicked := true;
        return 0;
      }
      open := open - {req.fd};
      fired := fired + [Fired(cbMap[req.fd], d.res, bytes)];
      cbMap := cbMap - {req.fd};
      cq := cq[1..];
      return 0;
    }

    /**
     The loop of `submitAndPop`. Where the source would go round again with nothing
     changed, the loop here is left with `spinning` set.
     */
    method DrainQueue(wanted: nat)
      modifies this
      ensures Abs() == Drain(old(Abs()), wanted)
    {
      hide Pop, PopRet;
      var n := wanted;
      while n > 0 && !panicked
        invariant Drain(Abs(), n) == Drain(old(Abs()), wanted)
        decreases n
      {
        PopAgain(Abs());
        var ret := PopRequest();
        if ret != 0 && ret == -EAGAIN {
          spinning := true;
          return;
        }
        n := n - 1;
      }
    }

    /** `submitAndPop`, and the reset of the count after it. */
    method SubmitAndPopAll(b: Batch)
      modifies this
      ensures Abs() == SubmitAndPop(old(Abs()), b)
    {
      hide Drain;
      if b.Accepted? {
        sq, kernel, cq, posted := [], b.flying, cq + b.done, posted + b.done;
        DrainQueue(queueSize);
      }
      queueSize := 0;
    }

    /** A request arrives through the channel. */
    method HandleRequest(req: Request, ok: bool, memory: seq<byte>, b: Batch)
      requires Enabled(Abs(), Ask(req, ok, memory, b))
      modifies this
      ensures Abs() == Apply(old(Abs()), Ask(req, ok, memory, b))
    {
      hide BatchOf, SubmitAndPop, Push, Supplied;
      var ret := PushRequest(req, ok, memory);
      if ret < 0 || panicked {
        return;
      }
      if queueSize > QUEUE_THRESHOLD {
        SubmitAndPopAll(b);
      }
    }

    method HandlePoll(b: Batch)
      requires Enabled(Abs(), Poll(b))
      modifies this
      ensures Abs() == Apply(old(Abs()), Poll(b))
    {
      hide BatchOf, SubmitAndPop;
      if queueSize > 0 {
        SubmitAndPopAll(b);
      }
    }

    /** The kernel posts a completion nobody waited for. */
    method LateCompletion(k: nat, res: int)
      requires Enabled(Abs(), Arrives(k, res))
      modifies this`kernel, this`cq, this`posted
      ensures Abs() == Apply(old(Abs()), Arrives(k, res))
    {
      var d := Completion(kernel[k], res);
      kernel := kernel[..k] + kernel[k + 1..];
      cq := cq + [d];
      posted := posted + [d];
    }

    /**
     `startLoop` handles the events in order, as a run of the state machine. It stops only if
     popping spins, if a push finds the ring full, which does not happen while batches are
     accepted, or if the event cannot happen.
     */
    method Loop(es: seq<Event>, ghost accepting: bool) returns (handled: nat)
      requires Visited(Abs(), accepting) && !panicked && (accepting ==> Accepting(es))
      modifies this
      ensures Visited(Abs(), accepting) && (accepting ==> !panicked)
      ensures panicked ==> |sq| >= QUEUE_DEPTH
      ensures handled <= |es| && (handled < |es| ==> spinning || panicked || !Enabled(Abs(), es[handled]))
      ensures Run(old(Abs()), es[..handled], Abs())
    {
      hide Visited, Enabled, Apply, Accepts, Run;
      handled := 0;
      RunNothing(Abs());
      while handled < |es|
        invariant handled <= |es| && Run(old(Abs()), es[..handled], Abs())
        invariant Visited(Abs(), accepting) && (panicked ==> |sq| >= QUEUE_DEPTH)
      {
        var e := es[handled];
        if !Enabled(Abs(), e) {
          break;
        }
        VisitedStep(Abs(), accepting, e);
        RunThen(old(Abs()), es[..handled], Abs(), e);
        assert es[..handled] + [e] == es[..handled + 1];
        match e {
          case Ask(req, ok, memory, b) => HandleRequest(req, ok, memory, b);
          case Poll(b) => HandlePoll(b);
          case Arrives(k, res) => LateCompletion(k, res);
        }
        handled := handled + 1;
      }
      if accepting { NoPanic(Abs()); }
    }
  }

  lemma RunNothing(s: State)
    ensures Run(s, [], s)
  {
  }

  /** Popping nothing changes nothing. */
  lemma PopAgain(s: State)
    ensures PopRet(s) == -EAGAIN ==> Pop(s) == s
  {
  }

  lemma NoPanic(s: State)
    requires Visited(s, true)
    ensures !s.panicked
  {
    hide Run;
    var es :| Run(INIT, es, s) && Accepting(es);
    AcceptedRuns(es, s);
  }
}
