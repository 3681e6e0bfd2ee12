/**
 The coroutine server in the form of its source: a map of coroutines whose promise fields
 are overwritten by the event loop and by the coroutines themselves.
 */
module CoroutineServer {
  import opened ProvidedBuffers
  import opened Coroutine
  import opened CoroutineTwin

  class EchoServer {
    var listenFd: nat
    var connections: map<nat, Task>
    var log: seq<Sqe>
    var shut: seq<nat>
    var exited: bool

    function Abs(): CoState
      reads this
    {
      CoState(connections, log, shut, exited)
    }

    constructor (listenFd: nat)
      ensures Abs() == CoState(map[], [AddAccept(listenFd)], [], false) && this.listenFd == listenFd
    {
      this.listenFd := listenFd;
      connections, log, shut, exited := map[], [AddAccept(listenFd)], [], false;
    }

    /** The `await_suspend` bodies: queue an entry tagged with the promise's updated `conn_info`. */
    method EchoRead(fd: nat)
      requires fd in connections
      modifies this`connections, this`log
      ensures var (e, info) := AwaitRead(old(connections)[fd].info);
              && log == old(log) + [e]
              && connections == old(connections)[fd := old(connections)[fd].(point := AtRead, info := info)]
    {
      var t := connections[fd];
      var info := t.info.(kind := READ);
      log := log + [Sqe(Read(t.info.fd), info)];
      connections := connections[fd := t.(point := AtRead, info := info)];
    }

    method EchoWrite(fd: nat, size: nat)
      requires fd in connections
      modifies this`connections, this`log
      ensures var (e, info) := AwaitWrite(old(connections)[fd].info, size);
              && log == old(log) + [e]
              && connections == old(connections)[fd := old(connections)[fd].(point := AtWrite, info := info)]
    {
      var t := connections[fd];
      var info := t.info.(kind := WRITE);
      log := log + [Sqe(Write(t.info.fd, t.info.bid, size), info)];
      connections := connections[fd := t.(point := AtWrite, info := info)];
    }

    method EchoAddBuffer(fd: nat)
      requires fd in connections
      modifies this`connections, this`log
      ensures var (e, info) := AwaitAddBuffer(old(connections)[fd].info);
              log == old(log) + [e] && connections == old(connections)[fd := old(connections)[fd].(info := info)]
    {
      var t := connections[fd];
      var info := t.info.(kind := PROV_BUF);
      log := log + [Sqe(Provide(t.info.bid), info)];
      connections := connections[fd := t.(info := info)];
    }

    /** `handler.resume()`: `handle_echo` from its suspension point to the next one. */
    method ResumeTask(fd: nat)
      requires fd in connections
      modifies this`connections, this`log, this`shut
      ensures Abs() == ResumeAt(old(Abs()), fd, old(connections)[fd])
    {
      var t := connections[fd];
      if t.point == AtRead {
        if t.res == 0 {
          EchoAddBuffer(fd);
          shut := shut + [fd];
          connections := connections - {fd};
          assert connections == old(connections) - {fd};
        } else {
          EchoWrite(fd, t.res);
        }
        return;
      }
      if t.point == AtWrite {
        EchoAddBuffer(fd);
      }
      EchoRead(fd);
      assert t.point == AtWrite ==> log == old(log) + [AwaitAddBuffer(t.info).0, AwaitRead(AwaitAddBuffer(t.info).1).0];
    }

    /** The event loop's body. */
    method HandleCqe(junk: nat, tag: ConnInfo, res: int, flags: nat)
      requires IsInt(res) && Found(Abs(), tag, res)
      modifies this`connections, this`log, this`shut, this`exited
      ensures Abs() == CoHandle(old(Abs()), listenFd, junk, tag, res, flags)
    {
      if res == -ENOBUFS {
        exited := true;
      } else if tag.kind == PROV_BUF {
        if res < 0 { exited := true; }
      } else if tag.kind == ACCEPT {
        if res >= 0 {
          var t := if res in connections then connections[res] else Task(Start, ConnInfo(res, READ, junk), 0);
          connections := connections[res := t.(info := t.info.(fd := res))];
          ghost var before := connections;
          ResumeTask(res);
          assert connections == before - {res} ==> connections == old(connections) - {res};
        }
        log := log + [AddAccept(listenFd)];
      } else if tag.kind == READ {
        var t := connections[tag.fd];
        connections := connections[tag.fd := t.(info := t.info.(bid := flags / BUFFER_SHIFT), res := ToSize(res))];
        ghost var before := connections;
        ResumeTask(tag.fd);
        assert connections == before - {tag.fd} ==> connections == old(connections) - {tag.fd};
      } else {
        ResumeTask(tag.fd);
      }
    }

    /**
     The event loop over a whole trace of completions: the emissions are those of the
     explicit loop on the same trace.
     */
    method Serve(cs: seq<Completion>)
      requires Abs() == CoState(map[], [AddAccept(listenFd)], [], false)
      requires Trace(Loop({}, [AddAccept(listenFd)], [], false), listenFd, {}, cs)
      modifies this
      ensures listenFd == old(listenFd)
      ensures Ops(log) == Ops(LoopRun(Loop({}, [AddAccept(listenFd)], [], false), listenFd, {}, cs).log)
    {
      hide CoStep, LoopStep, CoHandle;
      SameOperations(listenFd, cs);
      for i := 0 to |cs|
        invariant listenFd == old(listenFd)
        invariant CoRun(old(Abs()), listenFd, cs) == CoRun(Abs(), listenFd, cs[i..])
      {
        var c := cs[i];
        assert cs[i..][0] == c && cs[i..][1..] == cs[i + 1..];
        ghost var before := Abs();
        HandleCqe(c.junk, log[c.index].tag, c.res, c.flags);
        assert Abs() == CoStep(before, listenFd, c) by { CoStepUnfolds(before, listenFd, c); }
      }
      assert cs[|cs|..] == [];
    }
  }

  lemma CoStepUnfolds(s: CoState, listenFd: nat, c: Completion)
    requires c.index < |s.log| && IsInt(c.res) && Found(s, s.log[c.index].tag, c.res)
    ensures CoStep(s, listenFd, c) == CoHandle(s, listenFd, c.junk, s.log[c.index].tag, c.res, c.flags)
  {
  }
}
