/**
 The byte streams of one TCP connection as the kernel sees them, together with a
 log of the messages that crossed it: each successful receive opens a message,
 each successful send on the connection adds its byte count to the last message.
 Every echo server of this project is measured against these streams.
 */
module Streams {
  newtype byte = x: int | 0 <= x < 256

  /** One received message and the byte counts of the sends made while it was current. */
  datatype Message = Message(data: seq<byte>, results: seq<nat>)

  datatype Stream = Stream(received: seq<byte>, sent: seq<byte>, log: seq<Message>)

  const EMPTY_STREAM := Stream([], [], [])

  function Sum(rs: seq<nat>): nat {
    if rs == [] then 0 else Sum(rs[..|rs| - 1]) + rs[|rs| - 1]
  }

  function Last<T>(s: seq<T>): T
    requires s != []
  {
    s[|s| - 1]
  }

  function Front<T>(s: seq<T>): seq<T>
    requires s != []
  {
    s[..|s| - 1]
  }

  /** Every byte that arrived, in order. */
  function Arrived(log: seq<Message>): seq<byte> {
    if log == [] then [] else Arrived(Front(log)) + Last(log).data
  }

  /** The part of a message covered by its sends, when they cover a prefix. */
  function Covered(m: Message): seq<byte> {
    if Sum(m.results) <= |m.data| then m.data[..Sum(m.results)] else m.data
  }

  /** For each message in order, the prefix that was sent back. */
  function Echoed(log: seq<Message>): seq<byte> {
    if log == [] then [] else Echoed(Front(log)) + Covered(Last(log))
  }

  /** The whole message went back. */
  predicate Whole(m: Message) {
    Sum(m.results) == |m.data|
  }

  /**
   What was sent on the connection is, message by message, a contiguous and
   duplicate-free prefix of what was received on it.
   */
  predicate Faithful(st: Stream) {
    && st.received == Arrived(st.log)
    && st.sent == Echoed(st.log)
    && forall m :: m in st.log ==> m.data != [] && Sum(m.results) <= |m.data|
  }

  lemma SumAppend(rs: seq<nat>, r: nat)
    ensures Sum(rs + [r]) == Sum(rs) + r
  {
    assert (rs + [r])[..|rs|] == rs;
  }

  lemma EmptyFaithful()
    ensures Faithful(EMPTY_STREAM)
  {
  }

  /** Receiving a message keeps a faithful stream faithful. */
  lemma ReceiveKeepsFaithful(st: Stream, data: seq<byte>)
    requires Faithful(st) && data != []
    ensures Faithful(Stream(st.received + data, st.sent, st.log + [Message(data, [])]))
  {
    var log := st.log + [Message(data, [])];
    assert Front(log) == st.log;
    assert Echoed(log) == st.sent + [];
  }

  /** The stream after a send whose bytes continue the last message. */
  function AfterSend(st: Stream, bytes: seq<byte>): Stream {
    if st.log == [] then st.(sent := st.sent + bytes)
    else st.(sent := st.sent + bytes,
             log := Front(st.log) + [Message(Last(st.log).data, Last(st.log).results + [|bytes|])])
  }

  /** Sending the next bytes of the last message keeps a faithful stream faithful. */
  lemma SendKeepsFaithful(st: Stream, bytes: seq<byte>)
    requires Faithful(st) && st.log != []
    requires var m := Last(st.log); var done := Sum(m.results);
             done + |bytes| <= |m.data| && bytes == m.data[done..done + |bytes|]
    ensures Faithful(AfterSend(st, bytes))
  {
    var m := Last(st.log);
    var m' := Message(m.data, m.results + [|bytes|]);
    hide Echoed, Arrived, Covered, Sum;
    CoveredMore(m, bytes);
    SumAppend(m.results, |bytes|);
    SendExtends(st.log, m', bytes);
    Replaced(st.log, m');
  }

  /** The last message grows by some bytes sent; so does what went back, and nothing else changes. */
  lemma SendExtends(log: seq<Message>, x: Message, bytes: seq<byte>)
    requires log != [] && x.data == Last(log).data && Covered(x) == Covered(Last(log)) + bytes
    ensures Echoed(Front(log) + [x]) == Echoed(log) + bytes && Arrived(Front(log) + [x]) == Arrived(log)
  {
    hide Covered;
    LastReplaced(log, x);
    assert Echoed(Front(log)) + (Covered(Last(log)) + bytes) == Echoed(Front(log)) + Covered(Last(log)) + bytes;
  }

  lemma Replaced(log: seq<Message>, x: Message)
    requires log != []
    ensures forall y :: y in Front(log) + [x] ==> y in log || y == x
  {
  }

  /** The last message of a log, whichever it is. */
  lemma LastReplaced(log: seq<Message>, x: Message)
    requires log != []
    ensures Echoed(Front(log) + [x]) == Echoed(Front(log)) + Covered(x)
    ensures Arrived(Front(log) + [x]) == Arrived(Front(log)) + x.data
  {
    assert Front(Front(log) + [x]) == Front(log);
  }

  lemma CoveredMore(m: Message, bytes: seq<byte>)
    requires Sum(m.results) + |bytes| <= |m.data| && bytes == m.data[Sum(m.results)..Sum(m.results) + |bytes|]
    ensures Covered(Message(m.data, m.results + [|bytes|])) == Covered(m) + bytes
  {
    SumAppend(m.results, |bytes|);
  }

  /** A log is echoed in full exactly when each of its messages is. */
  lemma {:induction false} EchoedInFull(log: seq<Message>)
    requires forall m :: m in log ==> Sum(m.results) <= |m.data|
    ensures |Echoed(log)| <= |Arrived(log)|
    ensures Echoed(log) == Arrived(log) <==> forall m :: m in log ==> Whole(m)
  {
    if log != [] {
      EchoedInFull(Front(log));
      var m := Last(log);
      assert forall x :: x in log <==> x in Front(log) || x == m;
      if Whole(m) {
        assert Covered(m) == m.data;
        if Echoed(log) == Arrived(log) {
          var k := |Echoed(Front(log))|;
          assert k == |Arrived(Front(log))|;
          assert Echoed(log)[..k] == Echoed(Front(log)) && Arrived(log)[..k] == Arrived(Front(log));
        }
      } else {
        assert |Echoed(log)| < |Arrived(log)|;
      }
    }
  }

  /** No message took more than one send. */
  predicate SentOnce(st: Stream) {
    forall m :: m in st.log ==> |m.results| <= 1
  }

  /**
   With one send per message everything went back exactly when each message had its send
   and that send was a full one.
   */
  lemma FullSendsExactly(st: Stream)
    requires Faithful(st) && SentOnce(st)
    ensures st.sent == st.received <==> forall m :: m in st.log ==> m.results == [|m.data|]
  {
    EchoedInFull(st.log);
    forall m | m in st.log ensures Whole(m) <==> m.results == [|m.data|] {
      SumShort(m.results);
    }
  }

  lemma SumShort(rs: seq<nat>)
    requires |rs| <= 1
    ensures Sum(rs) == if rs == [] then 0 else rs[0]
    ensures rs != [] ==> rs == [rs[0]]
  {
  }

  // ---------------------------------------------------------------- when the bytes may be wrong

  /** What holds of a stream whatever bytes were sent: right in number, message by message, one send each. */
  predicate Sound(st: Stream) {
    && st.received == Arrived(st.log) && |st.sent| == |Echoed(st.log)|
    && forall m :: m in st.log ==> m.data != [] && Sum(m.results) <= |m.data| && |m.results| <= 1
  }

  /** A sound stream is faithful exactly when the bytes are right. */
  lemma SoundFaithful(st: Stream)
    ensures Faithful(st) && SentOnce(st) <==> Sound(st) && st.sent == Echoed(st.log)
  {
  }

  lemma EmptySound()
    ensures Sound(EMPTY_STREAM)
  {
  }

  lemma ReceiveKeepsSound(st: Stream, data: seq<byte>)
    requires Sound(st) && data != []
    ensures Sound(Stream(st.received + data, st.sent, st.log + [Message(data, [])]))
  {
    var log := st.log + [Message(data, [])];
    assert Front(log) == st.log;
    assert Echoed(log) == Echoed(st.log) + [];
  }

  /** What a send adds to the log: the first bytes of the unsent message are now accounted for. */
  lemma SendAccounted(st: Stream, bytes: seq<byte>)
    requires st.log != [] && Last(st.log).results == [] && |bytes| <= |Last(st.log).data|
    ensures var st' := AfterSend(st, bytes);
            && Echoed(st'.log) == Echoed(st.log) + Last(st.log).data[..|bytes|] && Arrived(st'.log) == Arrived(st.log)
            && st'.log == Front(st.log) + [Message(Last(st.log).data, [|bytes|])]
  {
    var m, front := Last(st.log), Front(st.log);
    var m' := Message(m.data, [|bytes|]);
    assert m.results + [|bytes|] == [|bytes|];
    assert Front(front + [m']) == front;
    SumShort(m'.results);
    assert Covered(m) == [];
    assert Echoed(st.log) == Echoed(front) + [] == Echoed(front);
  }

  lemma SendKeepsSound(st: Stream, bytes: seq<byte>)
    requires Sound(st) && st.log != [] && Last(st.log).results == [] && |bytes| <= |Last(st.log).data|
    ensures Sound(AfterSend(st, bytes))
  {
    SendAccounted(st, bytes);
    var m' := Message(Last(st.log).data, [|bytes|]);
    SumShort(m'.results);
    hide Echoed, Arrived;
    forall x | x in AfterSend(st, bytes).log ensures x.data != [] && Sum(x.results) <= |x.data| && |x.results| <= 1 {
      if x != m' { assert x in Front(st.log) && x in st.log; }
    }
  }

  /**
   Sending some bytes for an unsent message leaves a sound stream faithful exactly when it
   was faithful and the bytes are the beginning of the message.
   */
  lemma SendExactly(st: Stream, bytes: seq<byte>)
    requires Sound(st) && st.log != [] && Last(st.log).results == [] && |bytes| <= |Last(st.log).data|
    ensures Sound(AfterSend(st, bytes))
    ensures Faithful(AfterSend(st, bytes)) <==> Faithful(st) && bytes == Last(st.log).data[..|bytes|]
  {
    SendKeepsSound(st, bytes);
    SendAccounted(st, bytes);
    SoundFaithful(st);
    SoundFaithful(AfterSend(st, bytes));
    SoundOnce(st);
    SoundOnce(AfterSend(st, bytes));
    SamePieces(st.sent, bytes, Echoed(st.log), Last(st.log).data[..|bytes|]);
    hide Echoed, Arrived, Faithful, SentOnce;
  }

  lemma SoundOnce(st: Stream)
    requires Sound(st)
    ensures SentOnce(st) && |st.sent| == |Echoed(st.log)|
  {
  }

  lemma SamePieces<T>(a: seq<T>, b: seq<T>, c: seq<T>, d: seq<T>)
    requires |a| == |c|
    ensures a + b == c + d <==> a == c && b == d
  {
    assert (a + b)[..|a|] == a && (a + b)[|a|..] == b;
    assert (c + d)[..|a|] == c && (c + d)[|a|..] == d;
  }
}
