/**
 The life of a connection of the two Go servers, as the kernel sees it: which operation on a
 descriptor completes after which. A descriptor is handed out by an accept; then reads and
 sends alternate, each send for as many bytes as were read; a read that brings nothing is
 followed by a close, unless it reports that the descriptor is bad; nothing follows that, or
 a close that failed; and only after a close that succeeded is the descriptor handed out
 again.
 */
module Sessions {
  import opened Streams

  /** The error number of a bad descriptor. */
  const BAD_DESCRIPTOR := 9

  datatype Act = Accepts | Reads(fd: nat) | Sends(fd: nat, size: nat) | Closes(fd: nat)

  /** An operation completed. */
  datatype Note = Note(act: Act, res: int)

  /** The completion concerns the descriptor: an operation on it, or the accept that handed it out. */
  predicate Concerns(n: Note, fd: nat) {
    if n.act.Accepts? then n.res == fd else n.act.fd == fd
  }

  function History(ns: seq<Note>, fd: nat): seq<Note> {
    if ns == [] then [] else History(Front(ns), fd) + if Concerns(Last(ns), fd) then [Last(ns)] else []
  }

  /** The descriptor was given back. */
  predicate Ended(n: Note) {
    n.act.Closes? && 0 <= n.res
  }

  /** Nothing will happen on the descriptor any more, although it is open. */
  predicate Stalled(n: Note) {
    (n.act.Reads? && n.res == -BAD_DESCRIPTOR) || (n.act.Closes? && n.res < 0)
  }

  /** The operation is the next one on the descriptor after the completion. */
  predicate Answers(n: Note, act: Act) {
    match n.act
    case Accepts => 0 <= n.res && act == Reads(n.res)
    case Reads(fd) => !Stalled(n) && act == if 0 < n.res then Sends(fd, n.res) else Closes(fd)
    case Sends(fd, _) => act == Reads(fd)
    case Closes(_) => false
  }

  /** The second completion may follow the first on the same descriptor. */
  predicate Follows(n: Note, d: Note) {
    if d.act.Accepts? then Ended(n) else Answers(n, d.act)
  }

  predicate Orderly(h: seq<Note>) {
    && (h != [] ==> h[0].act.Accepts?)
    && forall i :: 0 < i < |h| ==> Follows(h[i - 1], h[i])
  }

  /** The descriptor is open: handed out, and not given back since. */
  predicate Running(h: seq<Note>) {
    h != [] && !Ended(Last(h))
  }

  lemma HistoryLast(ns: seq<Note>, n: Note, fd: nat)
    ensures History(ns + [n], fd) == if Concerns(n, fd) then History(ns, fd) + [n] else History(ns, fd)
  {
    assert Front(ns + [n]) == ns;
  }

  lemma OrderlyAppend(h: seq<Note>, n: Note)
    requires Orderly(h) && (if h == [] then n.act.Accepts? else Follows(Last(h), n))
    ensures Orderly(h + [n])
  {
    hide Follows;
  }

  /** Accepts that failed; none is made in their place. */
  function FailedAccepts(ns: seq<Note>): nat {
    if ns == [] then 0 else FailedAccepts(Front(ns)) + if Last(ns).act.Accepts? && Last(ns).res < 0 then 1 else 0
  }

  lemma FailedLast(ns: seq<Note>, n: Note)
    ensures FailedAccepts(ns + [n]) == FailedAccepts(ns) + if n.act.Accepts? && n.res < 0 then 1 else 0
  {
    assert Front(ns + [n]) == ns;
  }
}
