/**
 The offset arithmetic by which the token server continues a send that the kernel
 cut short (netpoll/echo/rust-iouring-server/src/main.rs, the Write arm). The arm
 replaces `len` by a remaining count while `offset` stays cumulative, and its exit
 test compares the sum of the two with `len`.
 */
module PartialSend {
  import opened Streams

  datatype Window = Finished | At(offset: nat, len: nat)

  /** One completion of `n` bytes against the current window. */
  function Advance(w: Window, n: nat): Window {
    match w
    case Finished => Finished
    case At(offset, len) =>
      if offset + n >= len then Finished
      else At(offset + n, len - (offset + n))
  }

  /** The window after a message of `size` bytes has seen the given results. */
  function After(size: nat, results: seq<nat>): Window {
    if results == [] then At(0, size) else Advance(After(size, Front(results)), Last(results))
  }

  /** Each result answers a request that was made and is no larger than it. */
  predicate Feasible(size: nat, results: seq<nat>) {
    results == [] ||
    (&& Feasible(size, Front(results))
     && After(size, Front(results)).At?
     && Last(results) <= After(size, Front(results)).len)
  }

  /**
   What a caller can read off the results: the first result that is neither zero
   nor the whole message, if there is one, is followed at once by all the rest.
   */
  predicate FirstShortThenFull(size: nat, results: seq<nat>) {
    forall i :: 0 <= i < |results| && IsFirstShort(size, results, i) ==>
      i + 1 < |results| && results[i + 1] == size - results[i]
  }

  predicate IsFirstShort(size: nat, results: seq<nat>, i: nat)
    requires i < |results|
  {
    0 < results[i] < size && forall j :: 0 <= j < i ==> results[j] == 0 || results[j] == size
  }

  /** The next request starts where the bytes sent so far end and stays inside the message. */
  lemma {:induction false} WindowIsNextSlice(size: nat, results: seq<nat>)
    requires 0 < size && Feasible(size, results)
    ensures Sum(results) <= size
    ensures match After(size, results)
            case At(offset, len) => offset == Sum(results) && 0 < len && offset + len <= size
            case Finished => results != []
  {
    if results != [] {
      WindowIsNextSlice(size, Front(results));
    }
  }

  /** A result that moves the window without finishing strictly shrinks `len`. */
  lemma LenShrinks(size: nat, results: seq<nat>, n: nat)
    requires 0 < size && Feasible(size, results + [n]) && 0 < n
    requires After(size, results + [n]).At?
    ensures After(size, results).At? && After(size, results + [n]).len < After(size, results).len
  {
    assert Front(results + [n]) == results;
    WindowIsNextSlice(size, results);
  }

  /** As long as every result was zero the window is the whole message. */
  lemma {:induction false} AllZero(size: nat, results: seq<nat>)
    requires 0 < size && forall i :: 0 <= i < |results| ==> results[i] == 0
    ensures After(size, results) == At(0, size) && Sum(results) == 0
  {
    if results != [] { AllZero(size, Front(results)); }
  }

  /** Once the window stops short of the message's end it never reaches it again. */
  lemma {:induction false} StuckShort(size: nat, results: seq<nat>, k: nat)
    requires 0 < size && Feasible(size, results) && k <= |results|
    requires match After(size, results[..k])
             case At(offset, len) => offset + len < size
             case Finished => Sum(results[..k]) < size
    ensures Sum(results) < size
    ensures After(size, results).At? ==>
              After(size, results).offset + After(size, results).len < size
    decreases |results|
  {
    if k == |results| {
      assert results[..k] == results;
      WindowIsNextSlice(size, results);
    } else {
      var front := Front(results);
      assert front[..k] == results[..k];
      StuckShort(size, front, k);
      WindowIsNextSlice(size, front);
    }
  }

  /** A result no larger than the request extends a feasible run. */
  lemma FeasibleExtend(size: nat, results: seq<nat>, n: nat)
    requires Feasible(size, results) && After(size, results).At? && n <= After(size, results).len
    ensures Feasible(size, results + [n]) && Front(results + [n]) == results
  {
    assert Front(results + [n]) == results;
  }

  /** Every prefix of a feasible run is feasible, and its last window bounds the next result. */
  lemma {:induction false} FeasiblePrefix(size: nat, results: seq<nat>, k: nat)
    requires Feasible(size, results) && k <= |results|
    ensures Feasible(size, results[..k])
    ensures k < |results| ==> After(size, results[..k]).At? && results[k] <= After(size, results[..k]).len
    decreases |results|
  {
    if k == |results| {
      assert results[..k] == results;
    } else {
      var front := Front(results);
      assert front[..k] == results[..k];
      if k < |front| { FeasiblePrefix(size, front, k); } else { assert results[..k] == front; }
    }
  }

  /**
   When the server stops sending a message, all of it went back exactly when the
   first nonzero short send, if any, was followed by a full one.
   */
  lemma {:induction false} CompleteExactly(size: nat, results: seq<nat>)
    requires 0 < size && Feasible(size, results) && After(size, results) == Finished
    ensures Sum(results) == size <==> FirstShortThenFull(size, results)
  {
    WindowIsNextSlice(size, results);
    var i := FirstNonzero(size, results);
    FeasiblePrefix(size, results, i);
    AllZero(size, results[..i]);
    Extend(size, results, i);
    if results[i] == size {
      EndsAt(size, results, i);
      assert results[..i + 1] == results;
      assert forall j {:trigger results[j]} :: 0 <= j < |results| ==> results[j] == 0 || results[j] == size;
    } else {
      SecondSend(size, results, i);
      ShortIsAt(size, results, i);
    }
  }

  /** A finished run has a nonzero result; the first one sits at the returned index. */
  lemma {:induction false} FirstNonzero(size: nat, results: seq<nat>) returns (i: nat)
    requires 0 < size && Feasible(size, results) && After(size, results) == Finished
    ensures i < |results| && 0 < results[i] && forall j :: 0 <= j < i ==> results[j] == 0
    ensures results[i] <= size
  {
    i := 0;
    while i < |results| && results[i] == 0
      invariant i <= |results| && forall j :: 0 <= j < i ==> results[j] == 0
    {
      i := i + 1;
    }
    if i == |results| { AllZero(size, results); }
    FeasiblePrefix(size, results, i);
    AllZero(size, results[..i]);
  }

  /** Nothing follows the result that finished the message. */
  lemma EndsAt(size: nat, results: seq<nat>, i: nat)
    requires 0 < size && Feasible(size, results) && i < |results|
    requires After(size, results[..i + 1]) == Finished
    ensures i + 1 == |results|
  {
    if i + 1 < |results| { FeasiblePrefix(size, results, i + 1); }
  }

  /** With a nonzero short send at `i` after zeros only, the condition speaks of `i` alone. */
  lemma ShortIsAt(size: nat, results: seq<nat>, i: nat)
    requires i < |results| && 0 < results[i] < size
    requires forall j :: 0 <= j < i ==> results[j] == 0
    ensures FirstShortThenFull(size, results) <==>
              i + 1 < |results| && results[i + 1] == size - results[i]
  {
    assert IsFirstShort(size, results, i);
    assert forall j: nat :: j < |results| && IsFirstShort(size, results, j) ==> j == i;
  }

  /** After a nonzero short send at `i`, completeness is decided by the next result. */
  lemma SecondSend(size: nat, results: seq<nat>, i: nat)
    requires 0 < size && Feasible(size, results) && After(size, results) == Finished
    requires i < |results| && 0 < results[i] < size
    requires forall j :: 0 <= j < i ==> results[j] == 0
    ensures i + 1 < |results| && (Sum(results) == size <==> results[i + 1] == size - results[i])
  {
    var w := results[i];
    AllZero(size, results[..i]);
    Extend(size, results, i);
    assert After(size, results[..i + 1]) == At(w, size - w);
    assert results[..|results|] == results;
    FeasiblePrefix(size, results, i + 1);
    Extend(size, results, i + 1);
    if results[i + 1] == size - w {
      EndsAt(size, results, i + 1);
      assert results[..i + 2] == results;
    } else {
      StuckShort(size, results, i + 2);
    }
  }

  lemma Extend(size: nat, results: seq<nat>, i: nat)
    requires i < |results|
    ensures After(size, results[..i + 1]) == Advance(After(size, results[..i]), results[i])
    ensures Sum(results[..i + 1]) == Sum(results[..i]) + results[i]
  {
    assert results[..i + 1] == results[..i] + [results[i]] && Front(results[..i + 1]) == results[..i];
    SumAppend(results[..i], results[i]);
  }

  /** A message of four bytes, sent one and two bytes at a time, is taken for finished after three. */
  lemma TwoShortSendsLoseAByte()
    ensures Feasible(4, [1, 2]) && After(4, [1, 2]) == Finished && Sum([1, 2]) == 3
  {
    assert Front([1, 2]) == [1] && Front([1]) == [];
    assert [1, 2][..1] == [1] && [1][..0] == [];
  }

  // ---------------------------------------------------------------- the arithmetic that would not lose bytes

  /** The same step with `offset` cumulative and `len` the remaining count throughout. */
  function AdvanceRest(w: Window, n: nat): Window {
    match w
    case Finished => Finished
    case At(offset, len) => if n >= len then Finished else At(offset + n, len - n)
  }

  function AfterRest(size: nat, results: seq<nat>): Window {
    if results == [] then At(0, size) else AdvanceRest(AfterRest(size, Front(results)), Last(results))
  }

  predicate FeasibleRest(size: nat, results: seq<nat>) {
    results == [] ||
    (&& FeasibleRest(size, Front(results))
     && AfterRest(size, Front(results)).At?
     && Last(results) <= AfterRest(size, Front(results)).len)
  }

  /** With it a message is finished exactly when all of it has been sent, for every sequence of results. */
  lemma {:induction false} RestNeverLoses(size: nat, results: seq<nat>)
    requires 0 < size && FeasibleRest(size, results)
    ensures match AfterRest(size, results)
            case At(offset, len) => offset == Sum(results) && offset + len == size && 0 < len
            case Finished => Sum(results) == size
  {
    if results != [] {
      RestNeverLoses(size, Front(results));
    }
  }
}
