/** The elements of several queues taken together, each as often as it occurs. */
module Bags {
  function All<T>(ss: seq<seq<T>>): multiset<T> {
    if ss == [] then multiset{} else All(ss[..|ss| - 1]) + multiset(ss[|ss| - 1])
  }

  lemma {:induction false} AllUpdate<T>(ss: seq<seq<T>>, i: nat, q: seq<T>)
    requires i < |ss|
    ensures All(ss[i := q]) + multiset(ss[i]) == All(ss) + multiset(q)
  {
    var k := |ss| - 1;
    if i == k {
      assert ss[i := q][..k] == ss[..k];
    } else {
      AllUpdate(ss[..k], i, q);
      assert ss[i := q][..k] == ss[..k][i := q];
      Aside(All(ss[..k][i := q]), multiset(ss[i]), All(ss[..k]), multiset(q), multiset(ss[k]));
    }
  }

  lemma {:induction false} AllEmpty<T>(ss: seq<seq<T>>)
    requires forall i :: 0 <= i < |ss| ==> ss[i] == []
    ensures All(ss) == multiset{}
  {
    if ss != [] { AllEmpty(ss[..|ss| - 1]); }
  }

  lemma {:induction false} AllMember<T>(ss: seq<seq<T>>, i: nat, x: T)
    requires i < |ss| && x in ss[i]
    ensures x in All(ss)
  {
    if i < |ss| - 1 { AllMember(ss[..|ss| - 1], i, x); }
  }

  /** Taking the first element of a queue, and putting one at its end. */
  lemma AllTail<T>(ss: seq<seq<T>>, i: nat)
    requires i < |ss| && ss[i] != []
    ensures All(ss[i := ss[i][1..]]) + multiset{ss[i][0]} == All(ss)
  {
    hide All;
    AllUpdate(ss, i, ss[i][1..]);
    assert ss[i] == [ss[i][0]] + ss[i][1..];
    var rest := multiset(ss[i][1..]);
    assert multiset(ss[i]) == multiset{ss[i][0]} + rest;
    Shift(All(ss[i := ss[i][1..]]), multiset{ss[i][0]}, rest, All(ss));
  }

  lemma AllAppend<T>(ss: seq<seq<T>>, i: nat, x: T)
    requires i < |ss|
    ensures All(ss[i := ss[i] + [x]]) == All(ss) + multiset{x}
  {
    hide All;
    AllUpdate(ss, i, ss[i] + [x]);
    assert multiset(ss[i] + [x]) == multiset(ss[i]) + multiset{x};
    Shift(All(ss), multiset{x}, multiset(ss[i]), All(ss[i := ss[i] + [x]]));
  }

  lemma Aside<T>(a: multiset<T>, p: multiset<T>, b: multiset<T>, q: multiset<T>, last: multiset<T>)
    requires a + p == b + q
    ensures (a + last) + p == (b + last) + q
  {
    assert (a + last) + p == (a + p) + last;
  }

  lemma Shift<T>(a: multiset<T>, x: multiset<T>, r: multiset<T>, b: multiset<T>)
    requires a + (x + r) == b + r || a + (r + x) == b + r
    ensures a + x == b
  {
    forall k ensures (a + x)[k] == b[k] {
      assert (a + (x + r))[k] == (b + r)[k];
    }
  }

  lemma Same<T>(a: multiset<T>, b: multiset<T>, x: multiset<T>)
    requires a + x == b + x
    ensures a == b
  {
    forall k ensures a[k] == b[k] {
      assert (a + x)[k] == (b + x)[k];
    }
  }

  lemma RemoveAt<T>(q: seq<T>, k: nat)
    requires k < |q|
    ensures multiset(q) == multiset(q[..k] + q[k + 1..]) + multiset{q[k]}
  {
    assert q == q[..k] + [q[k]] + q[k + 1..];
  }
}
