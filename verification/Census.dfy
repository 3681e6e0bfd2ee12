/**
 Counting by key: the multiset of keys found in a queue. "Every buffer is in exactly
 one place" and "every connection has exactly one operation" are equations between
 such multisets, and bounds follow from their sizes.
 */
module Census {
  import opened Bags

  datatype Option<+T> = None | Some(value: T)

  function One(k: Option<nat>): multiset<nat> {
    if k.Some? then multiset{k.value} else multiset{}
  }

  function Count<T>(s: seq<T>, f: T -> Option<nat>): multiset<nat> {
    if s == [] then multiset{} else Count(s[..|s| - 1], f) + One(f(s[|s| - 1]))
  }

  lemma Associative(a: multiset<nat>, b: multiset<nat>, c: multiset<nat>)
    ensures a + b + c == a + (b + c) && a + b + c == a + c + b
  {
  }

  /** Moving `x` from one of three counts to the next leaves their sum. */
  lemma Moved(a: multiset<nat>, a': multiset<nat>, b: multiset<nat>, b': multiset<nat>, c: multiset<nat>,
      x: multiset<nat>)
    requires a == a' + x && b' == b + x
    ensures a' + b' + c == a + b + c && a' + c + b' == a + c + b && c + a' + b' == c + a + b
  {
  }

  /** `q` comes in on one side while `x` leaves on another. */
  lemma Exchanged(a: multiset<nat>, a': multiset<nat>, q: multiset<nat>, b: multiset<nat>, c: multiset<nat>,
      c': multiset<nat>, x: multiset<nat>)
    requires a' == a + q && c == c' + x
    ensures (a' + b + c') + x == (a + b + c) + q
  {
  }

  /** `x` leaves the first or the second of three counts. */
  lemma Released(a: multiset<nat>, a': multiset<nat>, b: multiset<nat>, c: multiset<nat>, x: multiset<nat>)
    requires a == a' + x
    ensures a + b + c == a' + b + c + x && b + a + c == b + a' + c + x
  {
  }

  /** An element leaves the set and the count of it. */
  lemma Departed(keys: set<nat>, a: multiset<nat>, x: nat)
    requires a + multiset{x} == multiset(keys)
    ensures x in keys && a == multiset(keys - {x})
  {
    assert x in a + multiset{x};
    assert multiset(keys) == multiset(keys - {x}) + multiset{x};
    Same(a, multiset(keys - {x}), multiset{x});
  }

  /** An element of the count joins the set it was missing from. */
  lemma Joined(pool: set<nat>, a: multiset<nat>, a': multiset<nat>, x: nat)
    requires a == a' + multiset{x} && x !in pool
    ensures multiset(pool + {x}) + a' == multiset(pool) + a
  {
    assert multiset(pool + {x}) == multiset(pool) + multiset{x};
  }

  lemma PartBelow(a: multiset<nat>, b: multiset<nat>, keys: set<nat>)
    requires a <= b <= multiset(keys)
    ensures a <= multiset(keys)
  {
  }

  /** What leaves the set was counted once, so the rest stays below the rest of the set. */
  lemma LeavesBelow(a: multiset<nat>, keys: set<nat>, fd: nat)
    requires a + multiset{fd} <= multiset(keys)
    ensures a <= multiset(keys - {fd})
  {
    forall k ensures a[k] <= multiset(keys - {fd})[k] {
      assert (a + multiset{fd})[k] <= multiset(keys)[k];
    }
  }

  lemma JoinsBelow(a: multiset<nat>, keys: set<nat>, fd: nat)
    requires a <= multiset(keys) && fd !in keys
    ensures a + multiset{fd} <= multiset(keys + {fd})
  {
    forall k ensures (a + multiset{fd})[k] <= multiset(keys + {fd})[k] {
      assert a[k] <= multiset(keys)[k];
    }
  }

  lemma OneNone()
    ensures One(None) == multiset{} && forall a: multiset<nat> :: a + One(None) == a && One(None) + a == a
  {
  }

  lemma CountAppend<T>(s: seq<T>, x: T, f: T -> Option<nat>)
    ensures Count(s + [x], f) == Count(s, f) + One(f(x))
  {
    assert (s + [x])[..|s|] == s;
  }

  lemma CountLast<T>(s: seq<T>, f: T -> Option<nat>)
    requires s != []
    ensures Count(s, f) == Count(s[..|s| - 1], f) + One(f(s[|s| - 1]))
  {
  }

  lemma SizeLast<T>(s: seq<T>, f: T -> Option<nat>)
    ensures |Count(s, f)| == if s == [] then 0 else |Count(s[..|s| - 1], f)| + if f(s[|s| - 1]).Some? then 1 else 0
  {
  }

  lemma {:induction false} CountConcat<T>(s: seq<T>, t: seq<T>, f: T -> Option<nat>)
    ensures Count(s + t, f) == Count(s, f) + Count(t, f)
  {
    hide Count, One;
    if t == [] {
      assert s + t == s;
      SizeLast(t, f);
    } else {
      var n := |t| - 1;
      CountConcat(s, t[..n], f);
      assert (s + t)[..|s + t| - 1] == s + t[..n];
      CountLast(s + t, f);
      CountLast(t, f);
      Associative(Count(s, f), Count(t[..n], f), One(f(t[n])));
    }
  }

  lemma CountRemove<T>(s: seq<T>, i: nat, f: T -> Option<nat>)
    requires i < |s|
    ensures Count(s, f) == Count(s[..i] + s[i + 1..], f) + One(f(s[i]))
  {
    hide Count, One;
    var a, c := s[..i], s[i + 1..];
    assert s == a + [s[i]] + c;
    CountConcat(a + [s[i]], c, f);
    CountAppend(a, s[i], f);
    CountConcat(a, c, f);
    Associative(Count(a, f), One(f(s[i])), Count(c, f));
  }

  lemma CountTail<T>(s: seq<T>, f: T -> Option<nat>)
    requires s != []
    ensures Count(s, f) == Count(s[1..], f) + One(f(s[0]))
  {
    CountRemove(s, 0, f);
    assert s[..0] + s[1..] == s[1..];
  }

  lemma CountOne<T>(x: T, f: T -> Option<nat>)
    ensures Count([x], f) == One(f(x))
  {
    CountAppend([], x, f);
    assert [] + [x] == [x];
  }

  lemma CountTwo<T>(x: T, y: T, f: T -> Option<nat>)
    ensures Count([x, y], f) == One(f(x)) + One(f(y))
  {
    CountOne(x, f);
    CountAppend([x], y, f);
    assert [x] + [y] == [x, y];
  }

  /** The count of a queue of at most two elements, written out. */
  lemma CountShort<T>(q: seq<T>, f: T -> Option<nat>)
    requires |q| <= 2
    ensures |q| == 0 ==> Count(q, f) == multiset{}
    ensures |q| == 1 ==> Count(q, f) == One(f(q[0]))
    ensures |q| == 2 ==> Count(q, f) == One(f(q[0])) + One(f(q[1]))
  {
    if |q| == 1 {
      assert q == [q[0]];
      CountOne(q[0], f);
    } else if |q| == 2 {
      assert q == [q[0], q[1]];
      CountTwo(q[0], q[1], f);
    }
  }

  /** A key that is not counted occurs nowhere. */
  lemma {:induction false} Absent<T>(s: seq<T>, f: T -> Option<nat>, k: nat)
    requires k !in Count(s, f)
    ensures forall x :: x in s ==> f(x) != Some(k)
  {
    if s != [] {
      Absent(s[..|s| - 1], f, k);
      assert s == s[..|s| - 1] + [s[|s| - 1]];
    }
  }

  /** If every element `f` counts is also counted by `g`, `g` counts at least as many. */
  lemma {:induction false} CountLess<T>(s: seq<T>, f: T -> Option<nat>, g: T -> Option<nat>)
    requires forall x :: x in s ==> f(x).Some? ==> g(x).Some?
    ensures |Count(s, f)| <= |Count(s, g)|
    ensures (exists x :: x in s && g(x).Some? && f(x).None?) ==> |Count(s, f)| < |Count(s, g)|
  {
    if s != [] {
      var n := |s| - 1;
      assert s == s[..n] + [s[n]];
      CountLess(s[..n], f, g);
      assert f(s[n]).Some? ==> g(s[n]).Some?;
    }
  }
}
