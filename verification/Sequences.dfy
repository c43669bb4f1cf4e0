/** Sequences without repetition, and what is left of a sequence when some of
    its elements are taken out. */
module Sequences {

  predicate Distinct<T(==)>(s: seq<T>) {
    forall i, j :: 0 <= i < j < |s| ==> s[i] != s[j]
  }

  /** The elements of s that are not in `out`, in order. */
  function Without<T(==)>(s: seq<T>, out: set<T>): seq<T> {
    if s == [] then []
    else if s[0] in out then Without(s[1..], out)
    else [s[0]] + Without(s[1..], out)
  }

  lemma {:induction false} WithoutMembers<T>(s: seq<T>, out: set<T>, x: T)
    ensures x in Without(s, out) <==> x in s && x !in out
  {
    if s != [] { WithoutMembers(s[1..], out, x); }
  }

  lemma {:induction false} WithoutAbsent<T>(s: seq<T>, out: set<T>)
    requires forall x :: x in out ==> x !in s
    ensures Without(s, out) == s
  {
    if s != [] {
      assert s[0] in s;
      WithoutAbsent(s[1..], out);
    }
  }

  lemma {:induction false} WithoutConcat<T>(a: seq<T>, b: seq<T>, out: set<T>)
    ensures Without(a + b, out) == Without(a, out) + Without(b, out)
  {
    if a == [] {
      assert a + b == b;
    } else {
      assert (a + b)[0] == a[0] && (a + b)[1..] == a[1..] + b;
      WithoutConcat(a[1..], b, out);
    }
  }

  lemma WithoutSnoc<T>(s: seq<T>, x: T, out: set<T>)
    ensures Without(s + [x], out) == Without(s, out) + if x in out then [] else [x]
  {
    WithoutConcat(s, [x], out);
  }

  lemma {:induction false} WithoutTwice<T>(s: seq<T>, a: set<T>, b: set<T>)
    ensures Without(Without(s, a), b) == Without(s, a + b)
  {
    if s != [] {
      WithoutTwice(s[1..], a, b);
      if s[0] !in a {
        assert Without(s, a)[1..] == Without(s[1..], a);
      }
    }
  }

  lemma {:induction false} WithoutSame<T>(s: seq<T>, a: set<T>, b: set<T>)
    requires forall x :: x in s ==> (x in a <==> x in b)
    ensures Without(s, a) == Without(s, b)
  {
    if s != [] {
      assert s[0] in s;
      WithoutSame(s[1..], a, b);
    }
  }

  lemma {:induction false} WithoutOne<T>(s: seq<T>, i: nat)
    requires Distinct(s) && i < |s|
    ensures Without(s, {s[i]}) == s[..i] + s[i + 1..]
  {
    if i == 0 {
      WithoutAbsent(s[1..], {s[0]});
    } else {
      WithoutOne(s[1..], i - 1);
      assert s[1..][i - 1] == s[i];
      assert s[..i] + s[i + 1..] == [s[0]] + (s[1..][..i - 1] + s[1..][i..]);
    }
  }

  lemma {:induction false} WithoutDistinct<T>(s: seq<T>, out: set<T>)
    requires Distinct(s)
    ensures Distinct(Without(s, out))
  {
    if s != [] {
      WithoutDistinct(s[1..], out);
      WithoutMembers(s[1..], out, s[0]);
    }
  }
}
