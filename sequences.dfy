/** Order-preserving filtering of a slice, as the listing loops do it by
    appending the kept elements one after the other. */
module Sequences {
  /** The elements of s that keep accepts, in their order in s. */
  function Filter<T>(s: seq<T>, keep: T -> bool): seq<T> {
    if s == [] then [] else Filter(s[..|s| - 1], keep) + (if keep(s[|s| - 1]) then [s[|s| - 1]] else [])
  }

  /** One more element: the step of an appending loop. */
  lemma FilterSnoc<T>(s: seq<T>, x: T, keep: T -> bool)
    ensures Filter(s + [x], keep) == Filter(s, keep) + (if keep(x) then [x] else [])
  {
    assert (s + [x])[..|s + [x]| - 1] == s;
  }

  /** Filtering commutes with concatenation, so the kept elements keep their
      relative order. */
  lemma {:induction false} FilterConcat<T>(a: seq<T>, b: seq<T>, keep: T -> bool)
    ensures Filter(a + b, keep) == Filter(a, keep) + Filter(b, keep)
    decreases |b|
  {
    if b == [] {
      assert a + b == a;
    } else {
      var b' := b[..|b| - 1];
      var x := b[|b| - 1];
      assert a + b == (a + b') + [x];
      assert b == b' + [x];
      FilterSnoc(a + b', x, keep);
      FilterSnoc(b', x, keep);
      FilterConcat(a, b', keep);
    }
  }

  /** An element is kept exactly when it occurs in s and is accepted. */
  lemma {:induction false} FilterMember<T>(s: seq<T>, keep: T -> bool, x: T)
    ensures x in Filter(s, keep) <==> x in s && keep(x)
  {
    if s != [] {
      var s' := s[..|s| - 1];
      FilterMember(s', keep, x);
      assert s == s' + [s[|s| - 1]];
    }
  }

  /** Filtering never lengthens. */
  lemma {:induction false} FilterLength<T>(s: seq<T>, keep: T -> bool)
    ensures |Filter(s, keep)| <= |s|
  {
    if s != [] {
      FilterLength(s[..|s| - 1], keep);
    }
  }

  /** When every element is accepted, nothing is dropped. */
  lemma {:induction false} FilterAll<T>(s: seq<T>, keep: T -> bool)
    requires forall x :: x in s ==> keep(x)
    ensures Filter(s, keep) == s
  {
    if s != [] {
      var s' := s[..|s| - 1];
      assert s == s' + [s[|s| - 1]];
      FilterAll(s', keep);
    }
  }

  /** Filtering twice with the same test is filtering once. */
  lemma {:induction false} FilterIdempotent<T>(s: seq<T>, keep: T -> bool)
    ensures Filter(Filter(s, keep), keep) == Filter(s, keep)
  {
    forall x | x in Filter(s, keep)
      ensures keep(x)
    {
      FilterMember(s, keep, x);
    }
    FilterAll(Filter(s, keep), keep);
  }

  /** The appending loop the listings run: each element the test accepts is
      appended, in order. */
  method KeepMatching<T>(s: seq<T>, keep: T -> bool) returns (kept: seq<T>)
    ensures kept == Filter(s, keep)
  {
    kept := [];
    for i := 0 to |s|
      invariant kept == Filter(s[..i], keep)
    {
      FilterSnoc(s[..i], s[i], keep);
      assert s[..i + 1] == s[..i] + [s[i]];
      if keep(s[i]) {
        kept := kept + [s[i]];
      }
    }
    assert s[..|s|] == s;
  }
}
