/** Sequences: without repetitions, without an element, and permuted. */
module Sequences {

  ghost predicate Distinct<T>(s: seq<T>) {
    forall i, j :: 0 <= i < j < |s| ==> s[i] != s[j]
  }

  /** Without the first occurrence of x, if there is one. */
  function RemoveFirst<T(==)>(s: seq<T>, x: T): seq<T> {
    if s == [] then []
    else if s[0] == x then s[1..]
    else [s[0]] + RemoveFirst(s[1..], x)
  }

  lemma SumsAssociate<T>(a: seq<T>, b: seq<T>, c: seq<T>)
    ensures a + (b + c) == (a + b) + c
  {
  }

  lemma MultisetOfSum<T>(xs: seq<T>, ys: seq<T>)
    ensures multiset(xs + ys) == multiset(xs) + multiset(ys)
  {
  }

  lemma CancelElement<T>(x: T, rest: multiset<T>, before: multiset<T>, after: multiset<T>)
    requires multiset{x} + rest == before + (multiset{x} + after)
    ensures rest == before + after
  {
    assert rest == multiset{x} + rest - multiset{x};
    assert before + after == before + (multiset{x} + after) - multiset{x};
  }

  /** Taking the first element of xs out of a permutation of xs. */
  lemma Unshuffle<T>(xs: seq<T>, ys: seq<T>) returns (before: seq<T>, after: seq<T>)
    requires xs != [] && multiset(xs) == multiset(ys)
    ensures ys == before + ([xs[0]] + after)
    ensures multiset(xs[1..]) == multiset(before + after)
  {
    var x := xs[0];
    assert x in multiset(ys);
    var i :| 0 <= i < |ys| && ys[i] == x;
    before, after := ys[..i], ys[i + 1..];
    assert ys == before + ([x] + after) && xs == [x] + xs[1..];
    MultisetOfSum(before, [x] + after);
    MultisetOfSum([x], after);
    MultisetOfSum(before, after);
    MultisetOfSum([x], xs[1..]);
    CancelElement(x, multiset(xs[1..]), multiset(before), multiset(after));
  }

  lemma SameElements<T>(xs: seq<T>, ys: seq<T>, x: T)
    requires multiset(xs) == multiset(ys)
    ensures x in xs <==> x in ys
  {
    assert x in xs <==> x in multiset(xs);
    assert x in ys <==> x in multiset(ys);
  }
}
