/** Sequence vocabulary: prefixes, distinct elements, element sets and
    subsequences. */
module Seqs {

  predicate IsPrefix<T(==)>(p: seq<T>, s: seq<T>) {
    |p| <= |s| && s[..|p|] == p
  }

  /** No element occurs twice. */
  predicate Distinct<T(==)>(xs: seq<T>) {
    forall i, j :: 0 <= i < j < |xs| ==> xs[i] != xs[j]
  }

  function Elems<T>(xs: seq<T>): set<T> {
    set i | 0 <= i < |xs| :: xs[i]
  }

  lemma ElemsSnoc<T>(xs: seq<T>, x: T)
    ensures Elems(xs + [x]) == Elems(xs) + {x}
  {
    assert (xs + [x])[|xs|] == x;
    assert forall i :: 0 <= i < |xs| ==> (xs + [x])[i] == xs[i];
  }

  lemma ElemsEmpty<T>(xs: seq<T>)
    ensures Elems(xs) == {} <==> xs == []
  {
    if xs != [] {
      assert xs[0] in Elems(xs);
    }
  }

  /** Appending an element not yet present keeps the elements distinct. */
  lemma DistinctSnoc<T>(xs: seq<T>, x: T)
    requires Distinct(xs) && x !in Elems(xs)
    ensures Distinct(xs + [x])
  {
    forall i | 0 <= i < |xs| ensures xs[i] in Elems(xs) { }
  }

  /** A sequence without repetitions whose only element is `x` is `[x]`. */
  lemma DistinctSingleton<T>(xs: seq<T>, x: T)
    requires Distinct(xs) && Elems(xs) == {x}
    ensures xs == [x]
  {
    ElemsEmpty(xs);
    assert xs[0] in Elems(xs);
    var rest := xs[1..];
    forall y | y in Elems(rest) ensures y in Elems(xs) && y != xs[0] {
      var j :| 0 <= j < |rest| && rest[j] == y;
      assert xs[j + 1] == y;
    }
    assert Elems(rest) == {};
    ElemsEmpty(rest);
    assert xs == [xs[0]] + rest;
  }

  /** `a` is obtained from `b` by deleting zero or more elements. */
  predicate IsSubseq<T(==)>(a: seq<T>, b: seq<T>)
    decreases |b|
  {
    if a == [] then true
    else if b == [] then false
    else if a[0] == b[0] then IsSubseq(a[1..], b[1..])
    else IsSubseq(a, b[1..])
  }

  /** Putting an element in front of the larger sequence keeps the relation. */
  lemma {:induction false} SubseqCons<T>(a: seq<T>, b: seq<T>, h: T)
    requires IsSubseq(a, b)
    ensures IsSubseq(a, [h] + b)
    decreases |b|, 1
  {
    var hb := [h] + b;
    assert hb[1..] == b;
    if a != [] && a[0] == h {
      SubseqDropHead(a, b);
    }
  }

  /** Dropping the first element of the smaller sequence keeps the relation. */
  lemma {:induction false} SubseqDropHead<T>(a: seq<T>, b: seq<T>)
    requires a != [] && IsSubseq(a, b)
    ensures IsSubseq(a[1..], b)
    decreases |b|, 0
  {
    assert [b[0]] + b[1..] == b;
    if a[0] == b[0] {
      SubseqCons(a[1..], b[1..], b[0]);
    } else {
      SubseqDropHead(a, b[1..]);
      SubseqCons(a[1..], b[1..], b[0]);
    }
  }
}
