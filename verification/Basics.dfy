/** Small value types and sequence facts shared by the models. */
module Basics {

  datatype Option<+T> = None | Some(value: T)

  /** `xs` lists the members of `all` in some order. */
  ghost predicate Lists<T(!new)>(xs: seq<T>, all: set<T>) {
    && (forall x :: x in xs <==> x in all)
    && (forall i, j :: 0 <= i < j < |xs| ==> xs[i] != xs[j])
  }

  /** `a` is obtained from `b` by deleting elements; the rest keep their order. */
  ghost predicate Subsequence<T(!new)>(a: seq<T>, b: seq<T>) {
    if a == [] then true
    else if b == [] then false
    else
      || (a[0] == b[0] && Subsequence(a[1..], b[1..]))
      || Subsequence(a, b[1..])
  }

  lemma {:induction false} SubsequenceReflexive<T(!new)>(a: seq<T>)
    ensures Subsequence(a, a)
  {
    if a != [] {
      SubsequenceReflexive(a[1..]);
    }
  }

  lemma SubsequenceCons<T(!new)>(x: T, a: seq<T>, b: seq<T>)
    requires Subsequence(a, b)
    ensures Subsequence(a, [x] + b) && Subsequence([x] + a, [x] + b)
  {
    assert ([x] + b)[1..] == b && ([x] + a)[1..] == a;
  }

  lemma {:induction false} SubsequenceTransitive<T(!new)>(a: seq<T>, b: seq<T>, c: seq<T>)
    requires Subsequence(a, b) && Subsequence(b, c)
    ensures Subsequence(a, c)
    decreases |b| + |c|
  {
    if a == [] {
    } else if b[0] == c[0] && Subsequence(b[1..], c[1..]) {
      if a[0] == b[0] && Subsequence(a[1..], b[1..]) {
        SubsequenceTransitive(a[1..], b[1..], c[1..]);
      } else {
        SubsequenceTransitive(a, b[1..], c[1..]);
      }
    } else {
      SubsequenceTransitive(a, b, c[1..]);
    }
  }

  lemma {:induction false} SubsequenceConcat<T(!new)>(a: seq<T>, b: seq<T>, c: seq<T>, d: seq<T>)
    requires Subsequence(a, b) && Subsequence(c, d)
    ensures Subsequence(a + c, b + d)
    decreases |b|
  {
    if b == [] {
      assert a + c == c && b + d == d;
    } else {
      assert (b + d)[1..] == b[1..] + d;
      if a != [] && a[0] == b[0] && Subsequence(a[1..], b[1..]) {
        assert (a + c)[1..] == a[1..] + c;
        SubsequenceConcat(a[1..], b[1..], c, d);
      } else {
        SubsequenceConcat(a, b[1..], c, d);
      }
    }
  }

  lemma {:induction false} EmptySubsequence<T(!new)>(b: seq<T>)
    ensures Subsequence([], b)
  {
  }

  lemma {:induction false} SubsequenceSkipsSuffix<T(!new)>(a: seq<T>, b: seq<T>, d: seq<T>)
    requires Subsequence(a, b)
    ensures Subsequence(a, b + d)
  {
    EmptySubsequence(d);
    SubsequenceConcat(a, b, [], d);
    assert a + [] == a;
  }

  lemma {:induction false} PrefixIsSubsequence<T(!new)>(a: seq<T>, b: seq<T>)
    requires a <= b
    ensures Subsequence(a, b)
  {
    if a != [] {
      PrefixIsSubsequence(a[1..], b[1..]);
    }
  }
}
