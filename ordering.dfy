/** Sorted distinct keys, as a group-by produces them: the keys of each group
    appear once, in ascending order. Dates are ordered as numbers and partner
    names lexicographically by code point, as Python compares strings. */
module Ordering {

  ghost predicate TotalPreorder<T(!new)>(le: (T, T) -> bool)
  {
    && (forall a, b :: le(a, b) || le(b, a))
    && (forall a, b, c :: le(a, b) && le(b, c) ==> le(a, c))
  }

  function IntLe(a: int, b: int): bool { a <= b }

  /** Python's `<=` on strings: a prefix comes first, otherwise the first
      differing character decides. */
  function LexLe(a: string, b: string): bool
  {
    if a == [] then true
    else if b == [] then false
    else if a[0] != b[0] then a[0] < b[0]
    else LexLe(a[1..], b[1..])
  }

  lemma {:induction false} LexLeTotal(a: string, b: string)
    ensures LexLe(a, b) || LexLe(b, a)
  {
    if a != [] && b != [] && a[0] == b[0] {
      LexLeTotal(a[1..], b[1..]);
    }
  }

  lemma {:induction false} LexLeTransitive(a: string, b: string, c: string)
    requires LexLe(a, b) && LexLe(b, c)
    ensures LexLe(a, c)
  {
    if a != [] && b != [] && c != [] && a[0] == b[0] && b[0] == c[0] {
      LexLeTransitive(a[1..], b[1..], c[1..]);
    }
  }

  lemma {:induction false} LexLeAntisymmetric(a: string, b: string)
    requires LexLe(a, b) && LexLe(b, a)
    ensures a == b
  {
    if a != [] && b != [] {
      LexLeAntisymmetric(a[1..], b[1..]);
      assert a == [a[0]] + a[1..] && b == [b[0]] + b[1..];
    }
  }

  lemma LexLeIsTotalPreorder()
    ensures TotalPreorder(LexLe)
  {
    forall a, b ensures LexLe(a, b) || LexLe(b, a) {
      LexLeTotal(a, b);
    }
    forall a, b, c | LexLe(a, b) && LexLe(b, c) ensures LexLe(a, c) {
      LexLeTransitive(a, b, c);
    }
  }

  lemma IntLeIsTotalPreorder()
    ensures TotalPreorder(IntLe)
  {
  }

  /** A least element of a non-empty sequence. */
  function MinOf<T(!new)>(xs: seq<T>, le: (T, T) -> bool): (m: T)
    requires xs != []
    requires TotalPreorder(le)
    ensures m in xs
    ensures forall i :: 0 <= i < |xs| ==> le(m, xs[i])
  {
    if |xs| == 1 then xs[0]
    else
      var m := MinOf(xs[1..], le);
      assert forall i :: 1 <= i < |xs| ==> xs[i] == xs[1..][i - 1];
      if le(xs[0], m) then xs[0] else m
  }

  /** `xs` with every occurrence of `v` removed. */
  function Without<T(==, !new)>(xs: seq<T>, v: T): (r: seq<T>)
    ensures forall x :: x in r <==> x in xs && x != v
    ensures |r| <= |xs|
    ensures v in xs ==> |r| < |xs|
  {
    if xs == [] then []
    else (if xs[0] == v then [] else [xs[0]]) + Without(xs[1..], v)
  }

  /** The distinct values of `xs` in ascending order. */
  function SortedDistinct<T(==, !new)>(xs: seq<T>, le: (T, T) -> bool): (r: seq<T>)
    requires TotalPreorder(le)
    ensures forall x :: x in r <==> x in xs
    ensures forall i, j :: 0 <= i < j < |r| ==> r[i] != r[j]
    ensures forall i, j :: 0 <= i < j < |r| ==> le(r[i], r[j])
    decreases |xs|
  {
    if xs == [] then []
    else
      var m := MinOf(xs, le);
      var rest := SortedDistinct(Without(xs, m), le);
      assert forall x :: x in rest ==> le(m, x);
      [m] + rest
  }

  /** A sequence without repetitions has as many elements as its set. */
  lemma {:induction false} DistinctCardinality<T>(s: seq<T>)
    requires forall i, j :: 0 <= i < j < |s| ==> s[i] != s[j]
    ensures |set x | x in s| == |s|
  {
    if s != [] {
      DistinctCardinality(s[1..]);
      assert (set x | x in s) == {s[0]} + (set x | x in s[1..]);
      assert s[0] !in s[1..];
    }
  }
}
