/** Small shared vocabulary: optional values, bytes, sequences. */
module Basics {

  datatype Option<+T> = None | Some(value: T)

  type Byte = b: int | 0 <= b < 256
  type Bytes = seq<Byte>

  predicate NoDuplicates<T(==)>(s: seq<T>) {
    forall i, j :: 0 <= i < j < |s| ==> s[i] != s[j]
  }

  /** Concatenation of a list of segments, in order. */
  function Concat<T>(segments: seq<seq<T>>): seq<T> {
    if segments == [] then [] else segments[0] + Concat(segments[1..])
  }

  lemma {:induction false} ConcatAppend<T>(a: seq<seq<T>>, b: seq<seq<T>>)
    ensures Concat(a + b) == Concat(a) + Concat(b)
  {
    if a == [] {
      assert a + b == b;
    } else {
      assert (a + b)[1..] == a[1..] + b && (a + b)[0] == a[0];
      ConcatAppend(a[1..], b);
      assert Concat(a + b) == a[0] + (Concat(a[1..]) + Concat(b));
    }
  }

  lemma ConcatSnoc<T>(a: seq<seq<T>>, last: seq<T>)
    ensures Concat(a + [last]) == Concat(a) + last
  {
    ConcatAppend(a, [last]);
    assert Concat([last]) == last;
  }

  /** The state reached from `a` by `f` over the elements in order. */
  function Fold<A, B>(f: (A, B) -> A, a: A, xs: seq<B>): A
    decreases |xs|
  {
    if xs == [] then a else Fold(f, f(a, xs[0]), xs[1..])
  }

  lemma {:induction false} FoldAppend<A, B>(f: (A, B) -> A, a: A, xs: seq<B>, ys: seq<B>)
    ensures Fold(f, a, xs + ys) == Fold(f, Fold(f, a, xs), ys)
    decreases |xs|
  {
    if xs == [] {
      assert xs + ys == ys;
    } else {
      assert (xs + ys)[1..] == xs[1..] + ys && (xs + ys)[0] == xs[0];
      FoldAppend(f, f(a, xs[0]), xs[1..], ys);
    }
  }

  lemma FoldSnoc<A, B>(f: (A, B) -> A, a: A, xs: seq<B>, y: B)
    ensures Fold(f, a, xs + [y]) == f(Fold(f, a, xs), y)
  {
    FoldAppend(f, a, xs, [y]);
    assert [y][1..] == [];
  }

  /** An element that changes no state can be left out. */
  lemma FoldSkip<A(!new), B>(f: (A, B) -> A, a: A, xs: seq<B>, y: B, ys: seq<B>)
    requires forall b :: f(b, y) == b
    ensures Fold(f, a, xs + [y] + ys) == Fold(f, a, xs + ys)
  {
    FoldSnoc(f, a, xs, y);
    FoldAppend(f, a, xs + [y], ys);
    FoldAppend(f, a, xs, ys);
  }
}
