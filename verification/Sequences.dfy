/** Projections of queues and histories. */
module Sequences {
  function Joined<T>(chunks: seq<seq<T>>): seq<T> {
    if chunks == [] then [] else Joined(chunks[..|chunks| - 1]) + chunks[|chunks| - 1]
  }

  /** The concatenation of the images of the elements of `q`, in order. */
  function FlatMap<T, U>(f: T -> seq<U>, q: seq<T>): seq<U> {
    if q == [] then [] else f(q[0]) + FlatMap(f, q[1..])
  }

  lemma {:induction false} FlatMapConcat<T, U>(f: T -> seq<U>, a: seq<T>, b: seq<T>)
    ensures FlatMap(f, a + b) == FlatMap(f, a) + FlatMap(f, b)
  {
    if a == [] {
      assert a + b == b;
    } else {
      assert (a + b)[0] == a[0] && (a + b)[1..] == a[1..] + b;
      FlatMapConcat(f, a[1..], b);
    }
  }

  lemma Associative<T>(a: seq<T>, b: seq<T>, c: seq<T>)
    ensures a + b + c == a + (b + c)
  {
  }

  lemma FlatMapSnoc<T, U>(f: T -> seq<U>, q: seq<T>, x: T)
    ensures FlatMap(f, q + [x]) == FlatMap(f, q) + f(x)
  {
    FlatMapConcat(f, q, [x]);
    assert FlatMap(f, [x]) == f(x);
  }

  function RemoveAt<T>(q: seq<T>, i: nat): (r: seq<T>)
    requires i < |q|
    ensures |r| == |q| - 1 && forall j :: 0 <= j < |r| ==> r[j] == q[if j < i then j else j + 1]
  {
    q[..i] + q[i + 1..]
  }

  lemma FlatMapRemoveAt<T, U>(f: T -> seq<U>, q: seq<T>, i: nat)
    requires i < |q|
    ensures |FlatMap(f, q)| == |FlatMap(f, RemoveAt(q, i))| + |f(q[i])|
  {
    assert q == q[..i] + [q[i]] + q[i + 1..];
    FlatMapConcat(f, q[..i] + [q[i]], q[i + 1..]);
    FlatMapSnoc(f, q[..i], q[i]);
    FlatMapConcat(f, q[..i], q[i + 1..]);
  }
}
