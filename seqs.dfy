/** Building a list by appending one chunk per element, as the label printer's loops do. */
module Seqs {

  /** The chunks f(xs[0]), f(xs[1]), ... concatenated in order. */
  function ConcatMap<A, B>(f: A -> seq<B>, xs: seq<A>): seq<B>
  {
    if xs == [] then [] else ConcatMap(f, xs[..|xs| - 1]) + f(xs[|xs| - 1])
  }

  lemma {:induction false} ConcatMapAppend<A, B>(f: A -> seq<B>, a: seq<A>, b: seq<A>)
    ensures ConcatMap(f, a + b) == ConcatMap(f, a) + ConcatMap(f, b)
    decreases |b|
  {
    if b == [] {
      assert a + b == a;
    } else {
      var b' := b[..|b| - 1];
      assert (a + b)[..|a + b| - 1] == a + b';
      ConcatMapAppend(f, a, b');
    }
  }

  /** One more element appends its chunk: the step of a loop over xs. */
  lemma ConcatMapPrefix<A, B>(f: A -> seq<B>, xs: seq<A>, i: nat)
    requires i < |xs|
    ensures ConcatMap(f, xs[..i + 1]) == ConcatMap(f, xs[..i]) + f(xs[i])
  {
    assert xs[..i + 1][..i] == xs[..i];
  }

  lemma ConcatMapSingle<A, B>(f: A -> seq<B>, x: A)
    ensures ConcatMap(f, [x]) == f(x)
  {
    assert [x][..0] == [];
  }

  /** The chunks before x, x's own chunk, the chunks after x. */
  lemma ConcatMapSplit<A, B>(f: A -> seq<B>, a: seq<A>, x: A, b: seq<A>)
    ensures ConcatMap(f, a + [x] + b) == ConcatMap(f, a) + f(x) + ConcatMap(f, b)
  {
    ConcatMapAppend(f, a + [x], b);
    ConcatMapAppend(f, a, [x]);
    ConcatMapSingle(f, x);
  }

  /**
   * Regrouping a concatenation. Stated once for any element type, so that
   * callers over lists of strings need not compare the strings themselves.
   */
  lemma ConcatAssoc<T>(a: seq<T>, b: seq<T>, c: seq<T>)
    ensures a + b + c == a + (b + c)
  {
  }

  /** The chunk of xs[i] starts right after the chunks of the elements before it. */
  lemma ConcatMapAt<A, B>(f: A -> seq<B>, xs: seq<A>, i: nat, k: nat)
    requires i < |xs| && k < |f(xs[i])|
    ensures |ConcatMap(f, xs[..i])| + k < |ConcatMap(f, xs)|
    ensures ConcatMap(f, xs)[|ConcatMap(f, xs[..i])| + k] == f(xs[i])[k]
  {
    assert xs == xs[..i] + [xs[i]] + xs[i + 1..];
    ConcatMapSplit(f, xs[..i], xs[i], xs[i + 1..]);
  }
}
