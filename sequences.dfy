/** Sequence facts shared by the page models. */
module Sequences {

  /** `r` is `xs` with some elements dropped, the rest in their order. */
  ghost predicate IsSubsequence<T>(r: seq<T>, xs: seq<T>)
    decreases |xs|
  {
    r == [] || (xs != [] && ((r[0] == xs[0] && IsSubsequence(r[1..], xs[1..])) || IsSubsequence(r, xs[1..])))
  }

  lemma EmptyPrefix<T>(s: seq<T>)
    ensures [] + s == s
  {
  }

  /** Appending five pieces one by one appends their concatenation. */
  lemma SeqAppend5<T>(p: seq<T>, e1: seq<T>, e2: seq<T>, e3: seq<T>, e4: seq<T>, e5: seq<T>)
    ensures p + e1 + e2 + e3 + e4 + e5 == p + (e1 + e2 + e3 + e4 + e5)
  {
    assert p + e1 + e2 == p + (e1 + e2);
    assert p + (e1 + e2) + e3 == p + (e1 + e2 + e3);
    assert p + (e1 + e2 + e3) + e4 == p + (e1 + e2 + e3 + e4);
  }
}
