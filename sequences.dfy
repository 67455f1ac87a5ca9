/** Facts about sequences without repetition, used by both models. */
module Sequences {

  predicate NoDup<T(==)>(s: seq<T>) {
    forall i, j :: 0 <= i < j < |s| ==> s[i] != s[j]
  }

  ghost function Elems<T>(s: seq<T>): set<T> {
    set x | x in s
  }

  /** `s` lists the elements of `xs`, each exactly once. */
  ghost predicate Enumerates<T>(s: seq<T>, xs: set<T>) {
    NoDup(s) && (forall x :: x in s ==> x in xs) && (forall x :: x in xs ==> x in s)
  }

  /** Distinct sequences with no common element concatenate to a distinct sequence. */
  lemma NoDupConcat<T>(x: seq<T>, y: seq<T>)
    requires NoDup(x) && NoDup(y)
    requires forall u :: u in x ==> u !in y
    ensures NoDup(x + y)
  {
    forall i, j | 0 <= i < j < |x + y| ensures (x + y)[i] != (x + y)[j] {
      if i < |x| && j >= |x| {
        assert (x + y)[i] in x;
        assert (x + y)[j] == y[j - |x|];
      }
    }
  }

  /** A sequence without repetition has as many elements as its set. */
  lemma {:induction false} DistinctCard<T>(s: seq<T>)
    requires NoDup(s)
    ensures |Elems(s)| == |s|
  {
    if s != [] {
      var last := s[|s| - 1];
      var init := s[..|s| - 1];
      assert Elems(s) == Elems(init) + {last};
      assert last !in Elems(init) by {
        forall i | 0 <= i < |init| ensures init[i] != last {
          assert s[i] != s[|s| - 1];
        }
      }
      DistinctCard(init);
    }
  }

  /** The part of z past x is the part of y past x followed by the part of z past y. */
  lemma SpanConcat<T>(x: seq<T>, y: seq<T>, z: seq<T>)
    requires x <= y && y <= z
    ensures z[|x|..] == y[|x|..] + z[|y|..]
  {
    assert z == x + y[|x|..] + z[|y|..];
  }
}
