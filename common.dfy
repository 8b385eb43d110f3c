/** Small shared vocabulary: an optional value and facts about sequences as collections. */
module Common {

  /** A value that may be absent; `None` also stands for "the call raised" where noted. */
  datatype Option<T> = None | Some(value: T)

  /** The elements of a sequence, as a set. */
  function Elems<T>(s: seq<T>): set<T>
  {
    set x | x in s
  }

  /** No element occurs twice. */
  predicate Distinct<T(==)>(s: seq<T>)
  {
    forall i, j :: 0 <= i < j < |s| ==> s[i] != s[j]
  }

  lemma NonEmptyElems<T>(s: seq<T>)
    ensures s != [] <==> Elems(s) != {}
  {
    if s != [] {
      assert s[0] in Elems(s);
    }
  }

  /** A sequence without repetitions has as many elements as its set. */
  lemma {:induction false} DistinctCard<T>(s: seq<T>)
    requires Distinct(s)
    ensures |Elems(s)| == |s|
  {
    if s != [] {
      var t := s[..|s| - 1];
      var x := s[|s| - 1];
      assert Distinct(t);
      DistinctCard(t);
      forall k | 0 <= k < |t| ensures t[k] != x {
        assert t[k] == s[k];
      }
      assert s == t + [x];
      assert Elems(s) == Elems(t) + {x};
    }
  }
}
