/** Small shared vocabulary: the optional value and the integer clamps the Swift code writes with `min` and `max`. */
module Prelude {

  /** Swift's `Optional`. */
  datatype Option<T> = None | Some(value: T)

  function Min(a: int, b: int): int {
    if a <= b then a else b
  }

  function Max(a: int, b: int): int {
    if a >= b then a else b
  }

  /** No value occurs twice in `s`. */
  predicate Distinct<T(==)>(s: seq<T>) {
    forall i, j :: 0 <= i < j < |s| ==> s[i] != s[j]
  }

  /** Appending one value keeps a sequence repetition-free exactly when the value is new. */
  lemma DistinctSnoc<T>(init: seq<T>, last: T)
    ensures Distinct(init + [last]) <==> Distinct(init) && last !in init
  {
    var s := init + [last];
    if Distinct(s) {
      forall i | 0 <= i < |init| ensures init[i] != last {
        assert s[i] == init[i] && s[|init|] == last;
      }
      forall i, j | 0 <= i < j < |init| ensures init[i] != init[j] {
        assert s[i] == init[i] && s[j] == init[j];
      }
    }
    if Distinct(init) && last !in init {
      forall i, j | 0 <= i < j < |s| ensures s[i] != s[j] {
        assert s[i] == init[i] && s[i] in init;
        assert s[j] == if j < |init| then init[j] else last;
      }
    }
  }

  /** A repetition-free sequence has as many distinct values as entries. */
  lemma {:induction false} DistinctCardinality<T>(s: seq<T>)
    requires Distinct(s)
    ensures |(set x | x in s)| == |s|
    decreases |s|
  {
    if s != [] {
      var init, last := s[..|s| - 1], s[|s| - 1];
      assert s == init + [last];
      DistinctSnoc(init, last);
      DistinctCardinality(init);
      assert (set x | x in s) == (set x | x in init) + {last};
    }
  }
}
