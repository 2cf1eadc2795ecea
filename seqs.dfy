/** Facts about sequences that the proofs use at several places. */
module Seqs {
  /** Concatenation is associative. */
  lemma AppendAssoc<T>(a: seq<T>, b: seq<T>, e: seq<T>)
    ensures (a + b) + e == a + (b + e)
  {
  }

  /** Every element satisfies `p`, checked from the last element back. */
  predicate AllFromEnd<T>(s: seq<T>, p: T -> bool)
    decreases |s|
  {
    s == [] || (AllFromEnd(s[..|s| - 1], p) && p(s[|s| - 1]))
  }

  lemma {:induction false} AllFromEndSpec<T>(s: seq<T>, p: T -> bool)
    ensures AllFromEnd(s, p) <==> forall i :: 0 <= i < |s| ==> p(s[i])
    decreases |s|
  {
    if s != [] {
      var n := |s| - 1;
      var init := s[..n];
      AllFromEndSpec(init, p);
      if AllFromEnd(s, p) {
        forall i | 0 <= i < |s|
          ensures p(s[i])
        {
          if i < n {
            assert s[i] == init[i];
          }
        }
      } else if !AllFromEnd(init, p) {
        var i :| 0 <= i < n && !p(init[i]);
        assert s[i] == init[i];
      }
    }
  }
}
