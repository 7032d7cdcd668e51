/** Subsequences: some elements of a sequence, in the same order. */
module Subsequences {
  /** `at` lists, in increasing order, the positions in `whole` of the elements of `part`. */
  ghost predicate PickedAt<T>(part: seq<T>, whole: seq<T>, at: seq<nat>) {
    && |at| == |part|
    && (forall i, j :: 0 <= i < j < |at| ==> at[i] < at[j])
    && forall i :: 0 <= i < |at| ==> at[i] < |whole| && part[i] == whole[at[i]]
  }

  ghost predicate Subsequence<T>(part: seq<T>, whole: seq<T>) {
    exists at :: PickedAt(part, whole, at)
  }

  lemma WholeIsSubsequence<T>(whole: seq<T>)
    ensures Subsequence(whole, whole)
  {
    assert PickedAt(whole, whole, seq(|whole|, i => i));
  }

  lemma SubsequenceGrows<T>(part: seq<T>, whole: seq<T>, more: seq<T>)
    requires Subsequence(part, whole)
    ensures Subsequence(part, whole + more)
    ensures Subsequence(part + more, whole + more)
  {
    var at: seq<nat> :| PickedAt(part, whole, at);
    assert PickedAt(part, whole + more, at);
    assert PickedAt(part + more, whole + more, at + seq(|more|, i => |whole| + i));
  }

  /** Removing a stretch leaves a subsequence. */
  lemma SubsequenceWithout<T>(a: seq<T>, gone: seq<T>, b: seq<T>, whole: seq<T>)
    requires Subsequence(a + gone + b, whole)
    ensures Subsequence(a + b, whole)
  {
    var at: seq<nat> :| PickedAt(a + gone + b, whole, at);
    var kept := at[..|a|] + at[|a| + |gone|..];
    assert forall i :: 0 <= i < |kept| ==> kept[i] == at[if i < |a| then i else i + |gone|];
    assert PickedAt(a + b, whole, kept);
  }
}
