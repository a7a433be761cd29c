/** Generic facts about sequences. Stated for any element type, they let the proofs about
    lists of strings reason about the lists without looking inside the strings. */
module SeqFacts {

  lemma HeadTailOfAppend<T>(xs: seq<T>, ys: seq<T>)
    requires |xs| >= 1
    ensures (xs + ys)[0] == xs[0] && (xs + ys)[1..] == xs[1..] + ys
  {
  }

  lemma HeadAndTail<T>(xs: seq<T>)
    requires |xs| >= 1
    ensures xs == [xs[0]] + xs[1..]
  {
  }

  lemma AppendAssoc<T>(xs: seq<T>, ys: seq<T>, zs: seq<T>)
    ensures (xs + ys) + zs == xs + (ys + zs)
  {
  }
}
