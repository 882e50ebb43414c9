/** Regrouping lemmas for sequences, used wherever a history or a text is built by appending. */
module Sequences {
  /** Appending in two steps or in one gives the same sequence. */
  lemma AppendTwice<T>(history: seq<T>, first: seq<T>, later: seq<T>)
    ensures (history + first) + later == history + (first + later)
  {
  }

  /** Replacing the last element in place is dropping it and appending the new one. */
  lemma ReplaceLast<T>(history: seq<T>, last: T, replacement: T)
    ensures (history + [last])[|history| := replacement] == history + [replacement]
  {
  }
}
