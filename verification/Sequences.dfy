/** Runs are grown at their end. */
module Sequences {
  lemma ConcatTake<T>(moves: seq<T>, more: seq<T>)
    requires more != []
    ensures (moves + more)[..|moves + more| - 1] == moves + more[..|more| - 1]
    ensures (moves + more)[|moves + more| - 1] == more[|more| - 1]
  {
  }
}
