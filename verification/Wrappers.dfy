/** Optional values and orders of iteration, used throughout. */
module Wrappers {

  datatype Option<+T> = None | Some(value: T)

  /** `order` lists the elements of `s`, each once: one iteration order of a Go map. */
  ghost predicate Lists<T(!new)>(order: seq<T>, s: set<T>) {
    && (forall x :: x in order <==> x in s)
    && forall i, j :: 0 <= i < j < |order| ==> order[i] != order[j]
  }
}
