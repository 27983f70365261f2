/** Small wrappers shared by every component. */
module Common {

  datatype Option<+T> = None | Some(value: T)

  /** How a write to the API server ends: done, refused, or done with the reply lost. */
  datatype Write = Done | Refused | Lost

  /** The patch helper sends metadata and spec in one request and status in another; either can fail
      on its own. */
  datatype Patch = Patch(spec: bool, status: bool)

  /** The order in which a Go `range` visits the keys of a map: each key once, in any order. */
  ghost predicate IsOrder<K(!new)>(order: seq<K>, keys: set<K>) {
    && (forall k :: k in order <==> k in keys)
    && forall i, j :: 0 <= i < j < |order| ==> order[i] != order[j]
  }
}
