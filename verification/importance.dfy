/**
 * Feature-importance dictionaries. The backend builds one with `dict(zip(...))`
 * and the frontend reads it back with `Object.entries`. The model keeps a
 * dictionary as the list of entries in the order `Object.entries` returns
 * them. For non-numeric keys, such as the column names the backend sends,
 * that is insertion order; integer-like keys would come first, ascending.
 */
module Importance {

  /** One `[name, weight]` pair of a feature-importance dictionary. */
  datatype Entry = Entry(name: string, weight: real)

  /** A dictionary has no repeated key. */
  predicate DistinctNames(entries: seq<Entry>) {
    forall i, j :: 0 <= i < j < |entries| ==> entries[i].name != entries[j].name
  }

  /** Ordered from the largest weight to the smallest. */
  predicate NonIncreasing(entries: seq<Entry>) {
    forall i, j :: 0 <= i < j < |entries| ==> entries[i].weight >= entries[j].weight
  }

  /** The entries whose weight is exactly `w`, in their original order. */
  function WithWeight(entries: seq<Entry>, w: real): (r: seq<Entry>)
    ensures |r| <= |entries|
    ensures forall e :: e in r ==> e in entries && e.weight == w
  {
    if entries == [] then []
    else if entries[0].weight == w then [entries[0]] + WithWeight(entries[1..], w)
    else WithWeight(entries[1..], w)
  }
}
