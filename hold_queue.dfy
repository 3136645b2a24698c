/** The hold queue `head_entry` as a value: entries carry ids stamped from the `entry_id` counter. */
module HoldQueue {
  import opened Types

  /** Entry ids increase strictly from head to tail and all lie below the next id to be stamped. */
  predicate Ascending(queue: seq<Entry>, nextId: int)
  {
    (forall i, j :: 0 <= i < j < |queue| ==> queue[i].id < queue[j].id) &&
    (forall i :: 0 <= i < |queue| ==> queue[i].id < nextId)
  }

  /** Stamping the next id on a tail entry keeps the order, as long as the counter has not wrapped. */
  lemma AppendKeepsAscending(queue: seq<Entry>, nextId: U32, check: U16)
    requires Ascending(queue, nextId) && nextId + 1 < U32_LIMIT
    ensures Ascending(queue + [Entry(nextId, check)], Wrap32(nextId + 1))
  {
  }

  /** Removing a prefix, as a drain pass does, keeps the order of what remains. */
  lemma SuffixKeepsAscending(queue: seq<Entry>, nextId: int, k: nat)
    requires Ascending(queue, nextId) && k <= |queue|
    ensures Ascending(queue[k..], nextId)
  {
  }
}
