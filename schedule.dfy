/** The schedule store (the `headt` list) read through a cursor: the forward-only
    id lookup that both the hook and the releaser perform. */
module Schedule {
  import opened Types

  /** A cursor is the sentinel (-1) or the index of a record in the store. */
  predicate IsCursor(records: seq<Record>, c: int)
  {
    SENTINEL <= c < |records|
  }

  /** The first record strictly after cursor `from` whose id equals `key`, or SENTINEL when the
      scan reaches the end of the store. Records at or before `from` are never considered. */
  function Lookup(records: seq<Record>, from: int, key: int): (m: int)
    requires IsCursor(records, from)
    ensures m == SENTINEL || from < m < |records|
    ensures m != SENTINEL ==> records[m].id == key
    ensures forall i :: from < i < |records| && (m == SENTINEL || i < m) ==> records[i].id != key
    decreases |records| - from
  {
    if from + 1 == |records| then SENTINEL
    else if records[from + 1].id == key then from + 1
    else Lookup(records, from + 1, key)
  }

  /** The forward scan shared by the hook and the releaser: walk the store from the record
      after `from` until a record carries `key` or the sentinel is reached. */
  method Seek(records: seq<Record>, from: int, key: int) returns (m: int)
    requires IsCursor(records, from)
    ensures m == Lookup(records, from, key)
  {
    m := from + 1;
    while m < |records| && records[m].id != key
      invariant from < m <= |records|
      invariant forall i :: from < i < m ==> records[i].id != key
      decreases |records| - m
    {
      m := m + 1;
    }
    if m == |records| {
      m := SENTINEL;
    }
  }

  /** No two records share an id; the forward-only matching relies on this. */
  predicate UniqueIds(records: seq<Record>)
  {
    forall i, j :: 0 <= i < j < |records| ==> records[i].id != records[j].id
  }

  /** With unique ids, a record is found exactly when the cursor is still before it:
      a record at or behind the cursor is never revisited. */
  lemma LookupUnique(records: seq<Record>, from: int, i: nat)
    requires UniqueIds(records) && IsCursor(records, from) && i < |records|
    ensures Lookup(records, from, records[i].id) == if from < i then i else SENTINEL
  {
  }

  /** The fingerprint is 16 bits wide, so a record whose id does not fit in 16 bits is never matched. */
  lemma WideIdNeverMatches(records: seq<Record>, from: int, key: U16)
    requires IsCursor(records, from)
    ensures var m := Lookup(records, from, key); m != SENTINEL ==> records[m].id < 0x1_0000
  {
  }
}
