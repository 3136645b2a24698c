/** The scan that one pass of the releaser thread (`dequeue_func`) makes over the hold queue,
    on the local copies it takes under the queue lock. */
module Releaser {
  import opened Types
  import opened Schedule
  import opened Release

  /** The scan of one releaser pass with the replay cursor advanced only past released
      entries: walk the queue from its head, release each entry whose record is found and due,
      and stop at the first entry whose record is missing or not yet due.
      `clock(k)` is the clock reading taken for the k-th entry whose record is found. */
  method ScanDue(records: seq<Record>, queue: seq<Entry>, qlp: int, timeDelta: int, clock: nat -> TimeVal)
    returns (released: seq<Entry>, rest: seq<Entry>, cursor: int, sleepTime: int)
    requires IsCursor(records, qlp)
    ensures var p := Drain(records, queue, qlp, timeDelta, clock, 0);
      released == p.released && rest == p.rest && cursor == p.qlp && sleepTime == p.sleep
  {
    var count := 0;
    cursor := qlp;
    sleepTime := DEFAULT_SLEEP;
    ghost var goal := Drain(records, queue, qlp, timeDelta, clock, 0);
    while count < |queue|
      invariant IsCursor(records, cursor)
      invariant count <= |queue| && sleepTime == DEFAULT_SLEEP
      invariant Continues(goal, count, Drain(records, queue[count..], cursor, timeDelta, clock, count))
    {
      var tfc := Seek(records, cursor, queue[count].check);
      DrainBlockedHead(records, queue[count..], cursor, timeDelta, clock, count);
      if tfc == SENTINEL {
        break;
      }
      var timeDiff := Tv2Ms(clock(count)) - CalRTime(records[tfc].time, timeDelta);
      if timeDiff >= 0 {
        DrainReleasesHead(records, queue[count..], cursor, timeDelta, clock, count);
        assert queue[count..][1..] == queue[count + 1..];
        count := count + 1;
        cursor := tfc;
      } else {
        sleepTime := -timeDiff;
        break;
      }
    }
    DrainSplitsQueue(records, queue, qlp, timeDelta, clock, 0);
    released, rest := queue[..count], queue[count..];
  }

  /** The scan as `dequeue_func` performs it: like ScanDue, except that the replay cursor is
      moved onto each found record before the due check. */
  method ScanDueAsWritten(records: seq<Record>, queue: seq<Entry>, qlp: int, timeDelta: int, clock: nat -> TimeVal)
    returns (released: seq<Entry>, rest: seq<Entry>, cursor: int, sleepTime: int)
    requires IsCursor(records, qlp)
    ensures var p := DrainAsWritten(records, queue, qlp, timeDelta, clock, 0);
      released == p.released && rest == p.rest && cursor == p.qlp && sleepTime == p.sleep
  {
    var count := 0;
    cursor := qlp;
    sleepTime := DEFAULT_SLEEP;
    ghost var goal := Drain(records, queue, qlp, timeDelta, clock, 0);
    while count < |queue|
      invariant IsCursor(records, cursor)
      invariant count <= |queue| && sleepTime == DEFAULT_SLEEP
      invariant Continues(goal, count, Drain(records, queue[count..], cursor, timeDelta, clock, count))
    {
      var tfc := Seek(records, cursor, queue[count].check);
      DrainBlockedHead(records, queue[count..], cursor, timeDelta, clock, count);
      if tfc == SENTINEL {
        break;
      }
      ghost var before := cursor;
      cursor := tfc;
      var timeDiff := Tv2Ms(clock(count)) - CalRTime(records[tfc].time, timeDelta);
      if timeDiff >= 0 {
        DrainReleasesHead(records, queue[count..], before, timeDelta, clock, count);
        assert queue[count..][1..] == queue[count + 1..];
        count := count + 1;
      } else {
        sleepTime := -timeDiff;
        break;
      }
    }
    DrainSplitsQueue(records, queue, qlp, timeDelta, clock, 0);
    released, rest := queue[..count], queue[count..];
  }
}
