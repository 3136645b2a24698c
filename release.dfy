/** One pass of the releaser thread as a function of the state it reads: the hold queue,
    the schedule store, the replay cursor `qlp`, the calibration offset and the clock.
    `Drain` is the pass with the replay cursor advanced only past released entries;
    `DrainAsWritten` is the pass as `dequeue_func` performs it, which advances the cursor
    onto the record of an entry that is not yet due. */
module Release {
  import opened Types
  import opened Schedule

  /** Why a pass stopped: the queue ran empty, the head entry had no record after the
      cursor, or the head entry's record (given by index) was not yet due. */
  datatype Stop = Emptied | Unmatched | NotDue(record: nat)

  /** The outcome of one pass: entries handed back in order, the record each one matched,
      the entries left queued, why the pass stopped, the new replay cursor and the sleep time. */
  datatype PassResult = PassResult(
    released: seq<Entry>, matched: seq<nat>, rest: seq<Entry>, stop: Stop, qlp: int, sleep: int)

  /** A pass over `queue` from cursor `qlp`; `clock(tick + k)` is the clock reading taken for
      the k-th entry whose record is found. */
  function Drain(records: seq<Record>, queue: seq<Entry>, qlp: int, timeDelta: int,
                 clock: nat -> TimeVal, tick: nat): (p: PassResult)
    requires IsCursor(records, qlp)
    ensures |p.matched| == |p.released|
    ensures qlp <= p.qlp < |records|
    ensures p.stop.NotDue? ==> p.stop.record < |records|
    decreases |queue|
  {
    if queue == [] then PassResult([], [], [], Emptied, qlp, DEFAULT_SLEEP)
    else
      var m := Lookup(records, qlp, queue[0].check);
      if m == SENTINEL then PassResult([], [], queue, Unmatched, qlp, DEFAULT_SLEEP)
      else
        var timeDiff := Tv2Ms(clock(tick)) - CalRTime(records[m].time, timeDelta);
        if timeDiff >= 0 then
          var p := Drain(records, queue[1..], m, timeDelta, clock, tick + 1);
          p.(released := [queue[0]] + p.released, matched := [m] + p.matched)
        else
          PassResult([], [], queue, NotDue(m), qlp, -timeDiff)
  }

  /** The pass as written: identical to `Drain` except that, when it stops at an entry that is
      not yet due, the replay cursor has already been moved onto that entry's record. */
  function DrainAsWritten(records: seq<Record>, queue: seq<Entry>, qlp: int, timeDelta: int,
                          clock: nat -> TimeVal, tick: nat): (p: PassResult)
    requires IsCursor(records, qlp)
    ensures qlp <= p.qlp < |records|
    ensures p.released == Drain(records, queue, qlp, timeDelta, clock, tick).released
    ensures p.rest == Drain(records, queue, qlp, timeDelta, clock, tick).rest
  {
    var p := Drain(records, queue, qlp, timeDelta, clock, tick);
    DrainStopsAtFirstBlocked(records, queue, qlp, timeDelta, clock, tick);
    if p.stop.NotDue? then p.(qlp := p.stop.record) else p
  }

  /** `whole` is the outcome of a pass that first released `done` entries and then went on as
      `tail`: it released `done` more entries than the tail, and everything else is the tail's. */
  predicate Continues(whole: PassResult, done: nat, tail: PassResult)
  {
    |whole.released| == done + |tail.released| && whole.rest == tail.rest &&
    whole.stop == tail.stop && whole.qlp == tail.qlp && whole.sleep == tail.sleep
  }

  /** Releasing a due head entry: the pass hands it back first and continues with the rest of
      the queue from its record, one clock reading later. */
  lemma DrainReleasesHead(records: seq<Record>, queue: seq<Entry>, qlp: int, timeDelta: int,
                          clock: nat -> TimeVal, tick: nat)
    requires IsCursor(records, qlp) && queue != []
    requires Lookup(records, qlp, queue[0].check) != SENTINEL
    requires var m := Lookup(records, qlp, queue[0].check);
      CalRTime(records[m].time, timeDelta) <= Tv2Ms(clock(tick))
    ensures var m := Lookup(records, qlp, queue[0].check);
      var p := Drain(records, queue, qlp, timeDelta, clock, tick);
      var r := Drain(records, queue[1..], m, timeDelta, clock, tick + 1);
      p.released == [queue[0]] + r.released && Continues(p, 1, r)
  {
  }

  /** A pass stopped by its head entry: nothing is released and the queue is left whole, with
      the default sleep when no record carries the head's fingerprint, and otherwise a sleep up
      to the deadline of the record that is not yet due. */
  lemma DrainBlockedHead(records: seq<Record>, queue: seq<Entry>, qlp: int, timeDelta: int,
                         clock: nat -> TimeVal, tick: nat)
    requires IsCursor(records, qlp) && queue != []
    ensures var m := Lookup(records, qlp, queue[0].check);
      var p := Drain(records, queue, qlp, timeDelta, clock, tick);
      (m == SENTINEL ==> p == PassResult([], [], queue, Unmatched, qlp, DEFAULT_SLEEP)) &&
      (m != SENTINEL && Tv2Ms(clock(tick)) < CalRTime(records[m].time, timeDelta) ==>
         p == PassResult([], [], queue, NotDue(m), qlp, CalRTime(records[m].time, timeDelta) - Tv2Ms(clock(tick))))
  {
  }

  /** A pass splits the queue: the released entries are a prefix, in queue order, and the
      entries left queued are the untouched remainder. */
  lemma {:induction false} DrainSplitsQueue(records: seq<Record>, queue: seq<Entry>, qlp: int,
                                            timeDelta: int, clock: nat -> TimeVal, tick: nat)
    requires IsCursor(records, qlp)
    ensures var p := Drain(records, queue, qlp, timeDelta, clock, tick);
      queue == p.released + p.rest
    decreases |queue|
  {
    if queue != [] {
      var m := Lookup(records, qlp, queue[0].check);
      if m != SENTINEL && Tv2Ms(clock(tick)) - CalRTime(records[m].time, timeDelta) >= 0 {
        DrainSplitsQueue(records, queue[1..], m, timeDelta, clock, tick + 1);
        var r := Drain(records, queue[1..], m, timeDelta, clock, tick + 1);
        assert queue == [queue[0]] + (r.released + r.rest);
      }
    }
  }

  /** The j-th released entry was matched to the first record after the previous match
      (after `qlp` for the first entry) that carries its fingerprint. */
  lemma {:induction false} DrainMatchesInOrder(records: seq<Record>, queue: seq<Entry>, qlp: int,
                                               timeDelta: int, clock: nat -> TimeVal, tick: nat, j: nat)
    requires IsCursor(records, qlp)
    requires j < |Drain(records, queue, qlp, timeDelta, clock, tick).matched|
    ensures var p := Drain(records, queue, qlp, timeDelta, clock, tick);
      var previous := if j == 0 then qlp else p.matched[j - 1];
      IsCursor(records, previous) && p.matched[j] == Lookup(records, previous, p.released[j].check)
    decreases j
  {
    var m := Lookup(records, qlp, queue[0].check);
    if j > 0 {
      DrainMatchesInOrder(records, queue[1..], m, timeDelta, clock, tick + 1, j - 1);
      if j == 1 {
        assert Drain(records, queue, qlp, timeDelta, clock, tick).matched[0] == m;
      }
    }
  }

  /** The pass leaves the replay cursor on the record of the last released entry, or where it
      was when nothing was released. */
  lemma {:induction false} DrainCursorOnLastRelease(records: seq<Record>, queue: seq<Entry>, qlp: int,
                                                    timeDelta: int, clock: nat -> TimeVal, tick: nat)
    requires IsCursor(records, qlp)
    ensures var p := Drain(records, queue, qlp, timeDelta, clock, tick);
      p.qlp == if p.matched == [] then qlp else p.matched[|p.matched| - 1]
    decreases |queue|
  {
    if queue != [] {
      var m := Lookup(records, qlp, queue[0].check);
      if m != SENTINEL && Tv2Ms(clock(tick)) - CalRTime(records[m].time, timeDelta) >= 0 {
        DrainCursorOnLastRelease(records, queue[1..], m, timeDelta, clock, tick + 1);
      }
    }
  }

  /** The j-th released entry's record was due at the clock reading taken for it:
      the reading is not before the record's time translated by the calibration offset. */
  lemma {:induction false} DrainReleasesOnlyDue(records: seq<Record>, queue: seq<Entry>, qlp: int,
                                                timeDelta: int, clock: nat -> TimeVal, tick: nat, j: nat)
    requires IsCursor(records, qlp)
    requires j < |Drain(records, queue, qlp, timeDelta, clock, tick).matched|
    ensures var p := Drain(records, queue, qlp, timeDelta, clock, tick);
      p.matched[j] < |records| && CalRTime(records[p.matched[j]].time, timeDelta) <= Tv2Ms(clock(tick + j))
    decreases j
  {
    var m := Lookup(records, qlp, queue[0].check);
    if j > 0 {
      DrainReleasesOnlyDue(records, queue[1..], m, timeDelta, clock, tick + 1, j - 1);
      assert tick + j == tick + 1 + (j - 1);
    }
  }

  /** The replay keeps the recorded gaps: when `time_delta` was calibrated on a record with
      time `calTime` at clock reading `now0`, every released entry goes out no earlier, after
      `now0`, than its record was recorded after the calibrating record. */
  lemma DrainKeepsRecordedGaps(records: seq<Record>, queue: seq<Entry>, qlp: int, timeDelta: int,
                               clock: nat -> TimeVal, tick: nat, j: nat, calTime: int, now0: TimeVal)
    requires IsCursor(records, qlp)
    requires timeDelta == calTime - Tv2Ms(now0)
    requires j < |Drain(records, queue, qlp, timeDelta, clock, tick).matched|
    ensures var p := Drain(records, queue, qlp, timeDelta, clock, tick);
      p.matched[j] < |records| &&
      records[p.matched[j]].time - calTime <= Tv2Ms(clock(tick + j)) - Tv2Ms(now0)
  {
    DrainReleasesOnlyDue(records, queue, qlp, timeDelta, clock, tick, j);
  }

  /** A pass stops only at the first entry it cannot release: with an empty queue or an
      unmatched head it sleeps the default time; at a head whose record is not yet due it
      sleeps exactly until that record's deadline, which lies in the future. */
  lemma {:induction false} DrainStopsAtFirstBlocked(records: seq<Record>, queue: seq<Entry>, qlp: int,
                                                    timeDelta: int, clock: nat -> TimeVal, tick: nat)
    requires IsCursor(records, qlp)
    ensures var p := Drain(records, queue, qlp, timeDelta, clock, tick);
      (p.stop == Emptied <==> p.rest == []) &&
      (p.stop == Emptied ==> p.sleep == DEFAULT_SLEEP) &&
      (p.stop == Unmatched ==>
         p.rest != [] && Lookup(records, p.qlp, p.rest[0].check) == SENTINEL && p.sleep == DEFAULT_SLEEP) &&
      (p.stop.NotDue? ==>
         p.rest != [] && p.stop.record == Lookup(records, p.qlp, p.rest[0].check) &&
         p.sleep == CalRTime(records[p.stop.record].time, timeDelta) - Tv2Ms(clock(tick + |p.released|)) &&
         p.sleep > 0)
    decreases |queue|
  {
    if queue != [] {
      var m := Lookup(records, qlp, queue[0].check);
      if m != SENTINEL && Tv2Ms(clock(tick)) - CalRTime(records[m].time, timeDelta) >= 0 {
        DrainStopsAtFirstBlocked(records, queue[1..], m, timeDelta, clock, tick + 1);
      }
    }
  }

  /** As written, a pass that stops at a not-yet-due entry leaves the replay cursor ON that
      entry's record, so the next pass, which scans from the record after the cursor, can no
      longer find it there. */
  lemma AsWrittenLeavesHeadRecordBehindCursor(records: seq<Record>, queue: seq<Entry>, qlp: int,
                                              timeDelta: int, clock: nat -> TimeVal)
    requires IsCursor(records, qlp)
    ensures var p := DrainAsWritten(records, queue, qlp, timeDelta, clock, 0);
      p.stop.NotDue? ==> p.rest != [] && 0 <= p.qlp && records[p.qlp].id == p.rest[0].check
  {
    DrainStopsAtFirstBlocked(records, queue, qlp, timeDelta, clock, 0);
  }

  /** As written, with unique record ids, once a pass stops at an entry that is not yet due,
      the next pass releases nothing and leaves queue and cursor as they are, whatever the
      clock reads: the state is a fixed point and the queue is stalled for good. */
  lemma AsWrittenStrandsNotDueHead(records: seq<Record>, queue: seq<Entry>, qlp: int, timeDelta: int,
                                   clock: nat -> TimeVal, later: nat -> TimeVal)
    requires IsCursor(records, qlp) && UniqueIds(records)
    ensures var p := DrainAsWritten(records, queue, qlp, timeDelta, clock, 0);
      p.stop.NotDue? ==>
        var next := DrainAsWritten(records, p.rest, p.qlp, timeDelta, later, 0);
        next.released == [] && next.stop == Unmatched && next.rest == p.rest && next.qlp == p.qlp
  {
    var p := DrainAsWritten(records, queue, qlp, timeDelta, clock, 0);
    if p.stop.NotDue? {
      AsWrittenLeavesHeadRecordBehindCursor(records, queue, qlp, timeDelta, clock);
      LookupUnique(records, p.qlp, p.qlp);
    }
  }

  /** With the cursor advanced only on release, an entry that was not yet due is matched to
      the same record on the next pass, and is released then exactly when its deadline has come. */
  lemma DrainRetriesNotDueHead(records: seq<Record>, queue: seq<Entry>, qlp: int, timeDelta: int,
                               clock: nat -> TimeVal, later: nat -> TimeVal)
    requires IsCursor(records, qlp)
    ensures var p := Drain(records, queue, qlp, timeDelta, clock, 0);
      p.stop.NotDue? ==>
        var next := Drain(records, p.rest, p.qlp, timeDelta, later, 0);
        (next.released != [] <==> CalRTime(records[p.stop.record].time, timeDelta) <= Tv2Ms(later(0))) &&
        (next.released != [] ==> next.released[0] == p.rest[0] && next.matched[0] == p.stop.record)
  {
    DrainStopsAtFirstBlocked(records, queue, qlp, timeDelta, clock, 0);
  }

  /** The stall on concrete values: one record with id 7 due at 1000 ms, one queued entry with
      checksum 7, no calibration offset. A first pass at 500 ms finds the entry not yet due. As
      written, a second pass at 2000 ms no longer finds its record and releases nothing; with the
      cursor advanced only on release, the second pass releases it. */
  lemma StallExample()
    ensures var records := [Record(7, 1000, 100, 0)];
      var queue := [Entry(1, 7)];
      var early := (k: nat) => TimeVal(0, 500_000);
      var late := (k: nat) => TimeVal(2, 0);
      var first := DrainAsWritten(records, queue, SENTINEL, 0, early, 0);
      var fixed := Drain(records, queue, SENTINEL, 0, early, 0);
      first.stop == NotDue(0) && first.rest == queue && first.qlp == 0 && first.sleep == 500 &&
      DrainAsWritten(records, first.rest, first.qlp, 0, late, 0).released == [] &&
      fixed.qlp == SENTINEL &&
      Drain(records, fixed.rest, fixed.qlp, 0, late, 0).released == queue
  {
  }
}
