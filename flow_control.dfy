/** The module state of k/k_flow_control.c and the four operations that act on it:
    a control-file write, the netfilter hook's decision, the queue handler's enqueue and
    one pass of the releaser thread. Each operation runs to completion before the next
    starts (the spinlock only brackets sequential code). */
module FlowControl {
  import opened Types
  import opened Schedule
  import opened HoldQueue
  import opened Release
  import opened Releaser

  /** The hook's answer to the netfilter core: let the packet through, drop it, or queue it. */
  datatype Verdict = Accept | Drop | Queue

  /** One control-file write, as already parsed: a four-field schedule record, a single
      integer (a command code), or text that is neither. */
  datatype ControlInput =
    | RecordLine(id: U64, time: U64, size: U32, priority: I32)
    | IntLine(code: I32)
    | Unparsed

  /** The write that opens the gate: a single integer equal to CMD_FLOW_CONTROL, copied successfully. */
  predicate IsStart(copyFault: bool, input: ControlInput)
  {
    !copyFault && input.IntLine? && input.code == CMD_FLOW_CONTROL
  }

  function Min(a: int, b: int): (r: int)
    ensures r <= a && r <= b && (r == a || r == b)
  {
    if a <= b then a else b
  }

  class Scheduler {
    /** `target_ip`: only packets to this address are considered. */
    const targetIp: U32
    /** The schedule store `headt`, in insertion order. */
    var records: seq<Record>
    /** `flow_control`: whether the gate is open. */
    var flowControl: bool
    /** `time_delta`: recorded time minus local time, fixed at calibration. */
    var timeDelta: int
    /** `fcp`: the hook's cursor (SENTINEL or a record index). */
    var fcp: int
    /** `qlp`: the releaser's cursor (SENTINEL or a record index). */
    var qlp: int
    /** The hold queue `head_entry`, head first. */
    var queue: seq<Entry>
    /** `entry_id`: the id the next queued entry receives. */
    var entryId: U32
    /** `queued_counter`: packets queued by the hook since the module was loaded. */
    var queuedCounter: U32

    /** Both cursors point into the store, and while the gate is open over a non-empty store
        some record lies beyond the hook's cursor. */
    ghost predicate Valid()
      reads this
    {
      IsCursor(records, fcp) && IsCursor(records, qlp) &&
      (flowControl && records != [] ==> fcp + 1 < |records|)
    }

    /** Queued entry ids increase from head to tail. */
    ghost predicate IdsAscending()
      reads this
    {
      Ascending(queue, entryId)
    }

    /** The state at module load. */
    constructor (target: U32)
      ensures Valid() && IdsAscending()
      ensures targetIp == target && records == [] && !flowControl && timeDelta == 0
      ensures fcp == SENTINEL && qlp == SENTINEL && queue == [] && entryId == 1 && queuedCounter == 0
    {
      targetIp := target;
      records := [];
      flowControl := false;
      timeDelta := 0;
      fcp := SENTINEL;
      qlp := SENTINEL;
      queue := [];
      entryId := 1;
      queuedCounter := 0;
    }

    /** The count the start command logs: one per record in the store. */
    method CountRecords() returns (count: nat)
      ensures count == |records|
    {
      count := 0;
      while count < |records|
        invariant count <= |records|
      {
        count := count + 1;
      }
    }

    /** `write_prediction`: a record line appends one record; the start command rewinds the hook's
        cursor and opens the gate; anything else is ignored. The result is the number of bytes
        consumed, at most BUF_SIZE, or -EFAULT when the copy from user space fails. `reported` is
        the record count the start command logs. */
    method Write(len: nat, copyFault: bool, input: ControlInput) returns (r: int, reported: Option<nat>)
      requires Valid()
      modifies this
      ensures Valid()
      ensures r == if copyFault then -(EFAULT as int) else Min(len, BUF_SIZE)
      ensures records == if !copyFault && input.RecordLine?
                         then old(records) + [Record(input.id, input.time, input.size, input.priority)]
                         else old(records)
      ensures IsStart(copyFault, input) ==> fcp == SENTINEL && flowControl && reported == Some(|records|)
      ensures !IsStart(copyFault, input) ==> fcp == old(fcp) && flowControl == old(flowControl) && reported == None
      ensures qlp == old(qlp) && queue == old(queue) && entryId == old(entryId)
      ensures timeDelta == old(timeDelta) && queuedCounter == old(queuedCounter)
    {
      reported := None;
      if copyFault {
        return -(EFAULT as int), reported;
      }
      r := Min(len, BUF_SIZE);
      match input {
        case RecordLine(id, time, size, priority) =>
          records := records + [Record(id, time, size, priority)];
        case IntLine(code) =>
          if code == CMD_FLOW_CONTROL {
            fcp := SENTINEL;
            flowControl := true;
            var count := CountRecords();
            reported := Some(count);
          }
        case Unparsed =>
      }
    }

    /** `traffic_sharp`: decide what happens to a packet to `daddr` whose header checksum is
        `check`, at clock reading `now`. Packets to other hosts, or any packet while the gate is
        closed, are accepted untouched. Otherwise the packet is matched to the first record after
        the hook's cursor carrying its checksum: with no such record it is dropped and nothing
        changes; with one, the cursor moves onto it, the gate closes if it is the last record,
        and the packet is queued, calibrating the clock offset if it is the first ever queued. */
    method Hook(daddr: U32, check: U16, now: TimeVal) returns (v: Verdict)
      requires Valid()
      modifies this
      ensures Valid()
      ensures records == old(records) && qlp == old(qlp) && queue == old(queue) && entryId == old(entryId)
      ensures v == Accept <==> !(daddr == targetIp && old(flowControl))
      ensures v == Drop <==> daddr == targetIp && old(flowControl) && Lookup(records, old(fcp), check) == SENTINEL
      ensures v != Queue ==>
        fcp == old(fcp) && flowControl == old(flowControl) &&
        timeDelta == old(timeDelta) && queuedCounter == old(queuedCounter)
      ensures v == Queue ==>
        fcp == Lookup(records, old(fcp), check) && old(fcp) < fcp && records[fcp].id == check &&
        (flowControl <==> fcp + 1 < |records|) &&
        queuedCounter == Wrap32(old(queuedCounter) + 1)
      ensures v == Queue ==>
        timeDelta == if old(queuedCounter) == 0 then records[fcp].time - Tv2Ms(now) else old(timeDelta)
      ensures v == Queue && old(queuedCounter) == 0 ==> CalRTime(records[fcp].time, timeDelta) == Tv2Ms(now)
    {
      if daddr == targetIp && flowControl {
        var tp := Seek(records, fcp, check);
        if tp == SENTINEL {
          return Drop;
        }
        fcp := tp;
        if fcp + 1 == |records| {
          flowControl := false;
        }
        queuedCounter := Wrap32(queuedCounter + 1);
        if queuedCounter == 1 {
          timeDelta := records[fcp].time - Tv2Ms(now);
        }
        v := Queue;
      } else {
        v := Accept;
      }
    }

    /** `queue_callback`: stamp the held packet with the next entry id and append it at the tail.
        The id counter is an `unsigned int`, so ids keep ascending until it wraps. */
    method Enqueue(check: U16)
      requires Valid()
      modifies this
      ensures Valid()
      ensures queue == old(queue) + [Entry(old(entryId), check)]
      ensures entryId == Wrap32(old(entryId) + 1)
      ensures records == old(records) && fcp == old(fcp) && qlp == old(qlp) && flowControl == old(flowControl)
      ensures timeDelta == old(timeDelta) && queuedCounter == old(queuedCounter)
      ensures old(IdsAscending()) && old(entryId) + 1 < U32_LIMIT ==> IdsAscending()
    {
      if IdsAscending() && entryId + 1 < U32_LIMIT {
        AppendKeepsAscending(queue, entryId, check);
      }
      queue := queue + [Entry(entryId, check)];
      entryId := Wrap32(entryId + 1);
    }

    /** One pass of the releaser with the corrected cursor: the due prefix of the queue is
        released in order and removed, and the replay cursor is stored. The scan runs under the
        queue lock, so it works on local copies that are stored at the end. */
    method DrainPass(clock: nat -> TimeVal) returns (released: seq<Entry>, sleepTime: int)
      requires Valid()
      modifies this
      ensures Valid()
      ensures var p := Drain(old(records), old(queue), old(qlp), old(timeDelta), clock, 0);
        released == p.released && queue == p.rest && qlp == p.qlp && sleepTime == p.sleep
      ensures old(queue) == released + queue
      ensures records == old(records) && fcp == old(fcp) && flowControl == old(flowControl)
      ensures timeDelta == old(timeDelta) && entryId == old(entryId) && queuedCounter == old(queuedCounter)
      ensures old(IdsAscending()) ==> IdsAscending()
    {
      var rest, cursor;
      released, rest, cursor, sleepTime := ScanDue(records, queue, qlp, timeDelta, clock);
      DrainSplitsQueue(records, queue, qlp, timeDelta, clock, 0);
      if IdsAscending() {
        SuffixKeepsAscending(queue, entryId, |released|);
      }
      queue, qlp := rest, cursor;
    }

    /** One pass of the releaser as `dequeue_func` performs it. */
    method DrainPassAsWritten(clock: nat -> TimeVal) returns (released: seq<Entry>, sleepTime: int)
      requires Valid()
      modifies this
      ensures Valid()
      ensures var p := DrainAsWritten(old(records), old(queue), old(qlp), old(timeDelta), clock, 0);
        released == p.released && queue == p.rest && qlp == p.qlp && sleepTime == p.sleep
      ensures records == old(records) && fcp == old(fcp) && flowControl == old(flowControl)
      ensures timeDelta == old(timeDelta) && entryId == old(entryId) && queuedCounter == old(queuedCounter)
    {
      var rest, cursor;
      released, rest, cursor, sleepTime := ScanDueAsWritten(records, queue, qlp, timeDelta, clock);
      queue, qlp := rest, cursor;
    }
  }
}
