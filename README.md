# Replay scheduler of `k_flow_control`

This project models the packet replay scheduler of the `k_flow_control` kernel module
(`k/k_flow_control.c`) and proves properties of the model in Dafny.

A user-space tool loads a schedule of records `(id, time, size, priority)` through a control
file and then opens a gate. While the gate is open, a netfilter hook matches each packet to the
target host against the schedule. The match compares the packet's IP header checksum with the
record ids, moving forward only. The hook queues matched packets and drops unmatched ones. A
queue handler numbers each queued packet and appends it to a hold queue. A releaser thread
repeatedly walks the hold queue from its head. Each pass re-injects the due entries at the head
of the queue and stops at the first entry it cannot release. The first queued packet calibrates that clock: `time_delta` is
fixed so its record falls due at that instant.

Modules:

- `Types` (`types.dfy`): the C integer widths, `Record`, `Entry`, `TimeVal`, and the `tv2ms`
  and `cal_rtime` arithmetic.
- `Schedule` (`schedule.dfy`): the record store read through a cursor. `-1` stands for the
  sentinel `headt`. It holds the forward-only lookup `Lookup` and its loop `Seek`.
- `HoldQueue` (`hold_queue.dfy`): the ordering invariant of the hold queue's entry ids.
- `Release` (`release.dfy`): one releaser pass as a function of the state it reads, with its
  properties. There are two versions:
  - `Drain` advances the replay cursor only past released entries.
  - `DrainAsWritten` advances it the way `dequeue_func` does (see Findings).
- `Releaser` (`releaser.dfy`): the releaser's scan as a loop, proved equal to those functions.
- `FlowControl` (`flow_control.dfy`): the class `Scheduler`. It holds the module globals as
  fields, with one method per operation: `Write` (`write_prediction`), `Hook` (`traffic_sharp`),
  `Enqueue` (`queue_callback`), and `DrainPass` / `DrainPassAsWritten` (one iteration of
  `dequeue_func`).

Modelling choices:

- The clock is a parameter.
  - `Hook` receives the reading `now`.
  - A pass receives `clock`, where `clock(k)` is the `do_gettimeofday` reading taken for the
    k-th entry whose record is found.
- A control write receives its input already parsed, as `ControlInput`.
- A failed `copy_from_user` is the flag `copyFault`.
- `queued_counter` and `entry_id` are `unsigned int` and wrap modulo 2^32 (`Wrap32`).
- The millisecond arithmetic is unbounded (see Left out).
- Record lists and queues are sequences in list order.
  - `dclist_add` (`k/k_flow_control.c:175`) is taken to insert at the tail.
  - The hook's scan (`k/k_flow_control.c:271-275`) is modelled by an assumption, not derived
    from the `dclist_foreach` macro. It finds what the releaser's explicit scan
    (`k/k_flow_control.c:402-406`) finds: the first record after `fcp` carrying the checksum, or
    else `SENTINEL`. `SENTINEL` is then the drop at `k/k_flow_control.c:277`, which includes an
    empty store.
  - The record count of the start command (`k/k_flow_control.c:184-192`) is modelled with the
    macro's body not running on the start node `headt`, so it counts exactly the records.
  - `scheduler.h`, which defines these list macros, is not part of this model.

Two behaviours of the code that the model keeps:

- The start command resets only the hook's cursor `fcp` (`k/k_flow_control.c:181`). The
  releaser's cursor `qlp` is left where it is, and `queued_counter` is never reset, so
  calibration happens once per module load.
- Matching the last record closes the gate (`k/k_flow_control.c:286-291`). With records 1, 2, 3,
  a second packet with checksum 2 after packet 3 is therefore accepted untouched by `Hook`, not
  dropped as "no match".

## Model

| member | source | states |
|---|---|---|
| Types.Wrap32 | k/k_flow_control.c:335 | an `unsigned int` increment keeps values below 2^32 unchanged and wraps 2^32 to 0 |
| Types.Tv2Ms | k/k_flow_control.c:84-85 | the reading in whole milliseconds: the microseconds past the whole seconds are truncated to the millisecond, so a normalized reading lies in its second's thousand-millisecond window |
| Types.CalRTime | k/k_flow_control.c:81-82 | the recorded time carried to the local clock: adding the offset back gives the recorded time |
| Types.Tv2MsMonotone | k/k_flow_control.c:84-85 | the millisecond reading of a normalized time value never decreases when the clock does not go back |
| Types.CalibratedRecordIsDue | k/k_flow_control.c:296-299 | after calibration on a record, that record's translated time is not after any later clock reading, so the record is due |
| Schedule.Lookup | k/k_flow_control.c:271-275 | the result is the first record strictly after the cursor whose id equals the key: every record skipped in between has another id, or none matches and the result is the sentinel |
| Schedule.Seek | k/k_flow_control.c:402-406 | the forward scan loop returns exactly the record `Lookup` specifies |
| Schedule.LookupUnique | k/k_flow_control.c:271-275 | with unique ids, a record is found exactly when the cursor is still before it; the scan never revisits a record at or behind the cursor |
| Schedule.WideIdNeverMatches | k/k_flow_control.c:273 | a 16-bit checksum only ever matches a record whose id is below 2^16 |
| HoldQueue.AppendKeepsAscending | k/k_flow_control.c:335-337 | appending an entry stamped with the next id keeps the ids strictly ascending, as long as the counter does not wrap |
| HoldQueue.SuffixKeepsAscending | k/k_flow_control.c:424 | removing released entries from the head keeps the remaining ids ascending |
| Release.Drain | k/k_flow_control.c:398-432 | one pass releases as many entries as it matches records, the cursor only moves forward and stays in the store, and a not-due stop names a record of the store |
| Release.DrainAsWritten | k/k_flow_control.c:412 | the pass as written releases and keeps the same entries as `Drain`, and its cursor also only moves forward within the store |
| Release.DrainReleasesHead | k/k_flow_control.c:421-426 | a head entry whose record is found and due is released first, and the pass continues with the rest of the queue from that record |
| Release.DrainBlockedHead | k/k_flow_control.c:407-430 | a head entry with no record after the cursor stops the pass with nothing released and sleep 2; a head entry whose record is not due stops it with sleep equal to the deadline minus now |
| Release.DrainSplitsQueue | k/k_flow_control.c:398-432 | the original queue is exactly the released entries followed by the entries left queued, so a pass releases a prefix in order and leaves the suffix untouched |
| Release.DrainMatchesInOrder | k/k_flow_control.c:401-406 | each released entry was matched to the first record carrying its checksum after the previous entry's record (after `qlp` for the first) |
| Release.DrainCursorOnLastRelease | k/k_flow_control.c:412 | with the corrected cursor, the pass leaves `qlp` on the record of the last released entry, or unchanged when nothing is released |
| Release.DrainReleasesOnlyDue | k/k_flow_control.c:421-426 | every released entry's record time, translated by `time_delta`, is not after the clock reading taken for it |
| Release.DrainKeepsRecordedGaps | k/k_flow_control.c:296-299 | with `time_delta` calibrated on a record at a clock reading, every released entry goes out no earlier after that reading than its record was recorded after the calibrating record, so the recorded gaps are kept |
| Release.DrainStopsAtFirstBlocked | k/k_flow_control.c:394-430 | a pass stops only when the queue is empty (sleep 2), at the first unmatched entry (sleep 2, no record after the cursor carries its checksum), or at the first not-due entry (sleep = deadline − now > 0) |
| Release.AsWrittenLeavesHeadRecordBehindCursor | k/k_flow_control.c:412 | as written, a pass stopped at a not-yet-due entry leaves `qlp` on that entry's own record |
| Release.AsWrittenStrandsNotDueHead | k/k_flow_control.c:401-412 | as written, with unique ids, the pass after a not-due stop releases nothing, finds no match and changes nothing, whatever the clock reads |
| Release.DrainRetriesNotDueHead | k/k_flow_control.c:421-430 | with the corrected cursor, the next pass matches a not-due entry to the same record again and releases it exactly when its deadline has come |
| Release.StallExample | k/k_flow_control.c:412-430 | on one record due at 1000 ms and a pass at 500 ms, the code as written releases nothing at 2000 ms, while the corrected pass releases the entry |
| Releaser.ScanDue | k/k_flow_control.c:398-432 | the releaser's loop returns exactly the released entries, remaining queue, cursor and sleep time of `Drain` |
| Releaser.ScanDueAsWritten | k/k_flow_control.c:398-432 | the loop as written, with the cursor assigned before the due check, returns exactly the outcome of `DrainAsWritten` |
| FlowControl.Min | k/k_flow_control.c:158-163 | the buffer size taken is the smaller of the written length and 512: it exceeds neither and equals one of them |
| FlowControl.Scheduler.constructor | k/k_flow_control.c:30-66 | at load the store and queue are empty, the gate is closed, both cursors are at the sentinel, `time_delta` and `queued_counter` are 0, and `entry_id` is 1 |
| FlowControl.Scheduler.CountRecords | k/k_flow_control.c:183-192 | the count the start command logs equals the number of records |
| FlowControl.Scheduler.Write | k/k_flow_control.c:139-200 | a failed copy returns −EFAULT and changes nothing; otherwise the result is min(len, 512); a record line appends exactly that record; 723 rewinds `fcp`, opens the gate and reports the record count; anything else changes nothing; `qlp`, the queue and the counters never change |
| FlowControl.Scheduler.Hook | k/k_flow_control.c:252-304 | Accept exactly when the packet is not for the target or the gate is closed; Drop exactly when no record after `fcp` matches, which includes an empty store; on Queue, `fcp` moves forward to the first match, the gate closes exactly when that is the last record, the counter increments, and `time_delta` is calibrated so the record is due now only on the first queued packet |
| FlowControl.Scheduler.Enqueue | k/k_flow_control.c:334-338 | the entry is appended at the tail with the current `entry_id`, the id increments with wrap-around, the other entries and the state are unchanged, and ascending ids are kept until the counter wraps |
| FlowControl.Scheduler.DrainPass | k/k_flow_control.c:393-434 | the pass with the corrected cursor stores `Drain`'s outcome: the released prefix is removed from the queue, `qlp` and the sleep time are set, and ascending ids are kept |
| FlowControl.Scheduler.DrainPassAsWritten | k/k_flow_control.c:393-434 | the pass as written stores `DrainAsWritten`'s outcome and changes nothing else |

## Left out

- Kernel plumbing is not modelled, because it holds no scheduling logic:
  - module init and exit;
  - netfilter hook and queue-handler registration;
  - proc directory and file setup;
  - `procfs_open`/`procfs_close`;
  - `read_prediction`, whose body is commented out;
  - freeing the store at exit.
- Concurrency is not modelled: the spinlock, the kthread loop, `msleep_interruptible` and
  `kthread_should_stop`. Each operation is one atomic method; the thread is repeated passes.
- `sscanf` parsing of control writes is not modelled, because its behaviour is a library call.
  The input arrives already parsed. The first match of the four-field format wins, as in the code.
- `k_v4pton` is not modelled; `targetIp` is a constructor parameter.
- The commented-out burst-gap reinjection in `queue_callback` and `MAX_BURST_GAP` are dead code
  and are not modelled. The constant return value 1 of `queue_callback` carries no information
  and is omitted.
- Write: an unchecked `kmalloc` failure (a NULL dereference in the code) is not modelled.
- Hook: `time_delta` is computed on unbounded integers. The code's `unsigned long long`
  subtraction stored in a `long long` agrees with this only while the difference fits in 64 bits.
- DrainPass: the sleep time is an unbounded integer. The code stores `-time_diff` in an
  `unsigned int`, which truncates deadlines more than 2^32 ms away; the same holds for
  DrainPassAsWritten.
- Types.Tv2Ms: the `long` multiplication `tv_sec * 1000` does not overflow in the model.
- Hook: its matching relies on the scan assumption stated above. Suppose `dclist_foreach`
  behaves like `list_for_each`, started at `&fcp->list` and stopping on its return to `fcp`.
  When `fcp` is a record, the scan then wraps through `headt` and on to the records before
  `fcp`. None of the following is modelled:
  - The body runs on `headt`, whose id is 0, so a packet with checksum 0 stops there and is
    dropped.
  - A packet can match a record before `fcp`, and `k/k_flow_control.c:284` then moves `fcp`
    backward.
  - A scan with no match leaves `tp` on the record just before `fcp`, and the packet is queued
    against it. When `fcp` is the first record, `tp` is `&headt` and the packet is dropped.
  - When `fcp` is `headt` and the store is empty, `tp` stays NULL (`k/k_flow_control.c:260`) and
    is dereferenced at `k/k_flow_control.c:287`.

## Findings

| source | as written | input that shows it | evidently intended | confidence | as-written member | corrected member |
|---|---|---|---|---|---|---|
| k/k_flow_control.c:412 | `qlp` is set to the matched record before the due check (`:421-430`). When the head entry is not yet due, the next pass scans from the record after it and can never match that entry again. | One record with id 7 due at 1000 ms, one queued entry with checksum 7, `qlp` at the sentinel, `time_delta` 0. The first pass at 500 ms stops with sleep 500 and leaves `qlp` on the record. Every later pass finds no match and releases nothing, so the queue stalls for good. | Advance `qlp` only when the entry is released, so a not-due entry is retried on its own record. | not executed | Release.AsWrittenStrandsNotDueHead | Release.DrainRetriesNotDueHead |
