/** Shared vocabulary of the flow-control scheduler: the C integer widths it relies on,
    schedule records, hold-queue entries, the clock and the millisecond arithmetic
    of the `tv2ms` and `cal_rtime` macros. */
module Types {

  /** `__sum16`: the IP header checksum, used as the packet fingerprint. */
  type U16 = x: int | 0 <= x < 0x1_0000
  /** `u32` / `unsigned int`. */
  type U32 = x: int | 0 <= x < 0x1_0000_0000
  /** `unsigned long` / `unsigned long long` on a 64-bit kernel. */
  type U64 = x: int | 0 <= x < 0x1_0000_0000_0000_0000
  /** `int`. */
  type I32 = x: int | -0x8000_0000 <= x < 0x8000_0000

  const U32_LIMIT: int := 0x1_0000_0000

  /** Position of the sentinel `headt` when a cursor is read as an index. */
  const SENTINEL: int := -1
  /** `CMD_FLOW_CONTROL`: the control-file integer that opens the gate. */
  const CMD_FLOW_CONTROL: int := 723
  /** Size of the kernel buffer a control write is copied into. */
  const BUF_SIZE: nat := 512
  /** Linux `EFAULT`; a failed copy from user space returns its negation. */
  const EFAULT: nat := 14
  /** Milliseconds the releaser sleeps when no entry is waiting for its deadline. */
  const DEFAULT_SLEEP: nat := 2

  datatype Option<T> = None | Some(value: T)

  /** Increment-style arithmetic on an `unsigned int`: the result is taken modulo 2^32. */
  function Wrap32(x: nat): (r: U32)
    ensures x < U32_LIMIT ==> r == x
    ensures x == U32_LIMIT ==> r == 0
  {
    x % U32_LIMIT
  }

  /** One schedule record `tfc_t`: packet id, recorded send time (ms), size (bytes), priority. */
  datatype Record = Record(id: U64, time: U64, size: U32, priority: I32)

  /** One held packet: the `id` stamped by the queue handler and the packet's header checksum. */
  datatype Entry = Entry(id: U32, check: U16)

  /** A `struct timeval` as returned by `do_gettimeofday`. */
  datatype TimeVal = TimeVal(sec: int, usec: nat)

  /** `tv2ms`: a time value in whole milliseconds (microseconds truncated). */
  function Tv2Ms(tv: TimeVal): (r: int)
    ensures tv.usec < 1_000_000 ==> tv.sec * 1000 <= r < (tv.sec + 1) * 1000
    ensures (r - tv.sec * 1000) * 1000 <= tv.usec < (r - tv.sec * 1000 + 1) * 1000
  {
    tv.sec * 1000 + tv.usec / 1000
  }

  /** `cal_rtime`: a recorded time translated to the local clock by the calibration offset. */
  function CalRTime(otime: int, timeDelta: int): (r: int)
    ensures r + timeDelta == otime
  {
    otime - timeDelta
  }

  /** A time value as the kernel produces it: microseconds below one second. */
  predicate Normalized(tv: TimeVal)
  {
    tv.usec < 1_000_000
  }

  /** `a` is not later than `b`. */
  predicate NotAfter(a: TimeVal, b: TimeVal)
  {
    a.sec < b.sec || (a.sec == b.sec && a.usec <= b.usec)
  }

  /** The millisecond reading never goes backwards when the clock does not. */
  lemma Tv2MsMonotone(a: TimeVal, b: TimeVal)
    requires Normalized(a) && Normalized(b) && NotAfter(a, b)
    ensures Tv2Ms(a) <= Tv2Ms(b)
  {
  }

  /** The first packet queued in a run calibrates `time_delta` so that its own record is
      due at the calibration instant; it is therefore due at every later clock reading. */
  lemma CalibratedRecordIsDue(time: int, calibratedAt: TimeVal, later: TimeVal)
    requires Normalized(calibratedAt) && Normalized(later) && NotAfter(calibratedAt, later)
    ensures CalRTime(time, time - Tv2Ms(calibratedAt)) <= Tv2Ms(later)
  {
    Tv2MsMonotone(calibratedAt, later);
  }
}
