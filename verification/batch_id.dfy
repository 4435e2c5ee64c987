/** The batch-auction clock: a `BatchId` names the 300-second slot of wall-clock
    time since the Unix epoch in which orders for a batch are collected; the
    solution for that batch is submitted during the first 240 seconds of the
    following slot.

    Time is whole seconds relative to the Unix epoch. Every panic of the Rust
    code (an `unwrap` on a checked add or subtract, an overflowing `u64`
    multiplication) is a precondition here; the one recoverable failure, a
    clock reading earlier than the epoch, is an `Err` value. */
module BatchIds {
  import opened Wrappers
  import opened Ints

  /** Length of one batch slot, in seconds. */
  const BATCH_DURATION: nat := 300
  /** Length of the solving phase that opens when the batch's slot ends, in seconds. */
  const SOLVING_WINDOW: nat := 240

  /** A point in time as whole seconds relative to the Unix epoch; a negative
      value lies before the epoch. */
  type SystemTime = int

  const UNIX_EPOCH: SystemTime := 0

  /** Rust's `SystemTimeError`: the clock reading lies `secondsBefore` seconds before the epoch. */
  datatype ClockError = EarlierThanEpoch(secondsBefore: nat)

  /** The ordinal of a batch, as the settlement contract counts them. */
  datatype BatchId = BatchId(value: u64)

  /** The half-open interval `[n * 300, (n + 1) * 300)` of seconds since the
      epoch that batch `n` stands for. */
  predicate InSlot(t: int, b: BatchId) {
    b.value * BATCH_DURATION <= t < (b.value + 1) * BATCH_DURATION
  }

  /** `as_timestamp` cannot overflow `u64` for this batch. */
  predicate TimestampFits(b: BatchId) {
    b.value * BATCH_DURATION <= U64_MAX
  }

  /** Seconds since the epoch of a clock reading, failing before the epoch. A
      `Duration` counts its seconds in a `u64`, so no reading lies farther than
      `U64_MAX` seconds after the epoch. */
  function SecondsSinceEpoch(now: SystemTime): (r: Result<u64, ClockError>)
    requires now <= U64_MAX
  {
    if now < UNIX_EPOCH then Err(EarlierThanEpoch(UNIX_EPOCH - now)) else Ok(now - UNIX_EPOCH)
  }

  /** The batch whose slot contains `timestamp` (floor division by the batch length). */
  function FromTimestamp(timestamp: u64): (b: BatchId)
    ensures InSlot(timestamp, b)
  {
    BatchId(timestamp / BATCH_DURATION)
  }

  /** The batch collecting orders at `now`; an error before the epoch. */
  function Current(now: SystemTime): (r: Result<BatchId, ClockError>)
    requires now <= U64_MAX
    ensures r.Err? <==> now < UNIX_EPOCH
    ensures r.Err? ==> r.error.secondsBefore == UNIX_EPOCH - now
    ensures r.Ok? ==> InSlot(now - UNIX_EPOCH, r.value)
  {
    match SecondsSinceEpoch(now)
    case Ok(timestamp) => Ok(FromTimestamp(timestamp))
    case Err(e) => Err(e)
  }

  /** The successor batch; `checked_add(1).unwrap()` panics at `u64::MAX`. */
  function Next(b: BatchId): (r: BatchId)
    requires b.value < U64_MAX
    ensures r.value > b.value
    ensures forall c: BatchId {:trigger c.value} :: c.value > b.value ==> r.value <= c.value
  {
    BatchId(CheckedAdd(b.value, 1).value)
  }

  /** The predecessor batch; `checked_sub(1).unwrap()` panics at 0. */
  function Prev(b: BatchId): (r: BatchId)
    requires b.value > 0
    ensures r.value < b.value
    ensures forall c: BatchId {:trigger c.value} :: c.value < b.value ==> c.value <= r.value
  {
    BatchId(CheckedSub(b.value, 1).value)
  }

  /** The batch being solved at `now`: the predecessor of the current batch. Its
      `prev` panics when `now` falls in the very first slot, which the
      precondition excludes; before the epoch the error of `Current` is returned. */
  function CurrentlyBeingSolved(now: SystemTime): (r: Result<BatchId, ClockError>)
    requires now <= U64_MAX
    requires Current(now).Ok? ==> Current(now).value.value > 0
    ensures r.Err? <==> now < UNIX_EPOCH
    ensures r.Err? ==> r == Current(now)
    ensures r.Ok? ==> InSlot(now - UNIX_EPOCH - BATCH_DURATION, r.value)
  {
    match Current(now)
    case Ok(batch) => Ok(Prev(batch))
    case Err(e) => Err(e)
  }

  /** Seconds since the epoch at which the batch's own slot starts; the `u64`
      multiplication must not overflow. */
  function AsTimestamp(b: BatchId): (r: u64)
    requires TimestampFits(b)
    ensures FromTimestamp(r) == b
    ensures forall t: u64 {:trigger FromTimestamp(t)} :: FromTimestamp(t) == b ==> r <= t
  {
    b.value * BATCH_DURATION
  }

  /** The first instant at which orders for the batch may be placed. */
  function OrderCollectionStartTime(b: BatchId): (r: SystemTime)
    requires TimestampFits(b)
    ensures r <= U64_MAX && Current(r) == Ok(b)
    ensures r - 1 < UNIX_EPOCH || Current(r - 1) != Ok(b)
  {
    UNIX_EPOCH + AsTimestamp(b)
  }

  /** The instant at which solving for the batch opens: the end of its own
      collection slot, which is the start of the next batch's collection. */
  function SolveStartTime(b: BatchId): (r: SystemTime)
    requires TimestampFits(b)
    ensures TimestampFits(Next(b)) ==> r == OrderCollectionStartTime(Next(b))
    ensures r > OrderCollectionStartTime(b)
    ensures forall t {:trigger InSlot(t, b)} :: InSlot(t, b) ==> t < r - UNIX_EPOCH
    ensures InSlot(r - 1 - UNIX_EPOCH, b)
  {
    OrderCollectionStartTime(b) + BATCH_DURATION
  }

  /** The instant after which a solution for the batch is no longer accepted:
      it lies strictly inside the next batch's collection slot. */
  function SolveEndTime(b: BatchId): (r: SystemTime)
    requires TimestampFits(b)
    ensures r - SolveStartTime(b) == SOLVING_WINDOW
    ensures InSlot(r - UNIX_EPOCH, BatchId(b.value + 1))
  {
    SolveStartTime(b) + SOLVING_WINDOW
  }

  /** `From<u32> for BatchId`: the lossless widening. */
  function FromU32(v: u32): (b: BatchId)
    ensures b.value <= U32_MAX
    ensures IntoU32(b) == v
  {
    BatchId(v)
  }

  /** `Into<u32> for BatchId`: `self.0 as u32`, which keeps the low 32 bits. */
  function IntoU32(b: BatchId): (v: u32)
    ensures b.value <= U32_MAX ==> v == b.value
    ensures (b.value - v) % U32_MODULUS == 0
  {
    TruncateToU32(b.value)
  }

  /** `PartialEq<u32> for BatchId`: compares the truncated ordinal. */
  function EqU32(b: BatchId, rhs: u32): (r: bool)
    ensures r <==> IntoU32(b) == rhs
    ensures b.value <= U32_MAX ==> (r <==> b == FromU32(rhs))
  {
    TruncateToU32(b.value) == rhs
  }
}
