/** Properties of the batch clock that relate several of its operations:
    slotting by floor division, monotonicity, the slot-start inverse, the
    successor/predecessor inverse, the handoff from one batch's solving phase
    to the next batch's collection phase, and the `u32` conversions. */
module BatchIdProperties {
  import opened Wrappers
  import opened Ints
  import opened BatchIds

  /** Every timestamp in `[n * 300, n * 300 + 300)` belongs to batch `n`. */
  lemma SlotOfTimestamp(n: u64, k: int)
    requires 0 <= k < BATCH_DURATION
    requires n * BATCH_DURATION + k <= U64_MAX
    ensures FromTimestamp(n * BATCH_DURATION + k) == BatchId(n)
  {
  }

  /** The ordinal steps up exactly at multiples of 300 seconds. */
  lemma IncreasesEvery300Seconds()
    ensures Current(UNIX_EPOCH + 299) == Ok(BatchId(0))
    ensures Current(UNIX_EPOCH + 300) == Ok(BatchId(1))
    ensures Current(UNIX_EPOCH + 599) == Ok(BatchId(1))
  {
  }

  /** A later timestamp never maps to an earlier batch. */
  lemma FromTimestampMonotone(t1: u64, t2: u64)
    requires t1 <= t2
    ensures FromTimestamp(t1).value <= FromTimestamp(t2).value
  {
  }

  /** A clock reading that succeeds stays successful later, and the current
      batch never goes backwards. */
  lemma CurrentMonotone(t1: SystemTime, t2: SystemTime)
    requires t1 <= t2 <= U64_MAX
    ensures Current(t1).Ok? ==> Current(t2).Ok?
    ensures Current(t1).Ok? ==> Current(t1).value.value <= Current(t2).value.value
  {
  }

  /** The start of the slot of a timestamp is at most that timestamp, and less
      than one batch length before it. */
  lemma SlotStartRoundTrip(t: u64)
    ensures TimestampFits(FromTimestamp(t))
    ensures AsTimestamp(FromTimestamp(t)) <= t < AsTimestamp(FromTimestamp(t)) + BATCH_DURATION
  {
  }

  /** At the epoch the current batch is 0, and its successor is 1. */
  lemma CurrentAtEpoch()
    ensures Current(UNIX_EPOCH) == Ok(BatchId(0))
    ensures Next(Current(UNIX_EPOCH).value) == BatchId(1)
  {
  }

  /** `next` then `prev` is the identity. */
  lemma PrevNext(b: BatchId)
    requires b.value < U64_MAX
    ensures Prev(Next(b)) == b
  {
  }

  /** `prev` then `next` is the identity. */
  lemma NextPrev(b: BatchId)
    requires b.value > 0
    ensures Next(Prev(b)) == b
  {
  }

  /** `currently_being_solved` panics (the predecessor of batch 0) exactly when
      the clock reads a time in the first slot after the epoch. */
  lemma SolvingUnderflowsExactlyInFirstSlot(now: SystemTime)
    requires now <= U64_MAX
    ensures (Current(now).Ok? && Current(now).value.value == 0) <==> UNIX_EPOCH <= now < UNIX_EPOCH + BATCH_DURATION
  {
  }

  /** 300 seconds after the epoch batch 1 is collecting and batch 0 is solved. */
  lemma CurrentlyBeingSolvedAfterFirstSlot()
    ensures Current(UNIX_EPOCH + 300) == Ok(BatchId(1))
    ensures Prev(Current(UNIX_EPOCH + 300).value) == BatchId(0)
    ensures CurrentlyBeingSolved(UNIX_EPOCH + 300) == Ok(BatchId(0))
  {
  }

  /** The instants at which `current` yields `b` are exactly the 300 seconds
      starting at its order-collection start time. */
  lemma CurrentIffCollecting(t: SystemTime, b: BatchId)
    requires t <= U64_MAX
    requires TimestampFits(b)
    ensures Current(t) == Ok(b) <==>
      OrderCollectionStartTime(b) <= t < OrderCollectionStartTime(b) + BATCH_DURATION
  {
  }

  /** The collection start of the batch current at the epoch, and 299 seconds
      later, is the epoch itself. */
  lemma OrderCollectionStartIsFirstSecond()
    ensures Current(UNIX_EPOCH).Ok? && OrderCollectionStartTime(Current(UNIX_EPOCH).value) == UNIX_EPOCH
    ensures Current(UNIX_EPOCH + 299).Ok? && OrderCollectionStartTime(Current(UNIX_EPOCH + 299).value) == UNIX_EPOCH
  {
  }

  /** Solving for `b` starts exactly when collection for `b + 1` starts, one
      batch length after collection for `b` started. */
  lemma PhaseHandoff(b: BatchId)
    requires b.value < U64_MAX
    requires TimestampFits(Next(b))
    ensures TimestampFits(b)
    ensures SolveStartTime(b) == OrderCollectionStartTime(Next(b))
    ensures SolveStartTime(b) == UNIX_EPOCH + AsTimestamp(b) + BATCH_DURATION
  {
  }

  /** The solving window fits in a batch, so solving for `b` ends 240 seconds
      after it starts and strictly before collection for `b + 2` starts. */
  lemma SolvingEndsBeforeSecondSuccessor(b: BatchId)
    requires b.value + 2 <= U64_MAX
    requires TimestampFits(Next(Next(b)))
    ensures SOLVING_WINDOW <= BATCH_DURATION
    ensures TimestampFits(b)
    ensures SolveEndTime(b) == SolveStartTime(b) + SOLVING_WINDOW
    ensures SolveEndTime(b) < OrderCollectionStartTime(Next(Next(b)))
  {
  }

  /** At any instant after the first slot, the batch being solved is the
      predecessor of the batch collecting orders; its solving phase began when
      the current collection began, and a solution for it is still accepted
      exactly during the first 240 seconds of the current slot. */
  lemma CollectingAndSolvingOverlap(t: SystemTime)
    requires UNIX_EPOCH + BATCH_DURATION <= t <= U64_MAX
    ensures Current(t).Ok? && Current(t).value.value > 0
    ensures TimestampFits(Current(t).value)
    ensures CurrentlyBeingSolved(t) == Ok(Prev(Current(t).value))
    ensures SolveStartTime(Prev(Current(t).value)) == OrderCollectionStartTime(Current(t).value) <= t
    ensures t < SolveEndTime(Prev(Current(t).value)) <==>
      t - OrderCollectionStartTime(Current(t).value) < SOLVING_WINDOW
  {
  }

  /** The batch `k` successors after `b`. */
  function Advance(b: BatchId, k: nat): (r: BatchId)
    requires b.value + k <= U64_MAX
    ensures r.value == b.value + k
    decreases k
  {
    if k == 0 then b else Next(Advance(b, k - 1))
  }

  /** Every elapsed batch length advances the current batch by exactly one. */
  lemma CurrentAfterBatches(t: SystemTime, k: nat)
    requires UNIX_EPOCH <= t
    requires t + k * BATCH_DURATION <= U64_MAX
    ensures Current(t).value.value + k <= U64_MAX
    ensures Current(t + k * BATCH_DURATION) == Ok(Advance(Current(t).value, k))
  {
  }

  /** Converting to `u32` and back restores the batch exactly when its ordinal
      fits in 32 bits. */
  lemma U32RoundTrip(b: BatchId)
    ensures FromU32(IntoU32(b)) == b <==> b.value <= U32_MAX
  {
  }

  /** Comparing with a `u32` looks only at the low 32 bits of the ordinal. */
  lemma EqU32Truncates(b: BatchId, v: u32)
    ensures EqU32(b, v) <==> b.value % U32_MODULUS == v
  {
  }

  /** The truncating comparison identifies distinct batches: batch 2^32 equals
      the `u32` 0, although it is not batch 0. */
  lemma EqU32IgnoresHighBits()
    ensures EqU32(BatchId(U32_MODULUS), 0)
    ensures BatchId(U32_MODULUS) != FromU32(0)
  {
  }
}
