# Batch-auction clock (`BatchId`)

This is a Dafny model of the `BatchId` value type of the dex-services batch auction.
A `BatchId` is the ordinal of a 300-second slot of wall-clock time, counted from the Unix epoch.
Orders for batch `n` are collected during `[n·300, n·300 + 300)` seconds after the epoch.
The solution for batch `n` may be submitted during the first 240 seconds of the following slot.

Files:
- `wrappers.dfy` (module `Wrappers`): `Option` and `Result`, standing in for Rust's.
- `ints.dfy` (module `Ints`): the `u64`/`u32` ranges, `checked_add`, `checked_sub` and the truncating `as u32` cast.
- `batch_id.dfy` (module `BatchIds`): the constants `BATCH_DURATION` (300) and `SOLVING_WINDOW` (240), the `BatchId` datatype and every operation on it.
- `batch_id_properties.dfy` (module `BatchIdProperties`): lemmas that relate the operations to each other.

Modelling choices:
- A `SystemTime` is an integer number of whole seconds relative to the epoch. A negative value lies before the epoch.
- Reading such a time as seconds since the epoch fails with `EarlierThanEpoch(secondsBefore)`. This is the `SystemTimeError` that `current` propagates.
- A Rust panic is a precondition here. This covers the `unwrap` in `next`/`prev` and the `u64` overflow of `as_timestamp`. The precondition of `CurrentlyBeingSolved` excludes exactly the panic of its inner `prev`. `SolvingUnderflowsExactlyInFirstSlot` shows this happens exactly in the first slot after the epoch.
- The three phase boundaries are instants (`SystemTime`), computed as the epoch plus a number of seconds.
- `Into<u32>` is `self.0 as u32`, which keeps the low 32 bits of the ordinal. It returns the ordinal unchanged exactly when the ordinal is at most `u32::MAX` (see `U32RoundTrip`). `PartialEq<u32>` uses the same truncation (see `EqU32IgnoresHighBits`).

## Model

| member | source | states |
|---|---|---|
| BatchIds.FromTimestamp | services-core/src/models/batch_id.rs:18-20 | the resulting batch's 300-second slot contains the timestamp |
| BatchIds.Current | services-core/src/models/batch_id.rs:31-33 | fails exactly for times before the epoch, and the error gives the distance to the epoch; otherwise the time lies in the returned batch's slot |
| BatchIds.CurrentlyBeingSolved | services-core/src/models/batch_id.rs:35-37 | fails exactly when `current` fails, with the same error; otherwise the returned batch's slot contains the time one batch length earlier |
| BatchIds.AsTimestamp | services-core/src/models/batch_id.rs:39-41 | when the multiplication fits in u64: the result maps back to the same batch, and it is the least timestamp that does |
| BatchIds.OrderCollectionStartTime | services-core/src/models/batch_id.rs:43-45 | the batch is current at this instant but not one second earlier (the first second of the batch) |
| BatchIds.SolveStartTime | services-core/src/models/batch_id.rs:47-49 | equals the collection start of the next batch; the second before it is the last second of the batch's own slot |
| BatchIds.SolveEndTime | services-core/src/models/batch_id.rs:51-53 | lies 240 seconds after solving starts, strictly inside the next batch's slot |
| BatchIds.Next | services-core/src/models/batch_id.rs:55-57 | defined below u64::MAX; yields the least ordinal greater than the input |
| BatchIds.Prev | services-core/src/models/batch_id.rs:59-61 | defined above 0; yields the greatest ordinal less than the input |
| BatchIds.FromU32 | services-core/src/models/batch_id.rs:64-68 | the widened batch fits in 32 bits, and converting it back yields the original u32 |
| BatchIds.IntoU32 | services-core/src/models/batch_id.rs:70-74 | agrees with the ordinal modulo 2^32, and equals it when the ordinal fits in 32 bits |
| BatchIds.EqU32 | services-core/src/models/batch_id.rs:76-80 | true exactly when the truncated ordinal equals the u32; for ordinals below 2^32, the same as equality with the widened u32 |
| BatchIdProperties.SlotOfTimestamp | services-core/src/models/batch_id.rs:18-20 | `n·300 + k` maps to batch `n` for every `k` in `[0, 300)` |
| BatchIdProperties.IncreasesEvery300Seconds | services-core/src/models/batch_id.rs:134-144 | times 299, 300 and 599 after the epoch map to batches 0, 1 and 1 |
| BatchIdProperties.FromTimestampMonotone | services-core/src/models/batch_id.rs:18-20 | a later timestamp never gives a smaller ordinal |
| BatchIdProperties.CurrentMonotone | services-core/src/models/batch_id.rs:31-33 | once `current` succeeds it keeps succeeding at later times, and its ordinal never decreases |
| BatchIdProperties.SlotStartRoundTrip | services-core/src/models/batch_id.rs:39-41 | the start of a timestamp's slot is at most the timestamp and less than 300 seconds before it |
| BatchIdProperties.CurrentAtEpoch | services-core/src/models/batch_id.rs:92-103 | at the epoch the current batch is 0 and its successor is 1 |
| BatchIdProperties.PrevNext | services-core/src/models/batch_id.rs:55-61 | `prev(next(b)) == b` below u64::MAX |
| BatchIdProperties.NextPrev | services-core/src/models/batch_id.rs:55-61 | `next(prev(b)) == b` above 0 |
| BatchIdProperties.SolvingUnderflowsExactlyInFirstSlot | services-core/src/models/batch_id.rs:105-124 | `current` yields batch 0, so `currently_being_solved` panics, exactly for times in the first 300 seconds after the epoch |
| BatchIdProperties.CurrentlyBeingSolvedAfterFirstSlot | services-core/src/models/batch_id.rs:112-132 | 300 seconds after the epoch, batch 1 is current, its predecessor is 0, and batch 0 is being solved |
| BatchIdProperties.CurrentIffCollecting | services-core/src/models/batch_id.rs:31-45 | `current(t) == b` if and only if `t` is in the 300 seconds that start at `b`'s collection start |
| BatchIdProperties.OrderCollectionStartIsFirstSecond | services-core/src/models/batch_id.rs:146-154 | the batch current at the epoch, and the one current 299 seconds later, both start collecting at the epoch |
| BatchIdProperties.PhaseHandoff | services-core/src/models/batch_id.rs:43-49 | solve start of `b` equals collection start of `next(b)`, which is `as_timestamp(b) + 300` after the epoch |
| BatchIdProperties.SolvingEndsBeforeSecondSuccessor | services-core/src/models/batch_id.rs:47-53 | the solving window is no longer than a batch; solving ends 240 s after it starts and before collection of `b + 2` starts |
| BatchIdProperties.CollectingAndSolvingOverlap | services-core/src/models/batch_id.rs:35-53 | after the first slot, the batch being solved is the predecessor of the current one; its solving began when current collection began, and it still accepts solutions exactly during the first 240 s of the current slot |
| BatchIdProperties.Advance | services-core/src/models/batch_id.rs:55-57 | `k` applications of `next` add exactly `k` to the ordinal |
| BatchIdProperties.CurrentAfterBatches | services-core/src/models/batch_id.rs:18-33 | after `k` batch lengths have elapsed, the current batch is the `k`-th successor |
| BatchIdProperties.U32RoundTrip | services-core/src/models/batch_id.rs:64-74 | converting to u32 and back restores the batch if and only if its ordinal fits in 32 bits |
| BatchIdProperties.EqU32Truncates | services-core/src/models/batch_id.rs:76-80 | `b == v` holds exactly when the ordinal modulo 2^32 equals `v` |
| BatchIdProperties.EqU32IgnoresHighBits | services-core/src/models/batch_id.rs:76-80 | batch 2^32 compares equal to the u32 0 although it is not batch 0 |

## Left out

- `BatchId::now` (services-core/src/models/batch_id.rs:27-29) reads the live system clock. It is left out; `Current` takes the time as a parameter.
- The internals of `SystemTime`, `SystemTimeError` and the `crate::time::SystemTimeExt` helpers are not part of this model. Time is whole seconds relative to the epoch, and a reading before the epoch is an error value.
- Sub-second precision of `Duration` and `SystemTime` is left out. Only whole seconds are modelled.
- Serde `Serialize`/`Deserialize` with `#[serde(transparent)]` is library framing and is left out.
- `fmt::Display` only formats the ordinal and is left out.
- Current: requires the time to lie at most `u64::MAX` seconds after the epoch, because a `Duration` since the epoch holds its seconds in a `u64`.
- AsTimestamp: requires that `ordinal · 300` fits in `u64`. A debug build panics when it does not; a release build would wrap, and that wrap-around is not modelled.
- OrderCollectionStartTime, SolveStartTime, SolveEndTime: return unbounded integer instants. The panic of `SystemTime + Duration` beyond the platform's time range is not modelled.
- CurrentlyBeingSolved: requires that `current` does not return batch 0. The source panics there; `SolvingUnderflowsExactlyInFirstSlot` describes that case instead.
