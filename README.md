# spaced-rs scheduler, modelled in Dafny

This project models spaced-rs, a small spaced-repetition scheduler (`src/lib.rs`). Each
learnable item carries a `SchedulingData` record with these fields: the next interval in
days, a difficulty, a memory strength, an adjusting factor, and two counters (times
reviewed, times recalled). The library has three functions:

- `compute_intervall` inverts the exponential forgetting curve `exp(-rate * t)` at a
  target recall probability. It truncates the result to whole days.
- `schedule` rebuilds the record after one review (`TooHard`, `JustEnough` or `TooEasy`).
  - It moves the difficulty by a factor `f`, `1` or `2 - f`.
  - It multiplies the memory strength by a fixed factor.
  - It derives the next interval from the forgetting rate *before* the review, then adds a
    random offset of up to a tenth of that interval.
  - It increments both counters.
- `update_adjusting_factor` replaces the adjusting factor by
  `ln(target) / ln(recalled / reviewed)`.

The model is pure, like the source: datatypes, functions and lemmas, in three modules.

- `RustNumerics` (`rust_numerics.dfy`) holds the Rust primitives the library uses:
  - `f32 as i32`, which truncates toward zero and saturates at the `i32` bounds;
  - `i32` division, which truncates toward zero;
  - the predicate `LnBounds`, which states what the model knows of `f32::ln`
    (`1 - 1/x <= ln x <= x - 1` on positive `x`);
  - the predicate `IsRangeSampler`, which states what the model knows of
    `rng.gen_range(0..n)` (a value in `[0, n)` whenever `n > 0`).
- `Spaced` (`spaced.dfy`) holds the records, their defaults and the three functions.
  `f32` fields are exact `real`s. The logarithm is the function parameter `ln`. The random
  generator is the function parameter `sample`. A Rust panic is an `Err` carrying a `Panic`
  value. Each `assert!` of `compute_intervall` has its own `Panic` value, and so does the
  empty random range.
- `SpacedProperties` (`spaced_properties.dfy`) holds the lemmas. They relate several calls,
  use the logarithm's bounds, or follow an item's whole history from the default record.

## Model

| member | source | states |
|---|---|---|
| `RustNumerics.TruncTowardZero` | src/lib.rs:35 | the result is the integer part of the real: at most its magnitude, within one of it, with the same sign |
| `RustNumerics.SaturatingCastToI32` | src/lib.rs:35 | `as i32` stays within the `i32` bounds; it truncates toward zero unless it saturates at `i32::MAX` or `i32::MIN` |
| `RustNumerics.DivTowardZero` | src/lib.rs:105 | integer `/` truncates toward zero: `q*b <= a < q*b + b` for non-negative `a`, mirrored for negative `a` |
| `Spaced.DefaultSchedulingData` | src/lib.rs:59-67 | the default record has interval 1, positive difficulty and memory strength in ratio 0.1, adjusting factor 1, and both counters 0 |
| `Spaced.DefaultUpdateParameters` | src/lib.rs:69-77 | the defaults are 1.1 and 1.6; the difficulty step lies strictly between 1 and 2, and the strength factor is above 1 |
| `Spaced.ComputeIntervall` | src/lib.rs:30-36 | panics exactly when the rate is negative (first assertion), or else when the probability is at least 1 (second assertion); otherwise the result is an `i32`; a zero rate saturates to `i32::MAX`; with a logarithm within `LnBounds` the result is never negative |
| `SpacedProperties.ComputeIntervallIsCurveInverse` | src/lib.rs:34-35 | for rate > 0 and 0 < p < 1, the result is the last whole day `d` with `-rate*d >= ln p`; day `d+1` falls below `ln p` unless the cast saturated |
| `Spaced.ForgettingRate` | src/lib.rs:100 | rate × adjusting factor × memory strength = difficulty; the rate is never zero; it is positive when all three inputs are positive |
| `Spaced.NewDifficulty` | src/lib.rs:93-97 | `JustEnough` leaves the difficulty unchanged; `TooHard` raises it by `(f-1)·d`; `TooEasy` lowers it by the same `(f-1)·d` |
| `Spaced.JitterRange` | src/lib.rs:105 | the jitter range is positive exactly when the base interval is at least 10; for a non-negative base it is the base's tenth, rounded down |
| `Spaced.JitterAsWritten` | src/lib.rs:104-107 | panics with the empty random range exactly when the base is under 10; otherwise the interval lies in `[base - range, base + range - 1]` |
| `Spaced.Jitter` | src/lib.rs:104-107 | the corrected step: the base is unchanged when under 10; otherwise the interval lies in `[base - range, base + range - 1]` |
| `Spaced.Schedule` | src/lib.rs:81-117 | `schedule` with the corrected jitter step (no offset for a base under 10): panics exactly when the item's rate is negative, or the probability is at least 1, each with its own panic. On success: the difficulty is moved by the review; the memory strength is multiplied by its factor; the adjusting factor is kept; both counters go up by exactly 1; the interval is the pre-review base, jittered within its bounds |
| `Spaced.ScheduleAsWritten` | src/lib.rs:81-117 | `schedule` as written: panics with the empty random range exactly when the base interval succeeds and is under 10; in every other case it returns what `Schedule` returns, so it succeeds exactly when the rate is non-negative, the probability is below 1 and the base is at least 10 |
| `Spaced.ObservedRecallRate` | src/lib.rs:125 | the observed rate times the number of reviews equals the number of recalls |
| `Spaced.UpdateAdjustingFactor` | src/lib.rs:121-137 | only the adjusting factor changes; the new factor times ln(observed rate) equals ln(target) |
| `SpacedProperties.DefaultFirstIntervallIsOneDay` | src/lib.rs:59-67 | the default record at a 0.9 target has a base interval of exactly 1 day, as the default's comment intends |
| `SpacedProperties.DefaultFirstReviewPanicsAsWritten` | src/lib.rs:104-106 | as written, the first `schedule` of a default record at a 0.9 target panics, whatever the review and parameters |
| `SpacedProperties.DefaultFirstReviewIsOneDay` | src/lib.rs:101-107 | with the corrected jitter, that first review succeeds and gives interval 1 |
| `SpacedProperties.DifficultyStepsMirror` | src/lib.rs:93-97 | `JustEnough` leaves the difficulty exactly unchanged; the `TooHard` and `TooEasy` results from one input sum to twice the old difficulty |
| `SpacedProperties.DifficultyOrdering` | src/lib.rs:93-97 | for positive `d` and `f > 1`, `TooEasy < d < TooHard`; the `TooEasy` result stays positive exactly when `f < 2` |
| `SpacedProperties.IntervallUsesPreReviewState` | src/lib.rs:91-101 | the review outcome and the update parameters affect neither whether the corrected `Schedule` panics nor the interval it returns |
| `SpacedProperties.NextForgettingRate` | src/lib.rs:99-100 | the stored record's rate × strength factor × old difficulty = old rate × new difficulty; after `JustEnough` the new rate is the old rate divided by the strength factor |
| `SpacedProperties.SchedulePreservesPositivity` | src/lib.rs:93-113 | with positive difficulty, strength and factor, `0 < f < 2`, a positive strength factor and `0 < p < 1`, the corrected `Schedule` succeeds, keeps the three fields positive, and its result can be scheduled again (the as-written `schedule` panics instead whenever the base is under 10) |
| `SpacedProperties.NewDifficultyStaysPositive` | src/lib.rs:93-97 | with a positive difficulty and `0 < f < 2`, every review outcome leaves the difficulty positive |
| `SpacedProperties.JitterReachesWholeRange` | src/lib.rs:104-107 | every interval in `[base - range, base + range - 1]` is produced by some generator draw |
| `SpacedProperties.AdjustingFactorOneAtTarget` | src/lib.rs:125-127 | when the observed rate equals the target, the new adjusting factor is exactly 1 |
| `SpacedProperties.NineOfTenAtNinetyPercent` | src/lib.rs:125-127 | 9 recalls in 10 reviews at a 0.9 target: the calibrator is defined and gives 1 |
| `SpacedProperties.CalibrationDomainExactly` | src/lib.rs:125-127 | the calibrator is defined exactly when `reviewed != 0`, `0 < observed`, `observed != 1` and `0 < target`; with both rates in (0, 1) the new factor is positive |
| `SpacedProperties.UpdateAdjustingFactorIdempotent` | src/lib.rs:121-137 | calibrating twice with the same target gives the same record as calibrating once |
| `SpacedProperties.EqualCountersRuleOutCalibration` | src/lib.rs:125-127 | with equal counters, the calibrator's precondition never holds |
| `SpacedProperties.HistoryCountersAgree` | src/lib.rs:113-115 | on every record reachable from the default one by the corrected `Schedule` and by in-domain `update_adjusting_factor` calls: both counters equal the number of reviews, and the adjusting factor is still 1 |
| `SpacedProperties.CalibrationNeverApplies` | src/lib.rs:121-127 | no record reachable from the default one (by the steps above) satisfies the calibrator's precondition |

The model keeps one behaviour of the source and proves its consequence: `schedule` counts
every review as a recall, whatever the outcome. It assumes one further fact, written into
the history predicate `IsHistory`: the record's fields are private, so every record starts
from the default one. As a consequence, `times_recalled / times_reviewed` is always 1, or undefined before the
first review. So `update_adjusting_factor` always divides by `ln(1) = 0`.
`HistoryCountersAgree` and `CalibrationNeverApplies` state this. The model keeps the
always-increment behaviour, as the source has it.

## Left out

- The randomness of `rand::thread_rng()` and `gen_range` is left out. The generator is the
  parameter `sample`, about which the model knows only that its draw lies in `[0, n)`. The
  model can show that every value in the jitter range is reachable. It cannot state
  uniformity, because that is a property of a distribution.
- `ln` is the parameter `ln`, not a computed function. The model knows only the bounds in
  `LnBounds`, which hold for the real natural logarithm (and for other functions, such as
  `x - 1`, so nothing beyond them is claimed).
- IEEE-754 `f32` behaviour is left out: rounding, NaN, infinities other than the
  `compute_intervall` zero-rate case, and overflow to infinity. The model computes on exact
  reals, so its results are the mathematically intended ones, not bit-exact `f32` results.
- The sign of `-0.0` in `is_sign_positive` is left out, because reals have no signed zero.
  For this reason `ForgettingRate`, `Schedule` and `ScheduleAsWritten` require a non-zero difficulty, memory
  strength and adjusting factor. The last two are also needed because they are divisors;
  the difficulty is required non-zero only so that the rate's sign matches the source's.
- ComputeIntervall: requires a positive probability whenever the logarithm is actually
  evaluated. In `f32`, `ln` of zero or of a negative number gives `-inf` or NaN, and the
  cast turns these into `i32::MAX` or 0. The model does not follow those values.
- UpdateAdjustingFactor: requires at least one review, positive probabilities and
  `ln(observed) != 0`. Outside that domain the source still returns a value:
  - with reviews but no recalls the observed rate is 0, `ln(0.0)` is `-inf`, and the new
    factor is a finite zero (`0.0` for a target below 1, `-0.0` otherwise). The model
    excludes this case because `ln 0` has no real value.
  - with no reviews, or an observed rate of 1, it returns NaN or an infinite factor, which
    the model does not represent either.
- HistoryCountersAgree: its histories admit only in-domain calibration steps. On a record
  built from the default one, the source's `update_adjusting_factor` returns NaN before the
  first review. After it, the source returns `-inf` for a target below 1, and the next
  `schedule` then fails the first assertion of `compute_intervall`, because the forgetting
  rate is `-0.0`; for a target above 1 it returns `+inf`, and that assertion passes. None
  of these values exists in the model.
- Schedule: the `i32` overflow of `base + offset` is not modelled. It needs a base above
  about 1.95e9 days, which only a rate close to zero produces. The counter increments are
  not capped at `i32::MAX` either. The model's integers are unbounded there, while debug
  builds of the source would panic and release builds would wrap.
- ScheduleAsWritten: the same `i32` overflow is left out, for the same reason.
- The crate attributes and the `E` import (`src/lib.rs:6-14`) and the documentation link
  (`src/lib.rs:120`) carry no behaviour and are left out.

## Findings

| source | as written | input that shows it | evidently intended | confidence | as-written member | corrected member |
|---|---|---|---|---|---|---|
| src/lib.rs:105-106 | `rng.gen_range(0..random_range*2)` draws from an empty range, and so panics, whenever the base interval is under 10 days (`random_range == 0`) | the default `SchedulingData` and default `UpdateParameters`, any review, probability 0.9: the base interval is 1, so `gen_range(0..0)` panics on the very first review | no jitter when the range is empty: the interval stays at the base | high (not executed) | `Spaced.ScheduleAsWritten`, with `SpacedProperties.DefaultFirstReviewPanicsAsWritten` | `Spaced.Schedule`, with `SpacedProperties.DefaultFirstReviewIsOneDay` |
