/**
  The spaced-repetition scheduler of src/lib.rs: a per-item record, a three-way review
  outcome, the tuning parameters, and the three functions that compute the next interval,
  rebuild the record after a review, and recalibrate the adjusting factor.

  `f32` values are exact reals; the natural logarithm is the parameter `ln` and the random
  generator is the parameter `sample` (see RustNumerics). A Rust panic is an `Err`.
 */
module Spaced {
  import opened RustNumerics

  /** The user's verdict on one review event. */
  datatype UserReview = TooHard | JustEnough | TooEasy

  /** The scheduling state of one item. */
  datatype SchedulingData = SchedulingData(
    intervall: int,
    difficulty: real,
    memoryStrength: real,
    adjustingFactor: real,
    timesReviewed: int,
    timesRecalled: int)

  /** How much a review moves difficulty and memory strength. */
  datatype UpdateParameters = UpdateParameters(
    difficultyChangeFactor: real,
    memoryStrengthChangeFactor: real)

  /** The ways the scheduler aborts. */
  datatype Panic =
    | ForgettingRateNotSignPositive  // the first assertion of compute_intervall
    | ProbabilityNotBelowOne         // the second assertion of compute_intervall
    | EmptyRandomRange               // gen_range over an empty range

  datatype Result<T> = Ok(value: T) | Err(panic: Panic)

  /**
    The state of a new item: no reviews yet, no correction, and a difficulty to memory
    strength ratio of 0.1, close to -ln(0.9), so that the first interval is about a day.
   */
  function DefaultSchedulingData(): (d: SchedulingData)
    ensures d.intervall == 1
    ensures 0.0 < d.difficulty && 0.0 < d.memoryStrength
    ensures d.difficulty / d.memoryStrength == 0.1
    ensures d.adjustingFactor == 1.0
    ensures d.timesReviewed == 0 && d.timesRecalled == 0
  {
    SchedulingData(1, 10.0, 100.0, 1.0, 0, 0)
  }

  /**
    The default tuning: a 10% difficulty step (so TooHard raises and TooEasy lowers a
    positive difficulty while keeping it positive) and a 60% gain in memory strength.
   */
  function DefaultUpdateParameters(): (p: UpdateParameters)
    ensures 1.0 < p.difficultyChangeFactor < 2.0
    ensures p.difficultyChangeFactor == 1.1
    ensures 1.0 < p.memoryStrengthChangeFactor
    ensures p.memoryStrengthChangeFactor == 1.6
  {
    UpdateParameters(1.1, 1.6)
  }

  /**
    compute_intervall: the number of whole days after which the forgetting curve
    exp(-forgettingRate * t) falls to `probability`, i.e. ln(probability) / -forgettingRate
    cast to i32. Aborts when the rate is negative or the probability is not below 1.
    With a zero rate the quotient is +infinity, which the cast saturates to i32::MAX.
    The logarithm is only evaluated once both assertions pass, so only then must the
    probability lie in its domain.
   */
  function ComputeIntervall(ln: real -> real, forgettingRate: real, probability: real): (r: Result<int>)
    requires 0.0 <= forgettingRate && probability < 1.0 ==> 0.0 < probability
    ensures r == Err(ForgettingRateNotSignPositive) <==> forgettingRate < 0.0
    ensures r == Err(ProbabilityNotBelowOne) <==> 0.0 <= forgettingRate && 1.0 <= probability
    ensures r.Ok? <==> 0.0 <= forgettingRate && probability < 1.0
    ensures r.Ok? ==> I32Min <= r.value <= I32Max
    ensures r.Ok? && forgettingRate == 0.0 ==> r.value == I32Max
    ensures r.Ok? && LnBounds(ln) ==> 0 <= r.value
  {
    if !(forgettingRate >= 0.0) then Err(ForgettingRateNotSignPositive)
    else if !(probability < 1.0) then Err(ProbabilityNotBelowOne)
    else if forgettingRate == 0.0 then Ok(I32Max)
    else
      var days := ln(probability) / -forgettingRate;
      assert LnBounds(ln) ==> ln(probability) < 0.0 && 0.0 < days;
      Ok(SaturatingCastToI32(days))
  }

  /**
    The forgetting rate divides by the adjusting factor and the memory strength; the
    difficulty is kept non-zero too, so that the rate's sign is that of the source's `f32`.
   */
  predicate NonZeroParameters(item: SchedulingData)
  {
    item.difficulty != 0.0 && item.memoryStrength != 0.0 && item.adjustingFactor != 0.0
  }

  /**
    The forgetting rate of an item: its difficulty per unit of memory strength, scaled
    down by the adjusting factor.
   */
  function ForgettingRate(item: SchedulingData): (rate: real)
    requires NonZeroParameters(item)
    ensures rate * item.adjustingFactor * item.memoryStrength == item.difficulty
    ensures rate != 0.0
    ensures 0.0 < item.difficulty && 0.0 < item.memoryStrength && 0.0 < item.adjustingFactor ==> 0.0 < rate
  {
    (1.0 / item.adjustingFactor) * (item.difficulty / item.memoryStrength)
  }

  /**
    The difficulty after a review: unchanged when the review was just right, moved up by
    (f - 1) times itself when too hard, and down by the same amount when too easy.
   */
  function NewDifficulty(difficulty: real, review: UserReview, changeFactor: real): (d: real)
    ensures review == JustEnough ==> d == difficulty
    ensures review == TooHard ==> d - difficulty == (changeFactor - 1.0) * difficulty
    ensures review == TooEasy ==> difficulty - d == (changeFactor - 1.0) * difficulty
  {
    match review
    case TooHard => difficulty * changeFactor
    case JustEnough => difficulty
    case TooEasy => difficulty * (2.0 - changeFactor)
  }

  /** A tenth of the base interval, by i32 division: positive exactly from ten days on. */
  function JitterRange(base: int): (range: int)
    ensures 0 < range <==> 10 <= base
    ensures 0 <= base ==> 10 * range <= base < 10 * range + 10
  {
    DivTowardZero(base, 10)
  }

  /**
    The jitter step as written: it draws from `0..2 * range`, which is empty, and so
    panics, whenever the base interval is under ten days.
   */
  function JitterAsWritten(base: int, sample: int -> int): (r: Result<int>)
    requires IsRangeSampler(sample)
    ensures r.Err? <==> base < 10
    ensures r.Err? ==> r.panic == EmptyRandomRange
    ensures r.Ok? ==> base - JitterRange(base) <= r.value < base + JitterRange(base)
  {
    var range := JitterRange(base);
    if range * 2 <= 0 then Err(EmptyRandomRange)
    else Ok(base + (sample(range * 2) - range))
  }

  /**
    The jitter step as intended: a uniform offset in [-range, range - 1], and no offset
    when the range is empty.
   */
  function Jitter(base: int, sample: int -> int): (interval: int)
    requires IsRangeSampler(sample)
    ensures base < 10 ==> interval == base
    ensures 10 <= base ==> base - JitterRange(base) <= interval < base + JitterRange(base)
  {
    var range := JitterRange(base);
    if range * 2 <= 0 then base
    else base + (sample(range * 2) - range)
  }

  /** What schedule needs of its inputs for the model's arithmetic to be defined. */
  predicate ScheduleDomain(item: SchedulingData, probability: real)
  {
    NonZeroParameters(item) &&
    (0.0 <= ForgettingRate(item) && probability < 1.0 ==> 0.0 < probability)
  }

  /** The interval before jitter: compute_intervall at the item's current forgetting rate. */
  function BaseIntervall(item: SchedulingData, probability: real, ln: real -> real): (r: Result<int>)
    requires ScheduleDomain(item, probability)
  {
    ComputeIntervall(ln, ForgettingRate(item), probability)
  }

  /** The record schedule returns, once the next interval is known. */
  function Reviewed(item: SchedulingData, review: UserReview, params: UpdateParameters, intervall: int): SchedulingData
  {
    SchedulingData(
      intervall,
      NewDifficulty(item.difficulty, review, params.difficultyChangeFactor),
      item.memoryStrength * params.memoryStrengthChangeFactor,
      item.adjustingFactor,
      item.timesReviewed + 1,
      item.timesRecalled + 1)
  }

  /**
    schedule, with the jitter step as intended. The next interval comes from the item's
    forgetting rate before the review; the review outcome only moves the difficulty stored
    for next time. Memory strength always grows by its factor, both counters always go up
    by one, and the adjusting factor is carried over.
   */
  function Schedule(item: SchedulingData, review: UserReview, params: UpdateParameters, probability: real,
                    ln: real -> real, sample: int -> int): (r: Result<SchedulingData>)
    requires ScheduleDomain(item, probability) && IsRangeSampler(sample)
    ensures r == Err(ForgettingRateNotSignPositive) <==> ForgettingRate(item) < 0.0
    ensures r == Err(ProbabilityNotBelowOne) <==> 0.0 <= ForgettingRate(item) && 1.0 <= probability
    ensures r.Ok? <==> 0.0 <= ForgettingRate(item) && probability < 1.0
    ensures r.Ok? ==> r.value.difficulty == NewDifficulty(item.difficulty, review, params.difficultyChangeFactor)
    ensures r.Ok? ==> r.value.memoryStrength == item.memoryStrength * params.memoryStrengthChangeFactor
    ensures r.Ok? ==> r.value.adjustingFactor == item.adjustingFactor
    ensures r.Ok? ==> r.value.timesReviewed == item.timesReviewed + 1
    ensures r.Ok? ==> r.value.timesRecalled == item.timesRecalled + 1
    ensures r.Ok? ==>
      var base := BaseIntervall(item, probability, ln).value;
      (base < 10 ==> r.value.intervall == base) &&
      (10 <= base ==> base - JitterRange(base) <= r.value.intervall < base + JitterRange(base))
  {
    match BaseIntervall(item, probability, ln)
    case Err(e) => Err(e)
    case Ok(base) => Ok(Reviewed(item, review, params, Jitter(base, sample)))
  }

  /**
    schedule as written: identical to Schedule except that it panics on the empty random
    range, which happens exactly when the base interval is under ten days.
   */
  function ScheduleAsWritten(item: SchedulingData, review: UserReview, params: UpdateParameters, probability: real,
                             ln: real -> real, sample: int -> int): (r: Result<SchedulingData>)
    requires ScheduleDomain(item, probability) && IsRangeSampler(sample)
    ensures r == Err(EmptyRandomRange) <==>
      BaseIntervall(item, probability, ln).Ok? && BaseIntervall(item, probability, ln).value < 10
    ensures r != Err(EmptyRandomRange) ==> r == Schedule(item, review, params, probability, ln, sample)
  {
    match BaseIntervall(item, probability, ln)
    case Err(e) => Err(e)
    case Ok(base) =>
      match JitterAsWritten(base, sample)
      case Err(e) => Err(e)
      case Ok(interval) => Ok(Reviewed(item, review, params, interval))
  }

  /** The share of reviews that were recalled, as a real quotient. */
  function ObservedRecallRate(item: SchedulingData): (p: real)
    requires item.timesReviewed != 0
    ensures p * item.timesReviewed as real == item.timesRecalled as real
  {
    item.timesRecalled as real / item.timesReviewed as real
  }

  /**
    What update_adjusting_factor needs for its quotient of logarithms to be defined:
    at least one review, both probabilities in the logarithm's domain, and a non-zero
    logarithm of the observed recall rate.
   */
  predicate CalibrationDomain(item: SchedulingData, targetProbability: real, ln: real -> real)
  {
    item.timesReviewed != 0 &&
    0.0 < ObservedRecallRate(item) && 0.0 < targetProbability &&
    ln(ObservedRecallRate(item)) != 0.0
  }

  /**
    update_adjusting_factor: replaces the adjusting factor by the factor that turns the
    logarithm of the observed recall rate into that of the target; nothing else changes.
   */
  function UpdateAdjustingFactor(item: SchedulingData, targetProbability: real, ln: real -> real): (r: SchedulingData)
    requires CalibrationDomain(item, targetProbability, ln)
    ensures r.(adjustingFactor := item.adjustingFactor) == item
    ensures r.adjustingFactor * ln(ObservedRecallRate(item)) == ln(targetProbability)
  {
    var actualProbability := ObservedRecallRate(item);
    item.(adjustingFactor := ln(targetProbability) / ln(actualProbability))
  }
}
