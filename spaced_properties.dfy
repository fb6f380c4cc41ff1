/**
  Properties of the scheduler that relate several calls or need the logarithm: the
  interval as the inverse of the forgetting curve, the default item's first review,
  the difficulty and forgetting-rate updates, the reach of the jitter, the calibrator,
  and what holds of every record the library can build from the default one.
 */
module SpacedProperties {
  import opened RustNumerics
  import opened Spaced

  /**
    The returned day count is the last whole day on which the forgetting curve, in
    logarithmic form -rate * t, is still at or above ln(probability); the day after,
    it is below (unless the count was saturated at i32::MAX).
   */
  lemma ComputeIntervallIsCurveInverse(ln: real -> real, forgettingRate: real, probability: real)
    requires LnBounds(ln)
    requires 0.0 < forgettingRate && 0.0 < probability < 1.0
    ensures ComputeIntervall(ln, forgettingRate, probability).Ok?
    ensures
      var days := ComputeIntervall(ln, forgettingRate, probability).value;
      ln(probability) <= -forgettingRate * days as real &&
      (days == I32Max || -forgettingRate * (days + 1) as real < ln(probability))
  {
    var raw := ln(probability) / -forgettingRate;
    LnSign(ln, probability);
    var days := SaturatingCastToI32(raw);
    assert ComputeIntervall(ln, forgettingRate, probability) == Ok(days);
    TruncatedQuotientBounds(ln(probability), forgettingRate, raw, days);
  }

  /** The arithmetic core of ComputeIntervallIsCurveInverse, with the logarithm as a plain number. */
  lemma TruncatedQuotientBounds(logP: real, rate: real, raw: real, days: int)
    requires 0.0 < rate && raw == logP / -rate
    requires days as real <= raw && (days == I32Max || raw < (days + 1) as real)
    ensures logP <= -rate * days as real
    ensures days == I32Max || -rate * (days + 1) as real < logP
  {
    assert rate * raw == -logP;
    MulMonotone(rate, days as real, raw);
    if days != I32Max {
      MulStrictMonotone(rate, raw, (days + 1) as real);
    }
  }

  // Small facts about products of reals, which the solver does not find on its own in context.

  lemma MulMonotone(c: real, a: real, b: real)
    requires 0.0 < c && a <= b
    ensures c * a <= c * b
  {
  }

  lemma MulStrictMonotone(c: real, a: real, b: real)
    requires 0.0 < c && a < b
    ensures c * a < c * b
  {
  }

  lemma MulPositive(a: real, b: real)
    requires 0.0 < a && 0.0 < b
    ensures 0.0 < a * b
  {
  }

  lemma MulNonPositive(a: real, b: real)
    requires 0.0 < a && b <= 0.0
    ensures a * b <= 0.0
  {
  }

  /** A new item reviewed at a 90% target gets a first base interval of exactly one day. */
  lemma DefaultFirstIntervallIsOneDay(ln: real -> real)
    requires LnBounds(ln)
    ensures ScheduleDomain(DefaultSchedulingData(), 0.9)
    ensures BaseIntervall(DefaultSchedulingData(), 0.9, ln) == Ok(1)
  {
    var item := DefaultSchedulingData();
    assert ForgettingRate(item) == 0.1;
    assert -0.12 < ln(0.9) <= -0.1;
    var raw := ln(0.9) / -0.1;
    assert 1.0 <= raw < 2.0;
    assert SaturatingCastToI32(raw) == 1;
  }

  /** As written, the first review of a new item at a 90% target always panics. */
  lemma DefaultFirstReviewPanicsAsWritten(review: UserReview, params: UpdateParameters,
                                          ln: real -> real, sample: int -> int)
    requires LnBounds(ln) && IsRangeSampler(sample)
    ensures ScheduleDomain(DefaultSchedulingData(), 0.9)
    ensures ScheduleAsWritten(DefaultSchedulingData(), review, params, 0.9, ln, sample) == Err(EmptyRandomRange)
  {
    DefaultFirstIntervallIsOneDay(ln);
  }

  /** With the jitter as intended, the first review of a new item schedules it one day out. */
  lemma DefaultFirstReviewIsOneDay(review: UserReview, params: UpdateParameters,
                                   ln: real -> real, sample: int -> int)
    requires LnBounds(ln) && IsRangeSampler(sample)
    ensures ScheduleDomain(DefaultSchedulingData(), 0.9)
    ensures Schedule(DefaultSchedulingData(), review, params, 0.9, ln, sample).Ok?
    ensures Schedule(DefaultSchedulingData(), review, params, 0.9, ln, sample).value.intervall == 1
  {
    DefaultFirstIntervallIsOneDay(ln);
  }

  /**
    JustEnough keeps the difficulty, and TooHard and TooEasy move it by the same amount in
    opposite directions: their results sum to twice the old difficulty.
   */
  lemma DifficultyStepsMirror(item: SchedulingData, params: UpdateParameters, probability: real,
                              ln: real -> real, sample: int -> int)
    requires ScheduleDomain(item, probability) && IsRangeSampler(sample)
    requires Schedule(item, JustEnough, params, probability, ln, sample).Ok?
    ensures Schedule(item, JustEnough, params, probability, ln, sample).value.difficulty == item.difficulty
    ensures Schedule(item, TooHard, params, probability, ln, sample).value.difficulty
          + Schedule(item, TooEasy, params, probability, ln, sample).value.difficulty
         == 2.0 * item.difficulty
  {
  }

  /** With a positive difficulty and a factor above one, TooHard raises it and TooEasy lowers it. */
  lemma DifficultyOrdering(difficulty: real, changeFactor: real)
    requires 0.0 < difficulty && 1.0 < changeFactor
    ensures NewDifficulty(difficulty, TooEasy, changeFactor) < difficulty < NewDifficulty(difficulty, TooHard, changeFactor)
    ensures 0.0 < NewDifficulty(difficulty, TooEasy, changeFactor) <==> changeFactor < 2.0
  {
    var easy := NewDifficulty(difficulty, TooEasy, changeFactor);
    assert easy == difficulty * (2.0 - changeFactor);
    if changeFactor < 2.0 {
      MulPositive(difficulty, 2.0 - changeFactor);
    } else {
      MulNonPositive(difficulty, 2.0 - changeFactor);
    }
  }

  /**
    The interval schedule returns depends only on the record before the review: neither
    the review outcome nor the update parameters change it.
   */
  lemma IntervallUsesPreReviewState(item: SchedulingData, review1: UserReview, params1: UpdateParameters,
                                    review2: UserReview, params2: UpdateParameters, probability: real,
                                    ln: real -> real, sample: int -> int)
    requires ScheduleDomain(item, probability) && IsRangeSampler(sample)
    ensures Schedule(item, review1, params1, probability, ln, sample).Ok?
        <==> Schedule(item, review2, params2, probability, ln, sample).Ok?
    ensures Schedule(item, review1, params1, probability, ln, sample).Ok? ==>
      Schedule(item, review1, params1, probability, ln, sample).value.intervall
        == Schedule(item, review2, params2, probability, ln, sample).value.intervall
  {
  }

  /**
    After a review the stored record's forgetting rate, which drives the next interval,
    is the old rate scaled by how much the difficulty moved and divided by the memory
    strength factor; after JustEnough it is simply the old rate over that factor.
   */
  lemma NextForgettingRate(item: SchedulingData, review: UserReview, params: UpdateParameters, probability: real,
                           ln: real -> real, sample: int -> int)
    requires ScheduleDomain(item, probability) && IsRangeSampler(sample)
    requires params.memoryStrengthChangeFactor != 0.0
    requires Schedule(item, review, params, probability, ln, sample).Ok?
    requires Schedule(item, review, params, probability, ln, sample).value.difficulty != 0.0
    ensures
      var next := Schedule(item, review, params, probability, ln, sample).value;
      NonZeroParameters(next) &&
      ForgettingRate(next) * params.memoryStrengthChangeFactor * item.difficulty
        == ForgettingRate(item) * next.difficulty
    ensures review == JustEnough ==>
      ForgettingRate(Schedule(item, review, params, probability, ln, sample).value) * params.memoryStrengthChangeFactor
        == ForgettingRate(item)
  {
    var next := Schedule(item, review, params, probability, ln, sample).value;
    var af, ms, m := item.adjustingFactor, item.memoryStrength, params.memoryStrengthChangeFactor;
    assert next.memoryStrength == ms * m && next.adjustingFactor == af;
    var rate, nextRate := ForgettingRate(item), ForgettingRate(next);
    assert rate * af * ms == item.difficulty;
    assert nextRate * af * (ms * m) == next.difficulty;
    calc {
      nextRate * m * item.difficulty;
      nextRate * m * (rate * af * ms);
      rate * (nextRate * af * (ms * m));
      rate * next.difficulty;
    }
    if review == JustEnough {
      assert rate * (nextRate * m - rate) * item.difficulty == 0.0;
    }
  }

  /**
    Positive difficulty, memory strength and adjusting factor stay positive through a
    review at a target below one, for any difficulty step below two and any positive
    strength factor; the review succeeds and the new record can be scheduled again.
   */
  lemma SchedulePreservesPositivity(item: SchedulingData, review: UserReview, params: UpdateParameters,
                                    probability: real, ln: real -> real, sample: int -> int)
    requires 0.0 < item.difficulty && 0.0 < item.memoryStrength && 0.0 < item.adjustingFactor
    requires 0.0 < params.difficultyChangeFactor < 2.0 && 0.0 < params.memoryStrengthChangeFactor
    requires 0.0 < probability < 1.0 && IsRangeSampler(sample)
    ensures ScheduleDomain(item, probability)
    ensures Schedule(item, review, params, probability, ln, sample).Ok?
    ensures
      var next := Schedule(item, review, params, probability, ln, sample).value;
      0.0 < next.difficulty && 0.0 < next.memoryStrength && 0.0 < next.adjustingFactor &&
      ScheduleDomain(next, probability)
  {
    assert 0.0 < ForgettingRate(item);
    var r := Schedule(item, review, params, probability, ln, sample);
    assert r.Ok?;
    var next := r.value;
    NewDifficultyStaysPositive(item.difficulty, review, params.difficultyChangeFactor);
    MulPositive(item.memoryStrength, params.memoryStrengthChangeFactor);
    assert 0.0 < next.difficulty && 0.0 < next.memoryStrength && 0.0 < next.adjustingFactor;
    assert 0.0 < ForgettingRate(next);
  }

  /** A step below two keeps a positive difficulty positive, whatever the review. */
  lemma NewDifficultyStaysPositive(difficulty: real, review: UserReview, changeFactor: real)
    requires 0.0 < difficulty && 0.0 < changeFactor < 2.0
    ensures 0.0 < NewDifficulty(difficulty, review, changeFactor)
  {
    match review
    case TooHard => MulPositive(difficulty, changeFactor);
    case JustEnough =>
    case TooEasy => MulPositive(difficulty, 2.0 - changeFactor);
  }

  /**
    Every offset in [-range, range - 1] is reachable: for each interval in the jittered
    range some draw of the generator produces it.
   */
  lemma JitterReachesWholeRange(base: int, interval: int)
    requires 10 <= base
    requires base - JitterRange(base) <= interval < base + JitterRange(base)
    ensures exists sample: int -> int :: IsRangeSampler(sample) && Jitter(base, sample) == interval
  {
    var range := JitterRange(base);
    var sample := (n: int) => if n == range * 2 then interval - base + range else 0;
    assert IsRangeSampler(sample);
    assert Jitter(base, sample) == interval;
  }

  /** When the observed recall rate hits the target, the adjusting factor becomes exactly 1. */
  lemma AdjustingFactorOneAtTarget(item: SchedulingData, ln: real -> real)
    requires item.timesReviewed != 0 && CalibrationDomain(item, ObservedRecallRate(item), ln)
    ensures UpdateAdjustingFactor(item, ObservedRecallRate(item), ln).adjustingFactor == 1.0
  {
  }

  /** Nine recalls out of ten reviews against a 90% target leave an adjusting factor of 1. */
  lemma NineOfTenAtNinetyPercent(item: SchedulingData, ln: real -> real)
    requires LnBounds(ln)
    requires item.timesReviewed == 10 && item.timesRecalled == 9
    ensures CalibrationDomain(item, 0.9, ln)
    ensures UpdateAdjustingFactor(item, 0.9, ln).adjustingFactor == 1.0
  {
    assert ObservedRecallRate(item) == 0.9;
    LnSign(ln, 0.9);
  }

  /**
    With a logarithm within LnBounds, the calibrator is defined exactly when the item has been
    reviewed, the observed rate is positive and not 1, and the target is positive; with
    both rates in (0, 1) the new adjusting factor is positive.
   */
  lemma CalibrationDomainExactly(item: SchedulingData, targetProbability: real, ln: real -> real)
    requires LnBounds(ln)
    ensures CalibrationDomain(item, targetProbability, ln) <==>
      item.timesReviewed != 0 && 0.0 < ObservedRecallRate(item) && ObservedRecallRate(item) != 1.0
      && 0.0 < targetProbability
    ensures CalibrationDomain(item, targetProbability, ln) && ObservedRecallRate(item) < 1.0 && targetProbability < 1.0
      ==> 0.0 < UpdateAdjustingFactor(item, targetProbability, ln).adjustingFactor
  {
    if item.timesReviewed != 0 && 0.0 < ObservedRecallRate(item) {
      LnSign(ln, ObservedRecallRate(item));
      if 0.0 < targetProbability {
        LnSign(ln, targetProbability);
      }
    }
  }

  /** Calibrating twice with the same target gives the same record as calibrating once. */
  lemma UpdateAdjustingFactorIdempotent(item: SchedulingData, targetProbability: real, ln: real -> real)
    requires CalibrationDomain(item, targetProbability, ln)
    ensures CalibrationDomain(UpdateAdjustingFactor(item, targetProbability, ln), targetProbability, ln)
    ensures UpdateAdjustingFactor(UpdateAdjustingFactor(item, targetProbability, ln), targetProbability, ln)
         == UpdateAdjustingFactor(item, targetProbability, ln)
  {
  }

  /** One call of schedule, with a logarithm within LnBounds and a valid generator, took `before` to `after`. */
  ghost predicate ScheduleStep(before: SchedulingData, after: SchedulingData)
  {
    exists review: UserReview, params: UpdateParameters, probability: real, ln: real -> real, sample: int -> int
      :: LnBounds(ln) && ScheduleDomain(before, probability) && IsRangeSampler(sample) &&
         Schedule(before, review, params, probability, ln, sample) == Ok(after)
  }

  /**
    One call of update_adjusting_factor inside its domain, with a logarithm within LnBounds,
    took `before` to `after`. Calls outside the domain, where the source returns an infinite
    or NaN factor, are not steps of the model.
   */
  ghost predicate CalibrationStep(before: SchedulingData, after: SchedulingData)
  {
    exists targetProbability: real, ln: real -> real
      :: LnBounds(ln) && CalibrationDomain(before, targetProbability, ln) &&
         UpdateAdjustingFactor(before, targetProbability, ln) == after
  }

  /**
    A history of one item: it starts at the default record (the record's fields are
    private, so this is the only way to make one) and each later record is produced from
    the one before by the corrected schedule or by an in-domain update_adjusting_factor.
   */
  ghost predicate IsHistory(history: seq<SchedulingData>)
  {
    |history| > 0 &&
    history[0] == DefaultSchedulingData() &&
    forall i {:trigger history[i]} :: 0 < i < |history| ==>
      ScheduleStep(history[i - 1], history[i]) || CalibrationStep(history[i - 1], history[i])
  }

  /** With equal counters the observed recall rate is 1 or undefined: the calibrator cannot run. */
  lemma EqualCountersRuleOutCalibration(item: SchedulingData, targetProbability: real, ln: real -> real)
    requires LnBounds(ln)
    requires item.timesReviewed == item.timesRecalled
    ensures !CalibrationDomain(item, targetProbability, ln)
  {
    if item.timesReviewed != 0 {
      assert ObservedRecallRate(item) == 1.0;
      LnSign(ln, 1.0);
    }
  }

  /**
    Along any history both counters equal the number of reviews, the adjusting factor
    stays 1, and no in-domain calibration step ever takes place: because schedule counts
    every review as a recall, the observed recall rate is always 1 (or undefined before
    the first review) and the calibrator's logarithm ratio is never defined.
   */
  lemma {:induction false} HistoryCountersAgree(history: seq<SchedulingData>)
    requires IsHistory(history)
    ensures history[|history| - 1].timesReviewed == |history| - 1
    ensures history[|history| - 1].timesRecalled == |history| - 1
    ensures history[|history| - 1].adjustingFactor == 1.0
  {
    if |history| > 1 {
      var prefix := history[..|history| - 1];
      HistoryCountersAgree(prefix);
      var before, after := history[|history| - 2], history[|history| - 1];
      assert prefix[|prefix| - 1] == before;
      forall targetProbability: real, ln: real -> real | LnBounds(ln)
        ensures !CalibrationDomain(before, targetProbability, ln)
      {
        EqualCountersRuleOutCalibration(before, targetProbability, ln);
      }
      assert ScheduleStep(before, after);
      var review, params, probability, ln, sample :|
        LnBounds(ln) && ScheduleDomain(before, probability) && IsRangeSampler(sample) &&
        Schedule(before, review, params, probability, ln, sample) == Ok(after);
    }
  }

  /** On every record of a history the calibrator's precondition fails. */
  lemma CalibrationNeverApplies(history: seq<SchedulingData>, targetProbability: real, ln: real -> real)
    requires IsHistory(history) && LnBounds(ln)
    ensures !CalibrationDomain(history[|history| - 1], targetProbability, ln)
  {
    HistoryCountersAgree(history);
    EqualCountersRuleOutCalibration(history[|history| - 1], targetProbability, ln);
  }
}
