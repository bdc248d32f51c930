/**
 * The salary estimator `predict_rub_salary` of estimate_future_salary.py.
 * Estimates are exact reals: 1.2 and 0.8 are the rationals 6/5 and 4/5, and
 * `/` is exact division, where Python would round to a binary float.
 */
module Salary {
  import opened Wrappers

  /** A salary bound as a job board reports it: `null` or a whole number. */
  type Bound = Option<int>

  /** Python truthiness of a bound: both `None` and `0` count as absent. */
  predicate Truthy(b: Bound) {
    b.Some? && b.value != 0
  }

  /** The number a bound carries; an absent bound carries nothing. */
  function Amount(b: Bound): int {
    if b.Some? then b.value else 0
  }

  /** A bound that is absent or not negative. */
  predicate NonNegative(b: Bound) {
    b.None? || b.value >= 0
  }

  /**
   * The estimate of one listing. The body follows the source: a local that
   * starts at 0 and three guarded reassignments, one after the other. The
   * contract is the four-way case split they amount to: the guards exclude
   * each other, so at most one reassignment takes effect.
   */
  function PredictRubSalary(paymentFrom: Bound, paymentTo: Bound): (estimate: real)
    ensures Truthy(paymentFrom) && Truthy(paymentTo) ==>
              estimate == (Amount(paymentFrom) + Amount(paymentTo)) as real / 2.0
    ensures Truthy(paymentFrom) && !Truthy(paymentTo) ==>
              estimate == 1.2 * Amount(paymentFrom) as real
    ensures !Truthy(paymentFrom) && Truthy(paymentTo) ==>
              estimate == 0.8 * Amount(paymentTo) as real
    ensures !Truthy(paymentFrom) && !Truthy(paymentTo) ==> estimate == 0.0
  {
    var initial := 0.0;
    var afterBoth :=
      if Truthy(paymentFrom) && Truthy(paymentTo)
      then (Amount(paymentFrom) + Amount(paymentTo)) as real / 2.0
      else initial;
    var afterFrom :=
      if Truthy(paymentFrom) && !Truthy(paymentTo)
      then 1.2 * Amount(paymentFrom) as real
      else afterBoth;
    var afterTo :=
      if !Truthy(paymentFrom) && Truthy(paymentTo)
      then 0.8 * Amount(paymentTo) as real
      else afterFrom;
    afterTo
  }

  /** Non-negative bounds give a non-negative estimate. */
  lemma EstimateNonNegative(paymentFrom: Bound, paymentTo: Bound)
    requires NonNegative(paymentFrom) && NonNegative(paymentTo)
    ensures PredictRubSalary(paymentFrom, paymentTo) >= 0.0
  {
  }

  /** A bound of `0` is the same as a missing bound. */
  lemma ZeroIsAbsent(paymentFrom: Bound, paymentTo: Bound)
    ensures PredictRubSalary(Some(0), paymentTo) == PredictRubSalary(None, paymentTo)
    ensures PredictRubSalary(paymentFrom, Some(0)) == PredictRubSalary(paymentFrom, None)
  {
  }

  /**
   * With non-negative bounds the estimate lies in the range the bounds
   * span, widened by the 20% markup or markdown of a one-sided range.
   */
  lemma EstimateWithinRange(paymentFrom: Bound, paymentTo: Bound)
    requires NonNegative(paymentFrom) && NonNegative(paymentTo)
    ensures Truthy(paymentFrom) && Truthy(paymentTo) ==>
              var lo, hi := Amount(paymentFrom), Amount(paymentTo);
              var estimate := PredictRubSalary(paymentFrom, paymentTo);
              (if lo <= hi then lo else hi) as real <= estimate <= (if lo <= hi then hi else lo) as real
    ensures Truthy(paymentFrom) && !Truthy(paymentTo) ==>
              Amount(paymentFrom) as real < PredictRubSalary(paymentFrom, paymentTo)
    ensures !Truthy(paymentFrom) && Truthy(paymentTo) ==>
              PredictRubSalary(paymentFrom, paymentTo) < Amount(paymentTo) as real
  {
  }
}
