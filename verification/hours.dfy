/**
 The wait before driving: whole hours of alcohol elimination at a constant
 rate until the estimate is back at the driving threshold.
 */
module Hours {

  /** The concentration at or below which driving is allowed (stricter than 0.08). */
  const DrivingLimit: real := 0.02

  /** Concentration eliminated per hour. */
  const EliminationRate: real := 0.015

  /** The least integer at or above `x`. */
  function Ceil(x: real): (c: int)
    ensures x <= c as real < x + 1.0
  {
    -((-x).Floor)
  }

  /**
   Whole hours to wait: none at or below the limit, otherwise the excess
   over the limit divided by the rate, rounded up. The result is the least
   number of hours after which the eliminated amount brings `bac` down to
   the limit.
   */
  function HoursToDrive(bac: real): (h: nat)
    ensures h == 0 <==> bac <= DrivingLimit
    ensures bac <= DrivingLimit + EliminationRate * h as real
    ensures h > 0 ==> DrivingLimit + EliminationRate * (h - 1) as real < bac
  {
    if bac <= DrivingLimit then 0
    else Ceil((bac - DrivingLimit) / EliminationRate)
  }

  /** No whole number of hours that suffices is smaller than the result. */
  lemma HoursIsLeast(bac: real, k: nat)
    requires bac <= DrivingLimit + EliminationRate * k as real
    ensures HoursToDrive(bac) <= k
  {
  }

  /** A higher estimate never shortens the wait. */
  lemma HoursMonotone(a: real, b: real)
    requires a <= b
    ensures HoursToDrive(a) <= HoursToDrive(b)
  {
    HoursIsLeast(a, HoursToDrive(b));
  }
}
