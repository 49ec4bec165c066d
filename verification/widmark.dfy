/**
 The blood alcohol estimate: the Widmark formula in US units with no time
 elapsed since drinking.

 All arithmetic here is exact rational arithmetic on `real`. The original
 computes with IEEE-754 double-precision numbers, so its results can differ
 from these by rounding; in particular a value that lands exactly on (or a
 rounding error away from) a threshold or a whole number of hours may fall
 on the other side of it there. Those rounding effects are not modelled.
 */
module Widmark {
  import opened Drinks

  /** Pounds in one kilogram. */
  const PoundsPerKilogram: real := 2.20462

  /** The formula's alcohol-to-concentration factor (US units). */
  const AlcoholFactor: real := 5.14

  datatype Gender = Male | Female

  /** The body-water distribution ratio the formula divides by. */
  function Ratio(g: Gender): (r: real)
    ensures r > 0.0
  {
    if g == Male then 0.73 else 0.66
  }

  /**
   Alcohol ounces accumulated over the drinks `ds`, in order, each kind
   contributing its count (absent reading as zero) times its ounces.
   */
  function OuncesOver(m: Counts, ds: seq<Drink>): real {
    if ds == [] then 0.0
    else
      var d := ds[|ds| - 1];
      OuncesOver(m, ds[..|ds| - 1]) + CountOf(m, d) as real * OuncesPerDrink(d)
  }

  /** The number of drinks of the kinds `ds`. */
  function CountOver(m: Counts, ds: seq<Drink>): int {
    if ds == [] then 0 else CountOver(m, ds[..|ds| - 1]) + CountOf(m, ds[|ds| - 1])
  }

  /** Total alcohol ounces over the whole menu. */
  function TotalOunces(m: Counts): real {
    OuncesOver(m, Menu)
  }

  /** The estimate: alcohol times 5.14 over weight in pounds times the ratio. */
  function CalculateBAC(weightKg: real, g: Gender, m: Counts): real
    requires weightKg > 0.0
  {
    var weightLb := weightKg * PoundsPerKilogram;
    var r := Ratio(g);
    (TotalOunces(m) * AlcoholFactor) / (weightLb * r)
  }

  /** The same estimate written from the number of drinks alone. */
  function BacOfDrinks(n: int, weightKg: real, g: Gender): real
    requires weightKg > 0.0
  {
    (n as real * 0.6 * AlcoholFactor) / (weightKg * PoundsPerKilogram * Ratio(g))
  }

  // ---------------------------------------------------------------------
  // Every drink weighs the same: the accumulated ounces are 0.6 per drink.

  lemma {:induction false} OuncesAreUniform(m: Counts, ds: seq<Drink>)
    ensures OuncesOver(m, ds) == 0.6 * CountOver(m, ds) as real
  {
    if ds != [] {
      OuncesAreUniform(m, ds[..|ds| - 1]);
    }
  }

  lemma TotalOuncesAreUniform(m: Counts)
    ensures TotalOunces(m) == 0.6 * TotalDrinks(m) as real
  {
    OuncesAreUniform(m, Menu);
    assert Menu[..2] == [Beer, Wine] && [Beer, Wine][..1] == [Beer] && [Beer][..0] == [];
    assert CountOver(m, [Beer]) == CountOf(m, Beer);
    assert CountOver(m, [Beer, Wine]) == CountOf(m, Beer) + CountOf(m, Wine);
    assert CountOver(m, Menu) == TotalDrinks(m);
  }

  /** The estimate equals the closed form over the number of drinks. */
  lemma BacClosedForm(weightKg: real, g: Gender, m: Counts)
    requires weightKg > 0.0
    ensures CalculateBAC(weightKg, g, m) == BacOfDrinks(TotalDrinks(m), weightKg, g)
  {
    TotalOuncesAreUniform(m);
  }

  /** Two drink records with the same number of drinks give the same estimate. */
  lemma BacDependsOnlyOnTotal(weightKg: real, g: Gender, m1: Counts, m2: Counts)
    requires weightKg > 0.0
    requires TotalDrinks(m1) == TotalDrinks(m2)
    ensures CalculateBAC(weightKg, g, m1) == CalculateBAC(weightKg, g, m2)
  {
    BacClosedForm(weightKg, g, m1);
    BacClosedForm(weightKg, g, m2);
  }

  /** An absent kind reads as a zero count. */
  lemma BacMissingDrinkIsZero(weightKg: real, g: Gender, m: Counts, d: Drink)
    requires weightKg > 0.0
    requires d !in m
    ensures CalculateBAC(weightKg, g, m) == CalculateBAC(weightKg, g, m[d := 0])
  {
    assert TotalDrinks(m) == TotalDrinks(m[d := 0]);
    BacDependsOnlyOnTotal(weightKg, g, m, m[d := 0]);
  }

  // ---------------------------------------------------------------------
  // Quotient facts the monotonicity proofs rest on.

  lemma QuotientMonotone(x: real, y: real, a: real)
    requires x <= y && a > 0.0
    ensures x / a <= y / a
    ensures x < y ==> x / a < y / a
  {
  }

  lemma QuotientAntitone(x: real, a: real, b: real)
    requires x >= 0.0 && 0.0 < a <= b
    ensures x / b <= x / a
    ensures x > 0.0 && a < b ==> x / b < x / a
  {
  }

  // ---------------------------------------------------------------------
  // Properties of the estimate.

  lemma BacNonNegative(weightKg: real, g: Gender, m: Counts)
    requires weightKg > 0.0 && NonNegative(m)
    ensures CalculateBAC(weightKg, g, m) >= 0.0
    ensures CalculateBAC(weightKg, g, m) == 0.0 <==> forall d :: CountOf(m, d) == 0
  {
    BacClosedForm(weightKg, g, m);
    TotalDrinksNonNegative(m);
    var den := weightKg * PoundsPerKilogram * Ratio(g);
    QuotientMonotone(0.0, TotalDrinks(m) as real * 0.6 * AlcoholFactor, den);
  }

  /** Raising any counts never lowers the estimate. */
  lemma BacMonotoneInCounts(weightKg: real, g: Gender, m1: Counts, m2: Counts)
    requires weightKg > 0.0
    requires forall d :: CountOf(m1, d) <= CountOf(m2, d)
    ensures CalculateBAC(weightKg, g, m1) <= CalculateBAC(weightKg, g, m2)
    ensures (exists d :: CountOf(m1, d) < CountOf(m2, d))
            ==> CalculateBAC(weightKg, g, m1) < CalculateBAC(weightKg, g, m2)
  {
    BacClosedForm(weightKg, g, m1);
    BacClosedForm(weightKg, g, m2);
    assert CountOf(m1, Beer) <= CountOf(m2, Beer);
    assert CountOf(m1, Wine) <= CountOf(m2, Wine);
    assert CountOf(m1, Shot) <= CountOf(m2, Shot);
    if exists d :: CountOf(m1, d) < CountOf(m2, d) {
      var d :| CountOf(m1, d) < CountOf(m2, d);
      assert TotalDrinks(m1) < TotalDrinks(m2) by {
        match d
        case Beer =>
        case Wine =>
        case Shot =>
      }
    }
    var den := weightKg * PoundsPerKilogram * Ratio(g);
    QuotientMonotone(TotalDrinks(m1) as real * 0.6 * AlcoholFactor, TotalDrinks(m2) as real * 0.6 * AlcoholFactor, den);
  }

  /** One more drink of one kind raises the estimate. */
  lemma BacIncreasesWithOneMoreDrink(weightKg: real, g: Gender, m: Counts, d: Drink)
    requires weightKg > 0.0
    ensures CalculateBAC(weightKg, g, m) < CalculateBAC(weightKg, g, m[d := CountOf(m, d) + 1])
  {
    var m' := m[d := CountOf(m, d) + 1];
    forall e ensures CountOf(m, e) <= CountOf(m', e) {
    }
    assert CountOf(m, d) < CountOf(m', d);
    BacMonotoneInCounts(weightKg, g, m, m');
  }

  /** For the same weight and drinks, the female estimate is at least the male one. */
  lemma BacFemaleAtLeastMale(weightKg: real, m: Counts)
    requires weightKg > 0.0 && NonNegative(m)
    ensures CalculateBAC(weightKg, Male, m) <= CalculateBAC(weightKg, Female, m)
    ensures TotalDrinks(m) > 0 ==> CalculateBAC(weightKg, Male, m) < CalculateBAC(weightKg, Female, m)
  {
    BacClosedForm(weightKg, Male, m);
    BacClosedForm(weightKg, Female, m);
    TotalDrinksNonNegative(m);
    var lb := weightKg * PoundsPerKilogram;
    QuotientAntitone(TotalDrinks(m) as real * 0.6 * AlcoholFactor, lb * 0.66, lb * 0.73);
  }

  /** A heavier person never gets a higher estimate from the same drinks. */
  lemma BacAntitoneInWeight(w1: real, w2: real, g: Gender, m: Counts)
    requires 0.0 < w1 <= w2 && NonNegative(m)
    ensures CalculateBAC(w2, g, m) <= CalculateBAC(w1, g, m)
    ensures w1 < w2 && TotalDrinks(m) > 0 ==> CalculateBAC(w2, g, m) < CalculateBAC(w1, g, m)
  {
    BacClosedForm(w1, g, m);
    BacClosedForm(w2, g, m);
    TotalDrinksNonNegative(m);
    var r := Ratio(g);
    assert w1 * PoundsPerKilogram * r <= w2 * PoundsPerKilogram * r;
    assert w1 < w2 ==> w1 * PoundsPerKilogram * r < w2 * PoundsPerKilogram * r;
    QuotientAntitone(TotalDrinks(m) as real * 0.6 * AlcoholFactor,
                     w1 * PoundsPerKilogram * r, w2 * PoundsPerKilogram * r);
  }
}
