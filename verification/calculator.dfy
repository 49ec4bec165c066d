/**
 The calculator screen as a whole: the form's inputs, the estimate and wait
 derived from them on every change, and the verdict shown under the form.
 */
module Calculator {
  import opened Drinks
  import opened Widmark
  import opened Hours
  import opened Message
  import Counter

  /** The weight slider's range, in whole kilograms. */
  const MinWeightKg: int := 40
  const MaxWeightKg: int := 120

  type SliderWeight = w: int | MinWeightKg <= w <= MaxWeightKg witness 70

  /** What the form holds: weight, gender and the drink counts. */
  datatype Form = Form(weightKg: SliderWeight, gender: Gender, drinks: Counts)

  /** The form when the calculator opens. */
  function StartForm(): (f: Form)
    ensures f.weightKg == 70 && f.gender == Male
    ensures Counter.Complete(f.drinks)
    ensures forall d :: CountOf(f.drinks, d) == 0
  {
    Form(70, Male, Counter.Initial())
  }

  /** The estimate recomputed from the form. */
  function Bac(f: Form): real {
    CalculateBAC(f.weightKg as real, f.gender, f.drinks)
  }

  /** The wait recomputed from the estimate. */
  function WaitHours(f: Form): nat {
    HoursToDrive(Bac(f))
  }

  /** The verdict line shown for the form. */
  function Verdict(f: Form): string {
    VerdictText(WaitHours(f))
  }

  /** With no drinks recorded the verdict is "ready", whatever the weight and gender. */
  lemma NoDrinksMeansReady(f: Form)
    requires forall d :: CountOf(f.drinks, d) == 0
    ensures Bac(f) == 0.0
    ensures WaitHours(f) == 0
    ensures Verdict(f) == ReadyMessage
  {
    forall d | d in f.drinks ensures f.drinks[d] >= 0 {
      assert CountOf(f.drinks, d) == 0;
    }
    BacNonNegative(f.weightKg as real, f.gender, f.drinks);
  }

  /** The calculator opens on the "ready" verdict. */
  lemma StartIsReady()
    ensures Verdict(StartForm()) == ReadyMessage
  {
    NoDrinksMeansReady(StartForm());
  }

  /** A "+" press never shortens the wait. */
  lemma PlusNeverShortensWait(f: Form, d: Drink)
    requires d in f.drinks
    ensures WaitHours(f) <= WaitHours(f.(drinks := Counter.Increase(f.drinks, d)))
  {
    var m' := Counter.Increase(f.drinks, d);
    assert m' == f.drinks[d := CountOf(f.drinks, d) + 1];
    BacIncreasesWithOneMoreDrink(f.weightKg as real, f.gender, f.drinks, d);
    HoursMonotone(Bac(f), Bac(f.(drinks := m')));
  }

  /** A "-" press never lengthens the wait while the counts are non-negative. */
  lemma MinusNeverLengthensWait(f: Form, d: Drink)
    requires d in f.drinks && NonNegative(f.drinks)
    ensures WaitHours(f.(drinks := Counter.Decrease(f.drinks, d))) <= WaitHours(f)
  {
    var m' := Counter.Decrease(f.drinks, d);
    forall e ensures CountOf(m', e) <= CountOf(f.drinks, e) {
    }
    BacMonotoneInCounts(f.weightKg as real, f.gender, m', f.drinks);
    HoursMonotone(Bac(f.(drinks := m')), Bac(f));
  }

  /** A heavier setting on the slider never lengthens the wait. */
  lemma HeavierNeverLengthensWait(f: Form, w: SliderWeight)
    requires f.weightKg <= w && NonNegative(f.drinks)
    ensures WaitHours(f.(weightKg := w)) <= WaitHours(f)
  {
    BacAntitoneInWeight(f.weightKg as real, w as real, f.gender, f.drinks);
    HoursMonotone(Bac(f.(weightKg := w)), Bac(f));
  }

  /** Choosing female never shortens the wait. */
  lemma FemaleNeverShorterWait(f: Form)
    requires NonNegative(f.drinks)
    ensures WaitHours(f.(gender := Male)) <= WaitHours(f.(gender := Female))
  {
    BacFemaleAtLeastMale(f.weightKg as real, f.drinks);
    HoursMonotone(Bac(f.(gender := Male)), Bac(f.(gender := Female)));
  }

  /** 70 kg, male, two beers: the estimate is about 0.0548 and the wait three hours. */
  lemma TwoBeersMale()
    ensures var f := Form(70, Male, map[Beer := 2, Wine := 0, Shot := 0]);
            0.054 < Bac(f) < 0.055 && WaitHours(f) == 3
            && Verdict(f) == "Wait 3 hours before driving!"
  {
    var f := Form(70, Male, map[Beer := 2, Wine := 0, Shot := 0]);
    BacClosedForm(70.0, Male, f.drinks);
    assert TotalDrinks(f.drinks) == 2;
    ThreeHours();
  }

  /** 70 kg, female, two beers: the estimate is about 0.0606 and the wait three hours. */
  lemma TwoBeersFemale()
    ensures var f := Form(70, Female, map[Beer := 2, Wine := 0, Shot := 0]);
            0.060 < Bac(f) < 0.061 && WaitHours(f) == 3
            && Verdict(f) == "Wait 3 hours before driving!"
  {
    var f := Form(70, Female, map[Beer := 2, Wine := 0, Shot := 0]);
    BacClosedForm(70.0, Female, f.drinks);
    assert TotalDrinks(f.drinks) == 2;
    ThreeHours();
  }
}
