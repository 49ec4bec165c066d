/**
 The drink menu of the calculator: the three drink kinds, the order the
 estimator walks them in, the alcohol content of one drink, and the
 drink-count record read by the estimator and written by the counters.
 */
module Drinks {

  /** The kinds of drink on the menu. */
  datatype Drink = Beer | Wine | Shot

  /** The menu in display order; the estimator sums over it in this order. */
  const Menu: seq<Drink> := [Beer, Wine, Shot]

  /** Fluid ounces of pure alcohol in one standard drink: 0.6 for every kind. */
  function OuncesPerDrink(d: Drink): (oz: real)
    ensures oz > 0.0
  {
    match d
    case Beer => 0.6
    case Wine => 0.6
    case Shot => 0.6
  }

  /** How many drinks of each kind were taken. A kind may be absent. */
  type Counts = map<Drink, int>

  /** The count of one kind, an absent kind reading as zero. */
  function CountOf(m: Counts, d: Drink): int {
    if d in m then m[d] else 0
  }

  /** Every recorded count is non-negative. */
  predicate NonNegative(m: Counts) {
    forall d :: d in m ==> m[d] >= 0
  }

  /** The number of drinks taken, over all kinds. */
  function TotalDrinks(m: Counts): int {
    CountOf(m, Beer) + CountOf(m, Wine) + CountOf(m, Shot)
  }

  lemma TotalDrinksNonNegative(m: Counts)
    requires NonNegative(m)
    ensures TotalDrinks(m) >= 0
    ensures TotalDrinks(m) == 0 <==> forall d :: CountOf(m, d) == 0
  {
    assert CountOf(m, Beer) >= 0 && CountOf(m, Wine) >= 0 && CountOf(m, Shot) >= 0;
    if TotalDrinks(m) == 0 {
      forall d ensures CountOf(m, d) == 0 {
        match d
        case Beer =>
        case Wine =>
        case Shot =>
      }
    }
  }
}
