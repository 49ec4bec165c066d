/**
 The per-drink counters: the counts start at zero and each kind has a
 "-" button that lowers its count without going below zero and a "+"
 button that raises it by one. Each press rebuilds the whole record,
 copying every other kind's count unchanged.
 */
module Counter {
  import opened Drinks

  /** Every kind on the menu has a count. */
  predicate Complete(t: Counts) {
    forall d: Drink :: d in t
  }

  /** A record holding Beer, Wine and Shot holds every kind. */
  lemma CompleteByCases(t: Counts)
    requires Beer in t && Wine in t && Shot in t
    ensures Complete(t)
  {
    forall d: Drink ensures d in t {
      match d
      case Beer =>
      case Wine =>
      case Shot =>
    }
  }

  /** The counts when the calculator opens. */
  function Initial(): (t: Counts)
    ensures Complete(t) && NonNegative(t)
    ensures forall d :: CountOf(t, d) == 0
  {
    var t := map[Beer := 0, Wine := 0, Shot := 0];
    CompleteByCases(t);
    t
  }

  function Max(a: int, b: int): int {
    if a >= b then a else b
  }

  /** The "-" button of kind `d`. */
  function Decrease(t: Counts, d: Drink): (t': Counts)
    requires d in t
    ensures t'.Keys == t.Keys
    ensures t'[d] >= 0
    ensures t[d] > 0 ==> t'[d] == t[d] - 1
    ensures t[d] <= 0 ==> t'[d] == 0
    ensures forall e :: e in t && e != d ==> t'[e] == t[e]
  {
    t[d := Max(0, t[d] - 1)]
  }

  /** The "+" button of kind `d`. */
  function Increase(t: Counts, d: Drink): (t': Counts)
    requires d in t
    ensures t'.Keys == t.Keys
    ensures t'[d] == t[d] + 1
    ensures forall e :: e in t && e != d ==> t'[e] == t[e]
  {
    t[d := t[d] + 1]
  }

  /** Lowering a zero count leaves the record as it was. */
  lemma DecreaseAtZero(t: Counts, d: Drink)
    requires d in t && t[d] == 0
    ensures Decrease(t, d) == t
  {
  }

  /** "+" then "-" on the same kind restores a non-negative record. */
  lemma DecreaseUndoesIncrease(t: Counts, d: Drink)
    requires d in t && t[d] >= 0
    ensures Decrease(Increase(t, d), d) == t
  {
  }

  /** "-" then "+" on the same kind restores a record whose count was positive. */
  lemma IncreaseUndoesDecrease(t: Counts, d: Drink)
    requires d in t && t[d] > 0
    ensures Increase(Decrease(t, d), d) == t
  {
  }

  /** A button press on the counters. */
  datatype Press = Minus(drink: Drink) | Plus(drink: Drink)

  function Apply(t: Counts, p: Press): (t': Counts)
    requires Complete(t)
    ensures Complete(t')
    ensures NonNegative(t) ==> NonNegative(t')
    ensures forall e :: e != p.drink ==> t'[e] == t[e]
  {
    match p
    case Minus(d) => Decrease(t, d)
    case Plus(d) => Increase(t, d)
  }

  /** The counts after the presses `ps`, in order. */
  function Run(t: Counts, ps: seq<Press>): (t': Counts)
    requires Complete(t)
    ensures Complete(t')
    decreases |ps|
  {
    if ps == [] then t else Run(Apply(t, ps[0]), ps[1..])
  }

  /** Presses never drive a count below zero. */
  lemma {:induction false} RunKeepsNonNegative(t: Counts, ps: seq<Press>)
    requires Complete(t) && NonNegative(t)
    ensures NonNegative(Run(t, ps))
    decreases |ps|
  {
    if ps != [] {
      RunKeepsNonNegative(Apply(t, ps[0]), ps[1..]);
    }
  }

  /** Every record reachable from the opening counts is complete and non-negative. */
  lemma ReachableIsWellFormed(ps: seq<Press>)
    ensures Complete(Run(Initial(), ps)) && NonNegative(Run(Initial(), ps))
  {
    RunKeepsNonNegative(Initial(), ps);
  }

  /** Presses on other kinds never change the count of kind `d`. */
  lemma {:induction false} RunFramesOtherDrinks(t: Counts, ps: seq<Press>, d: Drink)
    requires Complete(t)
    requires forall i :: 0 <= i < |ps| ==> ps[i].drink != d
    ensures Run(t, ps)[d] == t[d]
    decreases |ps|
  {
    if ps != [] {
      RunFramesOtherDrinks(Apply(t, ps[0]), ps[1..], d);
    }
  }
}
