/**
 The verdict line under the calculator: "ready" when no wait is needed,
 otherwise the number of hours to wait, with "hour" pluralised above one.
 */
module Message {
  import opened Decimal

  datatype Option<T> = None | Some(value: T)

  const ReadyMessage: string := "You are ready to drive!"
  const WaitPrefix: string := "Wait "

  /** The "s" after "hour", present only for more than one hour. */
  function PluralSuffix(hours: nat): string {
    if hours > 1 then "s" else ""
  }

  /** The text after the number of hours. */
  function WaitTail(hours: nat): (t: string)
    ensures t != [] && !IsDigit(t[0])
  {
    " hour" + PluralSuffix(hours) + " before driving!"
  }

  /** The verdict for a wait of `hours`. */
  function VerdictText(hours: nat): (s: string)
    ensures s == ReadyMessage <==> hours == 0
    ensures hours > 0 ==> s == WaitPrefix + FromNat(hours) + WaitTail(hours)
  {
    if hours == 0 then ReadyMessage
    else
      var s := WaitPrefix + FromNat(hours) + WaitTail(hours);
      assert s[0] == 'W' != ReadyMessage[0];
      s
  }

  // The three sentences below, assembled piece by piece.
  lemma SpellOneHour()
    ensures WaitPrefix + "1" + " hour before driving!" == "Wait 1 hour before driving!"
  {
  }

  lemma SpellTwoHours()
    ensures WaitPrefix + "2" + " hours before driving!" == "Wait 2 hours before driving!"
  {
  }

  lemma SpellThreeHours()
    ensures WaitPrefix + "3" + " hours before driving!" == "Wait 3 hours before driving!"
  {
  }

  /** One hour is written in the singular. */
  lemma OneHour()
    ensures VerdictText(1) == "Wait 1 hour before driving!"
  {
    assert FromNat(1) == "1" && WaitTail(1) == " hour before driving!";
    SpellOneHour();
  }

  /** Two hours are written in the plural. */
  lemma TwoHours()
    ensures VerdictText(2) == "Wait 2 hours before driving!"
  {
    assert FromNat(2) == "2" && WaitTail(2) == " hours before driving!";
    SpellTwoHours();
  }

  /** The verdict for a three-hour wait. */
  lemma ThreeHours()
    ensures VerdictText(3) == "Wait 3 hours before driving!"
  {
    assert FromNat(3) == "3" && WaitTail(3) == " hours before driving!";
    SpellThreeHours();
  }

  /** Reads the number of hours back out of a verdict, if it is one. */
  function ParseVerdict(s: string): Option<nat> {
    if s == ReadyMessage then Some(0)
    else if |s| < |WaitPrefix| || s[..|WaitPrefix|] != WaitPrefix then None
    else
      var body := s[|WaitPrefix|..];
      var digits := DigitPrefix(body);
      if digits == [] then None
      else
        var n := ToNat(digits);
        if n > 0 && body[|digits|..] == WaitTail(n) then Some(n) else None
  }

  /** Reading a verdict back gives the hours it was made from. */
  lemma ParseVerdictText(hours: nat)
    ensures ParseVerdict(VerdictText(hours)) == Some(hours)
  {
    if hours > 0 {
      var s := VerdictText(hours);
      var d := FromNat(hours);
      assert s == WaitPrefix + (d + WaitTail(hours));
      assert s[..|WaitPrefix|] == WaitPrefix;
      assert s[|WaitPrefix|..] == d + WaitTail(hours);
      DigitPrefixOfDigits(d, WaitTail(hours));
      ToNatFromNat(hours);
      assert (d + WaitTail(hours))[|d|..] == WaitTail(hours);
    }
  }

  /** Different waits never show the same verdict. */
  lemma VerdictTextInjective(a: nat, b: nat)
    requires VerdictText(a) == VerdictText(b)
    ensures a == b
  {
    ParseVerdictText(a);
    ParseVerdictText(b);
  }
}
