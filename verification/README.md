# ReadyToDrive calculator — a Dafny model

ReadyToDrive is a single-screen web widget. The user sets a body weight on a
slider (40–120 kg), picks male or female, and counts drinks of beer, wine and
shots with "-" and "+" buttons. The widget estimates blood alcohol
concentration with the Widmark formula (US units, no time elapsed). It turns
the estimate into whole hours to wait before driving and shows a verdict line.

This project models that logic as pure functions:

- `Drinks`: the three drink kinds, the menu order, 0.6 oz of alcohol per
  drink, and the drink-count record in which an absent kind reads as zero.
- `Widmark`: the estimate `ounces × 5.14 / (kg × 2.20462 × r)`, with
  r = 0.73 for male and 0.66 for female. It also holds the closed form in
  the number of drinks and the sign, zero, monotonicity, gender and weight
  properties.
- `Hours`: the wait `ceil((bac − 0.02) / 0.015)`, or 0 at or below 0.02.
  It is characterised as the least sufficient whole number of hours and
  proved monotone.
- `Decimal`: the decimal rendering of the hours inside the verdict. Its
  partner reads the digits back.
- `Message`: the verdict text. Its partner parses a verdict back to hours,
  which makes the verdict one-to-one.
- `Counter`: the "-" and "+" updates on the count record, and runs of
  presses. Proved: counts stay non-negative and other kinds are untouched.
  "-" undoes "+" on any non-negative count. "+" undoes "-" only on a
  positive count: at zero, "-" changes nothing.
- `Calculator`: the form (slider weight, gender, counts) and the estimate,
  wait and verdict derived from it. It holds the concrete 70 kg / two-beer
  scenarios and the effect of each control on the wait.

Arithmetic is exact: the formula is computed on Dafny `real`, where the
decimal constants are exact rationals. The original computes with IEEE-754
doubles. Rounding effects are not modelled, such as an estimate landing a
hair either side of 0.02 or of a whole number of hours before the ceiling.

The estimator takes any positive real weight. Division by zero needs this
bound, and the only caller passes slider values of 40 to 120. The form uses
the slider's whole-kilogram range.

## Model

| member | source | states |
|---|---|---|
| Drinks.TotalDrinksNonNegative | src/components/AlcoCalc.tsx:43 | with non-negative counts the number of drinks is non-negative, and it is zero exactly when every kind (absent ones included) counts zero |
| Widmark.OuncesAreUniform | src/components/AlcoCalc.tsx:18-22 | the ounces accumulated over any list of kinds are 0.6 times the number of drinks of those kinds |
| Widmark.TotalOuncesAreUniform | src/components/AlcoCalc.tsx:18-22 | the total ounces over the Beer, Wine, Shot menu are 0.6 times the number of drinks |
| Widmark.BacClosedForm | src/components/AlcoCalc.tsx:12-26 | the estimate equals n × 0.6 × 5.14 / (kg × 2.20462 × r), where n is the number of drinks |
| Widmark.BacDependsOnlyOnTotal | src/components/AlcoCalc.tsx:18-24 | two count records with the same number of drinks give the same estimate, whatever their mix of kinds |
| Widmark.BacMissingDrinkIsZero | src/components/AlcoCalc.tsx:21 | a kind absent from the record gives the same estimate as that kind with count 0 |
| Widmark.BacNonNegative | src/components/AlcoCalc.tsx:12-26 | for positive weight and non-negative counts the estimate is at least 0, and it is 0 exactly when every count is 0 |
| Widmark.BacMonotoneInCounts | src/components/AlcoCalc.tsx:19-24 | raising counts never lowers the estimate; raising any one strictly raises it |
| Widmark.BacIncreasesWithOneMoreDrink | src/components/AlcoCalc.tsx:19-24 | one more drink of any kind strictly raises the estimate |
| Widmark.BacFemaleAtLeastMale | src/components/AlcoCalc.tsx:16 | with weight and counts fixed, the female estimate is at least the male one, and strictly greater once a drink was taken |
| Widmark.BacAntitoneInWeight | src/components/AlcoCalc.tsx:14 | with counts fixed, a larger weight never gives a larger estimate, and gives a strictly smaller one once a drink was taken |
| Hours.Ceil | src/components/AlcoCalc.tsx:32 | the rounding used is the least integer at or above its argument |
| Hours.HoursToDrive | src/components/AlcoCalc.tsx:28-34 | the wait is 0 exactly when the estimate is at most 0.02; otherwise 0.02 + 0.015·h reaches the estimate and 0.02 + 0.015·(h−1) does not |
| Hours.HoursIsLeast | src/components/AlcoCalc.tsx:31-33 | no whole number of hours k with 0.02 + 0.015·k at or above the estimate is below the wait |
| Hours.HoursMonotone | src/components/AlcoCalc.tsx:28-34 | a higher estimate never gives a shorter wait |
| Decimal.FromNat | src/components/AlcoCalc.tsx:220 | the hours are shown as a non-empty run of decimal digits with no leading zero |
| Decimal.ToNatFromNat | src/components/AlcoCalc.tsx:220 | reading the shown digits back gives the hours they were made from |
| Decimal.DigitPrefix | src/components/AlcoCalc.tsx:220 | the digit run at the head of a text is all digits, a prefix of the text, and stops at the first non-digit |
| Decimal.DigitPrefixOfDigits | src/components/AlcoCalc.tsx:220 | digits followed by a non-digit split back into exactly those digits |
| Message.WaitTail | src/components/AlcoCalc.tsx:220 | the text after the number is non-empty and starts with a non-digit |
| Message.VerdictText | src/components/AlcoCalc.tsx:218-220 | the verdict is "You are ready to drive!" exactly when the wait is 0; otherwise it is "Wait ", the digits, " hour", "s" only above one hour, then " before driving!" |
| Message.OneHour | src/components/AlcoCalc.tsx:220 | a one-hour wait reads "Wait 1 hour before driving!", in the singular |
| Message.TwoHours | src/components/AlcoCalc.tsx:220 | a two-hour wait reads "Wait 2 hours before driving!", in the plural |
| Message.ThreeHours | src/components/AlcoCalc.tsx:220 | a three-hour wait reads "Wait 3 hours before driving!" |
| Message.ParseVerdictText | src/components/AlcoCalc.tsx:218-220 | parsing a verdict gives back the wait it was made from |
| Message.VerdictTextInjective | src/components/AlcoCalc.tsx:218-220 | different waits never show the same verdict |
| Counter.Initial | src/components/AlcoCalc.tsx:43 | the counts start with every kind present and at zero |
| Counter.Decrease | src/components/AlcoCalc.tsx:170 | "-" lowers a positive count by one, sends a count at or below zero to 0, and copies every other kind unchanged |
| Counter.Increase | src/components/AlcoCalc.tsx:206 | "+" raises the count by one and copies every other kind unchanged |
| Counter.DecreaseAtZero | src/components/AlcoCalc.tsx:170 | "-" on a zero count leaves the record unchanged |
| Counter.DecreaseUndoesIncrease | src/components/AlcoCalc.tsx:170-206 | "+" then "-" on one kind restores the record when that count was non-negative |
| Counter.IncreaseUndoesDecrease | src/components/AlcoCalc.tsx:170-206 | "-" then "+" on one kind restores the record when that count was positive |
| Counter.Apply | src/components/AlcoCalc.tsx:170-206 | a press keeps every kind present, keeps non-negative counts non-negative, and touches only its own kind |
| Counter.Run | src/components/AlcoCalc.tsx:43-206 | any sequence of presses keeps every kind present |
| Counter.RunKeepsNonNegative | src/components/AlcoCalc.tsx:170-206 | any sequence of presses keeps non-negative counts non-negative |
| Counter.ReachableIsWellFormed | src/components/AlcoCalc.tsx:43-206 | every record reachable from the opening counts has every kind present and no negative count |
| Counter.RunFramesOtherDrinks | src/components/AlcoCalc.tsx:170-206 | presses on other kinds never change the count of a kind |
| Calculator.StartForm | src/components/AlcoCalc.tsx:41-43 | the form opens at 70 kg, male, with every kind present in the count record and every count zero |
| Calculator.NoDrinksMeansReady | src/components/AlcoCalc.tsx:45-46 | with every count zero the estimate is 0, the wait is 0 and the verdict is "ready", for every weight and gender |
| Calculator.StartIsReady | src/components/AlcoCalc.tsx:41-46 | the calculator opens on the "ready" verdict |
| Calculator.PlusNeverShortensWait | src/components/AlcoCalc.tsx:206 | a "+" press never shortens the wait |
| Calculator.MinusNeverLengthensWait | src/components/AlcoCalc.tsx:170 | a "-" press never lengthens the wait while counts are non-negative |
| Calculator.HeavierNeverLengthensWait | src/components/AlcoCalc.tsx:87-92 | moving the slider to a heavier weight never lengthens the wait |
| Calculator.FemaleNeverShorterWait | src/components/AlcoCalc.tsx:16 | with everything else fixed, female never gets a shorter wait than male |
| Calculator.TwoBeersMale | src/components/AlcoCalc.tsx:12-34 | 70 kg, male, two beers: the estimate lies between 0.054 and 0.055, the wait is 3 hours and the verdict reads "Wait 3 hours before driving!" |
| Calculator.TwoBeersFemale | src/components/AlcoCalc.tsx:12-34 | 70 kg, female, two beers: the estimate lies between 0.060 and 0.061, the wait is 3 hours and the verdict reads "Wait 3 hours before driving!" |

## Left out

- IEEE-754 rounding of the JavaScript number arithmetic. The model computes exactly on `real`; see the header above.
- The `grams` field of each drink (src/components/AlcoCalc.tsx:6-8). The formula never reads it, so every drink counts 0.6 oz, as in the source.
- Counter.Decrease: the model requires the kind to be present in the record. The source would compute NaN for an absent kind. The opening record has every kind, and `Counter.ReachableIsWellFormed` proves every reachable record keeps them.
- Counter.Increase: the same presence requirement as `Decrease`, for the same reason.
- Widmark.CalculateBAC: the model requires a positive weight. For zero or negative weight the source returns Infinity, NaN or a negative number. The only caller passes slider values of 40 to 120.
- Message.VerdictText: takes a natural number. The source pluralises any number, but the wait is never negative or fractional.
- Decimal.FromNat: models the plain decimal form of the number. JavaScript switches to exponent notation from 1e21 upwards, and no reachable wait comes near that.
- The weight slider's `onChange` guard and the gender toggle's null-deselect guard (src/components/AlcoCalc.tsx:92, :101). These are event plumbing; the model takes the resulting weight and gender as inputs.
- React `useState` mechanics: state changes are pure functions on an immutable record.
- All JSX rendering, MUI components, colour palettes and styling, and the dark/light theme toggle in src/App.tsx. These are presentation only.
