# Golf dynamic-loft estimator — verified model of the estimation engine

The calculator takes one measured carry distance for a club, together with the
golfer's swing speed and the club's static loft, and compares it with reference
"scratch player" data to estimate how well the ball was struck: a performance
ratio, the dynamic loft at impact (capped, with a warning), launch angle, spin
rate, smash factor, ball speed and a piece of advice.

This project models the engine of `script.js` in Dafny, with exact reals instead
of IEEE doubles:

- `wrappers.dfy` — `Option`, standing for the script's `null`.
- `js_math.dfy` — `Math.round` (`floor(x + 0.5)`, halves toward +infinity),
  `Math.max`, `Math.min`, and small facts about real arithmetic.
- `reference_data.dfy` — the four reference tables (club profiles with their
  speed-to-carry curves, scratch metrics, no-compression baselines, smash-factor
  ranges) as one immutable argument.
- `carry_curve.dfy` — `getScratchCarry`: exact lookup, numeric sort of the
  tabulated speeds, linear interpolation between the adjacent pair that strictly
  brackets the speed, rounding, and `null` otherwise.
- `strike_advice.dfy` — the ordered threshold table for the advice, its colour
  and the driver flag.
- `estimation.dfy` — the arithmetic of `calculate`: swing-speed clamp, loft-adjusted
  speeds, performance ratio, dynamic-loft estimate and cap, launch angle, spin,
  smash factor, ball speed; and the whole calculation as `EstimateStrike`.

Behaviour of the script that the model keeps on purpose:

- The exact-key test is a truthiness test, so a speed tabulated with carry 0
  does not return there. The strict bracketing test then never matches it, and
  the result is `None` (`ZeroCarryKeyIsUnavailable`).
- A `null` scratch carry is subtracted as 0 when the carry range is formed
  (`NullAsZero`). With a positive baseline, a measured carry above the baseline
  then gives a negative ratio (`MissingScratchCarryGivesNegativeRatio`), which is
  what the non-driver band down to -25% catches. A carry at or below the
  baseline still gives ratio 0.
- The loft cap, whose message blames a low carry, does not apply while the
  ratio is non-negative and the scratch dynamic loft is no higher than the
  static loft (`CapNeverAppliesForNonNegativeRatio`). Outside that condition it
  can apply. At ratio 1, the scratch strike itself, it applies exactly when the
  scratch dynamic loft is more than 5° above the static loft, as with a static
  loft of 8° against a scratch dynamic loft of 13.5°
  (`ScratchRatioCapsHighScratchLoft`). It can also apply to a long carry when
  the scratch carry is missing, because the ratio is then negative
  (`MissingScratchCarryCanApplyCap`).
- A table of one point still returns that point's carry on an exact non-zero hit.
  Only without such a hit does a short table give `None` (`TooFewPoints`).

A carry curve is a sequence of (speed, carry) entries in document order. A data
document object holds each speed once, and every lemma about lookups assumes
this (`DistinctSpeeds`). The script sorts the speeds and then reads
`carryMap[lower]` and `carryMap[upper]`. The model instead sorts the entries by
speed, proved sorted and a permutation, and reads the carries from the sorted
entries. With distinct speeds the two give the same carries.

A calculation for a club missing from any of the four tables gives
`MissingClubData`. The model requires nothing of its callers. The script
behaves differently in each case:

- A club missing from the no-compression table or the metrics table throws at
  script.js lines 100 and 101, before any result is shown. Line 79 has
  already written the clamped swing speed back into the form by then.
- A club missing only from the smash-factor table throws at line 165, after
  the advice and the loft warning have been written.
- A club missing only from the club profiles does not throw. The adjusted
  speeds become NaN, both scratch carries are `null`, and lines 100-168
  compute a full estimate with a carry range of minus the baseline carry.
  The page cannot reach this case, because its club options are the keys of
  the club profiles (line 21).

Evaluating the same inputs twice gives the same result, because every member is
a pure function of its arguments.

## Model

| member | source | states |
|---|---|---|
| JsMath.Max | script.js:105 | `Math.max` gives a value no smaller than either argument that is one of them |
| JsMath.Min | script.js:78 | `Math.min` gives a value no larger than either argument that is one of them |
| JsMath.Round | script.js:55 | `Math.round` gives a whole number within half a unit of its argument, with halves going up |
| CarryCurve.Lookup | script.js:46 | the property read finds a carry exactly when the speed is tabulated, and the carry it finds is an entry of the curve |
| CarryCurve.SortBySpeed | script.js:45 | the numeric sort gives a permutation of the curve in non-decreasing speed order, strictly increasing when speeds are distinct |
| CarryCurve.Interpolate | script.js:54 | the interpolated point lies on the line through the two neighbours, meets them at their speeds, and stays between their carries inside the bracket |
| CarryCurve.FirstBracket | script.js:48-57 | the interpolation loop only ever yields whole (rounded) yardages |
| CarryCurve.ScratchCarry | script.js:41-60 | an unknown club gives no carry |
| CarryCurve.FirstBracketFound | script.js:48-56 | when the loop returns a carry it comes from an adjacent pair strictly bracketing the speed, rounded from their interpolation |
| CarryCurve.FirstBracketAt | script.js:48-56 | on strictly increasing speeds, the adjacent pair bracketing the speed is the one the loop interpolates |
| CarryCurve.FirstBracketSomeIff | script.js:48-59 | on strictly increasing speeds, the loop finds a pair exactly when the speed is untabulated and has tabulated speeds on both sides |
| CarryCurve.ScratchCarryExact | script.js:46 | an exact key with a non-zero carry returns that carry, unrounded |
| CarryCurve.ScratchCarryBetween | script.js:48-55 | a speed strictly between neighbouring keys gives the rounded linear interpolation, lying between the rounded neighbouring carries |
| CarryCurve.ScratchCarryAvailable | script.js:41-59 | for a known club a carry is available if and only if the speed is a non-zero key, or no key with keys on both sides |
| CarryCurve.NoExtrapolation | script.js:48-59 | a speed below every key or above every key gives no carry |
| CarryCurve.TooFewPoints | script.js:48-59 | a curve of fewer than two points gives no carry without an exact non-zero hit |
| CarryCurve.ZeroCarryKeyIsUnavailable | script.js:46-59 | a speed tabulated with carry 0 gives no carry at all |
| StrikeAdvice.Classify | script.js:117-156 | the advice comes from the driver table exactly for the driver, the efficiency lies in the chosen category's band, the colour is that category's colour, and the driver flag is set exactly for a driver below 80% |
| StrikeAdvice.ClassifyIsBandLookup | script.js:120-156 | the ordered table is exhaustive and unambiguous: a category is chosen if and only if it belongs to the selected table and its band holds the efficiency |
| Estimation.ClampSwingSpeed | script.js:78 | the swing speed lies in [60, 130] and is unchanged when already inside |
| Estimation.AdjustedSpeed | script.js:90-95 | the adjustment is 1% of the speed per degree of loft removed: the adjusted speed equals the speed at standard loft, and exceeds it exactly when the club is de-lofted |
| Estimation.NullAsZero | script.js:104 | a missing scratch carry counts as 0 when the carry range is formed, and a present one counts as its value |
| Estimation.PerformanceRatio | script.js:104-106 | the ratio is 0 for a zero range and for any carry at or below baseline; otherwise ratio times range is the carry above baseline, with the range's sign |
| Estimation.UncappedDynamicLoft | script.js:101-108 | the dynamic loft is the static loft at ratio 0, the scratch dynamic loft at ratio 1, and between them for ratios in [0, 1]; a negative ratio puts it above the static loft when the scratch loft is below it, and a ratio above 1 puts it beyond a scratch loft above the static loft |
| Estimation.CapDynamicLoft | script.js:110-115 | the loft is at most static + 5; the warning is set exactly when the estimate exceeded static + 5, and then the loft is exactly static + 5 |
| Estimation.SpinBlend | script.js:162-164 | the spin is whole, the rounded no-compression spin at ratio 0 and the rounded scratch spin at ratio 1 |
| Estimation.SmashBlend | script.js:165-167 | the smash factor is `low` at ratio 0, `high` at ratio 1, and between them for ratios in [0, 1] |
| Estimation.EstimateStrike | script.js:77-168 | a calculation succeeds exactly when the club has reference data; swing speed in [60, 130], ball speed = swing speed × smash factor, loft within the cap, launch = 0.85 × loft, the driver flag rule, and the neutral result at or below baseline |
| Estimation.EstimateStrikeWiring | script.js:77-168 | the reported swing speed is the clamped input; both adjusted speeds, both scratch carries and the ratio are computed from the clamped speed, the club's standard loft and the measured carry; efficiency is 100 × ratio, its advice band holds it, and ball speed is swing speed × smash factor |
| Estimation.EstimateStrikeMetrics | script.js:108-173 | at every ratio the dynamic loft and its warning are the capped loft blend, the spin is the rounded spin blend, the smash factor is the smash blend, the scratch smash factor is the club's upper smash factor, and the verdict is the advice table's result for the club's table and the efficiency |
| Estimation.ClampComesFirst | script.js:77-98 | an input speed and its clamped value give the same estimate, so the clamp precedes every use of the speed |
| Estimation.StandardLoftKeepsSpeeds | script.js:90-98 | at standard loft the scratch carries are read at the clamped user speed and at the club's scratch speed |
| Estimation.RatioIsOneAtScratchCarry | script.js:104-106 | a measured carry equal to a scratch carry above baseline gives ratio exactly 1 |
| Estimation.RatioMonotone | script.js:104-106 | the ratio is non-decreasing in the measured carry for a positive range and non-increasing for a negative one |
| Estimation.RatioWithinUnit | script.js:104-106 | a measured carry no longer than a scratch carry above baseline gives a ratio in [0, 1] |
| Estimation.MissingScratchCarryGivesNegativeRatio | script.js:97-106 | a missing scratch carry counts as 0, so a carry above a positive baseline gives a negative ratio |
| Estimation.CapNeverAppliesForNonNegativeRatio | script.js:108-115 | with a non-negative ratio and a scratch dynamic loft no higher than the static loft, the loft cap does not apply |
| Estimation.ScratchRatioCapsHighScratchLoft | script.js:108-115 | at ratio 1 the cap applies exactly when the scratch dynamic loft is more than 5° above the static loft, as for 8° static against 13.5° scratch, which is capped at 13° |
| Estimation.MissingScratchCarryCanApplyCap | script.js:104-115 | with no scratch carry, a 200-yard carry over a 100-yard baseline gives ratio -1, and a 34° club with 20° scratch dynamic loft is then capped at 39° with the warning |
| Estimation.SpinEndpointsAreExact | script.js:162-164 | with whole-rpm data the spin equals the no-compression spin at ratio 0 and the scratch spin at ratio 1 |
| Estimation.SpinBetween | script.js:164 | for ratios in [0, 1] the spin lies between the rounded reference spins |
| Estimation.ScratchStrikeGivesScratchMetrics | script.js:97-168 | a strike carrying exactly the scratch carry gives ratio 1, efficiency 100, scratch dynamic loft, scratch smash factor and scratch spin |

## Left out

- Loading the data document (`loadData`, script.js:4-14): an asynchronous fetch. The four tables are an argument instead, so there is no readiness gate. The script has none either.
- Club selector population and change listeners (script.js:16-39, 65-75): page wiring.
- Reading the form fields with `parseFloat`, and the invalid-number message (script.js:77, 81-85, 89): string parsing of UI input. The model takes numbers.
- Writing the clamped speed back to the form (script.js:79). The clamped speed is returned as `swingSpeed` instead.
- Advice texts, the strike-efficiency line, the results HTML, `toFixed`/`toLocaleString` formatting and the N/A display under the driver flag (script.js:158-159, 170-205): presentation. Each advice text is represented by its `Category`. The undeclared `scratchSpeed` read at line 195 belongs to this rendering code and is not modelled.
- Trajectory drawing (`drawTrajectory`, `drawLegend`, `plotArc`, script.js:206-290): canvas geometry.
- IEEE-754 behaviour: NaN, infinities and rounding drift. Reals are exact.
- Estimation.EstimateStrike: for a club missing from a table, the script's partial output before the throw at line 165 and its NaN-speed estimate when only the club profile is missing are not modelled. Both give `MissingClubData`, as described above.
- A club profile without a carry curve (the `!carryMap` test at script.js:43) cannot be represented. Every profile carries a curve, which may be empty.
- JavaScript's number-to-property-key conversion is modelled as equality of reals.
- CarryCurve.ScratchCarry: its own contract states only the unknown-club case. The lookup, bracketing and availability properties are stated by the lemmas after it, under the distinct-speeds condition that every data document satisfies.
- CarryCurve.FirstBracket: its own contract states only that a found carry is whole. Which pair it interpolates, and when it finds one, is stated by FirstBracketFound, FirstBracketAt and FirstBracketSomeIff.
