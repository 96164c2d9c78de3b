/**
 * The estimation pipeline of one calculation: from a club, a swing speed, a static
 * loft and one measured carry to the performance ratio and the quantities derived
 * from it (dynamic loft, launch angle, spin, smash factor, ball speed) and the advice.
 */
module Estimation {
  import opened Wrappers
  import opened JsMath
  import opened ReferenceData
  import opened CarryCurve
  import opened StrikeAdvice

  /** The swing speed is clamped to [MinSwingSpeed, MaxSwingSpeed] mph. */
  const MinSwingSpeed: real := 60.0
  const MaxSwingSpeed: real := 130.0

  /** Each degree of loft removed raises the equivalent swing speed by 1%. */
  const LoftMultiplier: real := 0.01

  /** The dynamic loft estimate is capped this many degrees above static loft. */
  const LoftCap: real := 5.0

  /** Launch angle as a fraction of dynamic loft. */
  const LaunchFactor: real := 0.85

  /** The club identifier whose advice comes from the driver table. */
  const DriverClub: string := "driver"

  /** One calculation's inputs: club key, swing speed (mph), static loft (degrees), measured carry (yards). */
  datatype Input = Input(club: string, swingSpeed: real, staticLoft: real, actualCarry: real)

  /** A dynamic loft estimate and whether the cap was applied (which shows the loft warning). */
  datatype LoftEstimate = LoftEstimate(loft: real, capped: bool)

  /** Everything one calculation produces for display. */
  datatype Estimate = Estimate(
    swingSpeed: real,
    adjustedUserSpeed: real,
    adjustedScratchSpeed: real,
    scratchCarry: Option<real>,
    scratchMaxCarry: Option<real>,
    performanceRatio: real,
    efficiency: real,
    dynamicLoft: real,
    loftWarning: bool,
    launchAngle: real,
    spinRate: real,
    smashFactor: real,
    scratchSmashFactor: real,
    ballSpeed: real,
    verdict: Verdict)

  /** A calculation either produces an estimate or finds no reference data for the club. */
  datatype Outcome = Computed(estimate: Estimate) | MissingClubData

  /** `Math.max(60, Math.min(130, speed))`. */
  function ClampSwingSpeed(speed: real): (r: real)
    ensures MinSwingSpeed <= r <= MaxSwingSpeed
    ensures MinSwingSpeed <= speed <= MaxSwingSpeed ==> r == speed
    ensures speed < MinSwingSpeed ==> r == MinSwingSpeed
    ensures speed > MaxSwingSpeed ==> r == MaxSwingSpeed
  {
    Max(MinSwingSpeed, Min(MaxSwingSpeed, speed))
  }

  /**
   * The swing speed that produces, with a club of standard loft, the carry that
   * `speed` produces with the club at `staticLoft`.
   */
  function AdjustedSpeed(speed: real, standardLoft: real, staticLoft: real): (r: real)
    ensures staticLoft == standardLoft ==> r == speed
    ensures speed > 0.0 ==> (r > speed <==> staticLoft < standardLoft)
    ensures speed > 0.0 ==> (r < speed <==> staticLoft > standardLoft)
    ensures r - speed == speed * (standardLoft - staticLoft) / 100.0
  {
    var delta := standardLoft - staticLoft;
    assert speed * (1.0 + delta * LoftMultiplier) - speed == speed * delta / 100.0;
    speed * (1.0 + delta * LoftMultiplier)
  }

  /** A missing carry used in subtraction counts as 0, as `null` does in arithmetic. */
  function NullAsZero(carry: Option<real>): (r: real)
    ensures carry.Some? ==> r == carry.value
    ensures carry.None? ==> r == 0.0
  {
    carry.GetOr(0.0)
  }

  /**
   * The spread between the zero-compression carry and the scratch carry; a
   * missing scratch carry counts as 0, so the range is then minus the baseline.
   */
  function CarryRange(baselineCarry: real, scratchCarry: Option<real>): real {
    NullAsZero(scratchCarry) - baselineCarry
  }

  /**
   * How far above the baseline the measured carry landed, as a fraction of the
   * carry range; 0 when the range is 0.
   */
  function PerformanceRatio(actualCarry: real, baselineCarry: real, scratchCarry: Option<real>): (r: real)
    ensures CarryRange(baselineCarry, scratchCarry) == 0.0 ==> r == 0.0
    ensures actualCarry <= baselineCarry ==> r == 0.0
    ensures CarryRange(baselineCarry, scratchCarry) != 0.0
        ==> r * CarryRange(baselineCarry, scratchCarry) == Max(0.0, actualCarry - baselineCarry)
    ensures CarryRange(baselineCarry, scratchCarry) > 0.0 ==> r >= 0.0
    ensures CarryRange(baselineCarry, scratchCarry) < 0.0 ==> r <= 0.0
  {
    var carryRange := CarryRange(baselineCarry, scratchCarry);
    var carryAboveBaseline := Max(0.0, actualCarry - baselineCarry);
    if carryRange != 0.0 then
      QuotientSign(carryAboveBaseline, carryRange);
      carryAboveBaseline / carryRange
    else 0.0
  }

  /** A non-negative number divided by a non-zero one has the divisor's sign (or is 0). */
  lemma QuotientSign(x: real, d: real)
    requires x >= 0.0 && d != 0.0
    ensures d > 0.0 ==> x / d >= 0.0
    ensures d < 0.0 ==> x / d <= 0.0
    ensures (x / d) * d == x
  {
    var q := x / d;
    assert q * d == x;
    if d > 0.0 && q < 0.0 {
      NonNegativeProduct(-q, d);
    }
    if d < 0.0 && q > 0.0 {
      NonNegativeProduct(q, -d);
    }
  }

  /**
   * The dynamic loft before the cap: the static loft less the scratch shaft lean,
   * scaled by the performance ratio.
   */
  function UncappedDynamicLoft(staticLoft: real, scratchDynamicLoft: real, ratio: real): (r: real)
    ensures ratio == 0.0 ==> r == staticLoft
    ensures ratio == 1.0 ==> r == scratchDynamicLoft
    ensures 0.0 <= ratio <= 1.0 ==> Min(staticLoft, scratchDynamicLoft) <= r <= Max(staticLoft, scratchDynamicLoft)
    ensures ratio < 0.0 && scratchDynamicLoft < staticLoft ==> r > staticLoft
    ensures ratio > 1.0 && scratchDynamicLoft > staticLoft ==> r > scratchDynamicLoft
  {
    var scratchShaftLean := staticLoft - scratchDynamicLoft;
    var estimate := staticLoft - scratchShaftLean * ratio;
    BlendBetween(staticLoft, scratchDynamicLoft, ratio);
    assert estimate == staticLoft + (scratchDynamicLoft - staticLoft) * ratio;
    Extrapolation(staticLoft, scratchDynamicLoft, ratio);
    estimate
  }

  /**
   * Outside [0, 1] the loft moves past the end the ratio lies beyond: a negative
   * ratio goes above the static loft when the scratch loft is below it, and a
   * ratio above 1 goes beyond a scratch loft that is above the static loft.
   */
  lemma Extrapolation(staticLoft: real, scratchDynamicLoft: real, ratio: real)
    ensures ratio < 0.0 && scratchDynamicLoft < staticLoft
        ==> staticLoft - (staticLoft - scratchDynamicLoft) * ratio > staticLoft
    ensures ratio > 1.0 && scratchDynamicLoft > staticLoft
        ==> staticLoft - (staticLoft - scratchDynamicLoft) * ratio > scratchDynamicLoft
  {
    var lean := staticLoft - scratchDynamicLoft;
    if ratio < 0.0 && lean > 0.0 {
      PositiveProduct(lean, -ratio);
    }
    if ratio > 1.0 && lean < 0.0 {
      PositiveProduct(-lean, ratio - 1.0);
      assert staticLoft - lean * ratio - scratchDynamicLoft == -lean * (ratio - 1.0);
    }
  }

  /** Caps a dynamic loft estimate at `LoftCap` degrees above static loft, flagging the cap. */
  function CapDynamicLoft(staticLoft: real, estimate: real): (r: LoftEstimate)
    ensures r.loft <= staticLoft + LoftCap
    ensures r.capped <==> estimate > staticLoft + LoftCap
    ensures r.capped ==> r.loft == staticLoft + LoftCap
    ensures !r.capped ==> r.loft == estimate
  {
    if estimate > staticLoft + LoftCap then LoftEstimate(staticLoft + LoftCap, true)
    else LoftEstimate(estimate, false)
  }

  /**
   * The estimated spin rate: the no-compression spin at ratio 0 moving linearly to
   * the scratch spin at ratio 1, rounded to whole rpm.
   */
  function SpinBlend(scratchSpin: real, noCompressionSpin: real, ratio: real): (r: real)
    ensures IsWhole(r)
    ensures ratio == 0.0 ==> r == Round(noCompressionSpin)
    ensures ratio == 1.0 ==> r == Round(scratchSpin)
  {
    Round(Blend(scratchSpin, noCompressionSpin, 1.0 - ratio))
  }

  /** The estimated smash factor: `low` at ratio 0 moving linearly to `high` at ratio 1. */
  function SmashBlend(smash: SmashRange, ratio: real): (r: real)
    ensures ratio == 0.0 ==> r == smash.low
    ensures ratio == 1.0 ==> r == smash.high
    ensures 0.0 <= ratio <= 1.0 ==> Min(smash.low, smash.high) <= r <= Max(smash.low, smash.high)
  {
    Blend(smash.low, smash.high, ratio)
  }

  /** One calculation over the reference tables `data`. */
  function EstimateStrike(data: Tables, input: Input): (r: Outcome)
    ensures r.Computed? <==> HasClub(data, input.club)
    ensures r.Computed? ==> MinSwingSpeed <= r.estimate.swingSpeed <= MaxSwingSpeed
    ensures r.Computed? ==> r.estimate.ballSpeed == r.estimate.swingSpeed * r.estimate.smashFactor
    ensures r.Computed? ==> r.estimate.dynamicLoft <= input.staticLoft + LoftCap
    ensures r.Computed? ==> r.estimate.launchAngle == LaunchFactor * r.estimate.dynamicLoft
    ensures r.Computed? ==> (r.estimate.verdict.driverFlag <==> input.club == DriverClub && r.estimate.efficiency < 80.0)
    ensures r.Computed? && input.actualCarry <= data.noCompressionData[input.club].carry
        ==> && r.estimate.performanceRatio == 0.0
            && r.estimate.dynamicLoft == input.staticLoft
            && !r.estimate.loftWarning
            && r.estimate.smashFactor == data.smashFactors[input.club].low
            && r.estimate.spinRate == Round(data.noCompressionData[input.club].spin)
  {
    if !HasClub(data, input.club) then MissingClubData
    else
      var club := input.club;
      var profile := data.clubData[club];
      var metrics := data.clubMetrics[club];
      var baseline := data.noCompressionData[club];
      var smash := data.smashFactors[club];
      var swingSpeed := ClampSwingSpeed(input.swingSpeed);
      var adjustedScratchSpeed := AdjustedSpeed(profile.swingSpeed, profile.loft, input.staticLoft);
      var adjustedUserSpeed := AdjustedSpeed(swingSpeed, profile.loft, input.staticLoft);
      var scratchCarry := ScratchCarry(data.clubData, club, adjustedUserSpeed);
      var scratchMaxCarry := ScratchCarry(data.clubData, club, adjustedScratchSpeed);
      var ratio := PerformanceRatio(input.actualCarry, baseline.carry, scratchCarry);
      var loft := CapDynamicLoft(input.staticLoft, UncappedDynamicLoft(input.staticLoft, metrics.dynamicLoft, ratio));
      var efficiency := ratio * 100.0;
      var verdict := Classify(club == DriverClub, efficiency);
      var smashFactor := SmashBlend(smash, ratio);
      Computed(Estimate(
        swingSpeed := swingSpeed,
        adjustedUserSpeed := adjustedUserSpeed,
        adjustedScratchSpeed := adjustedScratchSpeed,
        scratchCarry := scratchCarry,
        scratchMaxCarry := scratchMaxCarry,
        performanceRatio := ratio,
        efficiency := efficiency,
        dynamicLoft := loft.loft,
        loftWarning := loft.capped,
        launchAngle := LaunchFactor * loft.loft,
        spinRate := SpinBlend(metrics.spinRate, baseline.spin, ratio),
        smashFactor := smashFactor,
        scratchSmashFactor := smash.high,
        ballSpeed := swingSpeed * smashFactor,
        verdict := verdict))
  }

  /**
   * How the estimate's fields are wired: the reported swing speed is the clamped
   * input, the user's adjusted speed is computed from it, the efficiency is the
   * ratio as a percentage, and the advice band is the one holding that efficiency.
   */
  lemma EstimateStrikeWiring(data: Tables, input: Input)
    requires HasClub(data, input.club)
    ensures var e := EstimateStrike(data, input).estimate;
      && e.swingSpeed == ClampSwingSpeed(input.swingSpeed)
      && e.adjustedUserSpeed == AdjustedSpeed(e.swingSpeed, data.clubData[input.club].loft, input.staticLoft)
      && e.adjustedScratchSpeed
         == AdjustedSpeed(data.clubData[input.club].swingSpeed, data.clubData[input.club].loft, input.staticLoft)
      && e.scratchCarry == ScratchCarry(data.clubData, input.club, e.adjustedUserSpeed)
      && e.scratchMaxCarry == ScratchCarry(data.clubData, input.club, e.adjustedScratchSpeed)
      && e.performanceRatio
         == PerformanceRatio(input.actualCarry, data.noCompressionData[input.club].carry, e.scratchCarry)
      && e.efficiency == e.performanceRatio * 100.0
      && InBand(e.verdict.category, e.efficiency)
      && e.ballSpeed == e.swingSpeed * e.smashFactor
  {
  }

  /**
   * How the derived metrics are wired: the loft and its warning come from the capped
   * blend, the spin and smash factor from their blends at the estimate's ratio, the
   * scratch smash factor is the club's upper smash factor, and the verdict is the
   * advice table's verdict for the efficiency.
   */
  lemma EstimateStrikeMetrics(data: Tables, input: Input)
    requires HasClub(data, input.club)
    ensures var e := EstimateStrike(data, input).estimate;
      var loft := CapDynamicLoft(input.staticLoft,
        UncappedDynamicLoft(input.staticLoft, data.clubMetrics[input.club].dynamicLoft, e.performanceRatio));
      && e.dynamicLoft == loft.loft
      && e.loftWarning == loft.capped
      && e.spinRate
         == SpinBlend(data.clubMetrics[input.club].spinRate, data.noCompressionData[input.club].spin, e.performanceRatio)
      && e.smashFactor == SmashBlend(data.smashFactors[input.club], e.performanceRatio)
      && e.scratchSmashFactor == data.smashFactors[input.club].high
      && e.verdict == Classify(input.club == DriverClub, e.efficiency)
  {
  }

  /** Clamping an already clamped speed changes nothing. */
  lemma ClampIsIdempotent(speed: real)
    ensures ClampSwingSpeed(ClampSwingSpeed(speed)) == ClampSwingSpeed(speed)
  {
  }

  /**
   * The clamp is applied before anything else reads the swing speed: an input speed
   * and its clamped value give the same estimate.
   */
  lemma ClampComesFirst(data: Tables, input: Input)
    ensures EstimateStrike(data, input) == EstimateStrike(data, input.(swingSpeed := ClampSwingSpeed(input.swingSpeed)))
  {
    ClampIsIdempotent(input.swingSpeed);
  }

  /**
   * At the club's standard loft the adjusted speeds are the clamped user speed and
   * the club's scratch speed, so the two scratch carries are read at those speeds.
   */
  lemma StandardLoftKeepsSpeeds(data: Tables, input: Input)
    requires HasClub(data, input.club)
    requires input.staticLoft == data.clubData[input.club].loft
    ensures var e := EstimateStrike(data, input).estimate;
      && e.adjustedUserSpeed == ClampSwingSpeed(input.swingSpeed)
      && e.adjustedScratchSpeed == data.clubData[input.club].swingSpeed
      && e.scratchCarry == ScratchCarry(data.clubData, input.club, ClampSwingSpeed(input.swingSpeed))
      && e.scratchMaxCarry == ScratchCarry(data.clubData, input.club, data.clubData[input.club].swingSpeed)
  {
  }

  /** A measured carry equal to a scratch carry above the baseline gives ratio exactly 1. */
  lemma RatioIsOneAtScratchCarry(scratchCarry: real, baselineCarry: real)
    requires scratchCarry > baselineCarry
    ensures PerformanceRatio(scratchCarry, baselineCarry, Some(scratchCarry)) == 1.0
  {
    var range := scratchCarry - baselineCarry;
    assert Max(0.0, scratchCarry - baselineCarry) == range;
    assert PerformanceRatio(scratchCarry, baselineCarry, Some(scratchCarry)) == range / range;
    SelfQuotient(range);
  }

  /**
   * With a positive carry range the ratio never decreases as the measured carry
   * grows; with a negative range it never increases.
   */
  lemma RatioMonotone(carry1: real, carry2: real, baselineCarry: real, scratchCarry: Option<real>)
    requires carry1 <= carry2
    ensures CarryRange(baselineCarry, scratchCarry) > 0.0
        ==> PerformanceRatio(carry1, baselineCarry, scratchCarry) <= PerformanceRatio(carry2, baselineCarry, scratchCarry)
    ensures CarryRange(baselineCarry, scratchCarry) < 0.0
        ==> PerformanceRatio(carry1, baselineCarry, scratchCarry) >= PerformanceRatio(carry2, baselineCarry, scratchCarry)
  {
    var range := CarryRange(baselineCarry, scratchCarry);
    if range != 0.0 {
      var r1 := PerformanceRatio(carry1, baselineCarry, scratchCarry);
      var r2 := PerformanceRatio(carry2, baselineCarry, scratchCarry);
      var gain := Max(0.0, carry2 - baselineCarry) - Max(0.0, carry1 - baselineCarry);
      assert r1 * range == Max(0.0, carry1 - baselineCarry);
      assert r2 * range == Max(0.0, carry2 - baselineCarry);
      assert (r2 - r1) * range == r2 * range - r1 * range;
      QuotientSign(gain, range);
      assert (r2 - r1) == gain / range;
    }
  }

  /** A measured carry between the baseline and the scratch carry gives a ratio in [0, 1]. */
  lemma RatioWithinUnit(actualCarry: real, baselineCarry: real, scratchCarry: real)
    requires baselineCarry < scratchCarry
    requires actualCarry <= scratchCarry
    ensures 0.0 <= PerformanceRatio(actualCarry, baselineCarry, Some(scratchCarry)) <= 1.0
  {
    RatioMonotone(actualCarry, scratchCarry, baselineCarry, Some(scratchCarry));
    RatioIsOneAtScratchCarry(scratchCarry, baselineCarry);
  }

  /**
   * A missing scratch carry counts as 0, so with a positive baseline any carry above
   * the baseline gives a negative ratio (hence the table's band below 5%).
   */
  lemma MissingScratchCarryGivesNegativeRatio(actualCarry: real, baselineCarry: real)
    requires 0.0 < baselineCarry < actualCarry
    ensures PerformanceRatio(actualCarry, baselineCarry, None) < 0.0
  {
    var r := PerformanceRatio(actualCarry, baselineCarry, None);
    assert r * -baselineCarry == actualCarry - baselineCarry;
    if r >= 0.0 {
      NonNegativeProduct(r, baselineCarry);
    }
  }

  /** With whole-rpm reference spins the spin blend hits them exactly at ratios 0 and 1. */
  lemma SpinEndpointsAreExact(scratchSpin: real, noCompressionSpin: real)
    requires IsWhole(scratchSpin) && IsWhole(noCompressionSpin)
    ensures SpinBlend(scratchSpin, noCompressionSpin, 0.0) == noCompressionSpin
    ensures SpinBlend(scratchSpin, noCompressionSpin, 1.0) == scratchSpin
  {
    RoundWhole(scratchSpin);
    RoundWhole(noCompressionSpin);
  }

  /** For a ratio in [0, 1] the spin lies between the rounded reference spins. */
  lemma SpinBetween(scratchSpin: real, noCompressionSpin: real, ratio: real)
    requires 0.0 <= ratio <= 1.0
    ensures Round(Min(scratchSpin, noCompressionSpin)) <= SpinBlend(scratchSpin, noCompressionSpin, ratio)
    ensures SpinBlend(scratchSpin, noCompressionSpin, ratio) <= Round(Max(scratchSpin, noCompressionSpin))
  {
    RoundedBlendBetween(scratchSpin, noCompressionSpin, 1.0 - ratio);
  }

  /**
   * A strike that carries exactly the scratch carry at the user's speed reproduces
   * the scratch metrics: ratio 1, scratch dynamic loft (unless that is itself above
   * the cap), scratch smash factor and, with whole-rpm data, scratch spin.
   */
  lemma ScratchStrikeGivesScratchMetrics(data: Tables, input: Input)
    requires HasClub(data, input.club)
    requires EstimateStrike(data, input).estimate.scratchCarry == Some(input.actualCarry)
    requires input.actualCarry > data.noCompressionData[input.club].carry
    requires data.clubMetrics[input.club].dynamicLoft <= input.staticLoft + LoftCap
    requires IsWhole(data.clubMetrics[input.club].spinRate)
    ensures var e := EstimateStrike(data, input).estimate;
      && e.performanceRatio == 1.0
      && e.efficiency == 100.0
      && e.dynamicLoft == data.clubMetrics[input.club].dynamicLoft
      && !e.loftWarning
      && e.smashFactor == data.smashFactors[input.club].high
      && e.ballSpeed == e.swingSpeed * data.smashFactors[input.club].high
      && e.spinRate == data.clubMetrics[input.club].spinRate
  {
    RatioIsOneAtScratchCarry(input.actualCarry, data.noCompressionData[input.club].carry);
    RoundWhole(data.clubMetrics[input.club].spinRate);
  }

  /**
   * For a non-negative ratio and a scratch dynamic loft no higher than the static
   * loft, the estimate never exceeds the static loft, so the cap does not apply.
   */
  lemma CapNeverAppliesForNonNegativeRatio(staticLoft: real, scratchDynamicLoft: real, ratio: real)
    requires scratchDynamicLoft <= staticLoft && 0.0 <= ratio
    ensures !CapDynamicLoft(staticLoft, UncappedDynamicLoft(staticLoft, scratchDynamicLoft, ratio)).capped
  {
    NonNegativeProduct(staticLoft - scratchDynamicLoft, ratio);
  }

  /**
   * At ratio 1, the scratch strike itself, the cap applies exactly when the scratch
   * dynamic loft is more than `LoftCap` degrees above the static loft; a static loft
   * of 8 degrees against a scratch dynamic loft of 13.5 is such a case.
   */
  lemma ScratchRatioCapsHighScratchLoft(staticLoft: real, scratchDynamicLoft: real)
    ensures CapDynamicLoft(staticLoft, UncappedDynamicLoft(staticLoft, scratchDynamicLoft, 1.0)).capped
        <==> scratchDynamicLoft > staticLoft + LoftCap
    ensures CapDynamicLoft(8.0, UncappedDynamicLoft(8.0, 13.5, 1.0)) == LoftEstimate(13.0, true)
  {
  }

  /**
   * With no scratch carry, a long carry (200 yards over a 100-yard baseline) gives
   * ratio -1, and the loft estimate then exceeds the cap: the warning about a low
   * carry is shown for a long one.
   */
  lemma MissingScratchCarryCanApplyCap()
    ensures PerformanceRatio(200.0, 100.0, None) == -1.0
    ensures CapDynamicLoft(34.0, UncappedDynamicLoft(34.0, 20.0, -1.0)) == LoftEstimate(39.0, true)
  {
  }
}
