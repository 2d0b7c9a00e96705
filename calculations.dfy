/**
 * The solar estimation engine for Sweden (lib/calculations.ts): orientation
 * and tilt factors, annual production, system sizing, cost, payback, avoided
 * CO2, and the pipeline that chains them. Every operation is a total, pure
 * function of its arguments; numbers are exact reals.
 */
module Calculations {
  import opened Rounding
  import opened Wrappers

  /** Orientation factors by compass code (south = 1). */
  const OrientationTable: map<string, real> := map[
    "S" := 1.0,
    "SV" := 0.95,
    "SÖ" := 0.95,
    "V" := 0.82,
    "Ö" := 0.82,
    "NV" := 0.65,
    "NÖ" := 0.65,
    "N" := 0.55
  ]

  /** Factor used for a code that is not in the table. */
  const FallbackOrientationFactor: real := 0.9

  const OptimalTiltDeg: real := 35.0

  /** Average full-sun hours per year in central Sweden (kWh per kWp). */
  const BaseHoursSweden: real := 950.0

  /** Usable panel power per square metre of roof (kWp/m²). */
  const KwpPerSqm: real := 0.18

  /** Target yield used for consumption-driven sizing (kWh per kWp per year). */
  const SizingKwhPerKwp: real := 800.0

  const MinSystemKwp: real := 1.5
  const MaxSystemKwp: real := 50.0

  const DefaultPricePerKwpSek: real := 16500.0
  const DefaultElectricityPriceSek: real := 2.2

  /** Payback reported when there are no savings, and the cap on every payback. */
  const PaybackSentinelYears: real := 99.0

  const Co2GridGramPerKwh: real := 25.0

  /**
   * `toUpperCase` as far as the orientation lookup can observe it: ASCII
   * letters, å ä ö, and the long s (U+017F), which upper-cases to 'S'.
   * Every other character is left as it is.
   */
  function UpperChar(c: char): (u: char)
    ensures !IsLowerCase(u)
    ensures !IsLowerCase(c) ==> u == c
    ensures IsLowerCase(c) ==> u != c
  {
    if 'a' <= c <= 'z' then (c as int - 32) as char
    else if c == 'å' then 'Å'
    else if c == 'ä' then 'Ä'
    else if c == 'ö' then 'Ö'
    else if c == 'ſ' then 'S'
    else c
  }

  /** The lower-case letters `toUpperCase` changes, as far as this model goes. */
  predicate IsLowerCase(c: char) {
    'a' <= c <= 'z' || c == 'å' || c == 'ä' || c == 'ö' || c == 'ſ'
  }

  /** `s.toUpperCase()`, character by character: no lower-case letter is left, nothing else changes. */
  function ToUpperCase(s: string): (r: string)
    ensures |r| == |s|
    ensures forall i :: 0 <= i < |r| ==> !IsLowerCase(r[i])
    ensures forall i :: 0 <= i < |s| && !IsLowerCase(s[i]) ==> r[i] == s[i]
  {
    seq(|s|, i requires 0 <= i < |s| => UpperChar(s[i]))
  }

  /** Upper-casing twice is upper-casing once. */
  lemma ToUpperCaseIdempotent(s: string)
    ensures ToUpperCase(ToUpperCase(s)) == ToUpperCase(s)
  {
  }

  /** `ORIENTATION_FACTOR[code.toUpperCase()] ?? 0.9`. */
  function OrientationFactor(code: string): (f: real)
    ensures 0.55 <= f <= 1.0
    ensures f == FallbackOrientationFactor <==> ToUpperCase(code) !in OrientationTable
  {
    var key := ToUpperCase(code);
    if key in OrientationTable then OrientationTable[key] else FallbackOrientationFactor
  }

  /** The lookup ignores letter case: "sö" and "SÖ" get the same factor. */
  lemma OrientationFactorIgnoresCase(code: string)
    ensures OrientationFactor(ToUpperCase(code)) == OrientationFactor(code)
  {
    ToUpperCaseIdempotent(code);
  }

  /** The table ranks the compass codes S > SV = SÖ > V = Ö > NV = NÖ > N. */
  lemma OrientationRanking()
    ensures OrientationFactor("S") > OrientationFactor("SV") == OrientationFactor("SÖ")
    ensures OrientationFactor("SÖ") > OrientationFactor("V") == OrientationFactor("Ö")
    ensures OrientationFactor("Ö") > OrientationFactor("NV") == OrientationFactor("NÖ")
    ensures OrientationFactor("NÖ") > OrientationFactor("N")
  {
    assert ToUpperCase("S") == "S";
    assert ToUpperCase("SV") == "SV";
    assert ToUpperCase("SÖ") == "SÖ";
    assert ToUpperCase("V") == "V";
    assert ToUpperCase("Ö") == "Ö";
    assert ToUpperCase("NV") == "NV";
    assert ToUpperCase("NÖ") == "NÖ";
    assert ToUpperCase("N") == "N";
  }

  /** An unknown code such as "X" gets the 0.9 fallback rather than an error. */
  lemma UnknownOrientationFallsBack()
    ensures OrientationFactor("X") == 0.9
    ensures OrientationFactor("") == 0.9
  {
    assert ToUpperCase("X") == "X";
    assert ToUpperCase("") == "";
  }

  /** Yield factor for a roof tilted `angleDeg` degrees: a step function of the deviation from 35°. */
  function TiltFactor(angleDeg: real): (f: real)
    ensures 0.78 <= f <= 1.0
    ensures f == 1.0 <==> Abs(angleDeg - OptimalTiltDeg) <= 10.0
  {
    var diff := Abs(angleDeg - OptimalTiltDeg);
    if diff <= 10.0 then 1.0
    else if diff <= 25.0 then 0.95
    else if diff <= 45.0 then 0.88
    else 0.78
  }

  /** Tilting d degrees steeper or d degrees flatter than 35° costs the same. */
  lemma TiltFactorSymmetric(d: real)
    ensures TiltFactor(OptimalTiltDeg - d) == TiltFactor(OptimalTiltDeg + d)
  {
  }

  /** The further from 35°, the smaller (or equal) the tilt factor. */
  lemma TiltFactorNonIncreasing(a: real, b: real)
    requires Abs(a - OptimalTiltDeg) <= Abs(b - OptimalTiltDeg)
    ensures TiltFactor(a) >= TiltFactor(b)
  {
  }

  /** The tilt breakpoints: within 10° → 1.0, 25° → 0.95, 45° → 0.88, beyond → 0.78. */
  lemma TiltFactorBands(angleDeg: real)
    ensures Abs(angleDeg - 35.0) <= 10.0 ==> TiltFactor(angleDeg) == 1.0
    ensures 10.0 < Abs(angleDeg - 35.0) <= 25.0 ==> TiltFactor(angleDeg) == 0.95
    ensures 25.0 < Abs(angleDeg - 35.0) <= 45.0 ==> TiltFactor(angleDeg) == 0.88
    ensures 45.0 < Abs(angleDeg - 35.0) ==> TiltFactor(angleDeg) == 0.78
  {
  }

  /** Unrounded yield: kWp × 950 × orientation factor × tilt factor. */
  function RawProductionKwh(kwp: real, roofAngle: real, roofOrientation: string): real {
    kwp * BaseHoursSweden * OrientationFactor(roofOrientation) * TiltFactor(roofAngle)
  }

  /** A non-negative system never yields more than at 35° facing south. */
  lemma RawProductionBounds(kwp: real, roofAngle: real, roofOrientation: string)
    requires kwp >= 0.0
    ensures 0.0 <= RawProductionKwh(kwp, roofAngle, roofOrientation) <= kwp * BaseHoursSweden
  {
    var o := OrientationFactor(roofOrientation);
    var t := TiltFactor(roofAngle);
    var base := kwp * BaseHoursSweden;
    assert 0.0 <= o * t <= 1.0;
    assert RawProductionKwh(kwp, roofAngle, roofOrientation) == base * (o * t);
  }

  /** Estimated annual production in whole kWh. */
  function EstimateAnnualProductionKwh(kwp: real, roofAngle: real, roofOrientation: string): (kwh: int)
    ensures var raw := kwp * BaseHoursSweden * OrientationFactor(roofOrientation) * TiltFactor(roofAngle);
      raw - 0.5 < kwh as real <= raw + 0.5
    ensures kwp >= 0.0 ==> 0 <= kwh <= Round(kwp * BaseHoursSweden)
  {
    var raw := RawProductionKwh(kwp, roofAngle, roofOrientation);
    if kwp >= 0.0 then
      RawProductionBounds(kwp, roofAngle, roofOrientation);
      RoundMonotone(0.0, raw);
      RoundMonotone(raw, kwp * BaseHoursSweden);
      Round(raw)
    else
      Round(raw)
  }

  /** At the optimal tilt facing south the yield is exactly the base rate, rounded. */
  lemma ProductionAtOptimum(kwp: real)
    ensures EstimateAnnualProductionKwh(kwp, 35.0, "S") == Round(kwp * 950.0)
  {
    assert ToUpperCase("S") == "S";
  }

  /** A larger system on the same roof never yields less. */
  lemma ProductionMonotoneInSize(kwp1: real, kwp2: real, roofAngle: real, roofOrientation: string)
    requires kwp1 <= kwp2
    ensures EstimateAnnualProductionKwh(kwp1, roofAngle, roofOrientation)
         <= EstimateAnnualProductionKwh(kwp2, roofAngle, roofOrientation)
  {
    var k := BaseHoursSweden * OrientationFactor(roofOrientation) * TiltFactor(roofAngle);
    assert k >= 0.0;
    assert kwp1 * k <= kwp2 * k;
    assert RawProductionKwh(kwp1, roofAngle, roofOrientation) == kwp1 * k;
    assert RawProductionKwh(kwp2, roofAngle, roofOrientation) == kwp2 * k;
    RoundMonotone(kwp1 * k, kwp2 * k);
  }

  /** For a fixed system and tilt, a better-ranked orientation never yields less. */
  lemma ProductionFollowsOrientationFactor(kwp: real, roofAngle: real, o1: string, o2: string)
    requires kwp >= 0.0
    requires OrientationFactor(o1) <= OrientationFactor(o2)
    ensures EstimateAnnualProductionKwh(kwp, roofAngle, o1) <= EstimateAnnualProductionKwh(kwp, roofAngle, o2)
  {
    var k := kwp * BaseHoursSweden;
    var t := TiltFactor(roofAngle);
    assert k >= 0.0;
    assert k * OrientationFactor(o1) <= k * OrientationFactor(o2);
    assert k * OrientationFactor(o1) * t <= k * OrientationFactor(o2) * t;
    RoundMonotone(RawProductionKwh(kwp, roofAngle, o1), RawProductionKwh(kwp, roofAngle, o2));
  }

  /** Production ranks the compass codes as the table does: S ≥ SV ≥ V ≥ NV ≥ N. */
  lemma ProductionOrientationRanking(kwp: real, roofAngle: real)
    requires kwp >= 0.0
    ensures EstimateAnnualProductionKwh(kwp, roofAngle, "S") >= EstimateAnnualProductionKwh(kwp, roofAngle, "SV")
    ensures EstimateAnnualProductionKwh(kwp, roofAngle, "SV") >= EstimateAnnualProductionKwh(kwp, roofAngle, "V")
    ensures EstimateAnnualProductionKwh(kwp, roofAngle, "V") >= EstimateAnnualProductionKwh(kwp, roofAngle, "NV")
    ensures EstimateAnnualProductionKwh(kwp, roofAngle, "NV") >= EstimateAnnualProductionKwh(kwp, roofAngle, "N")
  {
    OrientationRanking();
    ProductionFollowsOrientationFactor(kwp, roofAngle, "SV", "S");
    ProductionFollowsOrientationFactor(kwp, roofAngle, "V", "SV");
    ProductionFollowsOrientationFactor(kwp, roofAngle, "NV", "V");
    ProductionFollowsOrientationFactor(kwp, roofAngle, "N", "NV");
  }

  /** Orientation affects production only through its factor. */
  lemma ProductionDependsOnFactorOnly(kwp: real, roofAngle: real, o1: string, o2: string)
    requires OrientationFactor(o1) == OrientationFactor(o2)
    ensures EstimateAnnualProductionKwh(kwp, roofAngle, o1) == EstimateAnnualProductionKwh(kwp, roofAngle, o2)
  {
    var f := OrientationFactor(o1);
    assert RawProductionKwh(kwp, roofAngle, o1) == kwp * BaseHoursSweden * f * TiltFactor(roofAngle);
    assert RawProductionKwh(kwp, roofAngle, o2) == kwp * BaseHoursSweden * f * TiltFactor(roofAngle);
  }

  /** The south-east, east and north-east codes yield what their western mirror images yield. */
  lemma ProductionEastWestMirror(kwp: real, roofAngle: real)
    ensures EstimateAnnualProductionKwh(kwp, roofAngle, "SÖ") == EstimateAnnualProductionKwh(kwp, roofAngle, "SV")
    ensures EstimateAnnualProductionKwh(kwp, roofAngle, "Ö") == EstimateAnnualProductionKwh(kwp, roofAngle, "V")
    ensures EstimateAnnualProductionKwh(kwp, roofAngle, "NÖ") == EstimateAnnualProductionKwh(kwp, roofAngle, "NV")
  {
    OrientationRanking();
    ProductionDependsOnFactorOnly(kwp, roofAngle, "SÖ", "SV");
    ProductionDependsOnFactorOnly(kwp, roofAngle, "Ö", "V");
    ProductionDependsOnFactorOnly(kwp, roofAngle, "NÖ", "NV");
  }

  /** The sizing target before rounding: the smaller of the roof and consumption bounds, clamped to [1.5, 50]. */
  function SizingTarget(roofAreaSqm: real, annualConsumptionKwh: real): real {
    var kwp := Min(roofAreaSqm * KwpPerSqm, annualConsumptionKwh / SizingKwhPerKwp);
    Max(MinSystemKwp, Min(MaxSystemKwp, kwp))
  }

  /**
   * Recommended system size in kWp, to one decimal. Roof angle and orientation
   * are accepted and ignored.
   */
  function RecommendSystemKwp(roofAreaSqm: real, annualConsumptionKwh: real,
                              roofAngle: real, roofOrientation: string): (kwp: real)
    ensures MinSystemKwp <= kwp <= MaxSystemKwp
    ensures IsTenth(kwp)
    ensures var target := SizingTarget(roofAreaSqm, annualConsumptionKwh);
      target - 0.05 < kwp <= target + 0.05
  {
    var target := SizingTarget(roofAreaSqm, annualConsumptionKwh);
    RoundTenthMonotone(MinSystemKwp, target);
    RoundTenthMonotone(target, MaxSystemKwp);
    RoundTenthFixed(MinSystemKwp);
    RoundTenthFixed(MaxSystemKwp);
    RoundTenth(target)
  }

  /** Sizing depends on roof area and consumption only. */
  lemma SizingIgnoresGeometry(roofAreaSqm: real, annualConsumptionKwh: real,
                              angle1: real, orientation1: string, angle2: real, orientation2: string)
    ensures RecommendSystemKwp(roofAreaSqm, annualConsumptionKwh, angle1, orientation1)
         == RecommendSystemKwp(roofAreaSqm, annualConsumptionKwh, angle2, orientation2)
  {
  }

  /** A bigger roof or a bigger consumption never leads to a smaller recommendation. */
  lemma SizingMonotone(area1: real, consumption1: real, area2: real, consumption2: real,
                       roofAngle: real, roofOrientation: string)
    requires area1 <= area2 && consumption1 <= consumption2
    ensures RecommendSystemKwp(area1, consumption1, roofAngle, roofOrientation)
         <= RecommendSystemKwp(area2, consumption2, roofAngle, roofOrientation)
  {
    assert consumption1 / SizingKwhPerKwp <= consumption2 / SizingKwhPerKwp;
    RoundTenthMonotone(SizingTarget(area1, consumption1), SizingTarget(area2, consumption2));
  }

  /** Above the 1.5 kWp floor, the recommendation exceeds neither the roof bound nor the consumption bound by more than rounding. */
  lemma SizingNeverOversizes(roofAreaSqm: real, annualConsumptionKwh: real, roofAngle: real, roofOrientation: string)
    ensures RecommendSystemKwp(roofAreaSqm, annualConsumptionKwh, roofAngle, roofOrientation)
         <= Max(MinSystemKwp, Min(roofAreaSqm * KwpPerSqm, annualConsumptionKwh / SizingKwhPerKwp)) + 0.05
  {
  }

  /** 80 m² and 8000 kWh/year: roof bound 14.4, consumption bound 10.0, so 10.0 kWp. */
  lemma SizingExample()
    ensures RecommendSystemKwp(80.0, 8000.0, 35.0, "S") == 10.0
  {
    assert SizingTarget(80.0, 8000.0) == 10.0;
    RoundTenthFixed(10.0);
  }

  /** Installed cost in whole SEK; the price per kWp defaults to 16 500 SEK. */
  function EstimateCostSek(kwp: real, pricePerKwpSek: Option<real>): (cost: int)
    ensures var price := pricePerKwpSek.GetOr(DefaultPricePerKwpSek);
      kwp * price - 0.5 < cost as real <= kwp * price + 0.5
    ensures kwp >= 0.0 && pricePerKwpSek.GetOr(DefaultPricePerKwpSek) >= 0.0 ==> cost >= 0
  {
    var price := pricePerKwpSek.GetOr(DefaultPricePerKwpSek);
    assert kwp >= 0.0 && price >= 0.0 ==> kwp * price >= 0.0;
    Round(kwp * price)
  }

  /** Omitting the price is the same as passing 16 500 SEK/kWp. */
  lemma CostDefaultPrice(kwp: real)
    ensures EstimateCostSek(kwp, None) == EstimateCostSek(kwp, Some(16500.0))
  {
  }

  /** At a non-negative price, a bigger system never costs less. */
  lemma CostMonotone(kwp1: real, kwp2: real, price: real)
    requires kwp1 <= kwp2 && price >= 0.0
    ensures EstimateCostSek(kwp1, Some(price)) <= EstimateCostSek(kwp2, Some(price))
  {
    assert kwp1 * price <= kwp2 * price;
    RoundMonotone(kwp1 * price, kwp2 * price);
  }

  /**
   * Payback in years, to one decimal and at most 99. With no savings
   * (production × electricity price ≤ 0) it is the 99-year sentinel and nothing
   * is divided. The electricity price defaults to 2.2 SEK/kWh.
   */
  function PaybackYears(investmentSek: real, annualProductionKwh: real, electricityPriceSekPerKwh: Option<real>): (years: real)
    ensures years <= PaybackSentinelYears
    ensures IsTenth(years)
    ensures annualProductionKwh * electricityPriceSekPerKwh.GetOr(DefaultElectricityPriceSek) <= 0.0 ==> years == 99.0
    ensures investmentSek >= 0.0 ==> years >= 0.0
    ensures var savings := annualProductionKwh * electricityPriceSekPerKwh.GetOr(DefaultElectricityPriceSek);
      savings > 0.0 ==>
        var capped := Min(PaybackSentinelYears, investmentSek / savings);
        capped - 0.05 < years <= capped + 0.05
  {
    var annualSavings := annualProductionKwh * electricityPriceSekPerKwh.GetOr(DefaultElectricityPriceSek);
    if annualSavings <= 0.0 then
      RoundTenthFixed(PaybackSentinelYears);
      PaybackSentinelYears
    else
      var years := investmentSek / annualSavings;
      var capped := Min(PaybackSentinelYears, years);
      RoundTenthMonotone(capped, PaybackSentinelYears);
      RoundTenthFixed(PaybackSentinelYears);
      if investmentSek >= 0.0 then
        RoundTenthMonotone(0.0, capped);
        RoundTenthFixed(0.0);
        RoundTenth(capped)
      else
        RoundTenth(capped)
  }

  /** No production means the 99-year sentinel, whatever the investment. */
  lemma PaybackWithoutProduction(investmentSek: real, electricityPriceSekPerKwh: Option<real>)
    ensures PaybackYears(investmentSek, 0.0, electricityPriceSekPerKwh) == 99.0
  {
  }

  /** A free installation that saves money pays back at once. */
  lemma PaybackOfZeroInvestment(annualProductionKwh: real, electricityPriceSekPerKwh: Option<real>)
    requires annualProductionKwh * electricityPriceSekPerKwh.GetOr(DefaultElectricityPriceSek) > 0.0
    ensures PaybackYears(0.0, annualProductionKwh, electricityPriceSekPerKwh) == 0.0
  {
    RoundTenthFixed(0.0);
  }

  /** With positive savings, a larger investment never pays back sooner. */
  lemma PaybackMonotoneInInvestment(inv1: real, inv2: real, annualProductionKwh: real, electricityPriceSekPerKwh: Option<real>)
    requires inv1 <= inv2
    requires annualProductionKwh * electricityPriceSekPerKwh.GetOr(DefaultElectricityPriceSek) > 0.0
    ensures PaybackYears(inv1, annualProductionKwh, electricityPriceSekPerKwh)
         <= PaybackYears(inv2, annualProductionKwh, electricityPriceSekPerKwh)
  {
    var savings := annualProductionKwh * electricityPriceSekPerKwh.GetOr(DefaultElectricityPriceSek);
    assert inv1 / savings <= inv2 / savings;
    RoundTenthMonotone(Min(PaybackSentinelYears, inv1 / savings), Min(PaybackSentinelYears, inv2 / savings));
  }

  /** An investment of 99 years of savings or more reports exactly 99. */
  lemma PaybackCapped(investmentSek: real, annualProductionKwh: real, electricityPriceSekPerKwh: Option<real>)
    requires annualProductionKwh * electricityPriceSekPerKwh.GetOr(DefaultElectricityPriceSek) > 0.0
    requires investmentSek >= 99.0 * (annualProductionKwh * electricityPriceSekPerKwh.GetOr(DefaultElectricityPriceSek))
    ensures PaybackYears(investmentSek, annualProductionKwh, electricityPriceSekPerKwh) == 99.0
  {
    var savings := annualProductionKwh * electricityPriceSekPerKwh.GetOr(DefaultElectricityPriceSek);
    assert investmentSek / savings >= 99.0;
    RoundTenthFixed(PaybackSentinelYears);
  }

  /** Avoided CO2 in whole kg per year, at 25 g per kWh. */
  function Co2ReductionKg(annualProductionKwh: real): (kg: int)
    ensures annualProductionKwh * 25.0 / 1000.0 - 0.5 < kg as real <= annualProductionKwh * 25.0 / 1000.0 + 0.5
    ensures annualProductionKwh >= 0.0 ==> kg >= 0
  {
    Round((annualProductionKwh * Co2GridGramPerKwh) / 1000.0)
  }

  /** More production never avoids less CO2. */
  lemma Co2Monotone(p1: real, p2: real)
    requires p1 <= p2
    ensures Co2ReductionKg(p1) <= Co2ReductionKg(p2)
  {
    RoundMonotone(p1 * Co2GridGramPerKwh / 1000.0, p2 * Co2GridGramPerKwh / 1000.0);
  }

  datatype SolarCalculationInput = SolarCalculationInput(
    roofAreaSqm: real,
    roofAngle: real,
    roofOrientation: string,
    annualConsumptionKwh: real,
    electricityPriceSekPerKwh: Option<real>,
    pricePerKwpSek: Option<real>)

  datatype SolarCalculationOutput = SolarCalculationOutput(
    recommendedKwp: real,
    estimatedCostSek: int,
    paybackYears: real,
    annualProductionKwh: int,
    co2ReductionKg: int)

  /**
   * The whole estimate: size first, then cost of that size, production of that
   * size at the given tilt and orientation, payback from cost and production,
   * and CO2 from production.
   */
  function RunSolarCalculation(input: SolarCalculationInput): (out: SolarCalculationOutput)
    ensures MinSystemKwp <= out.recommendedKwp <= MaxSystemKwp && IsTenth(out.recommendedKwp)
    ensures 0 <= out.annualProductionKwh <= Round(out.recommendedKwp * BaseHoursSweden)
    ensures out.co2ReductionKg >= 0
    ensures out.paybackYears <= 99.0 && IsTenth(out.paybackYears)
    ensures input.pricePerKwpSek.GetOr(DefaultPricePerKwpSek) >= 0.0 ==> out.estimatedCostSek >= 0 && out.paybackYears >= 0.0
    ensures out.annualProductionKwh as real * input.electricityPriceSekPerKwh.GetOr(DefaultElectricityPriceSek) <= 0.0
      ==> out.paybackYears == 99.0
  {
    var recommendedKwp := RecommendSystemKwp(input.roofAreaSqm, input.annualConsumptionKwh, input.roofAngle, input.roofOrientation);
    var estimatedCostSek := EstimateCostSek(recommendedKwp, input.pricePerKwpSek);
    var annualProductionKwh := EstimateAnnualProductionKwh(recommendedKwp, input.roofAngle, input.roofOrientation);
    var payback := PaybackYears(estimatedCostSek as real, annualProductionKwh as real, input.electricityPriceSekPerKwh);
    var co2 := Co2ReductionKg(annualProductionKwh as real);
    SolarCalculationOutput(recommendedKwp, estimatedCostSek, payback, annualProductionKwh, co2)
  }

  /** The steps are chained on the recommended size, in the engine's data-dependency order. */
  lemma PipelineUsesRecommendedSize(input: SolarCalculationInput)
    ensures var out := RunSolarCalculation(input);
      && out.recommendedKwp == RecommendSystemKwp(input.roofAreaSqm, input.annualConsumptionKwh, input.roofAngle, input.roofOrientation)
      && out.estimatedCostSek == EstimateCostSek(out.recommendedKwp, input.pricePerKwpSek)
      && out.annualProductionKwh == EstimateAnnualProductionKwh(out.recommendedKwp, input.roofAngle, input.roofOrientation)
      && out.paybackYears == PaybackYears(out.estimatedCostSek as real, out.annualProductionKwh as real, input.electricityPriceSekPerKwh)
      && out.co2ReductionKg == Co2ReductionKg(out.annualProductionKwh as real)
  {
  }

  /** 80 m², 35°, "S", 8000 kWh at default prices: 10.0 kWp, 165 000 SEK, 9500 kWh, 7.9 years, 238 kg. */
  lemma WorkedExample()
    ensures RunSolarCalculation(SolarCalculationInput(80.0, 35.0, "S", 8000.0, None, None))
         == SolarCalculationOutput(10.0, 165000, 7.9, 9500, 238)
  {
    SizingExample();
    ProductionAtOptimum(10.0);
    assert EstimateAnnualProductionKwh(10.0, 35.0, "S") == 9500;
    assert EstimateCostSek(10.0, None) == 165000;
    var years := 165000.0 / (9500.0 * 2.2);
    assert 78.0 < years * 10.0 + 0.5 < 80.0;
    assert years * 10.0 + 0.5 >= 79.0;
    assert Round(years * 10.0) == 79;
    assert PaybackYears(165000.0, 9500.0, None) == 7.9;
    assert Co2ReductionKg(9500.0) == 238;
  }
}
