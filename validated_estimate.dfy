/**
 * The calculate endpoint (app/api/calculate/route.ts), which parses the form
 * and runs the engine at the default prices, and what the engine promises at
 * those prices: cost in range, production, and a payback well below the
 * 99-year sentinel. These bounds hold for every input at default prices,
 * accepted or not; only the orientation lemma needs the form to be accepted.
 */
module ValidatedEstimate {
  import opened Wrappers
  import opened Rounding
  import opened Calculations
  import opened Validation

  /** The engine input the calculate endpoint builds from a parsed form: no price overrides. */
  function EngineInput(input: CalculatorInput): (e: SolarCalculationInput)
    ensures e.electricityPriceSekPerKwh.None? && e.pricePerKwpSek.None?
    ensures e.roofAreaSqm == input.roofAreaSqm && e.roofAngle == input.roofAngle
    ensures e.roofOrientation == input.roofOrientation && e.annualConsumptionKwh == input.annualConsumptionKwh
  {
    SolarCalculationInput(input.roofAreaSqm, input.roofAngle, input.roofOrientation, input.annualConsumptionKwh, None, None)
  }

  /** Whatever the tilt and orientation, a system yields at least 0.55 × 0.78 of the base rate. */
  lemma RawProductionAtLeast(kwp: real, roofAngle: real, roofOrientation: string)
    requires kwp >= 0.0
    ensures RawProductionKwh(kwp, roofAngle, roofOrientation) >= kwp * 407.55
  {
    var o := OrientationFactor(roofOrientation);
    var t := TiltFactor(roofAngle);
    assert o * t >= 0.55 * t >= 0.55 * 0.78;
    assert kwp * 950.0 * (o * t) >= kwp * 950.0 * 0.429;
    assert RawProductionKwh(kwp, roofAngle, roofOrientation) == kwp * 950.0 * (o * t);
  }

  /** A size in [1.5, 50] kWp costs between 24 750 and 825 000 SEK at the default price. */
  lemma DefaultCostBounds(kwp: real)
    requires 1.5 <= kwp <= 50.0
    ensures 24750 <= EstimateCostSek(kwp, None) <= 825000
  {
    RoundMonotone(24750.0, kwp * 16500.0);
    RoundMonotone(kwp * 16500.0, 825000.0);
    RoundWhole(24750);
    RoundWhole(825000);
  }

  /** A system of at least 1.5 kWp yields at least 611 kWh, and at least 407.55 kWh per kWp less a rounding half. */
  lemma ProductionAtLeast(kwp: real, roofAngle: real, roofOrientation: string)
    requires kwp >= 1.5
    ensures EstimateAnnualProductionKwh(kwp, roofAngle, roofOrientation) >= 611
    ensures EstimateAnnualProductionKwh(kwp, roofAngle, roofOrientation) as real >= kwp * 407.55 - 0.5
  {
    var raw := RawProductionKwh(kwp, roofAngle, roofOrientation);
    RawProductionAtLeast(kwp, roofAngle, roofOrientation);
    RoundMonotone(611.325, raw);
    assert Round(611.325) == 611;
  }

  /** At default prices, the rounded cost of a size over the production it is guaranteed pays back within 18.5 years. */
  lemma DefaultPaybackBound(kwp: real, cost: int, production: int)
    requires kwp >= 1.5
    requires cost as real <= kwp * 16500.0 + 0.5
    requires 0 <= cost
    requires production as real >= kwp * 407.55 - 0.5
    ensures 0.0 <= PaybackYears(cost as real, production as real, None) <= 18.5
  {
    var savings := production as real * 2.2;
    var c := cost as real;
    var p := production as real;
    assert p >= kwp * 407.55 - 0.5;
    assert savings == p * 2.2;
    assert 18.45 * savings == 40.59 * p;
    assert 40.59 * p >= 40.59 * (kwp * 407.55 - 0.5);
    assert 40.59 * (kwp * 407.55 - 0.5) == 16542.4545 * kwp - 20.295;
    assert c <= 18.45 * savings;
    DivAtMost(c, savings, 18.45);
  }

  /** At default prices, whatever the form: cost, production, payback and CO2 all have realistic bounds. */
  lemma DefaultPriceEstimate(e: SolarCalculationInput)
    requires e.electricityPriceSekPerKwh.None? && e.pricePerKwpSek.None?
    ensures var out := RunSolarCalculation(e);
      && 24750 <= out.estimatedCostSek <= 825000
      && out.annualProductionKwh >= 611
      && 0.0 <= out.paybackYears <= 18.5
      && out.co2ReductionKg >= 15
  {
    PipelineUsesRecommendedSize(e);
    var out := RunSolarCalculation(e);
    var kwp, cost, production := out.recommendedKwp, out.estimatedCostSek, out.annualProductionKwh;
    DefaultCostBounds(kwp);
    ProductionAtLeast(kwp, e.roofAngle, e.roofOrientation);
    DefaultPaybackBound(kwp, cost, production);
    Co2Monotone(611.0, production as real);
    assert Co2ReductionKg(611.0) == 15;
  }

  /**
   * The calculate endpoint: parse the form; on failure report every issue,
   * otherwise run the engine on the four roof and consumption fields.
   */
  function CalculateRoute(input: CalculatorInput): (r: Result<SolarCalculationOutput, seq<Issue>>)
    ensures r.Success? <==> RejectedFields(input, AllFields) == {}
    ensures r.Failure? ==> r.error != [] && IssueFields(r.error) == RejectedFields(input, AllFields)
    ensures r.Success? ==> r.value == RunSolarCalculation(EngineInput(input))
    ensures r.Success? ==>
      && 24750 <= r.value.estimatedCostSek <= 825000
      && r.value.annualProductionKwh >= 611
      && 0.0 <= r.value.paybackYears <= 18.5
      && r.value.co2ReductionKg >= 15
  {
    match ParseCalculator(input)
    case Failure(issues) => Failure(issues)
    case Success(form) =>
      DefaultPriceEstimate(EngineInput(form));
      Success(RunSolarCalculation(EngineInput(form)))
  }

  /** An accepted form never reaches the engine's 0.9 orientation fallback. */
  lemma ValidatedOrientationUsesTable(input: CalculatorInput)
    requires ParseCalculator(input).Success?
    ensures OrientationFactor(input.roofOrientation) == OrientationTable[input.roofOrientation]
    ensures OrientationFactor(input.roofOrientation) != FallbackOrientationFactor
  {
    assert FieldAccepted(input, RoofOrientation) by {
      assert RoofOrientation !in RejectedFields(input, AllFields);
    }
    AcceptedOrientationHasTableFactor(input.roofOrientation);
  }
}
