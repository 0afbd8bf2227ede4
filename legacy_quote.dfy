/** The earlier stand-alone version of the formulas (insurance_qoute.py):
    the same scorers and multipliers, a base rate of 500, a placeholder
    discount of 1, and a script that quotes one fixed driver with no policy
    adjustment and no discount table. */
module LegacyQuote {
  import opened Inputs
  import IQ = InsuranceQuote
  import QuoteScenario
  import PolicyWeights

  function ViolationPoints(violations: real): real {
    violations * 0.01 + 0.005
  }

  function TheftScore(vehicleTheftRateScore: real, locationRiskScore: real, antiTheftFeatureScore: real): real {
    vehicleTheftRateScore + locationRiskScore - antiTheftFeatureScore
  }

  function RepairScore(brandTypeScore: real, repairComplexScore: real, partsScore: real, vehicleAge: real): real {
    brandTypeScore + repairComplexScore + partsScore + (vehicleAge / 2.0)
  }

  function SafetyScore(crashTestRatings: real, activeSafetyFeatures: real, passiveSafetyFeatures: real): real {
    crashTestRatings + activeSafetyFeatures * 2.0 + passiveSafetyFeatures
  }

  function AccidentPoints(atFaultMajor: real, atFaultMinor: real, noFault: real, hitNRuns: real, duis: real): real {
    (atFaultMajor * 3.0) + (atFaultMinor * 1.5) + (noFault * 0.5) + (hitNRuns * 4.0) + (duis * 5.0)
  }

  function CrimeScore(crimeLevelFactor: real, antiTheftAdjustment: real): real {
    crimeLevelFactor - antiTheftAdjustment
  }

  /** The legacy base rate. */
  function CalcBaseRate(): real {
    500.0
  }

  function DriverRisk(accidentPoints: real, violationPoints: real, yearsClean: real, age: int): real {
    var ageAdjustment := if age < 25 then 0.15 else if age < 65 then 0.0 else 0.10;
    var yearsCleanPoints := -(yearsClean * 0.01);
    1.0 + (0.02 * accidentPoints) + (0.015 * violationPoints) - (0.01 * yearsCleanPoints) + ageAdjustment
  }

  function VehicleRisk(repairScore: real, theftScore: real, safetyScore: real): real {
    1.0 + (repairScore + theftScore - safetyScore) / 100.0
  }

  function LocationRisk(accidentPoints: real, crimeScore: real): real {
    1.0 + (0.02 * accidentPoints) + (0.025 * crimeScore)
  }

  /** The placeholder discount: a multiplier of 1, which leaves the quote as it is. */
  function CalcDiscounts(): real {
    1.0
  }

  /** Every legacy scorer and multiplier agrees with its counterpart in the
      table-driven pipeline on every input. */
  lemma LegacyFormulasAgree()
    ensures forall v :: ViolationPoints(v) == IQ.ViolationPoints(v)
    ensures forall t, l, a :: TheftScore(t, l, a) == IQ.TheftScore(t, l, a)
    ensures forall b, c, p, age :: RepairScore(b, c, p, age) == IQ.RepairScore(b, c, p, age)
    ensures forall c, a, p :: SafetyScore(c, a, p) == IQ.SafetyScore(c, a, p)
    ensures forall m, n, f, h, d :: AccidentPoints(m, n, f, h, d) == IQ.AccidentPoints(m, n, f, h, d)
    ensures forall c, a :: CrimeScore(c, a) == IQ.CrimeScore(c, a)
    ensures forall a, v, y, age :: DriverRisk(a, v, y, age) == IQ.DriverRisk(a, v, y, age)
    ensures forall r, t, s :: VehicleRisk(r, t, s) == IQ.VehicleRisk(r, t, s)
    ensures forall a, c :: LocationRisk(a, c) == IQ.LocationRisk(a, c)
  {
  }

  /** What the legacy script computes and reports. */
  datatype LegacyRun = LegacyRun(bp: real, dr: real, lr: real, vr: real, dd: real, quote: real)

  /** The legacy script's composition, for the driver, vehicle and location
      values it is given: base rate times the three multipliers times the
      placeholder discount. */
  function LegacyMain(d: DriverInputs, v: VehicleInputs, l: LocationInputs): (run: LegacyRun)
    ensures run.bp == 500.0 && run.dd == 1.0
    ensures run.quote == 500.0 * run.dr * run.vr * run.lr
  {
    var accidentPoints := AccidentPoints(d.atFaultMajor as real, d.atFaultMinor as real,
                                         d.noFault as real, d.hitNRuns as real, d.duis as real);
    var bp := CalcBaseRate();
    var dr := DriverRisk(accidentPoints, ViolationPoints(d.violations as real), d.yearsClean as real, d.age);
    var lr := LocationRisk(accidentPoints, CrimeScore(l.crimeLevelFactor as real, l.antiTheftAdjustment as real));
    var vr := VehicleRisk(
      RepairScore(v.brandTypeScore as real, v.repairComplexityScore as real, v.partsScore as real, v.vehicleAge as real),
      TheftScore(v.theftScore as real, lr, v.antiTheftFeatureScore as real),
      SafetyScore(v.crashTestRating as real, v.activeSafetyFeatures as real, v.passiveSafetyFeatures as real));
    var dd := CalcDiscounts();
    LegacyRun(bp, dr, lr, vr, dd, bp * dr * vr * lr * dd)
  }

  /** On the same driver, vehicle and location, the legacy script finds the
      same three multipliers as the table-driven pipeline. */
  lemma LegacyMultipliersAgree(ctx: QuoteInputs)
    requires ctx.policyInputs.coverageType.Some? && ctx.policyInputs.coverageType.value in PolicyWeights.POLICY_ADD_ON_MAP
    ensures LegacyMain(ctx.driverInputs, ctx.vehicleInputs, ctx.locationInputs).dr == IQ.Quote(ctx).value.weights.driverRisk
    ensures LegacyMain(ctx.driverInputs, ctx.vehicleInputs, ctx.locationInputs).vr == IQ.Quote(ctx).value.weights.vehicleRisk
    ensures LegacyMain(ctx.driverInputs, ctx.vehicleInputs, ctx.locationInputs).lr == IQ.Quote(ctx).value.weights.locationRisk
  {
    LegacyFormulasAgree();
  }

  // The values the legacy script is run on.
  const SAMPLE_DRIVER: DriverInputs := DriverInputs(
    atFaultMajor := 1, atFaultMinor := 1, noFault := 2, hitNRuns := 0,
    duis := 0, age := 23, yearsClean := 5, violations := 1)
  const SAMPLE_VEHICLE: VehicleInputs := VehicleInputs(
    brandTypeScore := 3, repairComplexityScore := 2, partsScore := 4,
    vehicleAge := 15, theftScore := 5, antiTheftFeatureScore := 2,
    crashTestRating := 4, activeSafetyFeatures := 2, passiveSafetyFeatures := 3)
  const SAMPLE_LOCATION: LocationInputs := LocationInputs(crimeLevelFactor := 4, antiTheftAdjustment := 2)

  /** The script's sample finds driver risk 1.260725, location risk 1.16
      and vehicle risk 1.0966, the multipliers of the pipeline's reference
      quote, and a quote of 500 times their product. */
  lemma LegacySample()
    ensures LegacyMain(SAMPLE_DRIVER, SAMPLE_VEHICLE, SAMPLE_LOCATION)
            == LegacyRun(500.0, 1.260725, 1.16, 1.0966, 1.0, 801.8564003)
  {
    assert AccidentPoints(1.0, 1.0, 2.0, 0.0, 0.0) == 5.5;
    assert DriverRisk(5.5, 0.015, 5.0, 23) == 1.260725;
    assert LocationRisk(5.5, 2.0) == 1.16;
    assert VehicleRisk(16.5, 4.16, 11.0) == 1.0966;
  }

  /** The script's sample is the test driver's vehicle, driver and location:
      both versions find the same three multipliers for it. */
  lemma LegacySampleMatchesTestScenario()
    ensures SAMPLE_DRIVER == QuoteScenario.TEST_DRIVER
    ensures SAMPLE_VEHICLE == QuoteScenario.TEST_VEHICLE
    ensures SAMPLE_LOCATION == QuoteScenario.TEST_LOCATION
    ensures var run := LegacyMain(SAMPLE_DRIVER, SAMPLE_VEHICLE, SAMPLE_LOCATION);
            var w := IQ.Quote(QuoteScenario.TEST_INPUTS).value.weights;
            run.dr == w.driverRisk && run.vr == w.vehicleRisk && run.lr == w.locationRisk
  {
    LegacySample();
    QuoteScenario.TestScenarioQuote();
  }
}
