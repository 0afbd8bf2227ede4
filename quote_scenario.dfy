/** Worked examples: the reference inputs the repository's test driver
    quotes (test.py:13-51), and the table lookups they exercise. */
module QuoteScenario {
  import opened Outcomes
  import opened WeightSums
  import opened PolicyWeights
  import opened DiscountWeights
  import opened Inputs
  import opened InsuranceQuote

  const TEST_DRIVER: DriverInputs := DriverInputs(
    atFaultMajor := 1, atFaultMinor := 1, noFault := 2, hitNRuns := 0,
    duis := 0, age := 23, yearsClean := 5, violations := 1)
  const TEST_LOCATION: LocationInputs := LocationInputs(crimeLevelFactor := 4, antiTheftAdjustment := 2)
  const TEST_VEHICLE: VehicleInputs := VehicleInputs(
    brandTypeScore := 3, repairComplexityScore := 2, partsScore := 4,
    vehicleAge := 15, theftScore := 5, antiTheftFeatureScore := 2,
    crashTestRating := 4, activeSafetyFeatures := 2, passiveSafetyFeatures := 3)
  const TEST_ADD_ONS: seq<string> := [ROADSIDE_ASSISTANCE, RENTAL_REIMBURSEMENT]
  const TEST_DISCOUNTS: seq<string> := [MULTI_POLICY, SAFE_DRIVER, ANTI_THEFT]
  const TEST_INPUTS: QuoteInputs := QuoteInputs(
    TEST_DRIVER, TEST_VEHICLE, TEST_LOCATION,
    PolicyInputs(Some(FULL_COVERAGE), Some(TEST_ADD_ONS)),
    DiscountsInputs(Some(TEST_DISCOUNTS)))

  /** Full coverage with roadside assistance and rental reimbursement
      adjusts by 1.5 + 0.15 + 0.1. */
  lemma PolicyAdjustmentExample()
    ensures PolicyAdjustmentOf(FULL_COVERAGE, TEST_ADD_ONS) == Success(1.75)
  {
    var t := POLICY_ADD_ON_MAP[FULL_COVERAGE].addOns;
    AddOnTableEntries();
    PolicyAdjustmentAllKnown(FULL_COVERAGE, TEST_ADD_ONS);
    assert KnownSum(t, TEST_ADD_ONS[..1]) == 0.15 by { assert TEST_ADD_ONS[..1][..0] == []; }
    assert TEST_ADD_ONS[..2][..1] == TEST_ADD_ONS[..1] && TEST_ADD_ONS[..2] == TEST_ADD_ONS;
  }

  /** Full coverage with multi-policy, safe-driver and anti-theft earns
      0.1 + 0.12 + 0.03; safe-driver alone earns nothing under liability,
      which does not offer it. */
  lemma DiscountExamples()
    ensures DiscountsOf(FULL_COVERAGE, TEST_DISCOUNTS) == 0.25
    ensures DiscountsOf(LIABILITY, [SAFE_DRIVER]) == 0.0
  {
    var d, t := TEST_DISCOUNTS, POLICY_DISCOUNT_MAP[FULL_COVERAGE];
    DiscountTableEntries();
    assert KnownSum(t, d[..1]) == 0.1 by { assert d[..1][..0] == []; }
    assert KnownSum(t, d[..2]) == 0.22 by { assert d[..2][..1] == d[..1]; }
    assert d[..3][..2] == d[..2] && d[..3] == d;
    var l := POLICY_DISCOUNT_MAP[LIABILITY];
    assert SAFE_DRIVER !in l;
    assert KnownSum(l, [SAFE_DRIVER]) == KnownSum(l, []) by { assert [SAFE_DRIVER][..0] == []; }
  }

  /** The discount keys the builder returns for the test driver's flags
      (multi-policy, safe-driver and anti-theft set, low-mileage not). */
  lemma TestDiscountKeys(keys: seq<string>)
    requires forall k :: k in keys <==> Eligible(k, true, true, false, true)
    requires forall i, j :: 0 <= i < j < |keys| ==> DiscountRank(keys[i]) < DiscountRank(keys[j])
    requires |keys| == 3
    ensures keys == TEST_DISCOUNTS
  {
    assert keys[0] in keys && keys[1] in keys && keys[2] in keys;
    assert DiscountRank(keys[0]) < DiscountRank(keys[1]) < DiscountRank(keys[2]);
  }

  /** The reference quote, factor by factor: accident points 5.5, violation
      points 0.015, crime score 2, location risk 1.16, repair score 16.5,
      theft score 4.16 (built on the location risk), safety score 11,
      vehicle risk 1.0966, driver risk 1.260725, policy adjustment 1.75,
      discount 0.25; gross 320 times their product, net three quarters of it. */
  lemma TestScenarioQuote()
    ensures Quote(TEST_INPUTS) == Success(QuoteResult(
              320.0, 898.079168336, 224.519792084, 673.559376252,
              QuoteWeights(1.260725, 1.0966, 1.16, 1.75, 0.25),
              QuoteScores(16.5, 4.16, 11.0)))
  {
    PolicyAdjustmentExample();
    DiscountExamples();
    assert AccidentPoints(1.0, 1.0, 2.0, 0.0, 0.0) == 5.5;
    assert ViolationPoints(1.0) == 0.015;
    assert DriverRisk(5.5, 0.015, 5.0, 23) == 1.260725;
    assert LocationRisk(5.5, CrimeScore(4.0, 2.0)) == 1.16;
    assert VehicleRisk(16.5, 4.16, 11.0) == 1.0966;
  }

  /** The test driver quoted from its flags: the builder's keys, then the
      composer, give the reference quote. */
  method RunTestQuote() returns (r: Result<QuoteResult, QuoteError>)
    ensures r.Success? && r.value.quote == 673.559376252 && r.value.originalQuote == 898.079168336
  {
    var discounts := GetDiscounts(multiPolicy := true, safeDriver := true, lowMileage := false, antiTheft := true);
    TestDiscountKeys(discounts);
    var ctx := QuoteInputs(
      TEST_DRIVER, TEST_VEHICLE, TEST_LOCATION,
      PolicyInputs(Some(FULL_COVERAGE), Some(TEST_ADD_ONS)),
      DiscountsInputs(Some(discounts)));
    r := CalculateQuote(ctx);
    TestScenarioQuote();
  }
}
