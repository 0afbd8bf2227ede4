/** The quote pipeline (insurance_quote.py): leaf scorers, the three risk
    multipliers, the table-driven policy and discount resolvers, and the
    composer that turns a set of inputs into a quote. Every quantity is an
    exact real number. */
module InsuranceQuote {
  import opened Outcomes
  import opened WeightSums
  import opened PolicyWeights
  import opened DiscountWeights
  import opened Inputs

  /** The base rate every quote starts from. */
  const BASE_RATE: real := 320.0

  // ---------------------------------------------------------------------
  // Leaf scorers

  /** Points for traffic violations: a hundredth per violation on top of a
      fixed 0.005, which is there even with no violations. */
  function ViolationPoints(violations: real): (r: real)
    ensures violations == 0.0 ==> r == 0.005
    ensures violations >= 0.0 ==> r >= 0.005
  {
    violations * 0.01 + 0.005
  }

  /** Theft score: the location risk multiplier, raised by the vehicle's
      theft rate and lowered by its anti-theft features. */
  function TheftScore(vehicleTheftRateScore: real, locationRiskScore: real, antiTheftFeatureScore: real): (r: real)
    ensures r >= locationRiskScore <==> vehicleTheftRateScore >= antiTheftFeatureScore
  {
    vehicleTheftRateScore + locationRiskScore - antiTheftFeatureScore
  }

  /** Repair score: brand, complexity and parts scores plus half a point
      per year of vehicle age (true division, not integer division). */
  function RepairScore(brandTypeScore: real, repairComplexScore: real, partsScore: real, vehicleAge: real): (r: real)
    ensures brandTypeScore >= 0.0 && repairComplexScore >= 0.0 && partsScore >= 0.0 && vehicleAge >= 0.0 ==> r >= 0.0
  {
    brandTypeScore + repairComplexScore + partsScore + (vehicleAge / 2.0)
  }

  /** Safety score: crash-test rating plus two points per active and one per
      passive safety feature. */
  function SafetyScore(crashTestRatings: real, activeSafetyFeatures: real, passiveSafetyFeatures: real): (r: real)
    ensures activeSafetyFeatures >= 0.0 && passiveSafetyFeatures >= 0.0 ==> r >= crashTestRatings
  {
    crashTestRatings + activeSafetyFeatures * 2.0 + passiveSafetyFeatures
  }

  /** Accident points: 3 per major and 1.5 per minor at-fault accident, 0.5
      per no-fault accident, 4 per hit-and-run and 5 per DUI. */
  function AccidentPoints(atFaultMajor: real, atFaultMinor: real, noFault: real, hitNRuns: real, duis: real): (r: real)
    ensures atFaultMajor >= 0.0 && atFaultMinor >= 0.0 && noFault >= 0.0 && hitNRuns >= 0.0 && duis >= 0.0 ==> r >= 0.0
  {
    (atFaultMajor * 3.0) + (atFaultMinor * 1.5) + (noFault * 0.5) + (hitNRuns * 4.0) + (duis * 5.0)
  }

  /** Crime score: crime level less the anti-theft adjustment; negative
      exactly when the adjustment outweighs the crime level. */
  function CrimeScore(crimeLevelFactor: real, antiTheftAdjustment: real): (r: real)
    ensures r < 0.0 <==> antiTheftAdjustment > crimeLevelFactor
    ensures r == 0.0 <==> antiTheftAdjustment == crimeLevelFactor
  {
    crimeLevelFactor - antiTheftAdjustment
  }

  /** Each accident point weighs at least as much as the one before: the
      score never drops when any count grows. */
  lemma AccidentPointsMonotone(
    major: real, minor: real, noFault: real, hitNRuns: real, duis: real,
    major': real, minor': real, noFault': real, hitNRuns': real, duis': real)
    requires major <= major' && minor <= minor' && noFault <= noFault' && hitNRuns <= hitNRuns' && duis <= duis'
    ensures AccidentPoints(major, minor, noFault, hitNRuns, duis)
            <= AccidentPoints(major', minor', noFault', hitNRuns', duis')
  {
  }

  // ---------------------------------------------------------------------
  // Risk aggregators

  /** The age band's surcharge: 0.15 under 25, none from 25 to 64, 0.10 from 65. */
  function AgeAdjustment(age: int): real {
    if age < 25 then 0.15
    else if age < 65 then 0.0
    else 0.10
  }

  /** Driver risk multiplier. The years-clean term is negated and then
      subtracted, so each clean year adds 0.0001 to the multiplier. */
  function DriverRisk(accidentPoints: real, violationPoints: real, yearsClean: real, age: int): (r: real)
    ensures r == 1.0 + 0.02 * accidentPoints + 0.015 * violationPoints + 0.0001 * yearsClean + AgeAdjustment(age)
    ensures accidentPoints == 0.0 && violationPoints == 0.0 && yearsClean == 0.0 && 25 <= age < 65 ==> r == 1.0
  {
    var ageAdjustment := AgeAdjustment(age);
    var yearsCleanPoints := -(yearsClean * 0.01);
    1.0 + (0.02 * accidentPoints) + (0.015 * violationPoints) - (0.01 * yearsCleanPoints) + ageAdjustment
  }

  /** Vehicle risk multiplier: one plus a hundredth of repair and theft
      score less safety score; above one exactly when repair and theft
      outweigh safety. */
  function VehicleRisk(repairScore: real, theftScore: real, safetyScore: real): (r: real)
    ensures r > 1.0 <==> repairScore + theftScore > safetyScore
    ensures r == 1.0 <==> repairScore + theftScore == safetyScore
  {
    1.0 + (repairScore + theftScore - safetyScore) / 100.0
  }

  /** Location risk multiplier; it is not clamped, so it drops below one
      whenever a negative crime score outweighs the accident points. */
  function LocationRisk(accidentPoints: real, crimeScore: real): (r: real)
    ensures r < 1.0 <==> 0.02 * accidentPoints + 0.025 * crimeScore < 0.0
    ensures accidentPoints == 0.0 && crimeScore == 0.0 ==> r == 1.0
  {
    1.0 + (0.02 * accidentPoints) + (0.025 * crimeScore)
  }

  /** The age surcharge at the band boundaries: 24 is charged 0.15, 25 and
      64 nothing, 65 0.10. */
  lemma AgeBandBoundaries(accidentPoints: real, violationPoints: real, yearsClean: real)
    ensures DriverRisk(accidentPoints, violationPoints, yearsClean, 24)
            == DriverRisk(accidentPoints, violationPoints, yearsClean, 25) + 0.15
    ensures DriverRisk(accidentPoints, violationPoints, yearsClean, 64)
            == DriverRisk(accidentPoints, violationPoints, yearsClean, 25)
    ensures DriverRisk(accidentPoints, violationPoints, yearsClean, 65)
            == DriverRisk(accidentPoints, violationPoints, yearsClean, 25) + 0.10
    ensures DriverRisk(0.0, 0.0, 0.0, 25) == 1.0
  {
  }

  /** More clean years never lower the driver risk; they raise it. */
  lemma YearsCleanRaisesDriverRisk(accidentPoints: real, violationPoints: real, yearsClean: real, yearsClean': real, age: int)
    requires yearsClean < yearsClean'
    ensures DriverRisk(accidentPoints, violationPoints, yearsClean, age)
            < DriverRisk(accidentPoints, violationPoints, yearsClean', age)
  {
  }

  // ---------------------------------------------------------------------
  // Policy resolver

  /** The failure that aborts a quote: a coverage type the policy table has
      no entry for (the source raises while reading its weight). */
  datatype QuoteError = InvalidPolicyType

  /** How many keys at the front of the list the table holds: the index of
      the first unknown key, or the whole length. */
  function KnownPrefixLength(t: map<string, real>, keys: seq<string>): (n: nat)
    ensures n <= |keys|
    ensures forall i :: 0 <= i < n ==> keys[i] in t
    ensures n < |keys| ==> keys[n] !in t
  {
    if keys == [] || keys[0] !in t then 0
    else 1 + KnownPrefixLength(t, keys[1..])
  }

  /** The policy adjustment: the coverage type's base weight plus the
      weights of its add-ons up to the first one it does not support, which
      ends the accumulation; -1 when the base weight is the invalid marker;
      a failure for a coverage type the table does not know. */
  function PolicyAdjustmentOf(policyType: string, addOns: seq<string>): (r: Result<real, QuoteError>)
    ensures r.Failure? <==> policyType !in POLICY_ADD_ON_MAP
    ensures r.Success? ==> r.value >= POLICY_ADD_ON_MAP[policyType].weight
  {
    if policyType !in POLICY_ADD_ON_MAP then Failure(InvalidPolicyType)
    else
      var entry := POLICY_ADD_ON_MAP[policyType];
      if entry.weight == INVALID_WEIGHT then Success(INVALID_WEIGHT)
      else
        AddOnTableEntries();
        Success(entry.weight + KnownSum(entry.addOns, addOns[..KnownPrefixLength(entry.addOns, addOns)]))
  }

  /** Resolves the policy adjustment the way the source does: reads the base
      weight, returns -1 for the invalid weight, then adds add-on weights
      until an add-on is missing from the coverage's table. */
  method CalcPolicyAdjustment(policyType: string, addOns: seq<string>) returns (r: Result<real, QuoteError>)
    ensures r == PolicyAdjustmentOf(policyType, addOns)
  {
    if policyType !in POLICY_ADD_ON_MAP {
      return Failure(InvalidPolicyType);
    }
    var policyObj := POLICY_ADD_ON_MAP[policyType];
    var policyWeight := policyObj.weight;
    if policyWeight == INVALID_WEIGHT {
      return Success(INVALID_WEIGHT);
    }
    var adjustments := 0.0;
    var i := 0;
    ghost var n := KnownPrefixLength(policyObj.addOns, addOns);
    while i < |addOns|
      invariant 0 <= i <= n
      invariant adjustments == KnownSum(policyObj.addOns, addOns[..i])
    {
      if addOns[i] !in policyObj.addOns {
        break;
      }
      assert addOns[..i + 1][..i] == addOns[..i];
      adjustments := adjustments + policyObj.addOns[addOns[i]];
      i := i + 1;
    }
    return Success(policyWeight + adjustments);
  }

  /** With every add-on supported, the adjustment is the base weight plus
      the sum of all the add-on weights, and at least the base weight. */
  lemma PolicyAdjustmentAllKnown(policyType: string, addOns: seq<string>)
    requires policyType in POLICY_ADD_ON_MAP
    requires forall a :: a in addOns ==> a in POLICY_ADD_ON_MAP[policyType].addOns
    ensures PolicyAdjustmentOf(policyType, addOns)
            == Success(POLICY_ADD_ON_MAP[policyType].weight + KnownSum(POLICY_ADD_ON_MAP[policyType].addOns, addOns))
  {
    PolicyTableEntries();
    var t := POLICY_ADD_ON_MAP[policyType].addOns;
    var n := KnownPrefixLength(t, addOns);
    assert addOns[..n] == addOns;
  }

  /** The first unsupported add-on ends the accumulation: the weights of
      the add-ons before it are kept and every later add-on is ignored. */
  lemma PolicyAdjustmentStopsAtFirstUnknown(policyType: string, known: seq<string>, unknown: string, rest: seq<string>)
    requires policyType in POLICY_ADD_ON_MAP
    requires forall a :: a in known ==> a in POLICY_ADD_ON_MAP[policyType].addOns
    requires unknown !in POLICY_ADD_ON_MAP[policyType].addOns
    ensures PolicyAdjustmentOf(policyType, known + [unknown] + rest) == PolicyAdjustmentOf(policyType, known)
  {
    PolicyTableEntries();
    var t := POLICY_ADD_ON_MAP[policyType].addOns;
    var keys := known + [unknown] + rest;
    var n := KnownPrefixLength(t, keys);
    assert keys[|known|] == unknown;
    assert forall i :: 0 <= i < |known| ==> keys[i] == known[i];
    assert n == |known|;
    assert keys[..n] == known;
    PolicyAdjustmentAllKnown(policyType, known);
  }

  /** Each supported add-on is taken once at most: then the adjustment is
      no more than the base weight plus everything the coverage offers, and
      never above 1.85, which full coverage with all four add-ons reaches. */
  lemma PolicyAdjustmentMaximum(policyType: string, addOns: seq<string>)
    requires policyType in POLICY_ADD_ON_MAP
    requires Distinct(addOns)
    ensures PolicyAdjustmentOf(policyType, addOns).value
            <= POLICY_ADD_ON_MAP[policyType].weight + MapTotal(POLICY_ADD_ON_MAP[policyType].addOns)
            <= 1.85
    ensures PolicyAdjustmentOf(FULL_COVERAGE, [ROADSIDE_ASSISTANCE, RENTAL_REIMBURSEMENT, GAP_COVERAGE, GLASS_COVERAGE])
            == Success(1.85)
  {
    PolicyTableEntries();
    AddOnTableEntries();
    AddOnTableTotals();
    var t := POLICY_ADD_ON_MAP[policyType].addOns;
    var n := KnownPrefixLength(t, addOns);
    KnownSumAtMostTotal(t, addOns[..n]);
    var all := [ROADSIDE_ASSISTANCE, RENTAL_REIMBURSEMENT, GAP_COVERAGE, GLASS_COVERAGE];
    var full := POLICY_ADD_ON_MAP[FULL_COVERAGE].addOns;
    PolicyAdjustmentAllKnown(FULL_COVERAGE, all);
    assert KnownSum(full, all[..1]) == 0.15 by { assert all[..1][..0] == []; }
    assert KnownSum(full, all[..2]) == 0.25 by { assert all[..2][..1] == all[..1]; }
    assert KnownSum(full, all[..3]) == 0.3 by { assert all[..3][..2] == all[..2]; }
    assert all[..4][..3] == all[..3] && all[..4] == all;
  }

  // ---------------------------------------------------------------------
  // Discount resolver

  /** The discount fraction: nothing for a coverage type without a discount
      table, otherwise the fractions of every requested key the table
      offers, skipping the keys it does not. */
  function DiscountsOf(policyType: string, discounts: seq<string>): (r: real)
    ensures r >= 0.0
    ensures policyType !in POLICY_DISCOUNT_MAP ==> r == 0.0
  {
    if policyType !in POLICY_DISCOUNT_MAP then 0.0
    else
      DiscountTableEntries();
      KnownSum(POLICY_DISCOUNT_MAP[policyType], discounts)
  }

  /** Resolves the discount fraction the way the source does: 0 for an
      unknown coverage type, then adds the fraction of each offered key and
      skips the others. */
  method CalcDiscounts(policyType: string, discounts: seq<string>) returns (total: real)
    ensures total == DiscountsOf(policyType, discounts)
  {
    var discountTotal := 0.0;
    if policyType !in POLICY_DISCOUNT_MAP {
      return 0.0;
    }
    var discountObj := POLICY_DISCOUNT_MAP[policyType];
    for i := 0 to |discounts|
      invariant discountTotal == KnownSum(discountObj, discounts[..i])
    {
      assert discounts[..i + 1][..i] == discounts[..i];
      if discounts[i] in discountObj {
        discountTotal := discountTotal + discountObj[discounts[i]];
      }
    }
    assert discounts[..|discounts|] == discounts;
    return discountTotal;
  }

  /** A key the coverage does not offer is skipped; the keys after it still
      count. */
  lemma DiscountsSkipUnknown(policyType: string, before: seq<string>, unknown: string, after: seq<string>)
    requires policyType in POLICY_DISCOUNT_MAP && unknown !in POLICY_DISCOUNT_MAP[policyType]
    ensures DiscountsOf(policyType, before + [unknown] + after) == DiscountsOf(policyType, before + after)
    ensures DiscountsOf(policyType, before + after) == DiscountsOf(policyType, before) + DiscountsOf(policyType, after)
  {
    var t := POLICY_DISCOUNT_MAP[policyType];
    KnownSumAppend(t, before + [unknown], after);
    KnownSumAppend(t, before, [unknown]);
    KnownSumAppend(t, before, after);
    assert [unknown][..0] == [];
  }

  /** Taking each key once, the discount fraction stays within what the
      coverage offers (0.15, 0.25, 0.17) and so below one. */
  lemma DiscountsBelowWhole(policyType: string, discounts: seq<string>)
    requires Distinct(discounts)
    ensures DiscountsOf(policyType, discounts) <= MaxDiscount(policyType) < 1.0
  {
    if policyType in POLICY_DISCOUNT_MAP {
      DiscountTableEntries();
      KnownSumAtMostTotal(POLICY_DISCOUNT_MAP[policyType], discounts);
    }
  }

  /** A repeated key is counted every time: nine safe-driver keys under full
      coverage give a fraction above one. */
  lemma RepeatedDiscountsExceedWhole()
    ensures DiscountsOf(FULL_COVERAGE, seq(9, _ => SAFE_DRIVER)) == 1.08
  {
    var keys := seq(9, _ => SAFE_DRIVER);
    var t := POLICY_DISCOUNT_MAP[FULL_COVERAGE];
    var i := 0;
    while i < 9
      invariant 0 <= i <= 9
      invariant KnownSum(t, keys[..i]) == 0.12 * i as real
    {
      assert keys[..i + 1][..i] == keys[..i];
      i := i + 1;
    }
    assert keys[..9] == keys;
  }

  // ---------------------------------------------------------------------
  // Quote composer

  datatype QuoteWeights = QuoteWeights(
    driverRisk: real, vehicleRisk: real, locationRisk: real,
    policyAdjustment: real, discount: real)

  datatype QuoteScores = QuoteScores(repairScore: real, theftScore: real, safetyScore: real)

  /** The quote: base rate, gross quote, discount amount, net quote, and
      the factors and vehicle scores it was built from. */
  datatype QuoteResult = QuoteResult(
    baseRate: real, originalQuote: real, totalDiscount: real, quote: real,
    weights: QuoteWeights, scores: QuoteScores)

  /** The gross quote (base rate times the three risk multipliers and the
      policy adjustment), the discount it earns, and the net quote, which
      is the gross quote less that discount. */
  function Assemble(dr: real, vr: real, lr: real, pa: real, dd: real, scores: QuoteScores): (q: QuoteResult)
    ensures q.baseRate == BASE_RATE
    ensures q.originalQuote == q.baseRate * q.weights.driverRisk * q.weights.vehicleRisk
                               * q.weights.locationRisk * q.weights.policyAdjustment
    ensures q.quote == q.originalQuote * (1.0 - dd)
    ensures q.totalDiscount == q.originalQuote * dd
    ensures q.weights == QuoteWeights(dr, vr, lr, pa, dd) && q.scores == scores
  {
    var quote := BASE_RATE * dr * vr * lr * pa;
    var discountedTotal := quote * dd;
    QuoteResult(BASE_RATE, quote, discountedTotal, quote - discountedTotal,
                QuoteWeights(dr, vr, lr, pa, dd), scores)
  }

  /** The quote for a set of inputs. A missing add-on or discount list
      resolves as an empty one; a missing or unknown coverage type fails. */
  function Quote(ctx: QuoteInputs): (r: Result<QuoteResult, QuoteError>)
    ensures r.Success? <==> ctx.policyInputs.coverageType.Some? && ctx.policyInputs.coverageType.value in POLICY_ADD_ON_MAP
    ensures r.Success? ==>
              var w := r.value.weights;
              r.value == Assemble(w.driverRisk, w.vehicleRisk, w.locationRisk, w.policyAdjustment, w.discount, r.value.scores)
    ensures r.Success? ==>
              && r.value.weights.policyAdjustment
                 == PolicyAdjustmentOf(ctx.policyInputs.coverageType.value, ctx.policyInputs.addOns.GetOr([])).value
              && r.value.weights.discount
                 == DiscountsOf(ctx.policyInputs.coverageType.value, ctx.discountInputs.discounts.GetOr([]))
    ensures r.Success? ==>
              r.value.weights.driverRisk
              == DriverRisk(AccidentPoints(ctx.driverInputs.atFaultMajor as real, ctx.driverInputs.atFaultMinor as real,
                                           ctx.driverInputs.noFault as real, ctx.driverInputs.hitNRuns as real,
                                           ctx.driverInputs.duis as real),
                            ViolationPoints(ctx.driverInputs.violations as real),
                            ctx.driverInputs.yearsClean as real, ctx.driverInputs.age)
    ensures r.Success? ==>
              r.value.weights.locationRisk
              == LocationRisk(AccidentPoints(ctx.driverInputs.atFaultMajor as real, ctx.driverInputs.atFaultMinor as real,
                                             ctx.driverInputs.noFault as real, ctx.driverInputs.hitNRuns as real,
                                             ctx.driverInputs.duis as real),
                              CrimeScore(ctx.locationInputs.crimeLevelFactor as real,
                                         ctx.locationInputs.antiTheftAdjustment as real))
    ensures r.Success? ==>
              r.value.scores.repairScore
              == RepairScore(ctx.vehicleInputs.brandTypeScore as real, ctx.vehicleInputs.repairComplexityScore as real,
                             ctx.vehicleInputs.partsScore as real, ctx.vehicleInputs.vehicleAge as real)
    ensures r.Success? ==>
              r.value.scores.theftScore
              == TheftScore(ctx.vehicleInputs.theftScore as real, r.value.weights.locationRisk,
                            ctx.vehicleInputs.antiTheftFeatureScore as real)
    ensures r.Success? ==>
              r.value.scores.safetyScore
              == SafetyScore(ctx.vehicleInputs.crashTestRating as real, ctx.vehicleInputs.activeSafetyFeatures as real,
                             ctx.vehicleInputs.passiveSafetyFeatures as real)
    ensures r.Success? ==>
              r.value.weights.vehicleRisk
              == VehicleRisk(r.value.scores.repairScore, r.value.scores.theftScore, r.value.scores.safetyScore)
  {
    var d, v, l := ctx.driverInputs, ctx.vehicleInputs, ctx.locationInputs;
    var accidentPoints := AccidentPoints(d.atFaultMajor as real, d.atFaultMinor as real,
                                         d.noFault as real, d.hitNRuns as real, d.duis as real);
    var violationPoints := ViolationPoints(d.violations as real);
    var dr := DriverRisk(accidentPoints, violationPoints, d.yearsClean as real, d.age);
    var crimeScore := CrimeScore(l.crimeLevelFactor as real, l.antiTheftAdjustment as real);
    var lr := LocationRisk(accidentPoints, crimeScore);
    var repairScore := RepairScore(v.brandTypeScore as real, v.repairComplexityScore as real,
                                   v.partsScore as real, v.vehicleAge as real);
    var theftScore := TheftScore(v.theftScore as real, lr, v.antiTheftFeatureScore as real);
    var safetyScore := SafetyScore(v.crashTestRating as real, v.activeSafetyFeatures as real,
                                   v.passiveSafetyFeatures as real);
    var vr := VehicleRisk(repairScore, theftScore, safetyScore);
    match ctx.policyInputs.coverageType
    case None => Failure(InvalidPolicyType)
    case Some(coverage) =>
      match PolicyAdjustmentOf(coverage, ctx.policyInputs.addOns.GetOr([]))
      case Failure(e) => Failure(e)
      case Success(pa) =>
        var dd := DiscountsOf(coverage, ctx.discountInputs.discounts.GetOr([]));
        Success(Assemble(dr, vr, lr, pa, dd, QuoteScores(repairScore, theftScore, safetyScore)))
  }

  /** The inputs as constructed with no arguments carry no coverage type, so
      the policy resolver rejects them and no quote is produced. */
  lemma DefaultInputsHaveNoQuote()
    ensures Quote(DEFAULT_QUOTE_INPUTS) == Failure(InvalidPolicyType)
  {
  }

  /** Computes the quote step by step: scores and multipliers, location risk
      before the theft score that uses it, then the two resolvers, the gross
      quote, the discount and the net quote. */
  method CalculateQuote(ctx: QuoteInputs) returns (r: Result<QuoteResult, QuoteError>)
    ensures r == Quote(ctx)
  {
    var driverInputs, vehicleInputs, locationInputs := ctx.driverInputs, ctx.vehicleInputs, ctx.locationInputs;
    var policyInputs, discountsInputs := ctx.policyInputs, ctx.discountInputs;
    var accidentPoints := AccidentPoints(
      driverInputs.atFaultMajor as real, driverInputs.atFaultMinor as real,
      driverInputs.noFault as real, driverInputs.hitNRuns as real, driverInputs.duis as real);
    var violationPoints := ViolationPoints(driverInputs.violations as real);
    var dr := DriverRisk(accidentPoints, violationPoints, driverInputs.yearsClean as real, driverInputs.age);
    var crimeScore := CrimeScore(locationInputs.crimeLevelFactor as real, locationInputs.antiTheftAdjustment as real);
    var lr := LocationRisk(accidentPoints, crimeScore);
    var repairScore := RepairScore(
      vehicleInputs.brandTypeScore as real, vehicleInputs.repairComplexityScore as real,
      vehicleInputs.partsScore as real, vehicleInputs.vehicleAge as real);
    var theftScore := TheftScore(vehicleInputs.theftScore as real, lr, vehicleInputs.antiTheftFeatureScore as real);
    var safetyScore := SafetyScore(
      vehicleInputs.crashTestRating as real, vehicleInputs.activeSafetyFeatures as real,
      vehicleInputs.passiveSafetyFeatures as real);
    var vr := VehicleRisk(repairScore, theftScore, safetyScore);

    if policyInputs.coverageType.None? {
      return Failure(InvalidPolicyType);
    }
    var coverage := policyInputs.coverageType.value;
    var policyAdjustment := CalcPolicyAdjustment(coverage, policyInputs.addOns.GetOr([]));
    if policyAdjustment.Failure? {
      return Failure(policyAdjustment.error);
    }
    var pa := policyAdjustment.value;
    var dd := CalcDiscounts(coverage, discountsInputs.discounts.GetOr([]));
    return Success(Assemble(dr, vr, lr, pa, dd, QuoteScores(repairScore, theftScore, safetyScore)));
  }

  /** When the discount keys repeat none, the net quote has the sign of the
      gross quote: the discount fraction lies in [0, 1). */
  lemma NetQuoteKeepsSign(ctx: QuoteInputs)
    requires ctx.policyInputs.coverageType.Some? && ctx.policyInputs.coverageType.value in POLICY_ADD_ON_MAP
    requires Distinct(ctx.discountInputs.discounts.GetOr([]))
    ensures var q := Quote(ctx).value;
            && 0.0 <= q.weights.discount < 1.0
            && (q.originalQuote > 0.0 ==> 0.0 < q.quote <= q.originalQuote)
            && (q.originalQuote < 0.0 ==> q.originalQuote <= q.quote < 0.0)
            && (q.originalQuote == 0.0 ==> q.quote == 0.0)
  {
    var r := Quote(ctx);
    DiscountsBelowWhole(ctx.policyInputs.coverageType.value, ctx.discountInputs.discounts.GetOr([]));
    AssembledKeepsSign(r.value);
  }

  lemma AssembledKeepsSign(q: QuoteResult)
    requires 0.0 <= q.weights.discount < 1.0
    requires var w := q.weights;
             q == Assemble(w.driverRisk, w.vehicleRisk, w.locationRisk, w.policyAdjustment, w.discount, q.scores)
    ensures q.originalQuote > 0.0 ==> 0.0 < q.quote <= q.originalQuote
    ensures q.originalQuote < 0.0 ==> q.originalQuote <= q.quote < 0.0
    ensures q.originalQuote == 0.0 ==> q.quote == 0.0
  {
    var w := q.weights;
    var a := Assemble(w.driverRisk, w.vehicleRisk, w.locationRisk, w.policyAdjustment, w.discount, q.scores);
    assert a.quote == a.originalQuote * (1.0 - w.discount);
    ScaleKeepsSign(q.originalQuote, 1.0 - w.discount, q.quote);
  }

  lemma ScaleKeepsSign(x: real, f: real, y: real)
    requires 0.0 < f <= 1.0
    requires y == x * f
    ensures x > 0.0 ==> 0.0 < y <= x
    ensures x < 0.0 ==> x <= y < 0.0
    ensures x == 0.0 ==> y == 0.0
  {
    if x > 0.0 {
      assert x * f <= x * 1.0;
    } else if x < 0.0 {
      assert x * f >= x * 1.0;
    }
  }
}
