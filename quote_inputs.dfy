/** The records a quote is computed from, with the defaults their Python
    constructors give, and the builder that turns eligibility flags into a
    list of discount keys (inputs/quote_inputs.py). */
module Inputs {
  import opened Outcomes
  import opened DiscountWeights
  import opened WeightSums

  /** The "not filled in" value the numeric fields default to. */
  const UNSET: int := -1

  datatype DriverInputs = DriverInputs(
    atFaultMajor: int, atFaultMinor: int, noFault: int, hitNRuns: int,
    duis: int, age: int, yearsClean: int, violations: int)

  datatype VehicleInputs = VehicleInputs(
    brandTypeScore: int, repairComplexityScore: int, partsScore: int,
    vehicleAge: int, theftScore: int, antiTheftFeatureScore: int,
    crashTestRating: int, activeSafetyFeatures: int, passiveSafetyFeatures: int)

  datatype LocationInputs = LocationInputs(crimeLevelFactor: int, antiTheftAdjustment: int)

  /** Coverage type and add-ons; both default to `None`. */
  datatype PolicyInputs = PolicyInputs(coverageType: Option<string>, addOns: Option<seq<string>>)

  /** The discount keys; default `None`. */
  datatype DiscountsInputs = DiscountsInputs(discounts: Option<seq<string>>)

  datatype QuoteInputs = QuoteInputs(
    driverInputs: DriverInputs, vehicleInputs: VehicleInputs,
    locationInputs: LocationInputs, policyInputs: PolicyInputs,
    discountInputs: DiscountsInputs)

  // What the constructors called without arguments produce.
  const DEFAULT_DRIVER_INPUTS: DriverInputs :=
    DriverInputs(UNSET, UNSET, UNSET, UNSET, UNSET, UNSET, 1, UNSET)
  const DEFAULT_VEHICLE_INPUTS: VehicleInputs :=
    VehicleInputs(UNSET, UNSET, UNSET, UNSET, UNSET, UNSET, UNSET, UNSET, UNSET)
  const DEFAULT_LOCATION_INPUTS: LocationInputs := LocationInputs(UNSET, UNSET)
  const DEFAULT_POLICY_INPUTS: PolicyInputs := PolicyInputs(None, None)
  const DEFAULT_DISCOUNTS_INPUTS: DiscountsInputs := DiscountsInputs(None)
  const DEFAULT_QUOTE_INPUTS: QuoteInputs := QuoteInputs(
    DEFAULT_DRIVER_INPUTS, DEFAULT_VEHICLE_INPUTS, DEFAULT_LOCATION_INPUTS,
    DEFAULT_POLICY_INPUTS, DEFAULT_DISCOUNTS_INPUTS)

  /** Every driver field except years-clean (which defaults to 1) defaults to
      the unset marker; every vehicle and location field does; the policy and
      discount fields default to `None`. */
  lemma DefaultsAreUnset()
    ensures var d := DEFAULT_DRIVER_INPUTS;
            d.atFaultMajor == d.atFaultMinor == d.noFault == d.hitNRuns
            == d.duis == d.age == d.violations == UNSET && d.yearsClean == 1
    ensures var v := DEFAULT_VEHICLE_INPUTS;
            v.brandTypeScore == v.repairComplexityScore == v.partsScore == v.vehicleAge
            == v.theftScore == v.antiTheftFeatureScore == v.crashTestRating
            == v.activeSafetyFeatures == v.passiveSafetyFeatures == UNSET
    ensures DEFAULT_LOCATION_INPUTS.crimeLevelFactor == DEFAULT_LOCATION_INPUTS.antiTheftAdjustment == UNSET
    ensures DEFAULT_POLICY_INPUTS.coverageType.None? && DEFAULT_POLICY_INPUTS.addOns.None?
    ensures DEFAULT_DISCOUNTS_INPUTS.discounts.None?
  {
  }

  /** Position of a discount key in the order the builder emits keys. */
  function DiscountRank(key: string): (n: nat)
    ensures n < 4 <==> key in {MULTI_POLICY, SAFE_DRIVER, LOW_MILEAGE, ANTI_THEFT}
  {
    if key == MULTI_POLICY then 0
    else if key == SAFE_DRIVER then 1
    else if key == LOW_MILEAGE then 2
    else if key == ANTI_THEFT then 3
    else 4
  }

  /** Whether the flags make a key eligible. */
  predicate Eligible(key: string, multiPolicy: bool, safeDriver: bool, lowMileage: bool, antiTheft: bool) {
    || (key == MULTI_POLICY && multiPolicy)
    || (key == SAFE_DRIVER && safeDriver)
    || (key == LOW_MILEAGE && lowMileage)
    || (key == ANTI_THEFT && antiTheft)
  }

  function Count(b: bool): nat { if b then 1 else 0 }

  /** The discount keys the flags make eligible: each key whose flag is set,
      once, in the order multi-policy, safe-driver, low-mileage, anti-theft. */
  method GetDiscounts(multiPolicy: bool, safeDriver: bool, lowMileage: bool, antiTheft: bool)
    returns (discounts: seq<string>)
    ensures forall k :: k in discounts <==> Eligible(k, multiPolicy, safeDriver, lowMileage, antiTheft)
    ensures forall i, j :: 0 <= i < j < |discounts| ==> DiscountRank(discounts[i]) < DiscountRank(discounts[j])
    ensures |discounts| == Count(multiPolicy) + Count(safeDriver) + Count(lowMileage) + Count(antiTheft) <= 4
    ensures Distinct(discounts)
  {
    discounts := [];
    if multiPolicy {
      discounts := discounts + [MULTI_POLICY];
    }
    if safeDriver {
      discounts := discounts + [SAFE_DRIVER];
    }
    if lowMileage {
      discounts := discounts + [LOW_MILEAGE];
    }
    if antiTheft {
      discounts := discounts + [ANTI_THEFT];
    }
    RankOrderedIsDistinct(discounts);
  }

  /** A list in strictly increasing key order, such as the builder returns,
      repeats no key, so the discount resolver takes each of its keys once. */
  lemma RankOrderedIsDistinct(keys: seq<string>)
    requires forall i, j :: 0 <= i < j < |keys| ==> DiscountRank(keys[i]) < DiscountRank(keys[j])
    ensures Distinct(keys)
  {
  }
}
