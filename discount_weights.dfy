/** The discount keys, their fractions, and the static table of the
    discounts each coverage type offers (weights/discount_weights.py). */
module DiscountWeights {
  import opened WeightSums
  import opened PolicyWeights

  // Discount keys.
  const MULTI_POLICY: string := "multi_policy"
  const SAFE_DRIVER: string := "safe_driver"
  const LOW_MILEAGE: string := "low_mileage"
  const ANTI_THEFT: string := "anti_theft"

  // Discount fractions (the values, not the percentages the source's
  // comments give for two of them).
  const MULTI_POLICY_FRACTION: real := 0.1
  const SAFE_DRIVER_FRACTION: real := 0.12
  const LOW_MILEAGE_FRACTION: real := 0.05
  const ANTI_THEFT_FRACTION: real := 0.03

  const POLICY_DISCOUNT_MAP: map<string, map<string, real>> := map[
    LIABILITY := map[
      MULTI_POLICY := MULTI_POLICY_FRACTION,
      LOW_MILEAGE := LOW_MILEAGE_FRACTION],
    FULL_COVERAGE := map[
      MULTI_POLICY := MULTI_POLICY_FRACTION,
      SAFE_DRIVER := SAFE_DRIVER_FRACTION,
      ANTI_THEFT := ANTI_THEFT_FRACTION],
    COLLISION_ONLY := map[
      SAFE_DRIVER := SAFE_DRIVER_FRACTION,
      LOW_MILEAGE := LOW_MILEAGE_FRACTION]
  ]

  /** The fraction constant that belongs to a discount key (0 for any other key). */
  function DiscountFraction(key: string): (f: real)
    ensures 0.0 <= f <= 0.12
    ensures f > 0.0 <==> key in {MULTI_POLICY, SAFE_DRIVER, LOW_MILEAGE, ANTI_THEFT}
  {
    if key == MULTI_POLICY then MULTI_POLICY_FRACTION
    else if key == SAFE_DRIVER then SAFE_DRIVER_FRACTION
    else if key == LOW_MILEAGE then LOW_MILEAGE_FRACTION
    else if key == ANTI_THEFT then ANTI_THEFT_FRACTION
    else 0.0
  }

  /** Every coverage type has exactly one discount sub-table: liability
      offers multi-policy and low-mileage, full coverage multi-policy,
      safe-driver and anti-theft, collision only safe-driver and low-mileage.
      Each offered key carries its own positive fraction. */
  lemma DiscountTableEntries()
    ensures POLICY_DISCOUNT_MAP.Keys == {LIABILITY, FULL_COVERAGE, COLLISION_ONLY}
    ensures POLICY_DISCOUNT_MAP[LIABILITY].Keys == {MULTI_POLICY, LOW_MILEAGE}
    ensures POLICY_DISCOUNT_MAP[FULL_COVERAGE].Keys == {MULTI_POLICY, SAFE_DRIVER, ANTI_THEFT}
    ensures POLICY_DISCOUNT_MAP[COLLISION_ONLY].Keys == {SAFE_DRIVER, LOW_MILEAGE}
    ensures forall c, k :: c in POLICY_DISCOUNT_MAP && k in POLICY_DISCOUNT_MAP[c] ==>
              POLICY_DISCOUNT_MAP[c][k] == DiscountFraction(k) > 0.0
  {
  }

  /** The largest discount a coverage type offers, taking each of its keys
      once: 0.15 for liability, 0.25 for full coverage, 0.17 for collision
      only, and nothing for a coverage type without a sub-table. */
  function MaxDiscount(coverage: string): (m: real)
    ensures 0.0 <= m < 1.0
    ensures coverage in POLICY_DISCOUNT_MAP ==> m == MapTotal(POLICY_DISCOUNT_MAP[coverage])
  {
    DiscountTableTotals();
    if coverage == LIABILITY then 0.15
    else if coverage == FULL_COVERAGE then 0.25
    else if coverage == COLLISION_ONLY then 0.17
    else 0.0
  }

  lemma DiscountTableTotals()
    ensures MapTotal(POLICY_DISCOUNT_MAP[LIABILITY]) == 0.15
    ensures MapTotal(POLICY_DISCOUNT_MAP[FULL_COVERAGE]) == 0.25
    ensures MapTotal(POLICY_DISCOUNT_MAP[COLLISION_ONLY]) == 0.17
  {
    var l := POLICY_DISCOUNT_MAP[LIABILITY];
    MapTotalRemove(l, MULTI_POLICY);
    MapTotalRemove(l - {MULTI_POLICY}, LOW_MILEAGE);
    assert l - {MULTI_POLICY} - {LOW_MILEAGE} == map[];

    var f := POLICY_DISCOUNT_MAP[FULL_COVERAGE];
    MapTotalRemove(f, MULTI_POLICY);
    MapTotalRemove(f - {MULTI_POLICY}, SAFE_DRIVER);
    MapTotalRemove(f - {MULTI_POLICY} - {SAFE_DRIVER}, ANTI_THEFT);
    assert f - {MULTI_POLICY} - {SAFE_DRIVER} - {ANTI_THEFT} == map[];

    var c := POLICY_DISCOUNT_MAP[COLLISION_ONLY];
    MapTotalRemove(c, SAFE_DRIVER);
    MapTotalRemove(c - {SAFE_DRIVER}, LOW_MILEAGE);
    assert c - {SAFE_DRIVER} - {LOW_MILEAGE} == map[];
  }
}
