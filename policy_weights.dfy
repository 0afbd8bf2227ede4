/** The coverage types, the add-on keys with their weights, and the static
    table giving each coverage type its base weight and the add-ons it
    supports (weights/policy_weights.py). */
module PolicyWeights {
  import opened WeightSums

  // Coverage types.
  const LIABILITY: string := "liability"
  const FULL_COVERAGE: string := "full_coverage"
  const COLLISION_ONLY: string := "collision_only"

  // Add-on keys.
  const ROADSIDE_ASSISTANCE: string := "roadside_assistance"
  const RENTAL_REIMBURSEMENT: string := "rental_reimbursement"
  const GLASS_COVERAGE: string := "glass_coverage"
  const GAP_COVERAGE: string := "gap_coverage"

  // Add-on weights.
  const ROADSIDE_ASSISTANCE_WEIGHT: real := 0.15
  const RENTAL_REIMBURSEMENT_WEIGHT: real := 0.1
  const GLASS_COVERAGE_WEIGHT: real := 0.05
  const GAP_COVERAGE_WEIGHT: real := 0.05

  /** One coverage type's entry: its base weight (the `"weight"` field) and
      the add-ons it supports with their weights (the `"add_ons"` field). */
  datatype PolicyEntry = PolicyEntry(weight: real, addOns: map<string, real>)

  /** The weight the resolver treats as "no valid weight". */
  const INVALID_WEIGHT: real := -1.0

  const POLICY_ADD_ON_MAP: map<string, PolicyEntry> := map[
    LIABILITY := PolicyEntry(1.0, map[
      ROADSIDE_ASSISTANCE := ROADSIDE_ASSISTANCE_WEIGHT,
      RENTAL_REIMBURSEMENT := RENTAL_REIMBURSEMENT_WEIGHT,
      GLASS_COVERAGE := GLASS_COVERAGE_WEIGHT]),
    FULL_COVERAGE := PolicyEntry(1.5, map[
      ROADSIDE_ASSISTANCE := ROADSIDE_ASSISTANCE_WEIGHT,
      RENTAL_REIMBURSEMENT := RENTAL_REIMBURSEMENT_WEIGHT,
      GAP_COVERAGE := GAP_COVERAGE_WEIGHT,
      GLASS_COVERAGE := GLASS_COVERAGE_WEIGHT]),
    COLLISION_ONLY := PolicyEntry(1.2, map[
      RENTAL_REIMBURSEMENT := RENTAL_REIMBURSEMENT_WEIGHT,
      GLASS_COVERAGE := GLASS_COVERAGE_WEIGHT])
  ]

  /** Every coverage type has exactly one entry, with base weights 1.0, 1.5
      and 1.2; none is the invalid weight -1. */
  lemma PolicyTableEntries()
    ensures POLICY_ADD_ON_MAP.Keys == {LIABILITY, FULL_COVERAGE, COLLISION_ONLY}
    ensures POLICY_ADD_ON_MAP[LIABILITY].weight == 1.0
    ensures POLICY_ADD_ON_MAP[FULL_COVERAGE].weight == 1.5
    ensures POLICY_ADD_ON_MAP[COLLISION_ONLY].weight == 1.2
    ensures forall c :: c in POLICY_ADD_ON_MAP ==> POLICY_ADD_ON_MAP[c].weight >= 1.0 > INVALID_WEIGHT
  {
  }

  /** Liability supports roadside, rental and glass; full coverage all four
      add-ons; collision only rental and glass. Each supported add-on carries
      its own constant weight, and every weight is positive. */
  lemma AddOnTableEntries()
    ensures POLICY_ADD_ON_MAP[LIABILITY].addOns.Keys
            == {ROADSIDE_ASSISTANCE, RENTAL_REIMBURSEMENT, GLASS_COVERAGE}
    ensures POLICY_ADD_ON_MAP[FULL_COVERAGE].addOns.Keys
            == {ROADSIDE_ASSISTANCE, RENTAL_REIMBURSEMENT, GLASS_COVERAGE, GAP_COVERAGE}
    ensures POLICY_ADD_ON_MAP[COLLISION_ONLY].addOns.Keys
            == {RENTAL_REIMBURSEMENT, GLASS_COVERAGE}
    ensures forall c, a :: c in POLICY_ADD_ON_MAP && a in POLICY_ADD_ON_MAP[c].addOns ==>
              POLICY_ADD_ON_MAP[c].addOns[a] == AddOnWeight(a) > 0.0
  {
  }

  /** The weight constant that belongs to an add-on key (0 for any other key). */
  function AddOnWeight(key: string): (w: real)
    ensures w >= 0.0
    ensures w > 0.0 <==> key in {ROADSIDE_ASSISTANCE, RENTAL_REIMBURSEMENT, GLASS_COVERAGE, GAP_COVERAGE}
  {
    if key == ROADSIDE_ASSISTANCE then ROADSIDE_ASSISTANCE_WEIGHT
    else if key == RENTAL_REIMBURSEMENT then RENTAL_REIMBURSEMENT_WEIGHT
    else if key == GLASS_COVERAGE then GLASS_COVERAGE_WEIGHT
    else if key == GAP_COVERAGE then GAP_COVERAGE_WEIGHT
    else 0.0
  }

  /** Together, the add-ons a coverage type supports weigh 0.3 (liability),
      0.35 (full coverage) and 0.15 (collision only). */
  lemma AddOnTableTotals()
    ensures MapTotal(POLICY_ADD_ON_MAP[LIABILITY].addOns) == 0.3
    ensures MapTotal(POLICY_ADD_ON_MAP[FULL_COVERAGE].addOns) == 0.35
    ensures MapTotal(POLICY_ADD_ON_MAP[COLLISION_ONLY].addOns) == 0.15
  {
    var l := POLICY_ADD_ON_MAP[LIABILITY].addOns;
    MapTotalRemove(l, ROADSIDE_ASSISTANCE);
    MapTotalRemove(l - {ROADSIDE_ASSISTANCE}, RENTAL_REIMBURSEMENT);
    MapTotalRemove(l - {ROADSIDE_ASSISTANCE} - {RENTAL_REIMBURSEMENT}, GLASS_COVERAGE);
    assert l - {ROADSIDE_ASSISTANCE} - {RENTAL_REIMBURSEMENT} - {GLASS_COVERAGE} == map[];

    var f := POLICY_ADD_ON_MAP[FULL_COVERAGE].addOns;
    MapTotalRemove(f, ROADSIDE_ASSISTANCE);
    MapTotalRemove(f - {ROADSIDE_ASSISTANCE}, RENTAL_REIMBURSEMENT);
    MapTotalRemove(f - {ROADSIDE_ASSISTANCE} - {RENTAL_REIMBURSEMENT}, GAP_COVERAGE);
    MapTotalRemove(f - {ROADSIDE_ASSISTANCE} - {RENTAL_REIMBURSEMENT} - {GAP_COVERAGE}, GLASS_COVERAGE);
    assert f - {ROADSIDE_ASSISTANCE} - {RENTAL_REIMBURSEMENT} - {GAP_COVERAGE} - {GLASS_COVERAGE} == map[];

    var c := POLICY_ADD_ON_MAP[COLLISION_ONLY].addOns;
    MapTotalRemove(c, RENTAL_REIMBURSEMENT);
    MapTotalRemove(c - {RENTAL_REIMBURSEMENT}, GLASS_COVERAGE);
    assert c - {RENTAL_REIMBURSEMENT} - {GLASS_COVERAGE} == map[];
  }
}
