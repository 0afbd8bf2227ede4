# Insurance quote pipeline — a Dafny model

This project models the deterministic quote pipeline of the insurance-quote
algorithm repository and proves properties of it. A quote is built in five
stages:

- **Leaf scorers.** Accident points, violation points, crime, repair, theft
  and safety scores are weighted sums of the raw inputs.
- **Risk multipliers.** Driver, vehicle and location risk are each anchored
  at 1.
- **Policy resolver.** Looks up the coverage type's base weight and add-on
  weights in a static table.
- **Discount resolver.** Looks up the coverage type's discount fractions in
  a second table.
- **Composer.** Gross quote = 320 × driver risk × vehicle risk × location
  risk × policy adjustment. The discount amount is gross × discount fraction.
  The net quote is gross minus that amount.

The model also covers:

- the input records and their defaults;
- the builder that turns four eligibility flags into a list of discount keys;
- the earlier stand-alone version of the formulas, which uses base rate 500
  and a placeholder discount of 1.

Every quantity is an exact Dafny `real`. The equalities proved are exact
rational equalities. They say nothing about floating-point results.

Modules, one per source file:

| module | file | source |
|---|---|---|
| `Outcomes` | outcomes.dfy | `Option`/`Result`, standing in for `None` and for the exception the policy resolver raises |
| `WeightSums` | weight_sums.dfy | the running total both resolvers accumulate, and the total of a whole table |
| `PolicyWeights` | policy_weights.dfy | weights/policy_weights.py |
| `DiscountWeights` | discount_weights.dfy | weights/discount_weights.py |
| `Inputs` | quote_inputs.dfy | inputs/quote_inputs.py |
| `InsuranceQuote` | insurance_quote.dfy | insurance_quote.py |
| `QuoteScenario` | quote_scenario.dfy | the reference inputs of test.py, as worked examples |
| `LegacyQuote` | legacy_quote.dfy | insurance_qoute.py |

## How the source's behaviour is represented

- **Coverage types, add-on keys and discount keys** are strings.
- **Tables** are `map` constants. An unknown key is still a legal input.
- **Resolver loops.** The two loops in the source are methods,
  `CalcPolicyAdjustment` and `CalcDiscounts`. Each method is proved equal to
  a recursive specification function, `PolicyAdjustmentOf` and
  `DiscountsOf`. The properties are proved about those functions.
- **Policy resolver, unknown coverage type.** The source reads `["weight"]`
  from `None` outside the `try`, so the call raises. The model returns
  `Failure(InvalidPolicyType)`, and the whole quote fails with it.
- **Policy resolver, weight of −1.** The resolver returns the sentinel −1.
  That value flows on into the quote.
- **Policy resolver, unknown add-on.** A single `try` wraps the whole loop.
  The first unknown add-on therefore ends the accumulation. The add-on
  weights before it are kept, and the later add-ons are ignored.
- **Discount resolver.** An unknown coverage type gives 0. An unknown
  discount key is skipped, and the keys after it still count.
- **`None` for add-ons or discounts.** Iterating over `None` raises inside
  the `try`. The source then returns what an empty list gives: the base
  weight, or a discount fraction of 0. The model resolves `None` as `[]`.
- **Composer.** `CalculateQuote` is proved equal to the function `Quote`.
  Location risk is computed before the theft score, which consumes it.

## Behaviour worth noting

- An unknown add-on ends the add-on loop of `calc_policy_adjustment`
  (insurance_quote.py:181-186). The add-ons after it are ignored, so the
  order of the `add_ons` list matters (`PolicyAdjustmentStopsAtFirstUnknown`).
- An unknown or `None` coverage type makes the policy resolver raise at
  insurance_quote.py:175 (`None["weight"]`). The model returns a `Failure`
  there, so the inputs built with no arguments produce no quote
  (`DefaultInputsHaveNoQuote`).
- The discount fractions are the values 0.12 and 0.03, not the 15% and 7%
  in the comments beside them.

The years-clean term of driver risk is reproduced literally:
`-(0.01 * -(years_clean * 0.01))`. Each clean year therefore raises driver
risk by 0.0001 (`DriverRisk`, `YearsCleanRaisesDriverRisk`).

## Model

| member | source | states |
|---|---|---|
| `InsuranceQuote.ViolationPoints` | insurance_quote.py:19-29 | exactly 0.005 for no violations, at least 0.005 for any non-negative count |
| `InsuranceQuote.TheftScore` | insurance_quote.py:32-44 | the theft score is at least the location risk exactly when the theft rate is at least the anti-theft score |
| `InsuranceQuote.RepairScore` | insurance_quote.py:47-60 | non-negative for non-negative scores and vehicle age (age halved by true division) |
| `InsuranceQuote.SafetyScore` | insurance_quote.py:63-75 | at least the crash-test rating when the feature counts are non-negative |
| `InsuranceQuote.AccidentPoints` | insurance_quote.py:78-92 | non-negative when every count is non-negative |
| `InsuranceQuote.AccidentPointsMonotone` | insurance_quote.py:92 | accident points never decrease when any count grows |
| `InsuranceQuote.CrimeScore` | insurance_quote.py:95-106 | negative exactly when the anti-theft adjustment exceeds the crime level, zero exactly when they are equal |
| `InsuranceQuote.DriverRisk` | insurance_quote.py:119-140 | equals 1 + 0.02·accident + 0.015·violation + 0.0001·yearsClean + age surcharge (the double negation resolved); equals 1 at zero scores, zero years clean and an age in [25, 65) |
| `InsuranceQuote.AgeBandBoundaries` | insurance_quote.py:132-137 | age 24 carries +0.15 over age 25, age 64 carries nothing extra, age 65 carries +0.10 |
| `InsuranceQuote.YearsCleanRaisesDriverRisk` | insurance_quote.py:139-140 | more clean years strictly raise driver risk |
| `InsuranceQuote.VehicleRisk` | insurance_quote.py:143-155 | above 1 exactly when repair + theft exceed safety; equal to 1 exactly when they balance |
| `InsuranceQuote.LocationRisk` | insurance_quote.py:158-169 | below 1 exactly when 0.02·accident + 0.025·crime is negative (no clamping); 1 at zero scores |
| `InsuranceQuote.KnownPrefixLength` | insurance_quote.py:181-186 | the index of the first add-on missing from the table (or the length): every add-on before it is in the table |
| `InsuranceQuote.PolicyAdjustmentOf` | insurance_quote.py:172-188 | fails exactly for a coverage type missing from the table; otherwise at least the base weight |
| `InsuranceQuote.CalcPolicyAdjustment` | insurance_quote.py:172-188 | the loop that stops at the first unknown add-on computes `PolicyAdjustmentOf` |
| `InsuranceQuote.PolicyAdjustmentAllKnown` | insurance_quote.py:181-188 | with every add-on supported, the result is the base weight plus the sum of all add-on weights |
| `InsuranceQuote.PolicyAdjustmentStopsAtFirstUnknown` | insurance_quote.py:181-186 | known ++ [unknown] ++ rest resolves exactly as known: the partial sum is kept and later add-ons are ignored |
| `InsuranceQuote.PolicyAdjustmentMaximum` | weights/policy_weights.py:22-46 | without repeated add-ons, the result is at most the base weight plus the coverage's add-on total and never above 1.85; full coverage with all four add-ons reaches 1.85 |
| `WeightSums.KnownSum` | insurance_quote.py:209-214 | the running total over a key list is non-negative when the table's weights are |
| `WeightSums.KnownSumAppend` | insurance_quote.py:209-214 | the total over a concatenation is the sum of the totals |
| `WeightSums.KnownSumAtMostTotal` | insurance_quote.py:209-212 | a key list without repeats accumulates at most the table's total |
| `InsuranceQuote.DiscountsOf` | insurance_quote.py:190-219 | non-negative; 0 for a coverage type without a discount table |
| `InsuranceQuote.CalcDiscounts` | insurance_quote.py:190-219 | the loop that skips unknown keys computes `DiscountsOf` |
| `InsuranceQuote.DiscountsSkipUnknown` | insurance_quote.py:209-214 | an unoffered key changes nothing and later keys still count; the fraction is additive over concatenation |
| `InsuranceQuote.DiscountsBelowWhole` | insurance_quote.py:209-212 | without repeated keys the fraction is at most the coverage's maximum (0.15, 0.25, 0.17), hence below 1 |
| `InsuranceQuote.RepeatedDiscountsExceedWhole` | insurance_quote.py:209-212 | a repeated key counts every time: nine safe-driver keys under full coverage give 1.08 |
| `InsuranceQuote.Assemble` | insurance_quote.py:299-323 | gross = base rate × the three multipliers × policy adjustment; discount = gross × fraction; net = gross × (1 − fraction); the base rate is 320 |
| `InsuranceQuote.Quote` | insurance_quote.py:222-323 | succeeds exactly when the coverage type is present and in the policy table; driver risk comes from the accident points, violation points, years clean and age of the driver inputs; location risk comes from the accident points and the crime score; the repair, theft and safety scores come from the vehicle inputs, and the theft score is built on the location risk; vehicle risk is built from those three scores; the policy adjustment and discount come from the two resolvers; gross, discount and net are consistent under `Assemble` |
| `InsuranceQuote.DefaultInputsHaveNoQuote` | insurance_quote.py:172-175 | the inputs built with no arguments have no coverage type, so the quote fails with an invalid policy type |
| `InsuranceQuote.CalculateQuote` | insurance_quote.py:222-323 | the step-by-step composition, calling the two resolver loops, computes `Quote` |
| `InsuranceQuote.NetQuoteKeepsSign` | insurance_quote.py:299-301 | without repeated discount keys, the fraction lies in [0, 1) and the net quote keeps the sign of the gross quote and never exceeds it in size |
| `PolicyWeights.PolicyTableEntries` | weights/policy_weights.py:21-46 | exactly the three coverage types, base weights 1.0, 1.5 and 1.2; none is the −1 sentinel |
| `PolicyWeights.AddOnTableEntries` | weights/policy_weights.py:12-46 | the add-ons each coverage supports, each weighted by its own positive constant |
| `PolicyWeights.AddOnWeight` | weights/policy_weights.py:6-16 | positive exactly for the four add-on keys |
| `PolicyWeights.AddOnTableTotals` | weights/policy_weights.py:22-46 | the supported add-ons total 0.3, 0.35 and 0.15 |
| `DiscountWeights.DiscountFraction` | weights/discount_weights.py:5-16 | positive (and at most 0.12) exactly for the four discount keys |
| `DiscountWeights.DiscountTableEntries` | weights/discount_weights.py:19-34 | exactly the three coverage types, each with the keys it offers, each fraction positive and equal to its constant |
| `DiscountWeights.MaxDiscount` | weights/discount_weights.py:20-34 | each coverage's table total (0.15, 0.25, 0.17), below 1 |
| `DiscountWeights.DiscountTableTotals` | weights/discount_weights.py:20-34 | the offered discounts total 0.15, 0.25 and 0.17 |
| `Inputs.DefaultsAreUnset` | inputs/quote_inputs.py:20-56 | driver fields default to −1 except years clean (1); vehicle and location fields default to −1; policy and discount fields default to `None` |
| `Inputs.DiscountRank` | inputs/quote_inputs.py:77-88 | ranks below 4 exactly for the four discount keys |
| `Inputs.GetDiscounts` | inputs/quote_inputs.py:60-88 | a key is in the list exactly when its flag is set; keys come in the fixed order multi-policy, safe-driver, low-mileage, anti-theft; the length is the number of set flags (at most 4); the list repeats no key, so the discount bound of `NetQuoteKeepsSign` applies to it |
| `Inputs.RankOrderedIsDistinct` | inputs/quote_inputs.py:77-88 | a list in that order repeats no key |
| `QuoteScenario.PolicyAdjustmentExample` | test.py:41-44 | full coverage with roadside and rental gives 1.75 |
| `QuoteScenario.DiscountExamples` | test.py:46-49 | full coverage with multi-policy, safe-driver and anti-theft gives 0.25; liability with safe-driver gives 0 |
| `QuoteScenario.TestDiscountKeys` | test.py:46-49 | the builder's contract forces the list [multi_policy, safe_driver, anti_theft] for the test flags |
| `QuoteScenario.TestScenarioQuote` | test.py:13-51 | the reference quote: multipliers 1.260725, 1.0966 and 1.16, adjustment 1.75, discount 0.25, scores 16.5, 4.16 and 11; gross 898.079168336, discount 224.519792084, net 673.559376252 |
| `QuoteScenario.RunTestQuote` | test.py:11-62 | building the discount list from the flags and running the composer gives that net and gross quote |
| `LegacyQuote.LegacyFormulasAgree` | insurance_qoute.py:21-171 | every legacy scorer and multiplier equals its table-driven counterpart on every input |
| `LegacyQuote.LegacyMain` | insurance_qoute.py:185-236 | base rate 500, discount multiplier 1, quote = 500 × driver × vehicle × location risk |
| `LegacyQuote.LegacyMultipliersAgree` | insurance_qoute.py:189-230 | on any inputs the table-driven pipeline quotes, the legacy script finds the same three multipliers |
| `LegacyQuote.LegacySample` | insurance_qoute.py:189-236 | the script's sample gives driver risk 1.260725, location risk 1.16, vehicle risk 1.0966 and quote 801.8564003 |
| `LegacyQuote.LegacySampleMatchesTestScenario` | insurance_qoute.py:189-230 | the script's sample equals the test driver's inputs and gives the same three multipliers as the reference quote |

## Left out

- Logging. Every `LOGGER` call is left out, including the mis-formatted
  error call in the add-on loop. Log output does not change any value.
- The default-value audit (`check_defaults` in default_checker.py). It only
  logs warnings. default_checker.py is not part of this model.
- The command-line entry point and logger set-up (main.py, logger.py). They
  are I/O plumbing and not part of this model.
- The test driver (test.py). Its inputs appear only as the worked examples
  in `QuoteScenario`.
- inputs/general_inputs.py. It is unused by the pipeline and not part of
  this model.
- Floating-point rounding. Quantities are exact reals, so the model claims
  exact rational results, not IEEE ones.
- Python's dynamic typing. Numeric inputs are integers, as the type hints
  say. Coverage types and keys are strings. `None` is modelled for the
  coverage type, the add-ons and the discounts. Other values that are not
  lists, and unhashable keys, are not modelled.
- The legacy script's `__main__` block is modelled as the function
  `LegacyMain`, applied to the script's literal values (`LegacySample`).
  Its log lines are left out.
- The exact product identity relating the legacy quote to the table-driven
  gross quote (500 against 320, and no policy adjustment) is not proved. The
  model proves that the three multipliers agree on every input, and that
  each quote is its base rate times its factors.
