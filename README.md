# ADU cost matcher in Dafny

A model of the budget allocator of the ADU (accessory dwelling unit) cost
matcher, together with the pieces around it, with proofs of what they
promise.

- **The allocator** (`calculateADUCost`). It takes a cost per square foot and
  an optional floor area.
  - It refuses a non-positive cost.
  - It budgets cost × area, using 800 sqft when the area is missing or zero.
  - It picks one of four finish tiers by fixed thresholds.
  - It splits the budget 38/33/10/12/7 into materials, labour, permits, site
    work and contingency.
  - It itemises each category. Materials are priced from a per-tier catalogue,
    plus 15% lumber and a residual `other` line clipped at zero.
  - It attaches the tier's recommendations and trade-offs.
- **The shared types**: the tier table and the input and output records.
- **The calculator store**: a class whose fields are the two inputs, the
  last breakdown, a loading flag and an error. Its actions are two setters,
  `calculate` and `reset`.
- **The legacy calculator**: 150 per sqft plus 5000 per bedroom, with
  ordered input checks.
- **The validator** `validateNumber`.

Modules and files:

| file | module | models |
|---|---|---|
| `wrappers.dfy` | `Wrappers` | `Option` (absent fields), `Result` (functions that throw) |
| `types.dfy` | `Types` | types/index.ts |
| `advice.dfy` | `Advice` | the advice lines of lib/calculator/cost-matcher.ts |
| `cost_matcher.dfy` | `CostMatcher` | lib/calculator/cost-matcher.ts |
| `store.dfy` | `Store` | lib/store.ts |
| `calculator.dfy` | `Calculator` | src/calculator/index.ts |
| `utils.dfy` | `Utils` | `validateNumber` of src/utils/index.ts |

Money, costs and areas are `real`, so the source's float arithmetic
becomes exact. Where the source's tests allow a rounding tolerance
(`< 1`, `toBeCloseTo`), the model proves an exact equation. JavaScript's
truthiness is written out where the source relies on it:

- `input.totalSqft || 800` keeps any non-zero area, including a negative one.
- `result.error || 'Failed to calculate cost'` falls back on an absent or
  empty message.

The allocator is split into two functions:

- `CostMatcher.CalculateADUCost` is the validation and the output record.
- `CostMatcher.Allocate` is the success path, for a cost and the area in effect.

`CalculateADUCost`'s contract says its data is exactly `Allocate`'s result.
Because of this, several properties of the success path are stated on
`Allocate` directly.

Each advice line is a named value (`Advice.AdviceLine`). `Advice.Text`
gives its wording, and `Advice.Texts` gives the wording of a list. The
breakdown carries the lines. `CostMatcher.GenerateRecommendations` and
`CostMatcher.GenerateTradeoffs` give the source's string lists.

## Model

| member | source | states |
|---|---|---|
| Types.CostTiers | types/index.ts:2-7 | the tier table as data: minimums 150, 180, 220 and 280, exclusive maxima 180, 220 and 280 and an unbounded luxury tier, labelled Basic to Luxury; every minimum is positive and every entry is labelled |
| Types.TiersContiguous | types/index.ts:3-6 | each tier's upper limit is the next tier's lower limit: 180, 220, 280 |
| Types.TiersWellFormed | types/index.ts:3-6 | every bounded tier has min < max, and exactly the luxury tier is unbounded |
| Types.TiersDistinct | types/index.ts:2-9 | the four finish levels map to four different table entries |
| Types.RangesDisjoint | types/index.ts:3-6 | no cost lies in two tiers' ranges |
| Advice.Text | lib/calculator/cost-matcher.ts:204-264 | the 36 advice strings as data, one per advice line, worded as in the source; it carries no contract of its own |
| Advice.Texts | lib/calculator/cost-matcher.ts:202-267 | the wording of an advice list has one string per line, in order, each the wording of its line |
| CostMatcher.MaterialPricing | lib/calculator/cost-matcher.ts:10-43 | every unit price and flat cost in the catalogue is positive |
| CostMatcher.AllocateBudget | lib/calculator/cost-matcher.ts:46-52 | the five category shares add up to the whole budget, and a positive budget gives every category a positive share |
| CostMatcher.DetermineFinishLevel | lib/calculator/cost-matcher.ts:63-68 | from the basic minimum up, the chosen tier's range holds the cost; the result is basic exactly when the cost is below the standard minimum |
| CostMatcher.DetermineFinishLevelExact | lib/calculator/cost-matcher.ts:63-68 | from the basic minimum up, a tier is chosen if and only if its range holds the cost |
| CostMatcher.BasicMinimumUnused | lib/calculator/cost-matcher.ts:63-67 | a cost below 150 lies in no tier's range and is still basic, so the basic minimum bounds nothing |
| CostMatcher.DetermineFinishLevelMonotone | lib/calculator/cost-matcher.ts:63-68 | a higher cost never selects a cheaper tier |
| CostMatcher.FinishLevelBoundaries | lib/calculator/cost-matcher.ts:63-68 | each boundary (180, 220, 280) belongs to the higher tier; 179 is basic, 100 and 160 basic, 250 premium, 300 and 500 luxury |
| CostMatcher.CalculateMaterialCosts | lib/calculator/cost-matcher.ts:80-159 | names and unit prices come from the tier's catalogue; flooring and roofing are price × area, countertops price × area/800 × 15, siding price × 1.2 × area; lumber is 15% of the six catalogue lines; `other` is never negative; the total is the sum of the eight lines, equals the larger of the allocation and the itemised cost, is at least the allocation, and equals it exactly when the itemised cost fits |
| CostMatcher.CalculateLaborCosts | lib/calculator/cost-matcher.ts:164-173 | the total is the allocation, the five trades take 30/20/20/15/15% of it and add up to it, and each is positive when the allocation is |
| CostMatcher.CalculatePermitCosts | lib/calculator/cost-matcher.ts:178-185 | the total is the allocation, building/electrical/plumbing take 50/25/25% and add up to it, each positive when the allocation is |
| CostMatcher.CalculateSiteWorkCosts | lib/calculator/cost-matcher.ts:190-197 | the total is the allocation, excavation/foundation/utilities take 35/40/25% and add up to it, each positive when the allocation is |
| CostMatcher.Recommendations | lib/calculator/cost-matcher.ts:202-234 | every tier has five recommendation lines |
| CostMatcher.Tradeoffs | lib/calculator/cost-matcher.ts:239-267 | every tier has four trade-off lines |
| CostMatcher.GenerateRecommendations | lib/calculator/cost-matcher.ts:202-234 | every tier has five recommendations |
| CostMatcher.GenerateTradeoffs | lib/calculator/cost-matcher.ts:239-267 | every tier has four trade-offs |
| CostMatcher.EffectiveSqft | lib/calculator/cost-matcher.ts:282 | the area in effect is never zero: the given area when present and non-zero, 800 otherwise |
| CostMatcher.Allocate | lib/calculator/cost-matcher.ts:282-319 | the cost is echoed; the budget is cost × area; the tier is the one for the cost; labour, permits, site work and contingency get exactly 33/10/12/7% of the budget, and each itemised one adds up to its total; materials get at least 38%; the five category totals never fall short of the budget and add up to it exactly when the itemised materials fit in the materials share; the advice is the tier's |
| CostMatcher.CalculateADUCost | lib/calculator/cost-matcher.ts:272-332 | exactly one of data and error is present, as `success` says; success holds exactly for a positive cost; a failure carries "Cost per sqft must be greater than 0"; a success carries the success-path breakdown for the area in effect |
| CostMatcher.SubItemsPositive | lib/calculator/cost-matcher.ts:164-197 | with a positive cost and area, every labour, permit and site-work line of the breakdown is positive |
| CostMatcher.ScalingWithArea | lib/calculator/cost-matcher.ts:284-294 | doubling the area doubles the budget, the contingency and the labour, permit and site-work totals |
| CostMatcher.MaterialLinesScaleWithArea | lib/calculator/cost-matcher.ts:88-105 | doubling the area doubles the flooring, countertop, roofing and siding lines and leaves fixtures and appliances unchanged |
| CostMatcher.ScalingWithCost | lib/calculator/cost-matcher.ts:283-294 | doubling the cost at a fixed area doubles the budget, the contingency and the labour, permit and site-work totals |
| CostMatcher.TierOnlyLookups | lib/calculator/cost-matcher.ts:73-75 | two costs in the same tier, at the same area, get the same material names, prices, catalogue lines, lumber, recommendations and trade-offs |
| CostMatcher.AdviceNonEmpty | lib/calculator/cost-matcher.ts:202-267 | every tier has at least one recommendation and one trade-off |
| CostMatcher.LocationIgnored | lib/calculator/cost-matcher.ts:272-332 | changing the location never changes the output |
| CostMatcher.MissingAreaDefaults | lib/calculator/cost-matcher.ts:282 | no area, an area of 0 and an area of 800 give the same output |
| CostMatcher.MaterialNames | lib/calculator/cost-matcher.ts:10-43 | basic flooring is "Vinyl Plank"; basic names mention Vinyl, Laminate and Builder, standard Engineered, Quartz and Mid-range, premium Solid, Granite and High-end |
| CostMatcher.BasicAdviceMentionsVinyl | lib/calculator/cost-matcher.ts:204-205 | the basic tier's first recommendation mentions Vinyl |
| CostMatcher.DefaultAreaScenario | lib/calculator/cost-matcher.ts:282-287 | on the allocator's output record: 200 per sqft with no area uses the default 800 sqft, budgets 160000 and picks the standard tier |
| CostMatcher.AreaScenarios | lib/calculator/cost-matcher.ts:284 | 200 per sqft budgets 80000 over 400 sqft and 400000 over 2000 sqft |
| CostMatcher.CustomAreaScenario | lib/calculator/cost-matcher.ts:108-120 | at 1000 sqft, standard tier, the catalogue lines come to 34012.5 and the materials total is exactly the 76000 share |
| CostMatcher.CustomAreaExhaustsBudget | lib/calculator/cost-matcher.ts:289-311 | at 200 per sqft over 1000 sqft, the five categories of the breakdown add up to exactly the 200000 budget |
| CostMatcher.OverAllocationScenario | lib/calculator/cost-matcher.ts:117-120 | at 100 sqft, basic tier, the itemised materials exceed the 3800 share, so `other` is 0 and the materials total exceeds the share |
| CostMatcher.OverAllocationExceedsBudget | lib/calculator/cost-matcher.ts:289-311 | at 100 per sqft over 100 sqft, the five categories of the breakdown add up to more than the 10000 budget |
| CostMatcher.InvalidScenarios | lib/calculator/cost-matcher.ts:275-280 | a cost of -100 or 0 fails with the validation message and no data |
| Store.ErrorMessage | lib/store.ts:55 | the stored message is never empty: the allocator's message when it is non-empty, the fallback otherwise |
| Store.StoreInput | lib/store.ts:41-44 | the allocator gets the store's cost and area and no location |
| Store.FallbackNeverShown | lib/store.ts:52-57 | a non-positive cost fails, and the stored message is the allocator's validation message, never the fallback |
| Store.CalculatorStore.constructor | lib/store.ts:19-27 | the store starts at cost 200, area 800, no breakdown, not loading, no error |
| Store.CalculatorStore.SetCostPerSqft | lib/store.ts:29-31 | sets the cost and changes no other field |
| Store.CalculatorStore.SetTotalSqft | lib/store.ts:33-35 | sets the area and changes no other field |
| Store.CalculatorStore.Calculate | lib/store.ts:37-65 | ends not loading with the inputs unchanged; on success stores the breakdown and clears the error; on failure keeps the previous breakdown and stores the message; the error is absent exactly when the cost is positive |
| Store.CalculatorStore.Reset | lib/store.ts:67-75 | restores the initial state, and changes nothing when the store is already in it |
| Calculator.GetCostBreakdown | src/calculator/index.ts:29-43 | the base part is 150 per sqft, the bedroom part 5000 per bedroom, and the total is their sum, with no validation |
| Calculator.CalculateCost | src/calculator/index.ts:7-21 | succeeds exactly when both inputs are positive; the area is checked first; a success is positive and equals the breakdown's total |
| Calculator.CostMonotone | src/calculator/index.ts:16-18 | more area and more bedrooms never cost less |
| Calculator.CalculatorExamples | src/calculator/index.ts:7-43 | (800, 2) costs 130000 and (1200, 3) 195000; zero or negative inputs give the right message; the breakdowns of (1000, 2) and (600, 1) |
| Utils.ValidateNumber | src/utils/index.ts:21-26 | passes exactly the positive numbers, unchanged; anything else fails with "<field> must be a positive number" |
| Utils.ValidateIdempotent | src/utils/index.ts:21-26 | a validated number passes the check again with the same result |
| Utils.ValidateExamples | src/utils/index.ts:21-26 | 100 passes; 0, -10 and the string "100" fail with the field's message |

## Left out

- NaN and Infinity are not modelled. A NaN cost would pass the `<= 0` check, and a NaN area becomes 800 through `||`. `validateNumber`'s `isNaN` test is therefore not modelled either.
- Float rounding is not modelled: money is exact `real`.
- The `catch` branches of `calculateADUCost` (lib/calculator/cost-matcher.ts:325-331) and of the store's `calculate` (lib/store.ts:58-63) are left out. Nothing in the code they guard can throw over real arithmetic.
- The `|| []` fallbacks of `generateRecommendations` and `generateTradeoffs` are left out. Every finish level has an entry, so the fallback is never taken.
- The Zustand wiring (`create`, `set`, `getState`) is left out; the store is a plain class.
- Store.CalculatorStore.Calculate: the intermediate state (loading, no error) is assigned but, with no subscribers in the model, never observed.
- The `Material` and `MaterialSelection` interfaces of types/index.ts:17-33 are left out. The allocator does not use them.
- `COST_TIERS` labels are kept as data, but nothing in the core reads them.
- The contingency is 7% as coded. The "10%" in the display label and in a test name is not reconciled with it.
- `formatCurrency` is a wrapper over `Intl.NumberFormat`. The UI components, the HTTP server in src/api, the build scripts and the form's debounce and range checks are not part of this model.
- CostMatcher.ScalingWithArea, CostMatcher.MaterialLinesScaleWithArea and CostMatcher.ScalingWithCost are stated on the success path `Allocate`, for any cost and area. `CalculateADUCost` returns exactly that for a positive cost.
- CostMatcher.AreaScenarios, CostMatcher.CustomAreaScenario, CostMatcher.CustomAreaExhaustsBudget, CostMatcher.OverAllocationScenario and CostMatcher.OverAllocationExceedsBudget are stated on `Allocate` or on `CalculateMaterialCosts` at the area and allocation in effect, not on the output record. Stated on the record, these facts exceed the solver's resource limit. `CalculateADUCost`'s contract connects the two.
- Advice.Text: has no contract of its own. Any contract over its 36 string literals exceeds the solver's resource limit. CostMatcher.BasicAdviceMentionsVinyl states the fact about its wording that the model uses.
- The breakdown carries advice lines rather than their strings. `Advice.Text` gives each line's wording, as in the source.
- Calculator.CalculateCost: bedrooms are a `real` as in the source, which does not require a whole number either.
