/** The budget allocator (lib/calculator/cost-matcher.ts): from a cost per
    sqft and an optional floor area it derives the total budget, picks a
    finish tier, splits the budget into five categories by fixed shares,
    itemises each category, and attaches the tier's advice. */
module CostMatcher {
  import opened Wrappers
  import opened Types
  import opened Advice

  /** A catalogue entry priced per unit (per sqft or per linear foot). */
  datatype UnitPrice = UnitPrice(kind: string, price: real)

  /** A catalogue entry with one flat cost. */
  datatype FlatPrice = FlatPrice(kind: string, totalCost: real)

  /** The materials a finish tier selects. */
  datatype TierCatalogue = TierCatalogue(
    flooring: UnitPrice,
    countertops: UnitPrice,
    fixtures: FlatPrice,
    appliances: FlatPrice,
    roofing: UnitPrice,
    siding: UnitPrice)

  /** The `MATERIAL_PRICING` table (read through `getTierCatalogue`);
      every price in it is positive. */
  function MaterialPricing(level: FinishLevel): (m: TierCatalogue)
    ensures m.flooring.price > 0.0 && m.countertops.price > 0.0 && m.roofing.price > 0.0
    ensures m.siding.price > 0.0 && m.fixtures.totalCost > 0.0 && m.appliances.totalCost > 0.0
  {
    match level
    case Basic =>
      TierCatalogue(
        UnitPrice("Vinyl Plank", 5.0), UnitPrice("Laminate", 25.0),
        FlatPrice("Builder Grade", 800.0), FlatPrice("Basic", 1800.0),
        UnitPrice("Asphalt Shingles", 8.0), UnitPrice("Vinyl", 4.0))
    case Standard =>
      TierCatalogue(
        UnitPrice("Engineered Hardwood", 8.0), UnitPrice("Quartz", 70.0),
        FlatPrice("Mid-range", 1300.0), FlatPrice("Standard", 3000.0),
        UnitPrice("Architectural Shingles", 12.0), UnitPrice("Fiber Cement", 7.0))
    case Premium =>
      TierCatalogue(
        UnitPrice("Solid Hardwood", 12.0), UnitPrice("Granite", 110.0),
        FlatPrice("High-end", 2500.0), FlatPrice("Premium", 5000.0),
        UnitPrice("Metal Roof", 15.0), UnitPrice("Wood or Brick", 12.0))
    case Luxury =>
      TierCatalogue(
        UnitPrice("Custom Exotic Hardwood", 16.0), UnitPrice("Marble", 150.0),
        FlatPrice("Designer Grade", 4000.0), FlatPrice("Luxury", 7000.0),
        UnitPrice("Premium Metal/Tile", 20.0), UnitPrice("Premium Material", 15.0))
  }

  /** Floor area assumed when none (or zero) is given (`DEFAULT_SQFT`). */
  const DefaultSqft: real := 800.0

  const InvalidCostMessage: string := "Cost per sqft must be greater than 0"

  /** The five category allocations computed from the total budget. */
  datatype BudgetSplit = BudgetSplit(
    materials: real, labor: real, permits: real, siteWork: real, contingency: real)

  /** `BUDGET_ALLOCATION` applied to the budget: materials 38%, labour 33%,
      permits 10%, site work 12%, contingency 7%. The five shares exhaust the
      budget, and a positive budget gives every category a positive amount. */
  function AllocateBudget(totalBudget: real): (a: BudgetSplit)
    ensures a.materials + a.labor + a.permits + a.siteWork + a.contingency == totalBudget
    ensures totalBudget > 0.0 ==>
      a.materials > 0.0 && a.labor > 0.0 && a.permits > 0.0 && a.siteWork > 0.0 && a.contingency > 0.0
  {
    BudgetSplit(
      totalBudget * 0.38,
      totalBudget * 0.33,
      totalBudget * 0.1,
      totalBudget * 0.12,
      totalBudget * 0.07)
  }

  function Max(a: real, b: real): real {
    if a >= b then a else b
  }

  /** The tier for a cost per sqft: the table entry whose range holds it, and
      basic for every cost below the standard tier's minimum, including costs
      under the basic tier's own minimum. */
  function DetermineFinishLevel(costPerSqft: real): (level: FinishLevel)
    ensures costPerSqft >= CostTiers(Basic).min ==> InRange(costPerSqft, CostTiers(level))
    ensures level == Basic <==> costPerSqft < CostTiers(Standard).min
  {
    if costPerSqft >= CostTiers(Luxury).min then Luxury
    else if costPerSqft >= CostTiers(Premium).min then Premium
    else if costPerSqft >= CostTiers(Standard).min then Standard
    else Basic
  }

  /** Within the table's span the chosen tier is exactly the one whose range
      holds the cost. */
  lemma DetermineFinishLevelExact(costPerSqft: real, level: FinishLevel)
    requires costPerSqft >= CostTiers(Basic).min
    ensures DetermineFinishLevel(costPerSqft) == level <==> InRange(costPerSqft, CostTiers(level))
  {
    if InRange(costPerSqft, CostTiers(level)) {
      RangesDisjoint(costPerSqft, level, DetermineFinishLevel(costPerSqft));
    }
  }

  /** The basic tier's minimum of 150 never bounds anything: a cost below it
      lies in no table range and is still basic. */
  lemma BasicMinimumUnused(costPerSqft: real)
    requires costPerSqft < CostTiers(Basic).min
    ensures DetermineFinishLevel(costPerSqft) == Basic
    ensures forall level :: !InRange(costPerSqft, CostTiers(level))
  {
  }

  /** A higher cost never selects a cheaper tier. */
  lemma DetermineFinishLevelMonotone(c1: real, c2: real)
    requires c1 <= c2
    ensures Rank(DetermineFinishLevel(c1)) <= Rank(DetermineFinishLevel(c2))
  {
  }

  /** The thresholds put each boundary value in the higher tier; a cost
      below the basic minimum is basic and one far above the luxury minimum
      is luxury. */
  lemma FinishLevelBoundaries()
    ensures DetermineFinishLevel(179.0) == Basic && DetermineFinishLevel(180.0) == Standard
    ensures DetermineFinishLevel(219.99) == Standard && DetermineFinishLevel(220.0) == Premium
    ensures DetermineFinishLevel(279.99) == Premium && DetermineFinishLevel(280.0) == Luxury
    ensures DetermineFinishLevel(100.0) == Basic && DetermineFinishLevel(160.0) == Basic
    ensures DetermineFinishLevel(250.0) == Premium
    ensures DetermineFinishLevel(300.0) == Luxury && DetermineFinishLevel(500.0) == Luxury
  {
  }

  /** The materials category. Six catalogue lines come from the tier's prices
      and the area; lumber adds a fixed fraction of them; `other` tops the sum
      up to the materials allocation, but never below zero, so the total is the
      larger of the allocation and the itemised cost. */
  function CalculateMaterialCosts(totalSqft: real, level: FinishLevel, materialsAllocation: real): (m: MaterialCosts)
    ensures var sel := MaterialPricing(level);
      && m.flooring.kind == sel.flooring.kind && m.flooring.unitPrice == sel.flooring.price
      && m.countertops.kind == sel.countertops.kind && m.countertops.unitPrice == sel.countertops.price
      && m.fixtures == FlatLine(sel.fixtures.kind, sel.fixtures.totalCost)
      && m.appliances == FlatLine(sel.appliances.kind, sel.appliances.totalCost)
      && m.roofing.kind == sel.roofing.kind && m.roofing.unitPrice == sel.roofing.price
      && m.siding.kind == sel.siding.kind && m.siding.unitPrice == sel.siding.price
    ensures m.flooring.cost == m.flooring.unitPrice * totalSqft
    ensures m.countertops.cost == m.countertops.unitPrice * (totalSqft / 800.0 * 15.0)
    ensures m.roofing.cost == m.roofing.unitPrice * totalSqft
    ensures m.siding.cost == m.siding.unitPrice * (totalSqft * 1.2)
    ensures m.lumber == 0.15 * m.CatalogueSubtotal()
    ensures m.other >= 0.0
    ensures m.total == m.LineSum()
    ensures m.total == Max(materialsAllocation, m.CatalogueSubtotal() + m.lumber)
    ensures m.total >= materialsAllocation
    ensures m.total == materialsAllocation <==> m.CatalogueSubtotal() + m.lumber <= materialsAllocation
  {
    var materials := MaterialPricing(level);
    var flooringCost := materials.flooring.price * totalSqft;
    // A default-sized unit (800 sqft) has about 15 linear feet of counter.
    var countertopLf := totalSqft / 800.0 * 15.0;
    var countertopCost := materials.countertops.price * countertopLf;
    var fixturesCost := materials.fixtures.totalCost;
    var appliancesCost := materials.appliances.totalCost;
    var roofingCost := materials.roofing.price * totalSqft;
    // Wall area is taken as 1.2 times the floor area.
    var wallArea := totalSqft * 1.2;
    var sidingCost := materials.siding.price * wallArea;
    var materialSubtotal :=
      flooringCost + countertopCost + fixturesCost + appliancesCost + roofingCost + sidingCost;
    // Lumber is 15% of the six catalogue lines.
    var lumberCost := materialSubtotal * 0.15;
    var totalCalcMaterials := materialSubtotal + lumberCost;
    var otherCost := Max(0.0, materialsAllocation - totalCalcMaterials);
    MaterialCosts(
      PricedLine(materials.flooring.kind, materials.flooring.price, flooringCost),
      PricedLine(materials.countertops.kind, materials.countertops.price, countertopCost),
      FlatLine(materials.fixtures.kind, fixturesCost),
      FlatLine(materials.appliances.kind, appliancesCost),
      PricedLine(materials.roofing.kind, materials.roofing.price, roofingCost),
      PricedLine(materials.siding.kind, materials.siding.price, sidingCost),
      lumberCost,
      otherCost,
      flooringCost + countertopCost + fixturesCost + appliancesCost + roofingCost + sidingCost
        + lumberCost + otherCost)
  }

  /** Labour: five trades sharing the allocation 30/20/20/15/15; the lines add
      up to the total, which is the allocation. */
  function CalculateLaborCosts(laborAllocation: real): (l: LaborCosts)
    ensures l.total == laborAllocation
    ensures l.LineSum() == l.total
    ensures l.framing == 0.3 * l.total && l.electrical == 0.2 * l.total && l.plumbing == 0.2 * l.total
    ensures l.hvac == 0.15 * l.total && l.finishes == 0.15 * l.total
    ensures laborAllocation > 0.0 ==>
      l.framing > 0.0 && l.electrical > 0.0 && l.plumbing > 0.0 && l.hvac > 0.0 && l.finishes > 0.0
  {
    LaborCosts(
      laborAllocation * 0.3,
      laborAllocation * 0.2,
      laborAllocation * 0.2,
      laborAllocation * 0.15,
      laborAllocation * 0.15,
      laborAllocation)
  }

  /** Permits: building 50%, electrical 25%, plumbing 25% of the allocation;
      the lines add up to the total, which is the allocation. */
  function CalculatePermitCosts(permitAllocation: real): (p: PermitCosts)
    ensures p.total == permitAllocation
    ensures p.LineSum() == p.total
    ensures p.building == 0.5 * p.total && p.electrical == 0.25 * p.total && p.plumbing == 0.25 * p.total
    ensures permitAllocation > 0.0 ==> p.building > 0.0 && p.electrical > 0.0 && p.plumbing > 0.0
  {
    PermitCosts(
      permitAllocation * 0.5,
      permitAllocation * 0.25,
      permitAllocation * 0.25,
      permitAllocation)
  }

  /** Site work: excavation 35%, foundation 40%, utilities 25% of the
      allocation; the lines add up to the total, which is the allocation. */
  function CalculateSiteWorkCosts(siteWorkAllocation: real): (s: SiteWorkCosts)
    ensures s.total == siteWorkAllocation
    ensures s.LineSum() == s.total
    ensures s.excavation == 0.35 * s.total && s.foundation == 0.4 * s.total && s.utilities == 0.25 * s.total
    ensures siteWorkAllocation > 0.0 ==> s.excavation > 0.0 && s.foundation > 0.0 && s.utilities > 0.0
  {
    SiteWorkCosts(
      siteWorkAllocation * 0.35,
      siteWorkAllocation * 0.4,
      siteWorkAllocation * 0.25,
      siteWorkAllocation)
  }

  /** The tier's recommendation lines. */
  function Recommendations(level: FinishLevel): (r: seq<AdviceLine>)
    ensures |r| == 5
  {
    match level
    case Basic => [VinylPlankFlooring, LaminateCountertops, BuilderGradeFixtures, AsphaltShingles, VinylSiding]
    case Standard =>
      [EngineeredHardwoodFlooring, QuartzCountertops, MidRangeFixtures, ArchitecturalShingles, FiberCementSiding]
    case Premium => [SolidHardwoodFlooring, GraniteCountertops, HighEndFixtures, MetalRoof, WoodOrBrickSiding]
    case Luxury => [ExoticHardwoodFlooring, MarbleCountertops, DesignerFixtures, MetalOrTileRoofing, PremiumSiding]
  }

  /** The tier's trade-off lines. */
  function Tradeoffs(level: FinishLevel): (r: seq<AdviceLine>)
    ensures |r| == 4
  {
    match level
    case Basic => [VinylVersusHardwood, LaminateMayStain, BuilderGradeStyles, BasicApplianceFeatures]
    case Standard => [EngineeredNotSolid, QuartzRepairs, MidRangeApplianceFeatures, FiberCementUpkeep]
    case Premium => [HardwoodRefinishing, GraniteSealing, PremiumUpkeepCosts, FewUpgrades]
    case Luxury => [ExpertMaintenance, LimitedCustomization, SpecialistRepairs, HighestUpkeep]
  }

  /** Five pieces of advice for each tier (`generateRecommendations`). */
  function GenerateRecommendations(level: FinishLevel): (r: seq<string>)
    ensures |r| == 5
  {
    Texts(Recommendations(level))
  }

  /** Four trade-offs for each tier (`generateTradeoffs`). */
  function GenerateTradeoffs(level: FinishLevel): (r: seq<string>)
    ensures |r| == 4
  {
    Texts(Tradeoffs(level))
  }

  /** The floor area the allocator works with: the given area when it is
      present and non-zero (JavaScript truthiness), otherwise the default. */
  function EffectiveSqft(totalSqft: Option<real>): (area: real)
    ensures area != 0.0
    ensures totalSqft.Some? && totalSqft.value != 0.0 ==> area == totalSqft.value
    ensures totalSqft.None? || totalSqft.value == 0.0 ==> area == DefaultSqft
  {
    match totalSqft
    case Some(a) => if a != 0.0 then a else DefaultSqft
    case None => DefaultSqft
  }

  /** The success path of the allocator, for a validated cost and the area
      in effect. The budget is cost times area. Labour, permits, site work and
      contingency receive exactly their shares of it, and each of the three
      itemised ones adds up to its total. Materials receive at least their
      share, so the five category totals never fall short of the budget, and
      they add up to it exactly when the itemised materials (the six catalogue
      lines plus lumber) fit inside the materials share. */
  function Allocate(costPerSqft: real, totalSqft: real): (d: CostBreakdown)
    ensures d.costPerSqft == costPerSqft
    ensures d.totalBudget == costPerSqft * totalSqft
    ensures d.finishLevel == DetermineFinishLevel(costPerSqft)
    ensures d.breakdown.materials == CalculateMaterialCosts(totalSqft, d.finishLevel, 0.38 * d.totalBudget)
    ensures var b := d.breakdown;
      && b.labor.total == 0.33 * d.totalBudget && b.labor.LineSum() == b.labor.total
      && b.permits.total == 0.1 * d.totalBudget && b.permits.LineSum() == b.permits.total
      && b.siteWork.total == 0.12 * d.totalBudget && b.siteWork.LineSum() == b.siteWork.total
      && b.contingency == 0.07 * d.totalBudget
    ensures var m := d.breakdown.materials;
      && m.total == m.LineSum()
      && m.total >= 0.38 * d.totalBudget
      && (m.total == 0.38 * d.totalBudget <==> m.CatalogueSubtotal() + m.lumber <= 0.38 * d.totalBudget)
    ensures d.breakdown.CategorySum() >= d.totalBudget
    ensures d.breakdown.CategorySum() == d.totalBudget
        <==> d.breakdown.materials.CatalogueSubtotal() + d.breakdown.materials.lumber <= 0.38 * d.totalBudget
    ensures d.recommendations == Recommendations(d.finishLevel)
    ensures d.tradeoffs == Tradeoffs(d.finishLevel)
  {
    var totalBudget := costPerSqft * totalSqft;
    var finishLevel := DetermineFinishLevel(costPerSqft);
    var allocation := AllocateBudget(totalBudget);
    CostBreakdown(
      totalBudget,
      costPerSqft,
      finishLevel,
      Categories(
        CalculateMaterialCosts(totalSqft, finishLevel, allocation.materials),
        CalculateLaborCosts(allocation.labor),
        CalculatePermitCosts(allocation.permits),
        CalculateSiteWorkCosts(allocation.siteWork),
        allocation.contingency),
      Recommendations(finishLevel),
      Tradeoffs(finishLevel))
  }

  /** The allocator (`calculateADUCost`). A non-positive cost per sqft fails
      with the validation message and no data; any positive cost succeeds with
      the success-path breakdown for the area in effect. */
  function CalculateADUCost(input: CostMatcherInput): (out: CostMatcherOutput)
    ensures out.WellFormed()
    ensures out.success <==> input.costPerSqft > 0.0
    ensures !out.success ==> out.error == Some(InvalidCostMessage)
    ensures out.success ==> out.data == Some(Allocate(input.costPerSqft, EffectiveSqft(input.totalSqft)))
  {
    if input.costPerSqft <= 0.0 then
      CostMatcherOutput(false, None, Some(InvalidCostMessage))
    else
      CostMatcherOutput(true, Some(Allocate(input.costPerSqft, EffectiveSqft(input.totalSqft))), None)
  }

  /** The breakdown of a successful call. */
  function Breakdown(input: CostMatcherInput): CostBreakdown
    requires input.costPerSqft > 0.0
  {
    CalculateADUCost(input).data.value
  }

  lemma ScaleRight(x: real, y: real, k: real)
    ensures x * (k * y) == k * (x * y)
  {
  }

  lemma ScaleLeft(x: real, y: real, k: real)
    ensures (k * x) * y == k * (x * y)
  {
  }

  /** With a positive cost and a positive area every labour, permit and
      site-work line is positive. */
  lemma SubItemsPositive(input: CostMatcherInput)
    requires input.costPerSqft > 0.0 && EffectiveSqft(input.totalSqft) > 0.0
    ensures var b := Breakdown(input).breakdown;
      && b.labor.framing > 0.0 && b.labor.electrical > 0.0 && b.labor.plumbing > 0.0
      && b.labor.hvac > 0.0 && b.labor.finishes > 0.0
      && b.permits.building > 0.0 && b.permits.electrical > 0.0 && b.permits.plumbing > 0.0
      && b.siteWork.excavation > 0.0 && b.siteWork.foundation > 0.0 && b.siteWork.utilities > 0.0
  {
  }

  /** Doubling the area doubles the budget and every category allocation. */
  lemma ScalingWithArea(costPerSqft: real, area: real)
    ensures var base := Allocate(costPerSqft, area);
      var doubled := Allocate(costPerSqft, 2.0 * area);
      && doubled.totalBudget == 2.0 * base.totalBudget
      && doubled.breakdown.contingency == 2.0 * base.breakdown.contingency
      && doubled.breakdown.labor.total == 2.0 * base.breakdown.labor.total
      && doubled.breakdown.permits.total == 2.0 * base.breakdown.permits.total
      && doubled.breakdown.siteWork.total == 2.0 * base.breakdown.siteWork.total
  {
    ScaleRight(costPerSqft, area, 2.0);
  }

  /** Doubling the area doubles every per-area material line; the flat
      fixture and appliance lines stay as they are. */
  lemma MaterialLinesScaleWithArea(costPerSqft: real, area: real)
    ensures var base := Allocate(costPerSqft, area).breakdown.materials;
      var doubled := Allocate(costPerSqft, 2.0 * area).breakdown.materials;
      && doubled.flooring.cost == 2.0 * base.flooring.cost
      && doubled.countertops.cost == 2.0 * base.countertops.cost
      && doubled.roofing.cost == 2.0 * base.roofing.cost
      && doubled.siding.cost == 2.0 * base.siding.cost
      && doubled.fixtures == base.fixtures
      && doubled.appliances == base.appliances
  {
    var sel := MaterialPricing(DetermineFinishLevel(costPerSqft));
    ScaleRight(sel.flooring.price, area, 2.0);
    ScaleRight(sel.countertops.price, area / 800.0 * 15.0, 2.0);
    ScaleRight(sel.roofing.price, area, 2.0);
    ScaleRight(sel.siding.price, area * 1.2, 2.0);
  }

  /** Doubling the cost at a fixed area doubles the budget and every category
      allocation. */
  lemma ScalingWithCost(costPerSqft: real, area: real)
    ensures var base := Allocate(costPerSqft, area);
      var doubled := Allocate(2.0 * costPerSqft, area);
      && doubled.totalBudget == 2.0 * base.totalBudget
      && doubled.breakdown.contingency == 2.0 * base.breakdown.contingency
      && doubled.breakdown.labor.total == 2.0 * base.breakdown.labor.total
      && doubled.breakdown.permits.total == 2.0 * base.breakdown.permits.total
      && doubled.breakdown.siteWork.total == 2.0 * base.breakdown.siteWork.total
  {
    ScaleLeft(costPerSqft, area, 2.0);
  }

  /** Two costs in the same tier, at the same area, get the same material
      names, unit prices and catalogue line costs, and the same advice: the
      exact cost matters only through its tier. */
  lemma TierOnlyLookups(c1: real, c2: real, totalSqft: Option<real>)
    requires c1 > 0.0 && c2 > 0.0
    requires DetermineFinishLevel(c1) == DetermineFinishLevel(c2)
    ensures var d1 := Breakdown(CostMatcherInput(c1, totalSqft, None));
      var d2 := Breakdown(CostMatcherInput(c2, totalSqft, None));
      var m1 := d1.breakdown.materials;
      var m2 := d2.breakdown.materials;
      && m1.flooring == m2.flooring && m1.countertops == m2.countertops
      && m1.fixtures == m2.fixtures && m1.appliances == m2.appliances
      && m1.roofing == m2.roofing && m1.siding == m2.siding
      && m1.lumber == m2.lumber
      && d1.recommendations == d2.recommendations && d1.tradeoffs == d2.tradeoffs
  {
    var area := EffectiveSqft(totalSqft);
    assert Breakdown(CostMatcherInput(c1, totalSqft, None)) == Allocate(c1, area);
    assert Breakdown(CostMatcherInput(c2, totalSqft, None)) == Allocate(c2, area);
  }

  /** Every tier has advice and trade-offs to show. */
  lemma AdviceNonEmpty(level: FinishLevel)
    ensures |GenerateRecommendations(level)| > 0 && |GenerateTradeoffs(level)| > 0
  {
  }

  /** The location field has no effect on the result. */
  lemma LocationIgnored(input: CostMatcherInput, location: Option<string>)
    ensures CalculateADUCost(input.(location := location)) == CalculateADUCost(input)
  {
  }

  /** An absent area and an area of zero both mean the default 800 sqft. */
  lemma MissingAreaDefaults(costPerSqft: real)
    ensures CalculateADUCost(CostMatcherInput(costPerSqft, None, None))
         == CalculateADUCost(CostMatcherInput(costPerSqft, Some(0.0), None))
         == CalculateADUCost(CostMatcherInput(costPerSqft, Some(DefaultSqft), None))
  {
  }

  /** Whether `word` occurs in `s` starting at index `i`. */
  predicate OccursAt(s: string, word: string, i: int) {
    0 <= i <= |s| - |word| && s[i..i + |word|] == word
  }

  /** Whether `word` occurs anywhere in `s` (the tests' `toContain`). */
  ghost predicate Mentions(s: string, word: string) {
    exists i :: OccursAt(s, word, i)
  }

  /** Each tier's flooring, countertop and fixture names carry the words the
      tier is known by; the basic tier's flooring is exactly vinyl plank. */
  lemma MaterialNames()
    ensures MaterialPricing(Basic).flooring.kind == "Vinyl Plank"
    ensures Mentions(MaterialPricing(Basic).flooring.kind, "Vinyl")
    ensures Mentions(MaterialPricing(Basic).countertops.kind, "Laminate")
    ensures Mentions(MaterialPricing(Basic).fixtures.kind, "Builder")
    ensures Mentions(MaterialPricing(Standard).flooring.kind, "Engineered")
    ensures Mentions(MaterialPricing(Standard).countertops.kind, "Quartz")
    ensures Mentions(MaterialPricing(Standard).fixtures.kind, "Mid-range")
    ensures Mentions(MaterialPricing(Premium).flooring.kind, "Solid")
    ensures Mentions(MaterialPricing(Premium).countertops.kind, "Granite")
    ensures Mentions(MaterialPricing(Premium).fixtures.kind, "High-end")
  {
    assert OccursAt(MaterialPricing(Basic).flooring.kind, "Vinyl", 0);
    assert OccursAt(MaterialPricing(Basic).countertops.kind, "Laminate", 0);
    assert OccursAt(MaterialPricing(Basic).fixtures.kind, "Builder", 0);
    assert OccursAt(MaterialPricing(Standard).flooring.kind, "Engineered", 0);
    assert OccursAt(MaterialPricing(Standard).countertops.kind, "Quartz", 0);
    assert OccursAt(MaterialPricing(Standard).fixtures.kind, "Mid-range", 0);
    assert OccursAt(MaterialPricing(Premium).flooring.kind, "Solid", 0);
    assert OccursAt(MaterialPricing(Premium).countertops.kind, "Granite", 0);
    assert OccursAt(MaterialPricing(Premium).fixtures.kind, "High-end", 0);
  }

  /** The basic tier's first recommendation is vinyl flooring. */
  lemma BasicAdviceMentionsVinyl()
    ensures Mentions(GenerateRecommendations(Basic)[0], "Vinyl")
  {
    assert Recommendations(Basic)[0] == VinylPlankFlooring;
    assert GenerateRecommendations(Basic)[0] == Text(VinylPlankFlooring);
    assert OccursAt(Text(VinylPlankFlooring), "Vinyl", 0);
  }

  /** 200 per sqft with no area, hence the default 800 sqft: a budget of
      160000, the standard tier. */
  lemma DefaultAreaScenario()
    ensures CalculateADUCost(CostMatcherInput(200.0, None, None)).data.value.totalBudget == 160000.0
    ensures CalculateADUCost(CostMatcherInput(200.0, None, None)).data.value.finishLevel == Standard
  {
  }

  /** Budgets for small and large areas at 200 per sqft. */
  lemma AreaScenarios()
    ensures Allocate(200.0, 400.0).totalBudget == 80000.0
    ensures Allocate(200.0, 2000.0).totalBudget == 400000.0
  {
  }

  /** 200 per sqft over 1000 sqft is standard with a 76000 materials share
      (38% of 200000). The itemised standard-tier materials, 34012.5 before
      lumber, fit inside that share, so the materials total is the share. */
  lemma CustomAreaScenario()
    ensures CalculateMaterialCosts(1000.0, Standard, 76000.0).CatalogueSubtotal() == 34012.5
    ensures CalculateMaterialCosts(1000.0, Standard, 76000.0).total == 76000.0
  {
  }

  /** Hence the five category totals of the breakdown for 1000 sqft at 200
      per sqft add up to exactly its 200000 budget. */
  lemma CustomAreaExhaustsBudget()
    ensures Allocate(200.0, 1000.0).breakdown.CategorySum() == 200000.0
  {
    var d := Allocate(200.0, 1000.0);
    assert d.totalBudget == 200000.0;
    assert d.finishLevel == Standard;
    assert 0.38 * d.totalBudget == 76000.0;
    assert d.breakdown.materials == CalculateMaterialCosts(1000.0, Standard, 76000.0);
    CustomAreaScenario();
  }

  /** 100 sqft at 100 per sqft is basic with a 3800 materials share (38% of
      10000). Its itemised materials exceed that share, so `other` is zero
      and the materials total exceeds the share. */
  lemma OverAllocationScenario()
    ensures CalculateMaterialCosts(100.0, Basic, 3800.0).other == 0.0
    ensures CalculateMaterialCosts(100.0, Basic, 3800.0).total > 3800.0
  {
    assert CalculateMaterialCosts(100.0, Basic, 3800.0).CatalogueSubtotal() == 4426.875;
  }

  /** Hence the five category totals of the breakdown for 100 sqft at 100
      per sqft add up to more than its 10000 budget. */
  lemma OverAllocationExceedsBudget()
    ensures Allocate(100.0, 100.0).breakdown.CategorySum() > 10000.0
  {
    var d := Allocate(100.0, 100.0);
    assert d.totalBudget == 10000.0;
    assert d.finishLevel == Basic;
    assert 0.38 * d.totalBudget == 3800.0;
    assert d.breakdown.materials == CalculateMaterialCosts(100.0, Basic, 3800.0);
    OverAllocationScenario();
  }

  /** A negative or zero cost is refused with the validation message. */
  lemma InvalidScenarios()
    ensures CalculateADUCost(CostMatcherInput(-100.0, None, None))
         == CostMatcherOutput(false, None, Some(InvalidCostMessage))
    ensures CalculateADUCost(CostMatcherInput(0.0, Some(1000.0), None))
         == CostMatcherOutput(false, None, Some(InvalidCostMessage))
  {
  }
}
