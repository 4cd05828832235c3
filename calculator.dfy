/** The legacy per-area calculator (src/calculator/index.ts): 150 per sqft
    plus 5000 per bedroom, with the inputs checked in a fixed order. */
module Calculator {
  import opened Wrappers

  const CostPerSqft: real := 150.0
  const CostPerBedroom: real := 5000.0

  const AreaMessage: string := "Square footage must be positive"
  const BedroomMessage: string := "Number of bedrooms must be positive"

  /** The three figures `getCostBreakdown` reports. */
  datatype CostSummary = CostSummary(base: real, bedrooms: real, total: real)

  /** The unvalidated breakdown (`getCostBreakdown`): the area part, the
      bedroom part, and their sum. */
  function GetCostBreakdown(sqft: real, bedrooms: real): (c: CostSummary)
    ensures c.total == c.base + c.bedrooms
    ensures c.base == CostPerSqft * sqft && c.bedrooms == CostPerBedroom * bedrooms
  {
    var baseCost := sqft * 150.0;
    var bedroomCost := bedrooms * 5000.0;
    CostSummary(baseCost, bedroomCost, baseCost + bedroomCost)
  }

  /** The validated total (`calculateCost`). The area is checked before the
      bedrooms, so with both invalid the area message is the one reported.
      Valid inputs give a positive total that agrees with the breakdown's. */
  function CalculateCost(sqft: real, bedrooms: real): (r: Result<real, string>)
    ensures r.Ok? <==> sqft > 0.0 && bedrooms > 0.0
    ensures sqft <= 0.0 ==> r == Err(AreaMessage)
    ensures sqft > 0.0 && bedrooms <= 0.0 ==> r == Err(BedroomMessage)
    ensures r.Ok? ==> r.value == GetCostBreakdown(sqft, bedrooms).total && r.value > 0.0
  {
    if sqft <= 0.0 then
      Err(AreaMessage)
    else if bedrooms <= 0.0 then
      Err(BedroomMessage)
    else
      var baseCost := sqft * 150.0;
      var bedroomCost := bedrooms * 5000.0;
      Ok(baseCost + bedroomCost)
  }

  /** More area and more bedrooms never cost less. */
  lemma CostMonotone(s1: real, b1: real, s2: real, b2: real)
    requires s1 <= s2 && b1 <= b2
    ensures GetCostBreakdown(s1, b1).total <= GetCostBreakdown(s2, b2).total
  {
  }

  /** The examples of the calculator's tests. */
  lemma CalculatorExamples()
    ensures CalculateCost(800.0, 2.0) == Ok(130000.0)
    ensures CalculateCost(1200.0, 3.0) == Ok(195000.0)
    ensures CalculateCost(0.0, 2.0) == Err(AreaMessage) && CalculateCost(-100.0, 2.0) == Err(AreaMessage)
    ensures CalculateCost(800.0, 0.0) == Err(BedroomMessage) && CalculateCost(800.0, -1.0) == Err(BedroomMessage)
    ensures GetCostBreakdown(1000.0, 2.0) == CostSummary(150000.0, 10000.0, 160000.0)
    ensures GetCostBreakdown(600.0, 1.0) == CostSummary(90000.0, 5000.0, 95000.0)
  {
  }
}
