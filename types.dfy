/** The shared vocabulary of the cost matcher (types/index.ts): the finish
    tiers and their cost thresholds, the allocator's input, and the shape of
    the breakdown it returns. Money and areas are `real`. */
module Types {
  import opened Wrappers
  import opened Advice

  /** The four finish tiers, from the cheapest to the most expensive. */
  datatype FinishLevel = Basic | Standard | Premium | Luxury

  /** Position of a tier in the order cheapest-first. */
  function Rank(level: FinishLevel): nat {
    match level
    case Basic => 0
    case Standard => 1
    case Premium => 2
    case Luxury => 3
  }

  /** The upper end of a tier's range: a finite exclusive limit, or none. */
  datatype UpperBound = Below(limit: real) | Unbounded

  /** One entry of the tier table: cost per sqft from `min` (inclusive) up to
      `max` (exclusive), with a display label (`label` in the source). */
  datatype CostTier = CostTier(min: real, max: UpperBound, displayLabel: string)

  /** The `COST_TIERS` table, keyed by the finish level each entry describes.
      Every minimum is positive and every entry is labelled. */
  function CostTiers(level: FinishLevel): (tier: CostTier)
    ensures tier.min > 0.0 && tier.displayLabel != []
  {
    match level
    case Basic => CostTier(150.0, Below(180.0), "Basic")
    case Standard => CostTier(180.0, Below(220.0), "Standard")
    case Premium => CostTier(220.0, Below(280.0), "Premium")
    case Luxury => CostTier(280.0, Unbounded, "Luxury")
  }

  /** Whether a cost per sqft lies in a tier's half-open range. */
  predicate InRange(costPerSqft: real, tier: CostTier) {
    tier.min <= costPerSqft && (tier.max.Below? ==> costPerSqft < tier.max.limit)
  }

  /** Each tier's upper limit is the next tier's lower limit, so the ranges
      leave no gap and do not overlap. */
  lemma TiersContiguous()
    ensures CostTiers(Basic).max == Below(CostTiers(Standard).min) == Below(180.0)
    ensures CostTiers(Standard).max == Below(CostTiers(Premium).min) == Below(220.0)
    ensures CostTiers(Premium).max == Below(CostTiers(Luxury).min) == Below(280.0)
  {
  }

  /** Every bounded tier has `min < max`; only the luxury tier is unbounded. */
  lemma TiersWellFormed(level: FinishLevel)
    ensures CostTiers(level).max.Below? ==> CostTiers(level).min < CostTiers(level).max.limit
    ensures CostTiers(level).max.Unbounded? <==> level == Luxury
  {
  }

  /** The four finish levels and the four table entries correspond one to one:
      no two levels share an entry. */
  lemma TiersDistinct(a: FinishLevel, b: FinishLevel)
    requires CostTiers(a) == CostTiers(b)
    ensures a == b
  {
  }

  /** No cost lies in two tiers' ranges. */
  lemma RangesDisjoint(costPerSqft: real, a: FinishLevel, b: FinishLevel)
    requires InRange(costPerSqft, CostTiers(a)) && InRange(costPerSqft, CostTiers(b))
    ensures a == b
  {
  }

  /** The allocator's input; `location` is accepted and never read. */
  datatype CostMatcherInput = CostMatcherInput(
    costPerSqft: real,
    totalSqft: Option<real>,
    location: Option<string>)

  /** A material line priced per unit (sqft or linear foot): its catalogue
      name, the unit price and the resulting cost. */
  datatype PricedLine = PricedLine(kind: string, unitPrice: real, cost: real)

  /** A material line with a flat catalogue cost (fixtures; appliances, whose
      name the source calls `package`). */
  datatype FlatLine = FlatLine(kind: string, cost: real)

  datatype MaterialCosts = MaterialCosts(
    flooring: PricedLine,
    countertops: PricedLine,
    fixtures: FlatLine,
    appliances: FlatLine,
    roofing: PricedLine,
    siding: PricedLine,
    lumber: real,
    other: real,
    total: real)
  {
    /** The six catalogue lines, before lumber and the residual. */
    function CatalogueSubtotal(): real {
      flooring.cost + countertops.cost + fixtures.cost + appliances.cost + roofing.cost + siding.cost
    }

    /** The sum of all eight line items. */
    function LineSum(): real {
      CatalogueSubtotal() + lumber + other
    }
  }

  datatype LaborCosts = LaborCosts(
    framing: real, electrical: real, plumbing: real, hvac: real, finishes: real, total: real)
  {
    function LineSum(): real { framing + electrical + plumbing + hvac + finishes }
  }

  datatype PermitCosts = PermitCosts(building: real, electrical: real, plumbing: real, total: real)
  {
    function LineSum(): real { building + electrical + plumbing }
  }

  datatype SiteWorkCosts = SiteWorkCosts(excavation: real, foundation: real, utilities: real, total: real)
  {
    function LineSum(): real { excavation + foundation + utilities }
  }

  /** The five categories of a breakdown; contingency is a bare amount. */
  datatype Categories = Categories(
    materials: MaterialCosts,
    labor: LaborCosts,
    permits: PermitCosts,
    siteWork: SiteWorkCosts,
    contingency: real)
  {
    /** The sum of the five category totals. */
    function CategorySum(): real {
      materials.total + labor.total + permits.total + siteWork.total + contingency
    }
  }

  /** A tier's breakdown; the advice lists hold advice lines, whose wording
      is `Advice.Text`. */
  datatype CostBreakdown = CostBreakdown(
    totalBudget: real,
    costPerSqft: real,
    finishLevel: FinishLevel,
    breakdown: Categories,
    recommendations: seq<AdviceLine>,
    tradeoffs: seq<AdviceLine>)

  /** The allocator's answer: a success flag with optional data and error. */
  datatype CostMatcherOutput = CostMatcherOutput(
    success: bool,
    data: Option<CostBreakdown>,
    error: Option<string>)
  {
    /** Exactly one of `data` and `error` is present, as `success` says. */
    predicate WellFormed() {
      if success then data.Some? && error.None? else data.None? && error.Some?
    }
  }
}
