/** The advice the allocator attaches to a breakdown (the recommendation and
    trade-off lists of lib/calculator/cost-matcher.ts). Each line is a named
    value; its wording is given separately by `Text`. */
module Advice {

  /** One line of tier advice, named after its subject. The first twenty are
      recommendations, five per tier; the last sixteen are trade-offs, four
      per tier. */
  datatype AdviceLine =
    | VinylPlankFlooring | LaminateCountertops | BuilderGradeFixtures | AsphaltShingles | VinylSiding
    | EngineeredHardwoodFlooring | QuartzCountertops | MidRangeFixtures | ArchitecturalShingles | FiberCementSiding
    | SolidHardwoodFlooring | GraniteCountertops | HighEndFixtures | MetalRoof | WoodOrBrickSiding
    | ExoticHardwoodFlooring | MarbleCountertops | DesignerFixtures | MetalOrTileRoofing | PremiumSiding
    | VinylVersusHardwood | LaminateMayStain | BuilderGradeStyles | BasicApplianceFeatures
    | EngineeredNotSolid | QuartzRepairs | MidRangeApplianceFeatures | FiberCementUpkeep
    | HardwoodRefinishing | GraniteSealing | PremiumUpkeepCosts | FewUpgrades
    | ExpertMaintenance | LimitedCustomization | SpecialistRepairs | HighestUpkeep

  /** The wording of each advice line: the source's strings, as data. */
  function Text(a: AdviceLine): (s: string)
  {
    match a
    // Split after the leading word so that proofs can see the word directly.
    case VinylPlankFlooring => "Vinyl" + " plank flooring for durability and easy maintenance"
    case LaminateCountertops => "Laminate countertops - budget-friendly and practical"
    case BuilderGradeFixtures => "Builder-grade fixtures and basic appliance package"
    case AsphaltShingles => "Asphalt shingles roofing"
    case VinylSiding => "Vinyl siding for low maintenance"
    case EngineeredHardwoodFlooring => "Engineered hardwood flooring for warmth and durability"
    case QuartzCountertops => "Quartz countertops - good balance of durability and aesthetics"
    case MidRangeFixtures => "Mid-range fixtures and standard appliances"
    case ArchitecturalShingles => "Architectural shingles for enhanced appearance"
    case FiberCementSiding => "Fiber cement siding for better longevity"
    case SolidHardwoodFlooring => "Solid hardwood flooring for premium look and feel"
    case GraniteCountertops => "Granite countertops for elegant appearance"
    case HighEndFixtures => "High-end fixtures and premium appliances"
    case MetalRoof => "Metal roof for durability and modern look"
    case WoodOrBrickSiding => "Wood or brick siding for premium aesthetics"
    case ExoticHardwoodFlooring => "Custom exotic hardwood flooring for unique character"
    case MarbleCountertops => "Marble countertops for luxury finish"
    case DesignerFixtures => "Designer-grade fixtures and luxury appliances"
    case MetalOrTileRoofing => "Premium metal or tile roofing"
    case PremiumSiding => "Premium materials for siding"
    case VinylVersusHardwood => "Vinyl flooring vs hardwood - less durable but low maintenance"
    case LaminateMayStain => "Laminate countertops - can stain and may need replacement"
    case BuilderGradeStyles => "Builder-grade fixtures - limited style options"
    case BasicApplianceFeatures => "Basic appliances - standard features only"
    case EngineeredNotSolid => "Engineered wood - not solid hardwood but more stable"
    case QuartzRepairs => "Quartz - requires professional maintenance if damaged"
    case MidRangeApplianceFeatures => "Mid-range appliances - fewer premium features"
    case FiberCementUpkeep => "Fiber cement - requires periodic maintenance"
    case HardwoodRefinishing => "Solid hardwood - requires periodic refinishing"
    case GraniteSealing => "Granite - needs sealing and careful maintenance"
    case PremiumUpkeepCosts => "Higher maintenance costs due to premium materials"
    case FewUpgrades => "Limited upgrades available at this price point"
    case ExpertMaintenance => "Premium materials require expert maintenance"
    case LimitedCustomization => "Limited customization without exceeding budget"
    case SpecialistRepairs => "May need specialized contractors for repairs"
    case HighestUpkeep => "Highest maintenance and care requirements"
  }

  /** The wording of a list of advice lines, in order. */
  function Texts(lines: seq<AdviceLine>): (r: seq<string>)
    ensures |r| == |lines|
    ensures forall i :: 0 <= i < |lines| ==> r[i] == Text(lines[i])
  {
    if lines == [] then [] else [Text(lines[0])] + Texts(lines[1..])
  }
}
