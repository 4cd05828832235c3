/** The calculator store (lib/store.ts): the page's state around the
    allocator, held as fields that the actions update in place. */
module Store {
  import opened Wrappers
  import opened Types
  import CostMatcher

  /** Cost per sqft the store starts with (`DEFAULT_COST`). */
  const DefaultCost: real := 200.0

  /** Floor area the store starts with (`DEFAULT_SQFT`). */
  const DefaultSqft: real := 800.0

  /** Shown when a failed calculation carries no message. */
  const FallbackError: string := "Failed to calculate cost"

  /** The message a failed calculation stores: the allocator's error when it
      is a non-empty string (JavaScript truthiness), otherwise the fallback.
      The stored message is never empty. */
  function ErrorMessage(error: Option<string>): (message: string)
    ensures message != []
    ensures error.Some? && error.value != [] ==> message == error.value
    ensures error.None? || error.value == [] ==> message == FallbackError
  {
    if error.Some? && error.value != [] then error.value else FallbackError
  }

  /** The allocator's input built from the store's two input fields; the
      store never passes a location. */
  function StoreInput(costPerSqft: real, totalSqft: real): (input: CostMatcherInput)
    ensures input.costPerSqft == costPerSqft && input.totalSqft == Some(totalSqft)
    ensures input.location.None?
  {
    CostMatcherInput(costPerSqft, Some(totalSqft), None)
  }

  /** The allocator always explains a failure, so a failed calculation
      stores the allocator's validation message and the fallback is never
      shown. */
  lemma FallbackNeverShown(costPerSqft: real, totalSqft: real)
    requires costPerSqft <= 0.0
    ensures !CostMatcher.CalculateADUCost(StoreInput(costPerSqft, totalSqft)).success
    ensures ErrorMessage(CostMatcher.CalculateADUCost(StoreInput(costPerSqft, totalSqft)).error)
         == CostMatcher.InvalidCostMessage
  {
  }

  class CalculatorStore {
    var costPerSqft: real
    var totalSqft: real
    var costBreakdown: Option<CostBreakdown>
    var loading: bool
    var error: Option<string>

    /** The state the store is created with and that `reset` restores. */
    predicate IsInitial()
      reads this
    {
      && costPerSqft == DefaultCost
      && totalSqft == DefaultSqft
      && costBreakdown.None?
      && !loading
      && error.None?
    }

    constructor ()
      ensures IsInitial()
    {
      costPerSqft := DefaultCost;
      totalSqft := DefaultSqft;
      costBreakdown := None;
      loading := false;
      error := None;
    }

    /** Replaces the cost per sqft; nothing else changes. */
    method SetCostPerSqft(cost: real)
      modifies this`costPerSqft
      ensures costPerSqft == cost
    {
      costPerSqft := cost;
    }

    /** Replaces the floor area; nothing else changes. */
    method SetTotalSqft(sqft: real)
      modifies this`totalSqft
      ensures totalSqft == sqft
    {
      totalSqft := sqft;
    }

    /** Runs the allocator on the current cost and area. It first marks the
        store as loading with no error; on success it stores the breakdown
        and clears the error, and on failure it keeps the previous breakdown
        and stores the error message. Either way it ends not loading, and the
        inputs are left as they were. */
    method Calculate()
      modifies this`loading, this`error, this`costBreakdown
      ensures !loading
      ensures var out := CostMatcher.CalculateADUCost(StoreInput(costPerSqft, totalSqft));
        if out.success && out.data.Some? then
          costBreakdown == out.data && error.None?
        else
          costBreakdown == old(costBreakdown) && error == Some(ErrorMessage(out.error))
      ensures error.None? <==> costPerSqft > 0.0
      ensures costPerSqft > 0.0 ==>
        costBreakdown == Some(CostMatcher.Allocate(costPerSqft, CostMatcher.EffectiveSqft(Some(totalSqft))))
      ensures costPerSqft <= 0.0 ==>
        costBreakdown == old(costBreakdown) && error == Some(CostMatcher.InvalidCostMessage)
    {
      loading, error := true, None;
      var result := CostMatcher.CalculateADUCost(StoreInput(costPerSqft, totalSqft));
      if result.success && result.data.Some? {
        costBreakdown, loading, error := result.data, false, None;
      } else {
        loading, error := false, Some(ErrorMessage(result.error));
      }
    }

    /** Restores every field to its initial value; resetting a store that is
        already in its initial state changes nothing. */
    method Reset()
      modifies this
      ensures IsInitial()
      ensures old(IsInitial()) ==> unchanged(this)
    {
      costPerSqft, totalSqft, costBreakdown, loading, error := DefaultCost, DefaultSqft, None, false, None;
    }
  }
}
