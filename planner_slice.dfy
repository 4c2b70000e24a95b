/** The planner slice: the current path result, the request status and the history of results */
module PlannerSlice {
  import opened Wrappers
  import opened MockApi
  import opened RequestStatus

  class PlannerStore {
    var currentResult: Option<PathResult>
    var status: Status
    var history: seq<PathResult>

    /** A current result is always the latest entry of the history */
    predicate Valid()
      reads this
    {
      currentResult.Some? ==> |history| > 0 && currentResult.value == history[|history| - 1]
    }

    /** initialState: no result, idle, empty history */
    constructor()
      ensures Valid()
      ensures currentResult == None && status == Idle && history == []
    {
      currentResult, status, history := None, Idle, [];
    }

    /** clearResult */
    method ClearResult()
      requires Valid()
      modifies this
      ensures Valid()
      ensures currentResult == None && status == old(status) && history == old(history)
    {
      currentResult := None;
    }

    /** calculateBossPath.pending */
    method Pending()
      requires Valid()
      modifies this
      ensures Valid()
      ensures status == Loading && currentResult == old(currentResult) && history == old(history)
    {
      status := Loading;
    }

    /** calculateBossPath.fulfilled: the result becomes current and joins the history */
    method Fulfilled(payload: PathResult)
      requires Valid()
      modifies this
      ensures Valid()
      ensures status == Succeeded && currentResult == Some(payload)
      ensures history == old(history) + [payload]
      ensures |history| == |old(history)| + 1 && history[|history| - 1] == payload
    {
      status := Succeeded;
      currentResult := Some(payload);
      history := history + [payload];
    }

    /** calculateBossPath.rejected */
    method Rejected()
      requires Valid()
      modifies this
      ensures Valid()
      ensures status == Failed && currentResult == old(currentResult) && history == old(history)
    {
      status := Failed;
    }
  }
}
