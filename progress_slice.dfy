/** The progress slice: the player's log entries, newest first, with a request status */
module ProgressSlice {
  import opened Wrappers
  import opened Lists
  import opened RequestStatus

  datatype ProgressKind = WeaponEntry | BossEntry | LevelEntry | Achievement

  datatype ProgressItem = ProgressItem(
    id: string,
    kind: ProgressKind,
    title: string,
    description: string,
    date: string,
    completed: bool)

  function ProgressId(item: ProgressItem): string {
    item.id
  }

  const FetchLogsError: string := "Failed to fetch logs"

  class ProgressStore {
    var items: seq<ProgressItem>
    var status: Status
    var error: Option<string>

    /** initialState */
    constructor()
      ensures items == [] && status == Idle && error == None
    {
      items, status, error := [], Idle, None;
    }

    /** fetchLogs.pending */
    method FetchPending()
      modifies this
      ensures status == Loading && items == old(items) && error == old(error)
    {
      status := Loading;
    }

    /** fetchLogs.fulfilled */
    method FetchFulfilled(payload: seq<ProgressItem>)
      modifies this
      ensures status == Succeeded && items == payload && error == old(error)
    {
      status := Succeeded;
      items := payload;
    }

    /** fetchLogs.rejected: the error's message, or a fixed text when it has none */
    method FetchRejected(message: string)
      modifies this
      ensures status == Failed && error == Some(OrElse(message, FetchLogsError)) && items == old(items)
    {
      status := Failed;
      error := Some(OrElse(message, FetchLogsError));
    }

    /** addLogEntry.fulfilled: `unshift`, the new entry goes first */
    method AddFulfilled(payload: ProgressItem)
      modifies this
      ensures items == [payload] + old(items)
      ensures |items| == |old(items)| + 1 && items[0] == payload
      ensures forall i :: 0 <= i < |old(items)| ==> items[i + 1] == old(items)[i]
      ensures status == old(status) && error == old(error)
    {
      items := [payload] + items;
    }

    /** toggleLogStatus.fulfilled: the first entry with the payload's id is replaced */
    method ToggleFulfilled(payload: ProgressItem)
      modifies this
      ensures items == ReplaceFirst(old(items), ProgressId, payload)
      ensures |items| == |old(items)|
      ensures status == old(status) && error == old(error)
    {
      var index := FindIndex(items, ProgressId, payload.id);
      if index != -1 {
        items := items[index := payload];
      }
    }
  }

  /** Replacing an entry by its own new version and then by the old one restores the log, as long
      as the id occurs once */
  lemma ToggleUndone(items: seq<ProgressItem>, i: nat, payload: ProgressItem)
    requires i < |items| && payload.id == items[i].id
    requires forall j :: 0 <= j < |items| && j != i ==> items[j].id != items[i].id
    ensures ReplaceFirst(ReplaceFirst(items, ProgressId, payload), ProgressId, items[i]) == items
  {
    var once := ReplaceFirst(items, ProgressId, payload);
    assert FindIndex(items, ProgressId, payload.id) == i by {
      assert forall j :: 0 <= j < |items| ==> ProgressId(items[j]) == items[j].id;
    }
    FindIndexSameKeys(items, once, ProgressId, payload.id);
    var twice := ReplaceFirst(once, ProgressId, items[i]);
    assert forall j :: 0 <= j < |items| ==> twice[j] == items[j];
  }
}
