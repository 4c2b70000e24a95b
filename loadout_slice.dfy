/** The loadout slice: the saved loadouts and the status of the last fetch. Its status never
    becomes 'succeeded': a completed fetch goes back to 'idle'. */
module LoadoutSlice {
  import opened Wrappers
  import opened Lists
  import opened MockApi
  import opened RequestStatus

  const FetchLoadoutsError: string := "Failed to fetch loadouts"

  class LoadoutStore {
    var items: seq<Loadout>
    var status: Status
    var error: Option<string>

    /** The statuses this slice can be in */
    predicate Valid()
      reads this
    {
      status != Succeeded
    }

    /** initialState */
    constructor()
      ensures Valid()
      ensures items == [] && status == Idle && error == None
    {
      items, status, error := [], Idle, None;
    }

    /** fetchLoadouts.pending */
    method FetchPending()
      modifies this
      ensures Valid()
      ensures status == Loading && items == old(items) && error == old(error)
    {
      status := Loading;
    }

    /** fetchLoadouts.fulfilled: back to 'idle' with the fetched list */
    method FetchFulfilled(payload: seq<Loadout>)
      modifies this
      ensures Valid()
      ensures status == Idle && items == payload && error == old(error)
    {
      status := Idle;
      items := payload;
    }

    /** fetchLoadouts.rejected: a fixed message; the list is kept */
    method FetchRejected()
      modifies this
      ensures Valid()
      ensures status == Failed && error == Some(FetchLoadoutsError) && items == old(items)
    {
      status := Failed;
      error := Some(FetchLoadoutsError);
    }

    /** addLoadout.fulfilled: the new loadout goes at the end */
    method AddFulfilled(payload: Loadout)
      requires Valid()
      modifies this
      ensures Valid()
      ensures items == old(items) + [payload]
      ensures |items| == |old(items)| + 1 && items[..|old(items)|] == old(items) && items[|items| - 1] == payload
      ensures status == old(status) && error == old(error)
    {
      items := items + [payload];
    }

    /** editLoadout.fulfilled: the first loadout with the payload's id is replaced */
    method EditFulfilled(payload: Loadout)
      requires Valid()
      modifies this
      ensures Valid()
      ensures items == ReplaceFirst(old(items), LoadoutId, payload)
      ensures status == old(status) && error == old(error)
    {
      var index := FindIndex(items, LoadoutId, payload.id);
      if index != -1 {
        items := items[index := payload];
      }
    }

    /** removeLoadout.fulfilled: every loadout with the id is dropped */
    method RemoveFulfilled(id: string)
      requires Valid()
      modifies this
      ensures Valid()
      ensures items == RemoveAll(old(items), LoadoutId, id)
      ensures status == old(status) && error == old(error)
    {
      items := RemoveAll(items, LoadoutId, id);
    }
  }

  /** After a removal no loadout carries the id, every other loadout is still there, and the order
      of the survivors is that of the original list */
  lemma RemoveKeepsOthers(items: seq<Loadout>, id: string, k: nat)
    requires k <= |items|
    ensures forall x :: x in RemoveAll(items, LoadoutId, id) ==> x.id != id
    ensures forall j :: 0 <= j < |items| && items[j].id != id ==> items[j] in RemoveAll(items, LoadoutId, id)
    ensures RemoveAll(items, LoadoutId, id) == RemoveAll(items[..k], LoadoutId, id) + RemoveAll(items[k..], LoadoutId, id)
  {
    var r := RemoveAll(items, LoadoutId, id);
    assert forall j :: 0 <= j < |r| ==> LoadoutId(r[j]) == r[j].id;
    assert forall j :: 0 <= j < |items| ==> LoadoutId(items[j]) == items[j].id;
    assert items == items[..k] + items[k..];
    RemoveAllAppend(items[..k], items[k..], LoadoutId, id);
  }

  /** An edit keeps the length, and with no loadout of that id it changes nothing */
  lemma EditKeepsShape(items: seq<Loadout>, payload: Loadout)
    ensures |ReplaceFirst(items, LoadoutId, payload)| == |items|
    ensures (forall j :: 0 <= j < |items| ==> items[j].id != payload.id) ==> ReplaceFirst(items, LoadoutId, payload) == items
    ensures (exists j :: 0 <= j < |items| && items[j].id == payload.id) ==> payload in ReplaceFirst(items, LoadoutId, payload)
  {
    assert forall j :: 0 <= j < |items| ==> LoadoutId(items[j]) == items[j].id;
  }
}
