/** The list idioms the reducers and the mock API are written with, over records that carry a
    string id: `findIndex(x => x.id === id)`, replace-at-found-index, `map` over matching ids and
    `filter(x => x.id !== id)`. The id of a record is read through `key`. */
module Lists {

  /** `findIndex`: the first position whose key is `id`, or -1 when there is none */
  function FindIndex<T>(xs: seq<T>, key: T -> string, id: string): (r: int)
    ensures -1 <= r < |xs|
    ensures r >= 0 ==> key(xs[r]) == id
    ensures forall j :: 0 <= j < |xs| && (r == -1 || j < r) ==> key(xs[j]) != id
    decreases |xs|
  {
    if |xs| == 0 then -1
    else if key(xs[0]) == id then 0
    else
      var k := FindIndex(xs[1..], key, id);
      if k == -1 then -1 else k + 1
  }

  /** The first record with key `id` is rewritten by `f`; every other position keeps its record
      (the `find` followed by an in-place field update of the local reducers) */
  function UpdateFirst<T>(xs: seq<T>, key: T -> string, id: string, f: T -> T): (r: seq<T>)
    ensures |r| == |xs|
    ensures forall j :: 0 <= j < |xs| ==> r[j] == if j == FindIndex(xs, key, id) then f(xs[j]) else xs[j]
    ensures FindIndex(xs, key, id) == -1 ==> r == xs
  {
    var i := FindIndex(xs, key, id);
    if i == -1 then xs else xs[i := f(xs[i])]
  }

  /** `items[findIndex(i => i.id === x.id)] = x` when that index is not -1 */
  function ReplaceFirst<T>(xs: seq<T>, key: T -> string, x: T): (r: seq<T>)
    ensures |r| == |xs|
    ensures forall j :: 0 <= j < |xs| ==> r[j] == if j == FindIndex(xs, key, key(x)) then x else xs[j]
    ensures FindIndex(xs, key, key(x)) == -1 ==> r == xs
    ensures FindIndex(xs, key, key(x)) >= 0 ==> x in r
  {
    var i := FindIndex(xs, key, key(x));
    if i == -1 then xs else xs[i := x]
  }

  /** `map(x => x.id === id ? f(x) : x)`: every record with key `id` is rewritten by `f` */
  function UpdateAll<T>(xs: seq<T>, key: T -> string, id: string, f: T -> T): (r: seq<T>)
    ensures |r| == |xs|
    ensures forall j :: 0 <= j < |xs| ==> r[j] == if key(xs[j]) == id then f(xs[j]) else xs[j]
    decreases |xs|
  {
    if |xs| == 0 then []
    else [if key(xs[0]) == id then f(xs[0]) else xs[0]] + UpdateAll(xs[1..], key, id, f)
  }

  /** `filter(x => x.id !== id)` */
  function RemoveAll<T>(xs: seq<T>, key: T -> string, id: string): (r: seq<T>)
    ensures |r| <= |xs|
    ensures forall j :: 0 <= j < |r| ==> r[j] in xs && key(r[j]) != id
    ensures forall j :: 0 <= j < |xs| && key(xs[j]) != id ==> xs[j] in r
    ensures FindIndex(xs, key, id) == -1 ==> r == xs
    decreases |xs|
  {
    if |xs| == 0 then []
    else (if key(xs[0]) != id then [xs[0]] else []) + RemoveAll(xs[1..], key, id)
  }

  /** Overwriting a record that the filter drops by another one it drops leaves the filter's
      result unchanged */
  lemma {:induction false} RemoveAllOverwrite<T>(xs: seq<T>, key: T -> string, id: string, i: int, x: T)
    requires 0 <= i < |xs| && key(xs[i]) == id && key(x) == id
    ensures RemoveAll(xs[i := x], key, id) == RemoveAll(xs, key, id)
    decreases |xs|
  {
    if i == 0 {
      assert xs[i := x][1..] == xs[1..];
    } else {
      assert xs[i := x][1..] == xs[1..][i - 1 := x];
      RemoveAllOverwrite(xs[1..], key, id, i - 1, x);
    }
  }

  /** Filtering a concatenation filters each part and keeps them in order: together with the
      membership clause of RemoveAll this says the survivors keep their original order. */
  lemma {:induction false} RemoveAllAppend<T>(a: seq<T>, b: seq<T>, key: T -> string, id: string)
    ensures RemoveAll(a + b, key, id) == RemoveAll(a, key, id) + RemoveAll(b, key, id)
    decreases |a|
  {
    if |a| == 0 {
      assert a + b == b;
    } else {
      assert (a + b)[1..] == a[1..] + b;
      RemoveAllAppend(a[1..], b, key, id);
    }
  }

  /** FindIndex looks only at the keys */
  lemma {:induction false} FindIndexSameKeys<T>(xs: seq<T>, ys: seq<T>, key: T -> string, id: string)
    requires |xs| == |ys|
    requires forall j :: 0 <= j < |xs| ==> key(xs[j]) == key(ys[j])
    ensures FindIndex(xs, key, id) == FindIndex(ys, key, id)
    decreases |xs|
  {
    if |xs| > 0 {
      FindIndexSameKeys(xs[1..], ys[1..], key, id);
    }
  }

  /** An id-preserving involution applied twice to the first match restores the list */
  lemma UpdateFirstTwice<T>(xs: seq<T>, key: T -> string, id: string, f: T -> T)
    requires forall x :: key(f(x)) == key(x) && f(f(x)) == x
    ensures UpdateFirst(UpdateFirst(xs, key, id, f), key, id, f) == xs
  {
    var ys := UpdateFirst(xs, key, id, f);
    FindIndexSameKeys(xs, ys, key, id);
    var zs := UpdateFirst(ys, key, id, f);
    assert forall j :: 0 <= j < |xs| ==> zs[j] == xs[j];
  }

  /** An id-preserving involution applied twice to every match restores the list */
  lemma UpdateAllTwice<T>(xs: seq<T>, key: T -> string, id: string, f: T -> T)
    requires forall x :: key(f(x)) == key(x) && f(f(x)) == x
    ensures UpdateAll(UpdateAll(xs, key, id, f), key, id, f) == xs
  {
    var zs := UpdateAll(UpdateAll(xs, key, id, f), key, id, f);
    assert forall j :: 0 <= j < |xs| ==> zs[j] == xs[j];
  }

  /** Ids are unique: no two positions carry the same key */
  ghost predicate UniqueKeys<T>(xs: seq<T>, key: T -> string) {
    forall i, j :: 0 <= i < j < |xs| ==> key(xs[i]) != key(xs[j])
  }

  /** Over a list with unique ids, rewriting the first match is rewriting every match */
  lemma UpdateFirstIsUpdateAll<T>(xs: seq<T>, key: T -> string, id: string, f: T -> T)
    requires UniqueKeys(xs, key)
    ensures UpdateFirst(xs, key, id, f) == UpdateAll(xs, key, id, f)
  {
    var a, b := UpdateFirst(xs, key, id, f), UpdateAll(xs, key, id, f);
    assert forall j :: 0 <= j < |xs| ==> a[j] == b[j];
  }
}
