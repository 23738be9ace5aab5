/**
 * day52_today_one: draws one not-yet-done wish from the day51 list, kept as
 * the stored dicts.  The pool is the undone items with a non-blank text,
 * narrowed to a category unless "すべて" is chosen; the drawn item's id is
 * remembered, looked up again on each run, and marking it done stamps it
 * and clears the pick.
 */
module TodayOne {
  import opened PyText
  import opened PyJson
  import opened PyList

  /** An item is the stored dict itself. */
  type Item = map<string, Json>

  const Fields: set<string> := {"id", "text", "category", "done", "done_at", "created_at"}

  // ---------------------------------------------------------------------
  // Loading

  /** The value `load_items` gives a missing field. */
  function Default(k: string): Json {
    if k == "id" then JStr("")
    else if k == "text" then JStr("")
    else if k == "category" then JStr("その他")
    else if k == "done" then JBool(false)
    else JNull
  }

  /** The `setdefault` chain of `load_items` on one dict: present fields kept, missing ones defaulted. */
  function LoadItem(d: Item): (r: Item)
    ensures r.Keys == d.Keys + Fields
    ensures forall k :: k in d ==> r[k] == d[k]
    ensures forall k :: k in Fields && k !in d ==> r[k] == Default(k)
  {
    map k | k in d.Keys + Fields :: if k in d then d[k] else Default(k)
  }

  /** The dicts of a stored list, normalised, other entries skipped. */
  function LoadAll(raw: seq<Json>): (r: seq<Item>)
    ensures |r| <= |raw|
    ensures forall it :: it in r ==> Fields <= it.Keys
  {
    if raw == [] then []
    else
      var n := |raw| - 1;
      if raw[n].JObject? then LoadAll(raw[..n]) + [LoadItem(raw[n].fields)] else LoadAll(raw[..n])
  }

  /** `load_items(path)` on the decoded file object: its "items" entry when a list, else nothing. */
  method LoadItems(raw: map<string, Json>) returns (items: seq<Item>)
    ensures !Get(raw, "items", JList([])).JList? ==> items == []
    ensures Get(raw, "items", JList([])).JList? ==> items == LoadAll(Get(raw, "items", JList([])).items)
  {
    items := [];
    var listed := Get(raw, "items", JList([]));
    if !listed.JList? {
      return;
    }
    var xs := listed.items;
    for n := 0 to |xs|
      invariant items == LoadAll(xs[..n])
    {
      assert xs[..n + 1][..n] == xs[..n];
      if xs[n].JObject? {
        items := items + [LoadItem(xs[n].fields)];
      }
    }
    assert xs[..|xs|] == xs;
  }

  // ---------------------------------------------------------------------
  // Counts and the pool

  predicate IsDone(x: Item) {
    Truthy(Get(x, "done", JNull))
  }

  /** Not done and `str(x.get("text", "")).strip()` non-empty. */
  predicate IsTodo(x: Item) {
    !IsDone(x) && !IsBlank(StrOf(Get(x, "text", JStr(""))))
  }

  function DoneFn(): Item -> bool { x => IsDone(x) }

  function NotDoneFn(): Item -> bool { x => !IsDone(x) }

  function TodoFn(): Item -> bool { x => IsTodo(x) }

  /** `done_count` and `todo_count`. */
  function Counts(items: seq<Item>): (c: (nat, nat))
    ensures c.0 == |Filter(items, DoneFn())| && c.1 == |Filter(items, TodoFn())|
    ensures c.0 + |Filter(items, NotDoneFn())| == |items|
    ensures c.0 + c.1 <= |items|
  {
    FilterComplement(items, DoneFn(), NotDoneFn());
    FilterStricter(items, TodoFn(), NotDoneFn());
    (|Filter(items, DoneFn())|, |Filter(items, TodoFn())|)
  }

  /** An undone item with a blank text is in neither count, so the two fall short of the total. */
  lemma BlankUndoneUncounted(items: seq<Item>, i: int)
    requires 0 <= i < |items| && !IsDone(items[i]) && !IsTodo(items[i])
    ensures Counts(items).0 + Counts(items).1 < |items|
  {
    var rest := items[..i] + items[i + 1..];
    assert items == items[..i] + [items[i]] + items[i + 1..];
    FilterAppend(items[..i] + [items[i]], items[i + 1..], DoneFn());
    FilterAppend(items[..i], [items[i]], DoneFn());
    FilterAppend(items[..i], items[i + 1..], DoneFn());
    FilterAppend(items[..i] + [items[i]], items[i + 1..], TodoFn());
    FilterAppend(items[..i], [items[i]], TodoFn());
    FilterAppend(items[..i], items[i + 1..], TodoFn());
    assert [items[i]][1..] == [];
    assert |Filter(items, DoneFn())| == |Filter(rest, DoneFn())|;
    assert |Filter(items, TodoFn())| == |Filter(rest, TodoFn())|;
    assert Counts(rest).0 + Counts(rest).1 <= |rest|;
  }

  /** The category filter: none for "" (no choice) and for "すべて". */
  function InCategory(category: string): Item -> bool {
    x => category == "" || category == "すべて" || Get(x, "category", JNull) == JStr(category)
  }

  /** The pool `pick_one` draws from. */
  function Pool(items: seq<Item>, category: string): seq<Item> {
    Filter(Filter(items, TodoFn()), InCategory(category))
  }

  /** `pick_one(items, category)`, with `random.choice` given as the draw `choose`, taken modulo the pool size. */
  function PickOne(items: seq<Item>, category: string, choose: nat): (r: Option<Item>)
    ensures r.None? <==> Pool(items, category) == []
    ensures r.Some? ==> r.value in Pool(items, category)
    ensures r.Some? ==> r.value in items && IsTodo(r.value) && InCategory(category)(r.value)
  {
    var pool := Pool(items, category);
    if pool == [] then None
    else
      var x := pool[choose % |pool|];
      assert x in Filter(items, TodoFn());
      Some(x)
  }

  /** Every item of the pool can be drawn. */
  lemma EveryPoolItemDrawable(items: seq<Item>, category: string, k: nat)
    requires k < |Pool(items, category)|
    ensures PickOne(items, category, k) == Some(Pool(items, category)[k])
  {
    var pool := Pool(items, category);
    ModSmall(k, |pool|);
  }

  lemma ModSmall(k: nat, n: nat)
    requires k < n
    ensures k % n == k
  {
  }

  /** `find_by_id`: the index of the first item whose "id" equals `id`. */
  method FindById(items: seq<Item>, id: Json) returns (r: Option<nat>)
    ensures r.Some? ==> r.value < |items| && Get(items[r.value], "id", JNull) == id
    ensures r.Some? ==> forall j :: 0 <= j < r.value ==> Get(items[j], "id", JNull) != id
    ensures r.None? ==> forall j :: 0 <= j < |items| ==> Get(items[j], "id", JNull) != id
  {
    for n := 0 to |items|
      invariant forall j :: 0 <= j < n ==> Get(items[j], "id", JNull) != id
    {
      if Get(items[n], "id", JNull) == id {
        return Some(n);
      }
    }
    return None;
  }

  datatype Celebration = FirstDone | Ten | Fifty | Hundred | Plain

  /** `celebrate_message(done_count)`: 1, 10 and 50 exactly, then 100 or more. */
  function CelebrateMessage(doneCount: int): (c: Celebration)
    ensures c == FirstDone <==> doneCount == 1
    ensures c == Ten <==> doneCount == 10
    ensures c == Fifty <==> doneCount == 50
    ensures c == Hundred <==> doneCount >= 100
  {
    if doneCount == 1 then FirstDone
    else if doneCount == 10 then Ten
    else if doneCount == 50 then Fifty
    else if doneCount >= 100 then Hundred
    else Plain
  }

  // ---------------------------------------------------------------------
  // The page

  class Picker {
    var items: seq<Item>
    /** `st.session_state["picked_id"]`. */
    var pickedId: Json

    /** Every item has the loaded fields. */
    predicate Valid()
      reads this
    {
      forall x :: x in items ==> Fields <= x.Keys
    }

    constructor(items0: seq<Item>)
      requires forall x :: x in items0 ==> Fields <= x.Keys
      ensures items == items0 && pickedId == JNull && Valid()
    {
      items := items0;
      pickedId := JNull;
    }

    /** "今日の1個を決める" and "別の1個にする": the drawn item's id, or None when the pool is empty. */
    method Draw(category: string, choose: nat)
      requires Valid()
      modifies this
      ensures items == old(items) && Valid()
      ensures var p := PickOne(items, category, choose);
        pickedId == if p.Some? then p.value["id"] else JNull
    {
      var p := PickOne(items, category, choose);
      pickedId := if p.Some? then p.value["id"] else JNull;
    }

    /** `picked_item`: looked up by id, and only when the remembered id is truthy. */
    method Shown() returns (r: Option<nat>)
      ensures r.Some? ==> Truthy(pickedId) && r.value < |items| && Get(items[r.value], "id", JNull) == pickedId
      ensures !Truthy(pickedId) ==> r.None?
    {
      if Truthy(pickedId) {
        r := FindById(items, pickedId);
      } else {
        r := None;
      }
    }

    /**
     * "やった！達成にする" on the shown item at `i`: the first item with its
     * id is stamped done at `now`, the celebration uses the new done count,
     * and the pick is cleared.
     */
    method MarkDone(i: nat, now: string) returns (c: Celebration)
      requires Valid() && i < |items|
      modifies this
      ensures Valid() && pickedId == JNull
      ensures exists t :: (0 <= t < |old(items)| && old(items)[t]["id"] == old(items)[i]["id"]
        && (forall j :: 0 <= j < t ==> Get(old(items)[j], "id", JNull) != old(items)[i]["id"])
        && items == old(items)[t := old(items)[t]["done" := JBool(true)]["done_at" := JStr(now)]])
      ensures c == CelebrateMessage(|Filter(items, DoneFn())|)
    {
      assert items[i] in items;
      var t := FindById(items, items[i]["id"]);
      var k := t.value;
      assert items[k] in items;
      items := items[k := items[k]["done" := JBool(true)]["done_at" := JStr(now)]];
      pickedId := JNull;
      c := CelebrateMessage(|Filter(items, DoneFn())|);
    }
  }

  /** Marking an undone item done raises the done count by exactly one. */
  lemma MarkDoneCount(items: seq<Item>, t: int, now: string)
    requires 0 <= t < |items| && !IsDone(items[t])
    ensures |Filter(items[t := items[t]["done" := JBool(true)]["done_at" := JStr(now)]], DoneFn())| == |Filter(items, DoneFn())| + 1
  {
    FilterUpdateCount(items, t, items[t]["done" := JBool(true)]["done_at" := JStr(now)], DoneFn());
  }

  /** An item stored without an id gets "", which can be drawn but is never shown: "" is falsy. */
  lemma BlankIdNeverShown(x: Item)
    requires IsTodo(x) && "id" !in x
    ensures var it := LoadItem(x);
      PickOne([it], "すべて", 0) == Some(it) && !Truthy(it["id"])
  {
    var it := LoadItem(x);
    assert Filter([it], TodoFn()) == [it];
    assert Filter([it], InCategory("すべて")) == [it];
  }
}
