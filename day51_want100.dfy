/**
 * day51_want100: up to a hundred things the user wants to do, kept as the
 * stored dicts.  Loading fills the missing fields, adding refuses a blank
 * text and a full list, ticking an item records when it was done, and the
 * tabs put each item under its category, unknown or empty ones under
 * "その他".
 */
module Want100 {
  import opened PyText
  import opened PyJson
  import opened PyList

  const Categories: seq<string> := ["仕事", "お金", "家族", "体験", "自由", "健康", "その他"]

  /** `MAX_ITEMS`. */
  const MaxItems: int := 100

  /** An item is the stored dict itself. */
  type Item = map<string, Json>

  /** The six fields every loaded item has. */
  const Fields: set<string> := {"id", "text", "category", "done", "done_at", "created_at"}

  // ---------------------------------------------------------------------
  // Loading

  /** The value `load_items` gives a missing field. */
  function Default(k: string, freshId: string, now: string): Json {
    if k == "id" then JStr(freshId)
    else if k == "text" then JStr("")
    else if k == "category" then JStr("その他")
    else if k == "done" then JBool(false)
    else if k == "done_at" then JNull
    else JStr(now)
  }

  /** The `setdefault` chain of `load_items` on one dict: present fields kept, missing ones defaulted. */
  function LoadItem(d: Item, freshId: string, now: string): (r: Item)
    ensures r.Keys == d.Keys + Fields
    ensures forall k :: k in d ==> r[k] == d[k]
    ensures forall k :: k in Fields && k !in d ==> r[k] == Default(k, freshId, now)
  {
    map k | k in d.Keys + Fields :: if k in d then d[k] else Default(k, freshId, now)
  }

  /** The dicts of a stored list, normalised, other entries skipped. */
  function LoadAll(raw: seq<Json>, freshIds: seq<string>, now: string): (r: seq<Item>)
    requires |freshIds| == |raw|
    ensures |r| <= |raw|
    ensures forall it :: it in r ==> Fields <= it.Keys
  {
    if raw == [] then []
    else
      var n := |raw| - 1;
      var done := LoadAll(raw[..n], freshIds[..n], now);
      if raw[n].JObject? then done + [LoadItem(raw[n].fields, freshIds[n], now)] else done
  }

  /**
   * `load_items()` on the decoded file object: its "items" entry, when a
   * list, normalised; anything else gives no items.  `freshIds` are the
   * uuids drawn for the entries.
   */
  method LoadItems(raw: map<string, Json>, freshIds: seq<string>, now: string) returns (items: seq<Item>)
    requires Get(raw, "items", JList([])).JList? ==> |freshIds| == |Get(raw, "items", JList([])).items|
    ensures !Get(raw, "items", JList([])).JList? ==> items == []
    ensures Get(raw, "items", JList([])).JList? ==> items == LoadAll(Get(raw, "items", JList([])).items, freshIds, now)
  {
    items := [];
    var listed := Get(raw, "items", JList([]));
    if !listed.JList? {
      return;
    }
    var xs := listed.items;
    for n := 0 to |xs|
      invariant items == LoadAll(xs[..n], freshIds[..n], now)
    {
      assert xs[..n + 1][..n] == xs[..n] && freshIds[..n + 1][..n] == freshIds[..n];
      if xs[n].JObject? {
        items := items + [LoadItem(xs[n].fields, freshIds[n], now)];
      }
    }
    assert xs[..|xs|] == xs && freshIds[..|xs|] == freshIds;
  }

  // ---------------------------------------------------------------------
  // Counts

  /** `x.get("done")` is truthy. */
  predicate IsDone(it: Item) {
    Truthy(Get(it, "done", JNull))
  }

  function DoneFn(): Item -> bool { it => IsDone(it) }

  function NotDoneFn(): Item -> bool { it => !IsDone(it) }

  /** The header: achieved, remaining slots (never below 0) and not achieved. */
  function Header(items: seq<Item>): (h: (int, int, int))
    ensures h.0 == |Filter(items, DoneFn())| && h.2 == |Filter(items, NotDoneFn())|
    ensures h.0 + h.2 == |items|
    ensures h.1 == if |items| >= MaxItems then 0 else MaxItems - |items|
  {
    FilterComplement(items, DoneFn(), NotDoneFn());
    var remaining := MaxItems - |items|;
    (|Filter(items, DoneFn())|, if remaining < 0 then 0 else remaining, |Filter(items, NotDoneFn())|)
  }

  datatype Celebration = FirstStep | Ten | Fifty | Hundred | Plain

  /** `celebrate_message(done_count)`: 1, 10 and 50 exactly, then 100 or more. */
  function CelebrateMessage(doneCount: int): (c: Celebration)
    ensures c == FirstStep <==> doneCount == 1
    ensures c == Ten <==> doneCount == 10
    ensures c == Fifty <==> doneCount == 50
    ensures c == Hundred <==> doneCount >= 100
  {
    if doneCount == 1 then FirstStep
    else if doneCount == 10 then Ten
    else if doneCount == 50 then Fifty
    else if doneCount >= 100 then Hundred
    else Plain
  }

  function CelebrationText(c: Celebration): string {
    match c
    case FirstStep => "🎉 はじめの一歩！現実が動き始めた。"
    case Ten => "🎊 10個達成！意識が完全に現実へ向いてる。"
    case Fifty => "🏆 50個達成！ここまで来たのは本物。"
    case Hundred => "🌈 100個達成！あなたは現実をデザインした。"
    case Plain => "✨ おめでとう。これはあなたが動かした現実。"
  }

  // ---------------------------------------------------------------------
  // Tabs

  /** The tab of an item: its category when that is one of the tabs, otherwise "その他". */
  function TabOf(it: Item): (c: string)
    ensures c in Categories
    ensures Get(it, "category", JNull).JStr? && Get(it, "category", JNull).s in Categories ==> c == Get(it, "category", JNull).s
    ensures !(Get(it, "category", JNull).JStr? && Get(it, "category", JNull).s in Categories) ==> c == "その他"
  {
    var cat := Get(it, "category", JNull);
    if cat.JStr? && cat.s in Categories then cat.s else "その他"
  }

  function InTab(c: string): Item -> bool { it => TabOf(it) == c }

  /** The tabs of a list: each category with the items whose tab it is, in order. */
  function Tabs(items: seq<Item>): (tabs: map<string, seq<Item>>)
    ensures tabs.Keys == set c | c in Categories
  {
    map c | c in Categories :: Filter(items, InTab(c))
  }

  /** One more item lands at the end of its own tab and nowhere else. */
  lemma TabsStep(items: seq<Item>, it: Item)
    ensures Tabs(items + [it]) == Tabs(items)[TabOf(it) := Tabs(items)[TabOf(it)] + [it]]
  {
    var after, before := Tabs(items + [it]), Tabs(items);
    forall c | c in after
      ensures after[c] == before[TabOf(it) := before[TabOf(it)] + [it]][c]
    {
      FilterAppend(items, [it], InTab(c));
      assert [it][1..] == [];
    }
  }

  /** The `tab_map` loop: every tab lists, in order, the items whose tab it is. */
  method BuildTabs(items: seq<Item>) returns (tabs: map<string, seq<Item>>)
    ensures tabs == Tabs(items)
  {
    tabs := map c | c in Categories :: [];
    assert tabs == Tabs([]);
    for n := 0 to |items|
      invariant tabs == Tabs(items[..n])
    {
      var it := items[n];
      assert items[..n + 1] == items[..n] + [it];
      TabsStep(items[..n], it);
      var cat := TabOf(it);
      tabs := tabs[cat := tabs[cat] + [it]];
    }
    assert items[..|items|] == items;
  }

  /** Each item is listed under exactly one tab. */
  lemma OneTabEach(items: seq<Item>, it: Item, c: string)
    requires it in items && c in Categories
    ensures it in Filter(items, InTab(c)) <==> c == TabOf(it)
  {
    FilterMultiset(items, InTab(c), it);
    assert it in multiset(items);
  }

  // ---------------------------------------------------------------------
  // The list

  datatype AddOutcome = Blank | Full | Added

  class Wants {
    var items: seq<Item>

    constructor(items0: seq<Item>)
      ensures items == items0
    {
      items := items0;
    }

    /** "追加する": a blank text is refused, then a full list; otherwise a fresh item is appended. */
    method Add(text: string, category: string, freshId: string, now: string) returns (outcome: AddOutcome)
      modifies this
      ensures outcome == Blank <==> IsBlank(text)
      ensures outcome == Full <==> !IsBlank(text) && |old(items)| >= MaxItems
      ensures outcome == Added ==> items == old(items) + [map["id" := JStr(freshId), "text" := JStr(Strip(text)),
        "category" := JStr(category), "done" := JBool(false), "done_at" := JNull, "created_at" := JStr(now)]]
      ensures outcome != Added ==> items == old(items)
      ensures |old(items)| <= MaxItems ==> |items| <= MaxItems
    {
      if IsBlank(text) {
        outcome := Blank;
      } else if |items| >= MaxItems {
        outcome := Full;
      } else {
        items := items + [map["id" := JStr(freshId), "text" := JStr(Strip(text)),
          "category" := JStr(category), "done" := JBool(false), "done_at" := JNull, "created_at" := JStr(now)]];
        outcome := Added;
      }
    }

    /**
     * A checkbox that differs from the item's state: done takes the box's
     * value and done_at the time, or None when unticked; ticking shows the
     * celebration for the new done count.
     */
    method Toggle(i: int, checked: bool, now: string) returns (changed: bool, shown: Option<Celebration>)
      requires 0 <= i < |items|
      modifies this
      ensures changed <==> checked != IsDone(old(items)[i])
      ensures !changed ==> items == old(items) && shown == None
      ensures changed ==> items == old(items)[i := old(items)[i]["done" := JBool(checked)]["done_at" := if checked then JStr(now) else JNull]]
      ensures changed ==> IsDone(items[i]) == checked
      ensures changed ==> |Filter(items, DoneFn())| == |Filter(old(items), DoneFn())| + (if checked then 1 else -1)
      ensures shown == if changed && checked then Some(CelebrateMessage(|Filter(items, DoneFn())|)) else None
    {
      changed := checked != IsDone(items[i]);
      shown := None;
      if changed {
        var it := items[i]["done" := JBool(checked)]["done_at" := if checked then JStr(now) else JNull];
        FilterUpdateCount(items, i, it, DoneFn());
        items := items[i := it];
        if checked {
          shown := Some(CelebrateMessage(|Filter(items, DoneFn())|));
        }
      }
    }

    /** "全削除". */
    method ClearAll()
      modifies this
      ensures items == []
    {
      items := [];
    }
  }
}
