/**
 * day38_hatsubaibi: a list of upcoming releases. Release dates are optional
 * `YYYY-MM-DD` texts; the list is filtered, sorted, exported to CSV and
 * extended by importing CSV rows.
 */
module Hatsubaibi {
  import opened Calendar
  import opened DateText
  import opened PyText
  import opened PyList
  import opened Sorting

  datatype Item = Item(id: string, title: string, releaseDate: string, category: string, status: string,
                       url: string, imageUrl: string, memo: string, createdAt: string)

  // ---------------------------------------------------------------------
  // Release dates

  /** `parse_date_yyyy_mm_dd(s)`: blank is fine (to be decided), otherwise strptime must accept the stripped text. */
  function ParseDate(s: string): (r: (bool, string))
    ensures IsBlank(s) ==> r == (true, "")
    ensures !IsBlank(s) && StrptimeYmd(Strip(s)).Some? ==> r == (true, Strip(s))
    ensures !IsBlank(s) && StrptimeYmd(Strip(s)).None? ==> r == (false, "")
  {
    var t := Strip(s);
    if t == [] then (true, "")
    else if StrptimeYmd(t).Some? then (true, t)
    else (false, "")
  }

  /** An accepted date text is kept as typed (only stripped), and accepting it again changes nothing. */
  lemma ParseDateIdempotent(s: string)
    requires ParseDate(s).0
    ensures ParseDate(ParseDate(s).1) == ParseDate(s)
  {
    StripIdempotent(s);
  }

  /** The ISO text of every date is accepted verbatim. */
  lemma ParseDateIso(d: Date)
    requires InPyRange(d)
    ensures ParseDate(Iso(d)) == (true, Iso(d))
  {
    StrptimeIso(d);
    IsoShape(d);
    NoSpaceEnds(Iso(d));
  }

  /** `days_until(date_str)`: days from today, None when blank or unreadable. */
  function DaysUntil(s: string, today: Date): (r: Option<int>)
    requires Valid(today)
    ensures r.None? <==> s == "" || StrptimeYmd(s).None?
    ensures r.Some? ==> AddDays(today, r.value) == StrptimeYmd(s).value
  {
    if s == "" then None
    else match StrptimeYmd(s)
      case None => None
      case Some(d) =>
        var n := Ordinal(d) - Ordinal(today);
        OrdinalInjective(AddDays(today, n), d);
        Some(n)
  }

  /** A date's ISO text is exactly its distance from today. */
  lemma DaysUntilIso(d: Date, today: Date)
    requires InPyRange(d) && Valid(today)
    ensures DaysUntil(Iso(d), today) == Some(DiffDays(d, today))
  {
    StrptimeIso(d);
  }

  // ---------------------------------------------------------------------
  // CSV import

  /** A `csv.DictReader` row: the columns present in the line. */
  type Row = map<string, string>

  /** `row.get(k) or ""`. */
  function Get(row: Row, k: string): string {
    if k in row then row[k] else ""
  }

  /** `(v or d).strip() or d`: the stripped value, or the default when that is empty. */
  function OrDefault(v: string, d: string): (r: string)
    ensures Strip(v) == "" ==> r == d
    ensures Strip(v) != "" ==> r == Strip(v)
  {
    if Strip(v) == "" then d else Strip(v)
  }

  datatype RowError = TitleBlank(line: nat) | BadDate(line: nat, raw: string)

  datatype RowResult = Skipped | Rejected(err: RowError) | Accepted(item: Item)

  /**
   * One row of `import_csv_text`, at line `line` of the text: an empty row
   * is skipped, a blank title or an unreadable date rejects it, and the
   * rest are filled in with their defaults. `freshId` stands for
   * `uuid4()`, `now` for the clock.
   */
  function ImportRow(row: Row, line: nat, freshId: string, now: string): (r: RowResult)
    ensures r.Skipped? <==> row == map[]
    ensures r.Rejected? && r.err.TitleBlank? <==> row != map[] && IsBlank(Get(row, "title"))
    ensures r.Rejected? ==> r.err.line == line
    ensures r.Accepted? <==> row != map[] && !IsBlank(Get(row, "title")) && ParseDate(Get(row, "release_date")).0
    ensures r.Accepted? ==> r.item.title == Strip(Get(row, "title")) && r.item.releaseDate == Strip(Get(row, "release_date"))
    ensures r.Accepted? ==> r.item.url == Strip(Get(row, "url")) && r.item.imageUrl == Strip(Get(row, "image_url"))
    ensures r.Accepted? ==> r.item.memo == Strip(Get(row, "memo"))
    ensures r.Accepted? && Strip(Get(row, "id")) == "" ==> r.item.id == freshId
    ensures r.Accepted? && Strip(Get(row, "id")) != "" ==> r.item.id == Strip(Get(row, "id"))
    ensures r.Accepted? && Strip(Get(row, "category")) == "" ==> r.item.category == "その他"
    ensures r.Accepted? && Strip(Get(row, "category")) != "" ==> r.item.category == Strip(Get(row, "category"))
    ensures r.Accepted? && Strip(Get(row, "status")) == "" ==> r.item.status == "検討"
    ensures r.Accepted? && Strip(Get(row, "status")) != "" ==> r.item.status == Strip(Get(row, "status"))
    ensures r.Accepted? && Get(row, "created_at") == "" ==> r.item.createdAt == Strip(now)
    ensures r.Accepted? && Get(row, "created_at") != "" ==> r.item.createdAt == Strip(Get(row, "created_at"))
  {
    if row == map[] then Skipped
    else
      var title := Strip(Get(row, "title"));
      if title == "" then Rejected(TitleBlank(line))
      else
        var rdRaw := Strip(Get(row, "release_date"));
        var (ok, rd) := ParseDate(rdRaw);
        StripIdempotent(Get(row, "release_date"));
        if !ok then Rejected(BadDate(line, rdRaw))
        else
          var created := if Get(row, "created_at") == "" then Strip(now) else Strip(Get(row, "created_at"));
          Accepted(Item(OrDefault(Get(row, "id"), freshId), title, rd,
                        OrDefault(Get(row, "category"), "その他"), OrDefault(Get(row, "status"), "検討"),
                        Strip(Get(row, "url")), Strip(Get(row, "image_url")), Strip(Get(row, "memo")), created))
  }

  /** An imported item has a title, a readable or empty date, and a category and status. */
  predicate WellFormed(it: Item) {
    !IsBlank(it.title) && it.category != "" && it.status != ""
    && (it.releaseDate == "" || StrptimeYmd(it.releaseDate).Some?)
  }

  lemma AcceptedWellFormed(row: Row, line: nat, freshId: string, now: string)
    requires ImportRow(row, line, freshId, now).Accepted?
    ensures WellFormed(ImportRow(row, line, freshId, now).item)
  {
    var it := ImportRow(row, line, freshId, now).item;
    var t := Strip(Get(row, "title"));
    assert it.title == t;
    StripIdempotent(Get(row, "title"));
    BlankIffAllSpace(t);
  }

  /** The items and errors of rows `rows`, the first at line `first`. */
  function ImportRows(rows: seq<Row>, first: nat, freshIds: seq<string>, now: string): (r: (seq<Item>, seq<RowError>))
    requires |freshIds| == |rows|
    ensures |r.0| + |r.1| <= |rows|
  {
    Collect(Outcomes(rows, first, freshIds, now))
  }

  /** The outcome of every row, the first one at line `first`. */
  function Outcomes(rows: seq<Row>, first: nat, freshIds: seq<string>, now: string): (rs: seq<RowResult>)
    requires |freshIds| == |rows|
    ensures |rs| == |rows|
    ensures forall k :: 0 <= k < |rows| ==> rs[k] == ImportRow(rows[k], first + k, freshIds[k], now)
  {
    seq(|rows|, k requires 0 <= k < |rows| => ImportRow(rows[k], first + k, freshIds[k], now))
  }

  /** The accepted items and the errors, in row order. */
  function Collect(rs: seq<RowResult>): (r: (seq<Item>, seq<RowError>))
    ensures |r.0| + |r.1| <= |rs|
    ensures forall it :: it in r.0 ==> Accepted(it) in rs
  {
    if rs == [] then ([], []) else Absorb(Collect(rs[..|rs| - 1]), rs[|rs| - 1])
  }

  /** One row's outcome added to the items and errors so far. */
  function Absorb(done: (seq<Item>, seq<RowError>), res: RowResult): (seq<Item>, seq<RowError>) {
    match res
    case Skipped => done
    case Rejected(e) => (done.0, done.1 + [e])
    case Accepted(it) => (done.0 + [it], done.1)
  }

  lemma CollectSnoc(rs: seq<RowResult>, n: nat)
    requires n < |rs|
    ensures Collect(rs[..n + 1]) == Absorb(Collect(rs[..n]), rs[n])
  {
    assert rs[..n + 1][..n] == rs[..n];
  }

  /** Every imported item is well formed. */
  lemma ImportedWellFormed(rows: seq<Row>, first: nat, freshIds: seq<string>, now: string)
    requires |freshIds| == |rows|
    ensures forall it :: it in ImportRows(rows, first, freshIds, now).0 ==> WellFormed(it)
  {
    var rs := Outcomes(rows, first, freshIds, now);
    forall it | it in Collect(rs).0 ensures WellFormed(it) {
      var k :| 0 <= k < |rs| && rs[k] == Accepted(it);
      AcceptedWellFormed(rows[k], first + k, freshIds[k], now);
    }
  }

  /** `import_csv_text`: the loop over the rows, numbered from line 2 (the header is line 1). */
  method ImportCsvRows(rows: seq<Row>, freshIds: seq<string>, now: string) returns (items: seq<Item>, errors: seq<RowError>)
    requires |freshIds| == |rows|
    ensures (items, errors) == ImportRows(rows, 2, freshIds, now)
  {
    ghost var rs := Outcomes(rows, 2, freshIds, now);
    items, errors := [], [];
    for n := 0 to |rows|
      invariant (items, errors) == Collect(rs[..n])
    {
      var res := ImportRow(rows[n], 2 + n, freshIds[n], now);
      assert res == rs[n];
      CollectSnoc(rs, n);
      match res
      case Skipped =>
      case Rejected(e) => errors := errors + [e];
      case Accepted(it) => items := items + [it];
    }
    assert rs[..|rows|] == rs;
  }

  // ---------------------------------------------------------------------
  // Filtering

  /** The sidebar's filters: chosen categories and statuses (empty = any), keyword, undated only. */
  datatype Filters = Filters(categories: seq<string>, statuses: seq<string>, keyword: string, tbdOnly: bool)

  predicate KeywordHit(it: Item, k: string) {
    Contains(Lower(it.title), k) || Contains(Lower(it.memo), k)
  }

  function InCategories(f: Filters): Item -> bool { (it: Item) => it.category in f.categories }
  function InStatuses(f: Filters): Item -> bool { (it: Item) => it.status in f.statuses }
  function HasKeyword(f: Filters): Item -> bool { (it: Item) => KeywordHit(it, Lower(Strip(f.keyword))) }
  function Undated(): Item -> bool { (it: Item) => it.releaseDate == "" }

  /** An item passes every active filter. */
  predicate Passes(f: Filters, it: Item) {
    (f.categories != [] ==> it.category in f.categories)
    && (f.statuses != [] ==> it.status in f.statuses)
    && (!IsBlank(f.keyword) ==> KeywordHit(it, Lower(Strip(f.keyword))))
    && (f.tbdOnly ==> it.releaseDate == "")
  }

  function PassesFn(f: Filters): Item -> bool { (it: Item) => Passes(f, it) }

  /** `filter_items`: one comprehension per active filter, in turn. */
  function FilterItems(items: seq<Item>, f: Filters): (r: seq<Item>)
    ensures |r| <= |items|
    ensures forall k :: 0 <= k < |r| ==> r[k] in items && Passes(f, r[k])
  {
    var a := if f.categories != [] then Filter(items, InCategories(f)) else items;
    var b := if f.statuses != [] then Filter(a, InStatuses(f)) else a;
    var c := if !IsBlank(f.keyword) then Filter(b, HasKeyword(f)) else b;
    if f.tbdOnly then Filter(c, Undated()) else c
  }

  /** Filtering keeps, in their order, exactly the items that pass every active filter. */
  lemma FilterItemsPasses(items: seq<Item>, f: Filters)
    ensures FilterItems(items, f) == Filter(items, PassesFn(f))
  {
    var k := Lower(Strip(f.keyword));
    var pa := (it: Item) => f.categories != [] ==> it.category in f.categories;
    var pb := (it: Item) => pa(it) && (f.statuses != [] ==> it.status in f.statuses);
    var pc := (it: Item) => pb(it) && (!IsBlank(f.keyword) ==> KeywordHit(it, k));
    FilterAll(items, (it: Item) => true);
    FilterWhen(items, (it: Item) => true, f.categories != [], InCategories(f), pa);
    FilterWhen(items, pa, f.statuses != [], InStatuses(f), pb);
    FilterWhen(items, pb, !IsBlank(f.keyword), HasKeyword(f), pc);
    FilterWhen(items, pc, f.tbdOnly, Undated(), PassesFn(f));
  }

  /** The filtered list holds each passing item as often as the list does, and nothing else. */
  lemma FilterItemsExact(items: seq<Item>, f: Filters, it: Item)
    ensures multiset(FilterItems(items, f))[it] == if Passes(f, it) then multiset(items)[it] else 0
  {
    FilterItemsPasses(items, f);
    FilterMultiset(items, PassesFn(f), it);
  }

  // ---------------------------------------------------------------------
  // Sorting

  /** The days key of "発売日が近い順": undated items count as 999999 days away. */
  function SoonDays(it: Item, today: Date): int
    requires Valid(today)
  {
    var d := DaysUntil(it.releaseDate, today);
    if d.None? then 999999 else d.value
  }

  function SoonKey(today: Date): Item -> (int, string)
    requires Valid(today)
  {
    (it: Item) => (SoonDays(it, today), Lower(it.title))
  }

  function CreatedKey(it: Item): string { it.createdAt }
  function TitleKey(it: Item): string { Lower(it.title) }

  datatype SortMode = Soonest | Newest | ByTitle

  /** `sort_items`: each mode a stable sort on its key; "追加が新しい順" is `reverse=True`. */
  function SortItems(items: seq<Item>, mode: SortMode, today: Date): (r: seq<Item>)
    requires Valid(today)
    ensures multiset(r) == multiset(items) && |r| == |items|
    ensures mode == Soonest ==> SortedBy(r, SoonKey(today), PairOrder(IntLess(), StrOrder()))
    ensures mode == Newest ==> SortedBy(r, CreatedKey, Flip(StrOrder()))
    ensures mode == ByTitle ==> SortedBy(r, TitleKey, StrOrder())
  {
    IntLessTotal();
    StrOrderTotal();
    match mode
    case Soonest =>
      PairOrderTotal(IntLess(), StrOrder());
      SortBy(items, SoonKey(today), PairOrder(IntLess(), StrOrder()))
    case Newest =>
      FlipTotal(StrOrder());
      SortBy(items, CreatedKey, Flip(StrOrder()))
    case ByTitle => SortBy(items, TitleKey, StrOrder())
  }

  /**
   * Under "発売日が近い順" a dated item comes before every undated one, as long
   * as it is fewer than 999999 days away.
   */
  lemma UndatedLast(items: seq<Item>, today: Date, i: int, j: int)
    requires Valid(today) && 0 <= i < j < |items|
    requires var r := SortItems(items, Soonest, today);
      DaysUntil(r[i].releaseDate, today).None? && DaysUntil(r[j].releaseDate, today).Some?
    ensures DaysUntil(SortItems(items, Soonest, today)[j].releaseDate, today).value >= 999999
  {
    var r := SortItems(items, Soonest, today);
    assert !PairOrder(IntLess(), StrOrder())(SoonKey(today)(r[j]), SoonKey(today)(r[i]));
  }

  // ---------------------------------------------------------------------
  // CSV export

  const Header := "id,title,release_date,category,status,url,image_url,memo,created_at"

  function Fields(it: Item): (r: seq<string>)
    ensures |r| == 9
  {
    [it.id, it.title, it.releaseDate, it.category, it.status, it.url, it.imageUrl, it.memo, it.createdAt]
  }

  /** The export's lines: the header, then one quoted record per item. */
  function ExportLines(items: seq<Item>): (r: seq<string>)
    ensures |r| == |items| + 1 && r[0] == Header
    ensures forall k :: 0 <= k < |items| ==> r[k + 1] == CsvLine(Fields(items[k]))
  {
    if items == [] then [Header]
    else
      var t := ExportLines(items[..|items| - 1]);
      t + [CsvLine(Fields(items[|items| - 1]))]
  }

  /** The export's text: the lines joined by newlines; with no items, the header and a newline. */
  function ExportCsv(items: seq<Item>): (r: string)
    ensures items == [] ==> r == Header + "\n"
  {
    if items == [] then Header + "\n" else Join("\n", ExportLines(items))
  }

  /** Every exported record reads back as exactly its item's nine fields. */
  lemma ExportRoundTrip(items: seq<Item>, k: int)
    requires 0 <= k < |items|
    ensures ParseCsvLine(ExportLines(items)[k + 1]) == Some(Fields(items[k]))
  {
    CsvLineRoundTrip(Fields(items[k]));
  }

  // ---------------------------------------------------------------------
  // The stored list and the import button

  /** The new id of an imported item: a fresh one when it collides with an id already stored. */
  function Reid(it: Item, existing: set<string>, freshId: string): (r: Item)
    ensures it.id in existing ==> r == it.(id := freshId)
    ensures it.id !in existing ==> r == it
  {
    if it.id in existing then it.(id := freshId) else it
  }

  function Ids(items: seq<Item>): (r: set<string>)
    ensures forall it :: it in items ==> it.id in r
    ensures forall x :: x in r ==> exists it :: it in items && it.id == x
  {
    if items == [] then {} else Ids(items[..|items| - 1]) + {items[|items| - 1].id}
  }

  /** The imported items as appended: each re-ided against the ids stored before the import. */
  function ReidAll(news: seq<Item>, existing: set<string>, reIds: seq<string>): (r: seq<Item>)
    requires |reIds| >= |news|
    ensures |r| == |news|
    ensures forall k :: 0 <= k < |news| ==> r[k] == Reid(news[k], existing, reIds[k])
  {
    if news == [] then []
    else ReidAll(news[..|news| - 1], existing, reIds) + [Reid(news[|news| - 1], existing, reIds[|news| - 1])]
  }

  class Catalog {
    var items: seq<Item>

    constructor(loaded: seq<Item>)
      ensures items == loaded
    {
      items := loaded;
    }

    /**
     * The import button on parsed rows: with any error nothing is stored;
     * otherwise every imported item is appended, re-ided when its id is
     * already stored. `reIds[k]` stands for the uuid drawn for item k.
     */
    method Import(rows: seq<Row>, freshIds: seq<string>, reIds: seq<string>, now: string) returns (errors: seq<RowError>)
      requires |freshIds| == |rows| && |reIds| == |rows|
      modifies this
      ensures errors == ImportRows(rows, 2, freshIds, now).1
      ensures errors != [] ==> items == old(items)
      ensures errors == [] ==> items == old(items) + ReidAll(ImportRows(rows, 2, freshIds, now).0, Ids(old(items)), reIds)
    {
      var news;
      news, errors := ImportCsvRows(rows, freshIds, now);
      if errors == [] {
        Append(news, reIds);
      }
    }

    /** The loop that appends the imported items, with `existing_ids` taken once before it. */
    method Append(news: seq<Item>, reIds: seq<string>)
      requires |reIds| >= |news|
      modifies this
      ensures items == old(items) + ReidAll(news, Ids(old(items)), reIds)
    {
      var existing := Ids(items);
      for k := 0 to |news|
        invariant items == old(items) + ReidAll(news[..k], existing, reIds)
      {
        assert news[..k + 1][..k] == news[..k];
        items := items + [Reid(news[k], existing, reIds[k])];
      }
      assert news[..|news|] == news;
    }
  }
}
