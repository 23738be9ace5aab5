/**
 * day40_kaukamo: things one is tempted to buy, left to "age". Each item has
 * an optional price in yen; the list is filtered, sorted by age or price,
 * exported to CSV and extended by importing CSV rows.
 */
module Kaukamo {
  import opened Calendar
  import opened DateText
  import opened PyText
  import opened PyList
  import opened PyJson
  import opened Sorting

  datatype Item = Item(id: string, name: string, price: Option<int>, url: string, memo: string,
                       tag: string, status: string, createdAt: string)

  // ---------------------------------------------------------------------
  // Prices

  /** `s.replace(",", "")`. */
  function DropCommas(s: string): (r: string)
    ensures |r| <= |s|
  {
    if s == [] then [] else (if s[0] == ',' then [] else [s[0]]) + DropCommas(s[1..])
  }

  lemma {:induction false} DropCommasDigits(s: string)
    requires AllDigits(s)
    ensures DropCommas(s) == s
  {
    if s != [] {
      DropCommasDigits(s[1..]);
      assert s == [s[0]] + s[1..];
    }
  }

  /** `str.isdigit()` on ASCII text: at least one character, all digits. */
  predicate IsDigitText(s: string) {
    s != [] && AllDigits(s)
  }

  /**
   * `parse_price(s)`: blank means no price; otherwise, once the commas are
   * dropped, only digits are accepted.
   */
  function ParsePrice(s: string): (r: (bool, Option<int>))
    ensures IsBlank(s) ==> r == (true, None)
    ensures !IsBlank(s) ==> (r.0 <==> IsDigitText(DropCommas(Strip(s))))
    ensures r.0 && !IsBlank(s) ==> r.1 == Some(DigitsValue(DropCommas(Strip(s))))
    ensures !r.0 ==> r.1.None?
    ensures r.1.Some? ==> r.1.value >= 0
  {
    var t := Strip(s);
    BlankStrip(s);
    if t == [] then (true, None)
    else
      var u := DropCommas(t);
      if IsDigitText(u) then (true, Some(DigitsValue(u))) else (false, None)
  }

  lemma BlankStrip(s: string)
    ensures IsBlank(s) <==> Strip(s) == []
  {
  }

  /** A sign, a decimal point or any other character besides digits and commas is refused. */
  lemma ParsePriceRejects(s: string, i: int)
    requires 0 <= i < |Strip(s)| && !IsDigit(Strip(s)[i]) && Strip(s)[i] != ','
    ensures ParsePrice(s) == (false, None)
  {
    var t := Strip(s);
    assert !IsBlank(s) by { BlankStrip(s); }
    DropCommasKeeps(t, i);
  }

  /** Dropping commas keeps every other character. */
  lemma {:induction false} DropCommasKeeps(t: string, i: int)
    requires 0 <= i < |t| && t[i] != ','
    ensures t[i] in DropCommas(t)
  {
    if i > 0 {
      DropCommasKeeps(t[1..], i - 1);
    }
  }

  /** The price field of the export: empty for no price, else `str(price)`. */
  function PriceText(p: Option<int>): string {
    if p.None? then "" else IntToString(p.value)
  }

  /** The exported price field reads back as the stored price, for prices the form can produce. */
  lemma PriceRoundTrip(p: Option<int>)
    requires p.Some? ==> p.value >= 0
    ensures ParsePrice(PriceText(p)) == (true, p)
  {
    if p.Some? {
      var s := NatToString(p.value);
      NoSpaceEnds(s);
      DropCommasDigits(s);
    }
  }

  // ---------------------------------------------------------------------
  // Age

  /** `days_aged(created_at)`: days since the item was added; an unreadable timestamp counts as today. */
  function DaysAged(createdAt: string, today: Date): (r: int)
    requires Valid(today)
    ensures DatetimeDate(createdAt).None? ==> r == 0
    ensures DatetimeDate(createdAt).Some? ==> AddDays(DatetimeDate(createdAt).value, r) == today
  {
    match DatetimeDate(createdAt)
    case None => 0
    case Some(c) =>
      var n := Ordinal(today) - Ordinal(c);
      OrdinalInjective(AddDays(c, n), today);
      n
  }

  /** An item added today at any time has aged 0 days. */
  lemma AddedTodayAgedZero(today: Date, time: string)
    requires InPyRange(today) && TimeText(time)
    ensures DaysAged(Iso(today) + "T" + time, today) == 0
  {
    DatetimeDateIso(today, 'T', time);
  }

  // ---------------------------------------------------------------------
  // New and loaded items

  /** `AgedItem.new`: stripped fields, an empty tag or status replaced by its default. */
  function NewItem(name: string, price: Option<int>, url: string, memo: string, tag: string, status: string,
                   freshId: string, now: string): (r: Item)
    ensures r.tag != "" && r.status != ""
    ensures r.id == freshId && r.name == Strip(name) && r.price == price && r.createdAt == now
    ensures r.url == Strip(url) && r.memo == Strip(memo)
    ensures Strip(tag) == "" ==> r.tag == "その他"
    ensures Strip(tag) != "" ==> r.tag == Strip(tag)
    ensures Strip(status) == "" ==> r.status == "迷い中"
    ensures Strip(status) != "" ==> r.status == Strip(status)
  {
    Item(freshId, Strip(name), price, Strip(url), Strip(memo), OrElse(Strip(tag), "その他"),
         OrElse(Strip(status), "迷い中"), now)
  }

  /** The stored price: empty or null is no price, otherwise `int(price)`, None where that raises. */
  function LoadPrice(j: Json): (r: Option<int>)
    ensures j == JNull || j == JStr("") ==> r.None?
    ensures j.JStr? && j.s != "" ==> r == ParseInt(j.s)
    ensures j.JInt? ==> r == Some(j.i)
  {
    match j
    case JNull => None
    case JStr(s) => if s == "" then None else ParseInt(s)
    case JInt(i) => Some(i)
    case JBool(b) => Some(if b then 1 else 0)
    case JList(_) => None
    case JObject(_) => None
  }

  /** `str(r.get(k, ""))`: a stored field as text, "" when missing. */
  function Stored(d: map<string, Json>, k: string): string {
    StrOf(PyJson.Get(d, k, JStr("")))
  }

  /** One stored dict: texts as stored, empty id, tag, status and time replaced. */
  function LoadItem(d: map<string, Json>, freshId: string, now: string): (r: Item)
    ensures r.tag != "" && r.status != ""
    ensures r.price == LoadPrice(PyJson.Get(d, "price", JNull))
    ensures r.name == Stored(d, "name") && r.url == Stored(d, "url") && r.memo == Stored(d, "memo")
    ensures "name" !in d ==> r.name == ""
    ensures Stored(d, "id") == "" ==> r.id == freshId
    ensures Stored(d, "id") != "" ==> r.id == Stored(d, "id")
    ensures Stored(d, "tag") == "" ==> r.tag == "その他"
    ensures Stored(d, "tag") != "" ==> r.tag == Stored(d, "tag")
    ensures Stored(d, "status") == "" ==> r.status == "迷い中"
    ensures Stored(d, "status") != "" ==> r.status == Stored(d, "status")
    ensures Stored(d, "created_at") == "" ==> r.createdAt == now
    ensures Stored(d, "created_at") != "" ==> r.createdAt == Stored(d, "created_at")
  {
    Item(OrElse(Stored(d, "id"), freshId), Stored(d, "name"), LoadPrice(PyJson.Get(d, "price", JNull)),
         Stored(d, "url"), Stored(d, "memo"), OrElse(Stored(d, "tag"), "その他"),
         OrElse(Stored(d, "status"), "迷い中"), OrElse(Stored(d, "created_at"), now))
  }

  /** The items of a stored list: its dicts in order, other entries skipped. */
  function LoadAll(raw: seq<Json>, freshIds: seq<string>, now: string): (r: seq<Item>)
    requires |freshIds| == |raw|
    ensures |r| <= |raw|
    ensures forall it :: it in r ==> it.tag != "" && it.status != ""
  {
    if raw == [] then []
    else
      var n := |raw| - 1;
      var done := LoadAll(raw[..n], freshIds[..n], now);
      if raw[n].JObject? then done + [LoadItem(raw[n].fields, freshIds[n], now)] else done
  }

  /** `load_items()` on the decoded file: anything but a list gives no items. */
  method LoadItems(raw: Json, freshIds: seq<string>, now: string) returns (items: seq<Item>)
    requires raw.JList? ==> |freshIds| == |raw.items|
    ensures !raw.JList? ==> items == []
    ensures raw.JList? ==> items == LoadAll(raw.items, freshIds, now)
  {
    items := [];
    if !raw.JList? {
      return;
    }
    var xs := raw.items;
    for n := 0 to |xs|
      invariant items == LoadAll(xs[..n], freshIds[..n], now)
    {
      assert xs[..n + 1][..n] == xs[..n] && freshIds[..n + 1][..n] == freshIds[..n];
      if xs[n].JObject? {
        items := items + [LoadItem(xs[n].fields, freshIds[n], now)];
      }
    }
    assert xs[..|xs|] == xs && freshIds[..|xs|] == freshIds;
  }

  // ---------------------------------------------------------------------
  // CSV export

  const Header := "id,name,price,url,memo,tag,status,created_at"

  function Fields(it: Item): (r: seq<string>)
    ensures |r| == 8 && r[2] == PriceText(it.price)
  {
    [it.id, it.name, PriceText(it.price), it.url, it.memo, it.tag, it.status, it.createdAt]
  }

  function ExportLines(items: seq<Item>): (r: seq<string>)
    ensures |r| == |items| + 1 && r[0] == Header
    ensures forall k :: 0 <= k < |items| ==> r[k + 1] == CsvLine(Fields(items[k]))
  {
    if items == [] then [Header]
    else ExportLines(items[..|items| - 1]) + [CsvLine(Fields(items[|items| - 1]))]
  }

  /** `to_csv_text(items)`: the header and a newline when empty, else the lines joined by newlines. */
  function ToCsvText(items: seq<Item>): (r: string)
    ensures items == [] ==> r == Header + "\n"
  {
    if items == [] then Header + "\n" else Join("\n", ExportLines(items))
  }

  /** Every exported record reads back as its fields, and its price field as its price. */
  lemma ExportRoundTrip(items: seq<Item>, k: int)
    requires 0 <= k < |items|
    requires items[k].price.Some? ==> items[k].price.value >= 0
    ensures ParseCsvLine(ExportLines(items)[k + 1]) == Some(Fields(items[k]))
    ensures ParsePrice(Fields(items[k])[2]) == (true, items[k].price)
  {
    CsvLineRoundTrip(Fields(items[k]));
    PriceRoundTrip(items[k].price);
  }

  // ---------------------------------------------------------------------
  // CSV import

  type Row = map<string, string>

  function Field(row: Row, k: string): string {
    if k in row then row[k] else ""
  }

  datatype RowError = NameBlank(line: nat) | BadPrice(line: nat, raw: string)

  datatype RowResult = Skipped | Rejected(err: RowError) | Accepted(item: Item)

  /** One row of `import_csv_text`: an empty row is skipped, a blank name or a bad price rejects it. */
  function ImportRow(row: Row, line: nat, freshId: string, now: string): (r: RowResult)
    ensures r.Skipped? <==> row == map[]
    ensures r.Rejected? && r.err.NameBlank? <==> row != map[] && IsBlank(Field(row, "name"))
    ensures r.Rejected? ==> r.err.line == line
    ensures r.Accepted? <==> row != map[] && !IsBlank(Field(row, "name")) && ParsePrice(Field(row, "price")).0
    ensures r.Accepted? ==> r.item.price == ParsePrice(Field(row, "price")).1
                            && r.item.tag != "" && r.item.status != "" && !IsBlank(r.item.name)
    ensures r.Accepted? ==> r.item.name == Strip(Field(row, "name"))
    ensures r.Accepted? ==> r.item.url == Strip(Field(row, "url")) && r.item.memo == Strip(Field(row, "memo"))
    ensures r.Accepted? && Strip(Field(row, "id")) == "" ==> r.item.id == freshId
    ensures r.Accepted? && Strip(Field(row, "id")) != "" ==> r.item.id == Strip(Field(row, "id"))
    ensures r.Accepted? && Strip(Field(row, "tag")) == "" ==> r.item.tag == "その他"
    ensures r.Accepted? && Strip(Field(row, "tag")) != "" ==> r.item.tag == Strip(Field(row, "tag"))
    ensures r.Accepted? && Strip(Field(row, "status")) == "" ==> r.item.status == "迷い中"
    ensures r.Accepted? && Strip(Field(row, "status")) != "" ==> r.item.status == Strip(Field(row, "status"))
    ensures r.Accepted? && Strip(Field(row, "created_at")) == "" ==> r.item.createdAt == now
    ensures r.Accepted? && Strip(Field(row, "created_at")) != "" ==> r.item.createdAt == Strip(Field(row, "created_at"))
  {
    if row == map[] then Skipped
    else
      var name := Strip(Field(row, "name"));
      BlankStrip(Field(row, "name"));
      if name == "" then Rejected(NameBlank(line))
      else
        var priceRaw := Strip(Field(row, "price"));
        StripIdempotent(Field(row, "price"));
        StripIdempotent(Field(row, "name"));
        BlankStrip(name);
        var (ok, p) := ParsePrice(priceRaw);
        if !ok then Rejected(BadPrice(line, priceRaw))
        else
          Accepted(Item(OrElse(Strip(Field(row, "id")), freshId), name, p,
                        Strip(Field(row, "url")), Strip(Field(row, "memo")),
                        OrElse(Strip(Field(row, "tag")), "その他"), OrElse(Strip(Field(row, "status")), "迷い中"),
                        OrElse(Strip(Field(row, "created_at")), now)))
  }

  function ImportRows(rows: seq<Row>, first: nat, freshIds: seq<string>, now: string): (r: (seq<Item>, seq<RowError>))
    requires |freshIds| == |rows|
    ensures |r.0| + |r.1| <= |rows|
    ensures forall it :: it in r.0 ==> !IsBlank(it.name) && (it.price.Some? ==> it.price.value >= 0)
  {
    var rs := Outcomes(rows, first, freshIds, now);
    var r := Collect(rs);
    forall it | it in r.0 ensures !IsBlank(it.name) && (it.price.Some? ==> it.price.value >= 0) {
      var k :| 0 <= k < |rs| && rs[k] == Accepted(it);
      assert ImportRow(rows[k], first + k, freshIds[k], now).Accepted?;
    }
    r
  }

  /** The outcome of every row, the first one numbered `first`. */
  function Outcomes(rows: seq<Row>, first: nat, freshIds: seq<string>, now: string): (rs: seq<RowResult>)
    requires |freshIds| == |rows|
    ensures |rs| == |rows|
    ensures forall k :: 0 <= k < |rows| ==> rs[k] == ImportRow(rows[k], first + k, freshIds[k], now)
  {
    seq(|rows|, k requires 0 <= k < |rows| => ImportRow(rows[k], first + k, freshIds[k], now))
  }

  /** The accepted items and the errors, in row order. */
  function Collect(rs: seq<RowResult>): (r: (seq<Item>, seq<RowError>))
    ensures |r.0| + |r.1| <= |rs|
    ensures forall it :: it in r.0 ==> Accepted(it) in rs
  {
    if rs == [] then ([], [])
    else
      Absorb(Collect(rs[..|rs| - 1]), rs[|rs| - 1])
  }

  /** One row's outcome added to the items and errors so far. */
  function Absorb(done: (seq<Item>, seq<RowError>), res: RowResult): (seq<Item>, seq<RowError>) {
    match res
    case Skipped => done
    case Rejected(e) => (done.0, done.1 + [e])
    case Accepted(it) => (done.0 + [it], done.1)
  }

  lemma CollectSnoc(rs: seq<RowResult>, n: nat)
    requires n < |rs|
    ensures Collect(rs[..n + 1]) == Absorb(Collect(rs[..n]), rs[n])
  {
    assert rs[..n + 1][..n] == rs[..n];
  }

  /** `import_csv_text` on the parsed rows, numbered from line 2. */
  method ImportCsvRows(rows: seq<Row>, freshIds: seq<string>, now: string) returns (items: seq<Item>, errors: seq<RowError>)
    requires |freshIds| == |rows|
    ensures (items, errors) == ImportRows(rows, 2, freshIds, now)
  {
    ghost var rs := Outcomes(rows, 2, freshIds, now);
    items, errors := [], [];
    for n := 0 to |rows|
      invariant (items, errors) == Collect(rs[..n])
    {
      var res := ImportRow(rows[n], 2 + n, freshIds[n], now);
      assert res == rs[n];
      CollectSnoc(rs, n);
      match res
      case Skipped =>
      case Rejected(e) => errors := errors + [e];
      case Accepted(it) => items := items + [it];
    }
    assert rs[..|rows|] == rs;
  }

  // ---------------------------------------------------------------------
  // Filters

  datatype Filters = Filters(statuses: seq<string>, tags: seq<string>, keyword: string)

  predicate KeywordHit(it: Item, k: string) {
    Contains(Lower(it.name), k) || Contains(Lower(it.memo), k)
  }

  function InStatuses(f: Filters): Item -> bool { (it: Item) => it.status in f.statuses }
  function InTags(f: Filters): Item -> bool { (it: Item) => it.tag in f.tags }
  function HasKeyword(f: Filters): Item -> bool { (it: Item) => KeywordHit(it, Lower(Strip(f.keyword))) }

  predicate Passes(f: Filters, it: Item) {
    (f.statuses != [] ==> it.status in f.statuses)
    && (f.tags != [] ==> it.tag in f.tags)
    && (!IsBlank(f.keyword) ==> KeywordHit(it, Lower(Strip(f.keyword))))
  }

  function PassesFn(f: Filters): Item -> bool { (it: Item) => Passes(f, it) }

  /** `apply_filters`: one comprehension per active filter. */
  function ApplyFilters(items: seq<Item>, f: Filters): (r: seq<Item>)
    ensures |r| <= |items|
    ensures forall k :: 0 <= k < |r| ==> r[k] in items && Passes(f, r[k])
  {
    var a := if f.statuses != [] then Filter(items, InStatuses(f)) else items;
    var b := if f.tags != [] then Filter(a, InTags(f)) else a;
    if !IsBlank(f.keyword) then Filter(b, HasKeyword(f)) else b
  }

  /** The filtered list keeps, in order, exactly the items passing every active filter. */
  lemma ApplyFiltersPasses(items: seq<Item>, f: Filters, it: Item)
    ensures ApplyFilters(items, f) == Filter(items, PassesFn(f))
    ensures multiset(ApplyFilters(items, f))[it] == if Passes(f, it) then multiset(items)[it] else 0
  {
    var pa := (x: Item) => f.statuses != [] ==> x.status in f.statuses;
    var pb := (x: Item) => pa(x) && (f.tags != [] ==> x.tag in f.tags);
    FilterAll(items, (x: Item) => true);
    FilterWhen(items, (x: Item) => true, f.statuses != [], InStatuses(f), pa);
    FilterWhen(items, pa, f.tags != [], InTags(f), pb);
    FilterWhen(items, pb, !IsBlank(f.keyword), HasKeyword(f), PassesFn(f));
    FilterMultiset(items, PassesFn(f), it);
  }

  // ---------------------------------------------------------------------
  // Sorting

  datatype SortMode = LongestAged | Newest | Dearest | Cheapest

  function AgedKey(today: Date): Item -> int
    requires Valid(today)
  {
    (it: Item) => DaysAged(it.createdAt, today)
  }

  function CreatedKey(it: Item): string { it.createdAt }

  /** `(-(price or -1), name.lower())`: no price and a price of 0 both key as 1. */
  function DearKey(it: Item): (key: (int, string))
    ensures it.price.Some? && it.price.value > 0 ==> key.0 == -it.price.value
    ensures it.price.None? || it.price.value == 0 ==> key.0 == 1
    ensures key.1 == Lower(it.name)
  {
    (-(if it.price.Some? && it.price.value != 0 then it.price.value else -1), Lower(it.name))
  }

  /** `(10**18 if price is None else price, name.lower())`. */
  function CheapKey(it: Item): (key: (int, string))
    ensures it.price.None? ==> key.0 == 1_000_000_000_000_000_000
    ensures it.price.Some? ==> key.0 == it.price.value
    ensures key.1 == Lower(it.name)
  {
    (if it.price.None? then 1_000_000_000_000_000_000 else it.price.value, Lower(it.name))
  }

  function NameOrder(): ((int, string), (int, string)) -> bool {
    PairOrder(IntLess(), StrOrder())
  }

  /** `sort_items`: a stable sort on each mode's key, the first two with `reverse=True`. */
  function SortItems(items: seq<Item>, mode: SortMode, today: Date): (r: seq<Item>)
    requires Valid(today)
    ensures multiset(r) == multiset(items) && |r| == |items|
    ensures mode == LongestAged ==> SortedBy(r, AgedKey(today), Flip(IntLess()))
    ensures mode == Newest ==> SortedBy(r, CreatedKey, Flip(StrOrder()))
    ensures mode == Dearest ==> SortedBy(r, DearKey, NameOrder())
    ensures mode == Cheapest ==> SortedBy(r, CheapKey, NameOrder())
  {
    IntLessTotal();
    StrOrderTotal();
    PairOrderTotal(IntLess(), StrOrder());
    match mode
    case LongestAged => FlipTotal(IntLess()); SortBy(items, AgedKey(today), Flip(IntLess()))
    case Newest => FlipTotal(StrOrder()); SortBy(items, CreatedKey, Flip(StrOrder()))
    case Dearest => SortBy(items, DearKey, NameOrder())
    case Cheapest => SortBy(items, CheapKey, NameOrder())
  }

  /** "価格が高い順": positive prices descend, and come before every unpriced or zero-priced item. */
  lemma DearestOrder(items: seq<Item>, today: Date, i: int, j: int)
    requires Valid(today) && 0 <= i < j < |items|
    requires var r := SortItems(items, Dearest, today); r[j].price.Some? && r[j].price.value > 0
    ensures var r := SortItems(items, Dearest, today);
      r[i].price.Some? && r[i].price.value >= r[j].price.value
  {
    var r := SortItems(items, Dearest, today);
    assert !NameOrder()(DearKey(r[j]), DearKey(r[i]));
  }

  /** A zero price and no price key alike under "価格が高い順". */
  lemma DearestZeroTiesNone(a: Item, b: Item)
    requires a.price == Some(0) && b.price.None? && a.name == b.name
    ensures DearKey(a) == DearKey(b)
  {
  }

  /** "価格が安い順": an unpriced item comes after every item priced below 10^18. */
  lemma CheapestNoneLast(items: seq<Item>, today: Date, i: int, j: int)
    requires Valid(today) && 0 <= i < j < |items|
    requires var r := SortItems(items, Cheapest, today); r[i].price.None? && r[j].price.Some?
    ensures SortItems(items, Cheapest, today)[j].price.value >= 1_000_000_000_000_000_000
  {
    var r := SortItems(items, Cheapest, today);
    assert !NameOrder()(CheapKey(r[j]), CheapKey(r[i]));
  }

  // ---------------------------------------------------------------------
  // The stored list

  function Ids(items: seq<Item>): (r: set<string>)
    ensures forall it :: it in items ==> it.id in r
  {
    if items == [] then {} else Ids(items[..|items| - 1]) + {items[|items| - 1].id}
  }

  function Reid(it: Item, existing: set<string>, freshId: string): (r: Item)
    ensures it.id in existing ==> r == it.(id := freshId)
    ensures it.id !in existing ==> r == it
  {
    if it.id in existing then it.(id := freshId) else it
  }

  function ReidAll(news: seq<Item>, existing: set<string>, reIds: seq<string>): (r: seq<Item>)
    requires |reIds| >= |news|
    ensures |r| == |news|
    ensures forall k :: 0 <= k < |news| ==> r[k] == Reid(news[k], existing, reIds[k])
  {
    if news == [] then []
    else ReidAll(news[..|news| - 1], existing, reIds) + [Reid(news[|news| - 1], existing, reIds[|news| - 1])]
  }

  class Wishlist {
    var items: seq<Item>

    constructor(loaded: seq<Item>)
      ensures items == loaded
    {
      items := loaded;
    }

    /** The add form: a name is required and the price must parse; then one new item is appended. */
    method Add(name: string, priceText: string, url: string, memo: string, tag: string, status: string,
               freshId: string, now: string) returns (added: bool)
      modifies this
      ensures added <==> !IsBlank(name) && ParsePrice(priceText).0
      ensures added ==> items == old(items) + [NewItem(name, ParsePrice(priceText).1, url, memo, tag, status, freshId, now)]
      ensures !added ==> items == old(items)
    {
      BlankStrip(name);
      if Strip(name) == "" {
        return false;
      }
      var (ok, p) := ParsePrice(priceText);
      if !ok {
        return false;
      }
      items := items + [NewItem(name, p, url, memo, tag, status, freshId, now)];
      added := true;
    }

    /** The import button: nothing is stored when a row has an error; otherwise all are appended, re-ided on collision. */
    method Import(rows: seq<Row>, freshIds: seq<string>, reIds: seq<string>, now: string) returns (errors: seq<RowError>)
      requires |freshIds| == |rows| && |reIds| == |rows|
      modifies this
      ensures errors == ImportRows(rows, 2, freshIds, now).1
      ensures errors != [] ==> items == old(items)
      ensures errors == [] ==> items == old(items) + ReidAll(ImportRows(rows, 2, freshIds, now).0, Ids(old(items)), reIds)
    {
      var news;
      news, errors := ImportCsvRows(rows, freshIds, now);
      if errors == [] {
        Append(news, reIds);
      }
    }

    method Append(news: seq<Item>, reIds: seq<string>)
      requires |reIds| >= |news|
      modifies this
      ensures items == old(items) + ReidAll(news, Ids(old(items)), reIds)
    {
      var existing := Ids(items);
      for k := 0 to |news|
        invariant items == old(items) + ReidAll(news[..k], existing, reIds)
      {
        assert news[..k + 1][..k] == news[..k];
        items := items + [Reid(news[k], existing, reIds[k])];
      }
      assert news[..|news|] == news;
    }
  }
}
