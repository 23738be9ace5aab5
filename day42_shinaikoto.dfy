/**
 * day42_shinaikoto: a daily "not-to-do" declaration of up to three items
 * with a note; today's latest declaration is shown, past logs can be
 * deleted one id at a time, and the list is exported as CSV with the items
 * spread over three fixed columns.
 */
module Shinaikoto {
  import opened PyText
  import opened PyList
  import opened PyJson
  import opened Sorting

  datatype DontLog = DontLog(id: string, date: string, items: seq<string>, note: string, createdAt: string)

  // ---------------------------------------------------------------------
  // Cleaning the declared items

  predicate NonBlank(x: string) {
    !IsBlank(x)
  }

  function NonBlankFn(): string -> bool {
    (x: string) => NonBlank(x)
  }

  /** `[x.strip() for x in items if x and x.strip()]`. */
  function Clean(items: seq<string>): (r: seq<string>)
    ensures |r| <= |items|
    ensures |r| == |Filter(items, NonBlankFn())|
    ensures forall k :: 0 <= k < |r| ==> r[k] == Strip(Filter(items, NonBlankFn())[k])
    ensures forall k :: 0 <= k < |r| ==> NonBlank(r[k]) && Strip(r[k]) == r[k]
  {
    if items == [] then []
    else
      var rest := Clean(items[1..]);
      if NonBlank(items[0]) then
        StripIdempotent(items[0]);
        [Strip(items[0])] + rest
      else rest
  }

  /** The comprehension keeps the items' order: cleaning distributes over concatenation. */
  lemma {:induction false} CleanAppend(a: seq<string>, b: seq<string>)
    ensures Clean(a + b) == Clean(a) + Clean(b)
  {
    if a == [] {
      assert a + b == b;
    } else {
      assert (a + b)[1..] == a[1..] + b;
      CleanAppend(a[1..], b);
    }
  }

  /** Cleaning an already clean list changes nothing. */
  lemma {:induction false} CleanIdempotent(items: seq<string>)
    ensures Clean(Clean(items)) == Clean(items)
  {
    if items != [] {
      CleanIdempotent(items[1..]);
      var c := Clean(items[1..]);
      if NonBlank(items[0]) {
        StripIdempotent(items[0]);
        assert ([Strip(items[0])] + c)[1..] == c;
      }
    }
  }

  /** As many items survive as the form counts (`len([x for x in chosen if x.strip()])`). */
  lemma {:induction false} CleanCount(items: seq<string>)
    ensures |Clean(items)| == |Filter(items, NonBlankFn())|
  {
    if items != [] {
      CleanCount(items[1..]);
    }
  }

  /** Nothing survives exactly when every item is blank. */
  lemma {:induction false} CleanEmpty(items: seq<string>)
    ensures Clean(items) == [] <==> forall k :: 0 <= k < |items| ==> IsBlank(items[k])
  {
    if items != [] {
      CleanEmpty(items[1..]);
      if Clean(items) == [] {
        forall k | 0 <= k < |items| ensures IsBlank(items[k]) {
          if k > 0 { assert items[k] == items[1..][k - 1]; }
        }
      }
    }
  }

  /** `DontLog.new(date, items, note)`: the cleaned items, at most three of them, and the stripped note. */
  function NewLog(date: string, items: seq<string>, note: string, freshId: string, now: string): (r: DontLog)
    ensures |r.items| == if |Clean(items)| < 3 then |Clean(items)| else 3
    ensures forall k :: 0 <= k < |r.items| ==> r.items[k] == Clean(items)[k] && NonBlank(r.items[k])
    ensures r.date == date && r.note == Strip(note) && r.id == freshId && r.createdAt == now
  {
    DontLog(freshId, date, Take(Clean(items), 3), Strip(note), now)
  }

  // ---------------------------------------------------------------------
  // Loading

  /** `[str(x) for x in items]`. */
  function Strs(js: seq<Json>): (r: seq<string>)
    ensures |r| == |js| && forall k :: 0 <= k < |r| ==> r[k] == StrOf(js[k])
  {
    if js == [] then [] else Strs(js[..|js| - 1]) + [StrOf(js[|js| - 1])]
  }

  /** The stored items: a non-list reads as none, a list is kept to its first three. */
  function LoadItems(j: Json): (r: seq<string>)
    ensures |r| <= 3
    ensures !j.JList? ==> r == []
    ensures j.JList? ==> |r| == (if |j.items| < 3 then |j.items| else 3)
    ensures j.JList? ==> forall k :: 0 <= k < |r| ==> r[k] == StrOf(j.items[k])
  {
    if j.JList? then Take(Strs(j.items), 3) else []
  }

  /** One stored dict: its texts as stored, an empty id, date or time replaced by a fresh value. */
  function LoadLog(d: map<string, Json>, freshId: string, today: string, now: string): (r: DontLog)
    ensures |r.items| <= 3
    ensures r.items == LoadItems(Get(d, "items", JList([])))
    ensures "items" !in d ==> r.items == []
    ensures StrOf(Get(d, "id", JStr(""))) == "" ==> r.id == freshId
    ensures StrOf(Get(d, "id", JStr(""))) != "" ==> r.id == StrOf(Get(d, "id", JStr("")))
    ensures StrOf(Get(d, "date", JStr(""))) == "" ==> r.date == today
    ensures StrOf(Get(d, "date", JStr(""))) != "" ==> r.date == StrOf(Get(d, "date", JStr("")))
    ensures StrOf(Get(d, "created_at", JStr(""))) == "" ==> r.createdAt == now
    ensures StrOf(Get(d, "created_at", JStr(""))) != "" ==> r.createdAt == StrOf(Get(d, "created_at", JStr("")))
    ensures r.note == StrOf(Get(d, "note", JStr("")))
  {
    DontLog(OrElse(StrOf(Get(d, "id", JStr(""))), freshId),
            OrElse(StrOf(Get(d, "date", JStr(""))), today),
            LoadItems(Get(d, "items", JList([]))),
            StrOf(Get(d, "note", JStr(""))),
            OrElse(StrOf(Get(d, "created_at", JStr(""))), now))
  }

  /** The logs of a stored list: its dicts in order, other entries skipped. */
  function LoadAll(raw: seq<Json>, freshIds: seq<string>, today: string, now: string): (r: seq<DontLog>)
    requires |freshIds| == |raw|
    ensures |r| <= |raw|
    ensures forall k :: 0 <= k < |r| ==> |r[k].items| <= 3
  {
    if raw == [] then []
    else
      var n := |raw| - 1;
      var done := LoadAll(raw[..n], freshIds[..n], today, now);
      if raw[n].JObject? then done + [LoadLog(raw[n].fields, freshIds[n], today, now)] else done
  }

  /** `load_logs()` on the decoded file: anything but a list gives no logs. */
  method LoadLogs(raw: Json, freshIds: seq<string>, today: string, now: string) returns (logs: seq<DontLog>)
    requires raw.JList? ==> |freshIds| == |raw.items|
    ensures !raw.JList? ==> logs == []
    ensures raw.JList? ==> logs == LoadAll(raw.items, freshIds, today, now)
    ensures forall k :: 0 <= k < |logs| ==> |logs[k].items| <= 3
  {
    logs := [];
    if !raw.JList? {
      return;
    }
    var xs := raw.items;
    for n := 0 to |xs|
      invariant logs == LoadAll(xs[..n], freshIds[..n], today, now)
    {
      assert xs[..n + 1][..n] == xs[..n] && freshIds[..n + 1][..n] == freshIds[..n];
      if xs[n].JObject? {
        logs := logs + [LoadLog(xs[n].fields, freshIds[n], today, now)];
      }
    }
    assert xs[..|xs|] == xs && freshIds[..|xs|] == freshIds;
  }

  // ---------------------------------------------------------------------
  // Export

  const Header := "id,date,dont1,dont2,dont3,note,created_at"

  /** The `i`-th item, or "" when there are fewer. */
  function Slot(items: seq<string>, i: nat): string {
    if i < |items| then items[i] else ""
  }

  function Fields(x: DontLog): seq<string> {
    [x.id, x.date, Slot(x.items, 0), Slot(x.items, 1), Slot(x.items, 2), x.note, x.createdAt]
  }

  function ExportLines(logs: seq<DontLog>): (r: seq<string>)
    ensures |r| == |logs| + 1 && r[0] == Header
    ensures forall k :: 0 <= k < |logs| ==> r[k + 1] == CsvLine(Fields(logs[k]))
  {
    if logs == [] then [Header]
    else ExportLines(logs[..|logs| - 1]) + [CsvLine(Fields(logs[|logs| - 1]))]
  }

  /** `to_csv_text(logs)`: the lines joined by newlines, with a final newline. */
  function ToCsvText(logs: seq<DontLog>): (r: string)
    ensures |r| > 0 && r[|r| - 1] == '\n'
    ensures logs == [] ==> r == Header + "\n"
  {
    Join("\n", ExportLines(logs)) + "\n"
  }

  /**
   * Every exported record reads back as seven fields: id, date, the three
   * item slots (the stored items, padded with ""), the note and the time.
   */
  lemma ExportRoundTrip(logs: seq<DontLog>, k: int)
    requires 0 <= k < |logs|
    ensures ParseCsvLine(ExportLines(logs)[k + 1]) == Some(Fields(logs[k]))
  {
    assert ExportLines(logs)[k + 1] == CsvLine(Fields(logs[k]));
    LineRoundTrip(logs[k]);
  }

  /** The three item columns hold the stored items, padded with "". */
  lemma FieldsSlots(x: DontLog, i: nat)
    requires i < 3
    ensures |Fields(x)| == 7
    ensures i < |x.items| ==> Fields(x)[2 + i] == x.items[i]
    ensures i >= |x.items| ==> Fields(x)[2 + i] == ""
  {
  }

  lemma LineRoundTrip(x: DontLog)
    ensures ParseCsvLine(CsvLine(Fields(x))) == Some(Fields(x))
  {
    CsvLineRoundTrip(Fields(x));
  }

  // ---------------------------------------------------------------------
  // The message on the declared count

  datatype Level = Undecided | Secured | Strong | Defended

  function LevelText(l: Level): string {
    match l
    case Undecided => "🫧 まだ決めてない"
    case Secured => "🟩 余白、確保"
    case Strong => "🟦 余白、強い"
    case Defended => "👑 余白、防衛完了"
  }

  /** `yohaku_message(n_items)`. */
  function YohakuMessage(n: int): (l: Level)
    ensures (l == Undecided <==> n <= 0) && (l == Secured <==> n == 1)
    ensures (l == Strong <==> n == 2) && (l == Defended <==> n >= 3)
  {
    if n <= 0 then Undecided
    else if n == 1 then Secured
    else if n == 2 then Strong
    else Defended
  }

  /** The message reads "not decided yet" exactly when the save button would refuse the form. */
  lemma MessageMatchesSave(chosen: seq<string>)
    ensures YohakuMessage(|Filter(chosen, NonBlankFn())|) == Undecided <==> Clean(chosen) == []
  {
    CleanCount(chosen);
  }

  // ---------------------------------------------------------------------
  // Today's declaration and the past logs

  function DateCreated(x: DontLog): (string, string) { (x.date, x.createdAt) }

  function DateCreatedOrder(): ((string, string), (string, string)) -> bool {
    PairOrder(StrOrder(), StrOrder())
  }

  /** `sorted(logs, key=lambda x: (x.date, x.created_at), reverse=True)`. */
  function Newest(logs: seq<DontLog>): (r: seq<DontLog>)
    ensures multiset(r) == multiset(logs) && |r| == |logs|
    ensures SortedBy(r, DateCreated, Flip(DateCreatedOrder()))
  {
    StrOrderTotal();
    PairOrderTotal(StrOrder(), StrOrder());
    FlipTotal(DateCreatedOrder());
    SortBy(logs, DateCreated, Flip(DateCreatedOrder()))
  }

  function OnDate(today: string): DontLog -> bool {
    (x: DontLog) => x.date == today
  }

  /** `todays[0]` for `todays = [x for x in logs_sorted if x.date == today]`, None when empty. */
  function TodaysLatest(logs: seq<DontLog>, today: string): (r: Option<DontLog>)
    ensures r.Some? ==> r.value in logs && r.value.date == today
  {
    var t := Filter(Newest(logs), OnDate(today));
    if t == [] then None
    else
      assert t[0] in multiset(Newest(logs));
      Some(t[0])
  }

  /**
   * A declaration is shown whenever one was made today, and the shown one
   * was saved no earlier than any other declaration of today.
   */
  lemma TodaysLatestIsLatest(logs: seq<DontLog>, today: string, x: DontLog)
    requires x in logs && x.date == today
    ensures TodaysLatest(logs, today).Some?
    ensures !StrLess(TodaysLatest(logs, today).value.createdAt, x.createdAt)
  {
    var s := Newest(logs);
    var t := Filter(s, OnDate(today));
    assert x in multiset(s);
    FilterMultiset(s, OnDate(today), x);
    assert x in multiset(t);
    var j :| 0 <= j < |t| && t[j] == x;
    FilterSorted(s, OnDate(today), DateCreated, Flip(DateCreatedOrder()));
    if j > 0 {
      assert !DateCreatedOrder()(DateCreated(t[0]), DateCreated(t[j]));
    } else {
      StrLessIrreflexive(x.createdAt);
    }
  }

  /** No declaration is shown when none was made today. */
  lemma TodaysLatestNone(logs: seq<DontLog>, today: string)
    requires forall x :: x in logs ==> x.date != today
    ensures TodaysLatest(logs, today).None?
  {
  }

  /** `[a for a in logs if a.id != x.id]`. */
  function WithoutId(logs: seq<DontLog>, id: string): (r: seq<DontLog>)
    ensures forall k :: 0 <= k < |r| ==> r[k].id != id && r[k] in logs
  {
    Filter(logs, (a: DontLog) => a.id != id)
  }

  /**
   * Deleting by id drops every log with that id, keeps every other log as
   * often as it occurred, and keeps the survivors in their order.
   */
  lemma DeleteKeepsOthers(logs: seq<DontLog>, more: seq<DontLog>, id: string, x: DontLog)
    ensures multiset(WithoutId(logs, id))[x] == if x.id == id then 0 else multiset(logs)[x]
    ensures WithoutId(logs + more, id) == WithoutId(logs, id) + WithoutId(more, id)
  {
    FilterMultiset(logs, (a: DontLog) => a.id != id, x);
    FilterAppend(logs, more, (a: DontLog) => a.id != id);
  }

  // ---------------------------------------------------------------------
  // The stored list

  /** The form's three fields: nothing survives exactly when all are blank, and a saved log keeps every survivor. */
  lemma ThreeFields(chosen: seq<string>, d1: string, d2: string, d3: string, note: string, today: string,
                    freshId: string, now: string)
    requires |chosen| == 3 && chosen[0] == d1 && chosen[1] == d2 && chosen[2] == d3
    ensures Clean(chosen) == [] <==> IsBlank(d1) && IsBlank(d2) && IsBlank(d3)
    ensures NewLog(today, Clean(chosen), note, freshId, now).items == Clean(chosen)
  {
    CleanEmpty(chosen);
    CleanIdempotent(chosen);
    var c := Clean(chosen);
    assert |c| <= 3;
    assert Take(Clean(c), 3) == c;
  }

  class Declarations {
    var logs: seq<DontLog>

    constructor(loaded: seq<DontLog>)
      ensures logs == loaded
    {
      logs := loaded;
    }

    /**
     * The save button: refused when every field is blank, otherwise the
     * cleaned items become a new log of today.
     */
    method Save(dont1: string, dont2: string, dont3: string, note: string, today: string,
                freshId: string, now: string) returns (saved: bool)
      modifies this
      ensures saved <==> !(IsBlank(dont1) && IsBlank(dont2) && IsBlank(dont3))
      ensures !saved ==> logs == old(logs)
      ensures saved ==> logs == old(logs) + [NewLog(today, Clean([dont1, dont2, dont3]), note, freshId, now)]
      ensures saved ==> logs[|logs| - 1].items == Clean([dont1, dont2, dont3])
    {
      var chosen := [dont1, dont2, dont3];
      var clean := Clean(chosen);
      ThreeFields(chosen, dont1, dont2, dont3, note, today, freshId, now);
      if clean == [] {
        return false;
      }
      logs := logs + [NewLog(today, clean, note, freshId, now)];
      return true;
    }

    /** The delete button of one past log. */
    method Delete(id: string)
      modifies this
      ensures logs == WithoutId(old(logs), id)
    {
      logs := WithoutId(logs, id);
    }

    /** The delete-everything button. */
    method DeleteAll()
      modifies this
      ensures logs == []
    {
      logs := [];
    }
  }
}
