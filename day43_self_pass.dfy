/**
 * day43_self_pass: pass yourself for today.  One of three choices is saved
 * with today's date and a fixed message for that choice; the recent list
 * shows the fourteen newest logs by (date, creation time).  Loading fills a
 * stored log's missing fields; a stored list with any entry that is not an
 * object is dropped whole, because the loader's exception handler returns
 * no logs.
 */
module SelfPass {
  import opened Calendar
  import opened DateText
  import opened PyText
  import opened PyList
  import opened PyJson
  import opened Sorting

  const Pass := "合格"
  const SoSo := "まあまあ"
  const Pushed := "無理してた"
  /** The radio's choices. */
  const Choices: seq<string> := [Pass, SoSo, Pushed]

  const PassMessage := "今日は合格。それ以上は望まなくていい。"
  const SoSoMessage := "十分やった。今日はこれでOK。"
  const PushedMessage := "無理してたと気づけた時点で、もう合格。"

  /** The recent list shows this many logs. */
  const Shown: int := 14

  datatype PassLog = PassLog(id: string, date: string, result: string, message: string, createdAt: string)

  /** `result_message`: 合格 and まあまあ have their own texts; anything else gets the third. */
  function ResultMessage(result: string): (m: string)
    ensures m in [PassMessage, SoSoMessage, PushedMessage]
    ensures m == PassMessage <==> result == Pass
    ensures m == SoSoMessage <==> result == SoSo
  {
    if result == Pass then PassMessage
    else if result == SoSo then SoSoMessage
    else PushedMessage
  }

  /** Each choice has its own message, so a saved message tells which choice was made. */
  lemma MessageNamesChoice(a: string, b: string)
    requires a in Choices && b in Choices && ResultMessage(a) == ResultMessage(b)
    ensures a == b
  {
  }

  /** `PassLog.new`. */
  function NewLog(id: string, date: string, result: string, createdAt: string): (log: PassLog)
    ensures log.date == date && log.result == result && log.message == ResultMessage(result)
    ensures log.id == id && log.createdAt == createdAt
  {
    PassLog(id, date, result, ResultMessage(result), createdAt)
  }

  /** One stored dict: a missing id gets a fresh one, a missing date today's, the rest "". */
  function LoadLog(d: map<string, Json>, freshId: string, today: string): (r: PassLog)
    ensures "id" !in d ==> r.id == freshId
    ensures "date" !in d ==> r.date == today
    ensures "result" !in d ==> r.result == ""
    ensures "message" !in d ==> r.message == ""
    ensures "created_at" !in d ==> r.createdAt == ""
    ensures "id" in d && d["id"].JStr? ==> r.id == d["id"].s
    ensures "date" in d && d["date"].JStr? ==> r.date == d["date"].s
    ensures "result" in d && d["result"].JStr? ==> r.result == d["result"].s
    ensures "message" in d && d["message"].JStr? ==> r.message == d["message"].s
    ensures "created_at" in d && d["created_at"].JStr? ==> r.createdAt == d["created_at"].s
  {
    PassLog(StrOf(Get(d, "id", JStr(freshId))),
            StrOf(Get(d, "date", JStr(today))),
            StrOf(Get(d, "result", JStr(""))),
            StrOf(Get(d, "message", JStr(""))),
            StrOf(Get(d, "created_at", JStr(""))))
  }

  /** Every entry of a stored list is an object. */
  predicate AllObjects(raw: seq<Json>) {
    forall k :: 0 <= k < |raw| ==> raw[k].JObject?
  }

  /** `load_logs()` on the decoded file: a non-list, or a list with a non-object, gives no logs. */
  method LoadLogs(raw: Json, freshIds: seq<string>, today: string) returns (logs: seq<PassLog>)
    requires raw.JList? ==> |freshIds| == |raw.items|
    ensures !raw.JList? ==> logs == []
    ensures raw.JList? && !AllObjects(raw.items) ==> logs == []
    ensures raw.JList? && AllObjects(raw.items) ==>
      |logs| == |raw.items|
      && forall k :: 0 <= k < |logs| ==> logs[k] == LoadLog(raw.items[k].fields, freshIds[k], today)
  {
    logs := [];
    if !raw.JList? {
      return;
    }
    var xs := raw.items;
    for n := 0 to |xs|
      invariant |logs| == n && forall k :: 0 <= k < n ==> xs[k].JObject?
      invariant forall k :: 0 <= k < n ==> logs[k] == LoadLog(xs[k].fields, freshIds[k], today)
    {
      if !xs[n].JObject? {
        logs := [];
        return;
      }
      logs := logs + [LoadLog(xs[n].fields, freshIds[n], today)];
    }
  }

  function LogKey(log: PassLog): (string, string) {
    (log.date, log.createdAt)
  }

  /** The newest-first order: by date, then by creation time, both as text. */
  function Newest(): ((string, string), (string, string)) -> bool {
    Flip(PairOrder(StrOrder(), StrOrder()))
  }

  /** `sorted(logs, key=(date, created_at), reverse=True)[:14]`. */
  function Recent(logs: seq<PassLog>): (r: seq<PassLog>)
    ensures |r| == if |logs| < Shown then |logs| else Shown
    ensures SortedBy(r, LogKey, Newest())
    ensures forall k :: 0 <= k < |r| ==> r[k] in logs
    ensures forall x :: x in logs && x !in r ==> forall k :: 0 <= k < |r| ==> !Newest()(LogKey(x), LogKey(r[k]))
    ensures multiset(r) <= multiset(logs)
    ensures forall x :: x in multiset(logs) - multiset(r) ==> forall k :: 0 <= k < |r| ==> !Newest()(LogKey(x), LogKey(r[k]))
  {
    StrOrderTotal();
    PairOrderTotal(StrOrder(), StrOrder());
    FlipTotal(PairOrder(StrOrder(), StrOrder()));
    var sorted := SortBy(logs, LogKey, Newest());
    TakeSorted(logs, sorted, LogKey, Newest(), Shown);
    Take(sorted, Shown)
  }

  /** Among the recent logs, a later date is never listed after an earlier one. */
  lemma RecentByDate(logs: seq<PassLog>)
    ensures var r := Recent(logs);
      forall i, j :: 0 <= i < j < |r| ==> !StrLess(r[i].date, r[j].date)
  {
    var r := Recent(logs);
    forall i, j | 0 <= i < j < |r| ensures !StrLess(r[i].date, r[j].date) {
      assert !Newest()(LogKey(r[j]), LogKey(r[i]));
    }
  }

  class Journal {
    var logs: seq<PassLog>

    constructor(loaded: seq<PassLog>)
      ensures logs == loaded
    {
      logs := loaded;
    }

    /** ✅ Save: a log for today with the chosen result and its message. */
    method Save(choice: string, today: Date, id: string, now: string) returns (msg: string)
      requires choice in Choices && InPyRange(today)
      modifies this
      ensures msg == ResultMessage(choice)
      ensures logs == old(logs) + [NewLog(id, Iso(today), choice, now)]
      ensures FromIso(logs[|logs| - 1].date) == Some(today)
    {
      msg := ResultMessage(choice);
      logs := logs + [NewLog(id, Iso(today), choice, now)];
      FromIsoIso(today);
    }

    /** The delete-everything button. */
    method ClearAll()
      modifies this
      ensures logs == []
    {
      logs := [];
    }
  }
}
