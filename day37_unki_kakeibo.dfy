/**
 * day37_unki_kakeibo: a household ledger with a rule-based "money luck".
 * The luck type follows the weekday; the hint adds a line for the month's
 * group and, near the year's turn or at a month's end, an event line.
 * Saving an entry needs a positive amount, stamps the entry with its date's
 * luck type and, for an expense with a receipt image, the image's path.
 */
module UnkiKakeibo {
  import opened Calendar
  import opened DateText
  import opened PyText

  // ---------------------------------------------------------------------
  // The luck of a date

  datatype Kind = Saving | Invest | SpendOk | SpendCapped | Waste

  /** The weekday rule (Monday = 0). */
  function KindOf(weekday: int): (k: Kind)
    requires 0 <= weekday < 7
    ensures k == Saving <==> weekday == 0 || weekday == 3
    ensures k == Invest <==> weekday == 1 || weekday == 6
    ensures k == SpendOk <==> weekday == 2
    ensures k == SpendCapped <==> weekday == 4
    ensures k == Waste <==> weekday == 5
  {
    if weekday == 0 then Saving
    else if weekday == 1 then Invest
    else if weekday == 2 then SpendOk
    else if weekday == 3 then Saving
    else if weekday == 4 then SpendCapped
    else if weekday == 5 then Waste
    else Invest
  }

  /** The type label stored with an entry. */
  function TypeText(k: Kind): string {
    match k
    case Saving => "🌱 節約運"
    case Invest => "🌕 自己投資向き"
    case SpendOk => "💎 使ってOK"
    case SpendCapped => "💎 使ってOK（上限つき）"
    case Waste => "🔥 浪費注意"
  }

  /** The weekday's own hint; Monday and Thursday, Tuesday and Sunday share a type but not a hint. */
  function BaseHint(weekday: int): string
    requires 0 <= weekday < 7
  {
    if weekday == 0 then "週の始まりは整える日。小さな支出を見直すと強い。"
    else if weekday == 1 then "学び・改善に使うと回収しやすい日。"
    else if weekday == 2 then "小さなご褒美で気持ちを整えると流れが良くなる日。"
    else if weekday == 3 then "固定費・習慣の見直しに向く日。"
    else if weekday == 4 then "楽しむのはOK。ただし“上限”を決めると運気が安定。"
    else if weekday == 5 then "衝動が増えやすい日。買う前に一回深呼吸がおすすめ。"
    else "来週の準備にお金を使うと心が軽くなる日。"
  }

  datatype MonthGroup = NewFlow | Building | Busy | Steady

  /** The month's group: {1, 4, 9}, {2, 6, 11}, {3, 7, 12}, the rest. */
  function GroupOf(month: int): (g: MonthGroup)
    ensures g == NewFlow <==> month in {1, 4, 9}
    ensures g == Building <==> month in {2, 6, 11}
    ensures g == Busy <==> month in {3, 7, 12}
    ensures g == Steady <==> month !in {1, 4, 9, 2, 6, 11, 3, 7, 12}
  {
    if month in {1, 4, 9} then NewFlow
    else if month in {2, 6, 11} then Building
    else if month in {3, 7, 12} then Busy
    else Steady
  }

  function MonthHint(g: MonthGroup): string {
    match g
    case NewFlow => "新しい流れの月。まずは“整える支出”が吉。"
    case Building => "積み上げの月。小さな節約が大きく効いてくるよ。"
    case Busy => "出入りが大きくなりやすい月。記録でブレを抑えよう。"
    case Steady => "安定しやすい月。無理なく“続ける”が勝ち。"
  }

  const YearEndHint: string := "年末は出費が増えがち。『予定された出費』に強くしよう。"
  const NewYearHint: string := "年始は“今年の方針”を決めるとお金の流れが整うよ。"
  const MonthEndHint: string := "月末は締めの日。まとめて見直すと◎"

  /**
   * The event line: the year-end text in December, the new-year text on
   * January 1 to 10, and from the 28th the month-end text, after a space
   * when there already is one.
   */
  function EventHint(month: int, day: int): (e: string)
    ensures e == "" <==> month != 12 && !(month == 1 && day <= 10) && day < 28
    ensures day < 28 && month == 12 ==> e == YearEndHint
    ensures day < 28 && month == 1 && day <= 10 ==> e == NewYearHint
    ensures day >= 28 && month == 12 ==> e == YearEndHint + " " + MonthEndHint
    ensures day >= 28 && month != 12 ==> e == MonthEndHint
  {
    var e := if month == 12 then YearEndHint else "";
    var e := if month == 1 && day <= 10 then NewYearHint else e;
    if day >= 28 then (if e != "" then e + " " else "") + MonthEndHint else e
  }

  datatype Unki = Unki(kind: Kind, hint: string)

  /** `get_unki_rule_based(d)`: the type from the weekday, the hint from all three parts. */
  function UnkiFor(d: Date): (u: Unki)
    requires Valid(d)
    ensures u.kind == KindOf(Weekday(d))
  {
    var wd := Weekday(d);
    var event := EventHint(d.month, d.day);
    var hint := BaseHint(wd) + " " + MonthHint(GroupOf(d.month)) + (if event != "" then " " + event else "");
    Unki(KindOf(wd), Strip(hint))
  }

  /** Two dates with the same weekday have the same type, whatever their month and day. */
  lemma TypeByWeekday(a: Date, b: Date)
    requires Valid(a) && Valid(b) && Weekday(a) == Weekday(b)
    ensures UnkiFor(a).kind == UnkiFor(b).kind
  {
  }

  /** Any whole number of weeks later (or earlier) the type is the same again. */
  lemma TypeWeekly(d: Date, weeks: int)
    requires Valid(d)
    ensures UnkiFor(AddDays(d, 7 * weeks)).kind == UnkiFor(d).kind
  {
    var e := AddDays(d, 7 * weeks);
    WeekdayOfWeeks(Ordinal(d), weeks);
    assert Weekday(e) == Weekday(d);
    TypeByWeekday(e, d);
  }

  lemma WeekdayOfWeeks(o: int, weeks: int)
    ensures WeekdayOf(o + 7 * weeks) == WeekdayOf(o)
  {
    assert o + 7 * weeks + 6 == (o + 6) + weeks * 7;
  }

  // ---------------------------------------------------------------------
  // Luna's line

  datatype Luna = IncomeLine | SavingLine | CappedLine | SpendOkLine | WasteLine | InvestLine | PlainLine

  /** `luna_message`: income first, then the substring tests in the order written. */
  function LunaFor(unkiType: string, entryType: string): (l: Luna)
    ensures entryType == "収入" <==> l == IncomeLine
  {
    if entryType == "収入" then IncomeLine
    else if Contains(unkiType, "節約運") then SavingLine
    else if Contains(unkiType, "上限つき") then CappedLine
    else if Contains(unkiType, "使ってOK") then SpendOkLine
    else if Contains(unkiType, "浪費注意") then WasteLine
    else if Contains(unkiType, "自己投資") then InvestLine
    else PlainLine
  }

  /** A needle whose first character never occurs is not contained. */
  lemma NotContainsFirst(hay: string, needle: string)
    requires |needle| > 0 && forall i :: 0 <= i < |hay| ==> hay[i] != needle[0]
    ensures !Contains(hay, needle)
  {
    forall i | 0 <= i <= |hay| - |needle|
      ensures !OccursAt(hay, needle, i)
    {
      assert hay[i..i + |needle|][0] == hay[i];
    }
  }

  /**
   * For an expense every type gets its own line; Friday's type also
   * contains "使ってOK" but the cap test comes first.
   */
  lemma LunaForTypes(k: Kind)
    ensures LunaFor(TypeText(k), "支出") == match k
      case Saving => SavingLine
      case SpendCapped => CappedLine
      case SpendOk => SpendOkLine
      case Waste => WasteLine
      case Invest => InvestLine
    ensures LunaFor(TypeText(k), "支出") != PlainLine
  {
    var t := TypeText(k);
    match k
    case Saving =>
      assert OccursAt(t, "節約運", 2);
    case SpendCapped =>
      NotContainsFirst(t, "節約運");
      assert OccursAt(t, "上限つき", 8);
    case SpendOk =>
      NotContainsFirst(t, "節約運");
      NotContainsFirst(t, "上限つき");
      assert OccursAt(t, "使ってOK", 2);
    case Waste =>
      NotContainsFirst(t, "節約運");
      NotContainsFirst(t, "上限つき");
      NotContainsFirst(t, "使ってOK");
      assert OccursAt(t, "浪費注意", 2);
    case Invest =>
      NotContainsFirst(t, "節約運");
      NotContainsFirst(t, "上限つき");
      NotContainsFirst(t, "使ってOK");
      NotContainsFirst(t, "浪費注意");
      assert OccursAt(t, "自己投資", 2);
  }

  function LunaText(l: Luna): string {
    match l
    case IncomeLine => "入ってきた…！流れが来てるよ✨ ちゃんと記録できてえらい。"
    case SavingLine => "えらい…！今日の節約は“運を貯金”してるみたいだよ🌱"
    case CappedLine => "ご褒美OKの日✨ でも上限を決めたら勝ちだよ。"
    case SpendOkLine => "うん、その使い方なら素敵✨ちゃんと心が満ちてる。"
    case WasteLine => "記録できたのが勝ち！次は買う前に3秒止まろ？🔥"
    case InvestLine => "未来のご主人にプレゼントだね🌕すごくいい使い方。"
    case PlainLine => "今日も記録できたね。ちゃんと前に進んでるよ🌙"
  }

  // ---------------------------------------------------------------------
  // Receipts

  /** The last index of `c` in `s`, or -1. */
  function LastIndexOf(s: string, c: char): (i: int)
    ensures -1 <= i < |s|
    ensures i >= 0 ==> s[i] == c
    ensures forall j :: i < j < |s| ==> s[j] != c
  {
    if s == [] then -1
    else if s[|s| - 1] == c then |s| - 1
    else LastIndexOf(s[..|s| - 1], c)
  }

  /** `Path(name).suffix`: from the last dot, unless the dot starts or ends the name. */
  function Suffix(name: string): (r: string)
    ensures r == "" || (r[0] == '.' && forall j :: 1 <= j < |r| ==> r[j] != '.')
  {
    var i := LastIndexOf(name, '.');
    if 0 < i < |name| - 1 then name[i..] else ""
  }

  const ImageExts: set<string> := {".png", ".jpg", ".jpeg", ".webp"}

  /** The saved image's extension: the lowered suffix when it is an image one, else ".png". */
  function ReceiptExt(name: string): (ext: string)
    ensures ext in ImageExts
    ensures Lower(Suffix(name)) in ImageExts ==> ext == Lower(Suffix(name))
  {
    var ext := Lower(Suffix(name));
    if ext in ImageExts then ext else ".png"
  }

  /** The stored path: `data/receipts/YYYY-MM/<timestamp><ext>`, relative to the app's folder. */
  function ReceiptPath(d: Date, stamp: string, name: string): string
    requires InPyRange(d)
  {
    "data/receipts/" + Digits4(d.year) + "-" + Digits2(d.month) + "/" + stamp + ReceiptExt(name)
  }

  // ---------------------------------------------------------------------
  // Entries

  datatype Row = Row(date: string, entryType: string, amount: int, category: string,
                     memo: string, unki: string, receiptPath: string)

  /** An uploaded receipt: its file name and the save time's `%Y%m%d_%H%M%S` stamp. */
  datatype Receipt = Receipt(name: string, stamp: string)

  class Ledger {
    var rows: seq<Row>

    constructor(rows0: seq<Row>)
      ensures rows == rows0
    {
      rows := rows0;
    }

    /**
     * "保存する": an amount of 0 or less is refused; otherwise the row is
     * appended with the date's type, the stripped memo and, for an expense
     * with an image, the receipt's path, and Luna's line is returned.
     */
    method Save(d: Date, entryType: string, amount: int, category: string, memo: string,
                receipt: Option<Receipt>) returns (line: Option<Luna>)
      requires InPyRange(d)
      modifies this
      ensures line.None? <==> amount <= 0
      ensures amount <= 0 ==> rows == old(rows)
      ensures amount > 0 ==> line == Some(LunaFor(TypeText(UnkiFor(d).kind), entryType))
      ensures amount > 0 ==> rows == old(rows) + [Row(Iso(d), entryType, amount, category, Strip(memo),
        TypeText(KindOf(Weekday(d))),
        if entryType == "支出" && receipt.Some? then ReceiptPath(d, receipt.value.stamp, receipt.value.name) else "")]
    {
      if amount <= 0 {
        line := None;
        return;
      }
      var unki := UnkiFor(d);
      var path := "";
      if entryType == "支出" && receipt.Some? {
        path := ReceiptPath(d, receipt.value.stamp, receipt.value.name);
      }
      rows := rows + [Row(Iso(d), entryType, amount, category, Strip(memo), TypeText(unki.kind), path)];
      line := Some(LunaFor(TypeText(unki.kind), entryType));
    }
  }
}
