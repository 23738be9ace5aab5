/**
 * day68_night_reset: five bedtime checks.  "整え完了" counts the ticked
 * ones and builds a result: a mood banded on the count, a whisper, a tip
 * from the low or the ok pool, and a memo line when a note was written.
 * The result can be appended to the history or cleared.
 */
module NightReset {
  import opened PyText
  import opened PyList
  import opened NoteText

  /** `CHECKS`: five (key, label) pairs. */
  const Checks: seq<(string, string)> := [
    ("🫧 水分", "水をひと口でも飲めた"),
    ("🧼 体", "顔を洗った／歯を磨いた／シャワーした"),
    ("🧠 頭", "明日の不安を“1行”にして外に出した"),
    ("📱 情報", "スマホを一度置けた（1分でもOK）"),
    ("🫶 自分", "今日の自分に『おつかれ』と言えた")
  ]

  const Whispers: seq<string> := [
    "今日は、ここまでで十分。",
    "整えるだけで、明日は違う。",
    "眠ることは、最大の回復。",
    "あなたは今日もよく耐えた。",
    "大丈夫。ちゃんと積み上がってる。"
  ]

  const SuggestionsLow: seq<string> := [
    "布団に入るだけで勝ち。スマホは裏返してOK。",
    "温かい飲み物を3口だけ。",
    "呼吸：4秒吸って6秒吐く×5回だけ。",
    "明日のことは、明日の自分に渡していい。"
  ]

  const SuggestionsOk: seq<string> := [
    "最後に部屋のライトを少し落として、体を“夜モード”にしよう。",
    "明日の最小タスクを1つだけ書いて、終わり。",
    "首・肩を30秒ゆっくり回して、力を抜こう。",
    "『今日できたこと』を1つ思い出して寝よう。"
  ]

  const MoodProtect: string := "🕯 今日は“守る日”"
  const MoodSlight: string := "🌙 ちょい整い"
  const MoodWell: string := "🌟 かなり整ってる"

  datatype Result = Result(mood: string, whisper: string, tip: string, noteLine: string)

  /**
   * `build_result(done_count, notes)`, with the two `random.choice`
   * draws given as the indices `w` (whisper) and `t` (tip).
   */
  function BuildResult(doneCount: int, notes: string, w: nat, t: nat): (r: Result)
    requires w < |Whispers| && t < 4
    ensures r.whisper in Whispers
    ensures r.mood == MoodProtect <==> doneCount <= 1
    ensures r.mood == MoodSlight <==> 1 < doneCount <= 3
    ensures r.mood == MoodWell <==> 3 < doneCount
    ensures doneCount <= 1 ==> r.tip in SuggestionsLow
    ensures doneCount > 1 ==> r.tip in SuggestionsOk
    ensures r.noteLine == NoteLine(notes)
  {
    var whisper := Whispers[w];
    if doneCount <= 1 then Result(MoodProtect, whisper, SuggestionsLow[t], NoteLine(notes))
    else if doneCount <= 3 then Result(MoodSlight, whisper, SuggestionsOk[t], NoteLine(notes))
    else Result(MoodWell, whisper, SuggestionsOk[t], NoteLine(notes))
  }

  /** A history row. */
  datatype Entry = Entry(time: string, doneCount: int, checked: seq<bool>, notes: string,
                         mood: string, whisper: string, tip: string)

  class Night {
    /** `st.session_state["result"]`, absent until the first "整え完了". */
    var result: Option<(int, Result)>
    var history: seq<Entry>

    /** A fresh page over the loaded history. */
    constructor(history0: seq<Entry>)
      ensures result == None && history == history0
    {
      result := None;
      history := history0;
    }

    /** "整え完了": the count of ticked boxes (0 to 5) and its result are kept in the session. */
    method Finish(checked: seq<bool>, notes: string, w: nat, t: nat) returns (doneCount: int)
      requires |checked| == |Checks| && w < |Whispers| && t < 4
      modifies this
      ensures 0 <= doneCount <= 5 && doneCount == CountTrue(checked)
      ensures result == Some((doneCount, BuildResult(doneCount, notes, w, t)))
      ensures history == old(history)
    {
      doneCount := CountTrue(checked);
      result := Some((doneCount, BuildResult(doneCount, notes, w, t)));
    }

    /** "履歴に保存": the shown result with the current boxes and stripped note is appended. */
    method Save(now: string, checked: seq<bool>, notes: string)
      requires result.Some?
      modifies this
      ensures result == old(result)
      ensures var (n, r) := old(result).value;
        history == old(history) + [Entry(now, n, checked, Strip(notes), r.mood, r.whisper, r.tip)]
    {
      var (n, r) := result.value;
      history := history + [Entry(now, n, checked, Strip(notes), r.mood, r.whisper, r.tip)];
    }

    /** "クリア": the result is dropped, the history kept. */
    method Clear()
      modifies this
      ensures result == None && history == old(history)
    {
      result := None;
    }
  }

  /** The mood follows the count upward: protect, then slightly, then well tuned. */
  lemma MoodBands(a: int, b: int, notes: string, w: nat, t: nat)
    requires a <= b && w < |Whispers| && t < 4
    ensures BuildResult(a, notes, w, t).mood == MoodWell ==> BuildResult(b, notes, w, t).mood == MoodWell
    ensures BuildResult(b, notes, w, t).mood == MoodProtect ==> BuildResult(a, notes, w, t).mood == MoodProtect
  {
  }
}
