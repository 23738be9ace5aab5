/**
 * day70_weekly_min_goal: one minimum goal for the ISO week.  A recovery
 * week ("守り週") takes its goal from the energy pool alone; any other week
 * joins a goal of the chosen domain with a modifier of the chosen energy in
 * full-width brackets.  The result can be saved with the week id or
 * cleared.
 */
module WeeklyMinGoal {
  import opened Calendar
  import opened DateText
  import opened PyText
  import opened NoteText

  /** `GOALS`: the candidate goals of each domain. */
  const Goals: map<string, seq<string>> := map[
    "開発（アプリ/コード）" := [
      "新しいDayを1本だけ完成させる",
      "既存アプリを1本だけ改善してPushする",
      "UIだけ整える（見出し/余白/ボタン）を1回やる",
      "次の企画を3つ考えてメモする",
      "READMEを1本ぶん整える"],
    "発信（Note/X/ブログ）" := [
      "投稿を1本だけ出す（短文でOK）",
      "下書きを1本だけ作る（公開しなくてOK）",
      "1週間のまとめ記事の骨子だけ作る",
      "過去アプリ紹介を1本書く",
      "タイトル案を10個だけ出す"],
    "学習（勉強/資格）" := [
      "問題を3問だけ解く（合計でOK）",
      "1章だけ読む（途中まででもOK）",
      "復習メモを1ページだけ作る",
      "苦手テーマを1つだけ洗い出す"],
    "生活（家/体）" := [
      "部屋の1エリアだけ片づける（机/棚など）",
      "散歩を1回だけする（5分でもOK）",
      "睡眠を1日だけ“守る日”にする",
      "食事を1回だけ整える（汁物/野菜）"],
    "メンタル（整える）" := [
      "不安を書き出す時間を1回だけ取る（5分）",
      "スマホ断ち10分を1回やる",
      "自分を褒めるを週に1回だけやる",
      "『やらないこと』を1つ決める"]
  ]

  /** The recovery week, whose goal is its own pool entry. */
  const Protect: string := "守り週（とにかく回復）"

  /** `ENERGY_WEEK`: the modifiers of each week's energy. */
  const EnergyWeek: map<string, seq<string>> := map[
    Protect := [
      "『休む』を週の最小目標にする",
      "病院/手続き/生活の維持を最優先にする",
      "“外に出る”を1回だけでOKにする"],
    "ゆる週（少し戻す）" := [
      "1回だけやる（曜日は決めない）",
      "準備だけ1回する",
      "短時間で終わる形にする"],
    "通常週（進める）" := [
      "小さく1本仕上げる",
      "1つ改善して記録を残す",
      "週末に軽くまとめる"],
    "攻め週（伸ばす）" := [
      "“完成”を週に1回作る",
      "投稿と開発を1回ずつやる",
      "次週の段取りまで作る"]
  ]

  const LunaLines: seq<string> := [
    "週は長い。最小目標があるだけで勝ち。",
    "“これだけ”があると、迷いが消える。",
    "週の終わりに、ちゃんと自信が残るよ。",
    "小さく積む人が、結局いちばん強い。",
    "体調優先でOK。最小目標は逃げない。"
  ]

  datatype Result = Result(goal: string, line: string, noteLine: string)

  /**
   * `pick_week_goal(domain, energy, notes)`, with the `random.choice` draws
   * given as indices: `b` into the domain's goals, `m` into the energy's
   * pool and `l` into the lines.
   */
  function PickWeekGoal(domain: string, energy: string, notes: string, b: nat, m: nat, l: nat): (r: Result)
    requires domain in Goals && energy in EnergyWeek
    requires b < |Goals[domain]| && m < |EnergyWeek[energy]| && l < |LunaLines|
    ensures energy == Protect ==> r.goal in EnergyWeek[Protect]
    ensures energy != Protect ==> exists i, j :: (0 <= i < |Goals[domain]| && 0 <= j < |EnergyWeek[energy]|
      && r.goal == Goals[domain][i] + "（" + EnergyWeek[energy][j] + "）")
    ensures r.line in LunaLines
    ensures r.noteLine == NoteLine(notes)
  {
    var goal := if energy == Protect then EnergyWeek[energy][m]
                else Goals[domain][b] + "（" + EnergyWeek[energy][m] + "）";
    Result(goal, LunaLines[l], NoteLine(notes))
  }

  /**
   * The two kinds of goal are told apart by the closing bracket: only a
   * goal joined with a modifier ends in "）".
   */
  lemma GoalBracket(domain: string, energy: string, notes: string, b: nat, m: nat, l: nat)
    requires domain in Goals && energy in EnergyWeek
    requires b < |Goals[domain]| && m < |EnergyWeek[energy]| && l < |LunaLines|
    ensures var g := PickWeekGoal(domain, energy, notes, b, m, l).goal;
      |g| > 0 && (g[|g| - 1] == '）' <==> energy != Protect)
  {
    var g := PickWeekGoal(domain, energy, notes, b, m, l).goal;
    if energy == Protect {
      var pool := EnergyWeek[Protect];
      assert forall k :: 0 <= k < |pool| ==> |pool[k]| > 0 && pool[k][|pool[k]| - 1] == 'る';
    }
  }

  /** A history row: the week's goal with the choices and stripped note it was saved with. */
  datatype Entry = Entry(time: string, week: string, domain: string, energy: string,
                         notes: string, goal: string, line: string)

  class Planner {
    /** `st.session_state["result"]`. */
    var result: Option<Result>
    var history: seq<Entry>

    constructor(history0: seq<Entry>)
      ensures result == None && history == history0
    {
      result := None;
      history := history0;
    }

    /** "今週の最小目標を決める". */
    method Decide(domain: string, energy: string, notes: string, b: nat, m: nat, l: nat)
      requires domain in Goals && energy in EnergyWeek
      requires b < |Goals[domain]| && m < |EnergyWeek[energy]| && l < |LunaLines|
      modifies this
      ensures result == Some(PickWeekGoal(domain, energy, notes, b, m, l))
      ensures history == old(history)
    {
      result := Some(PickWeekGoal(domain, energy, notes, b, m, l));
    }

    /** "履歴に保存": the shown goal, with this week's id and the current choices, is appended. */
    method Save(now: string, today: Date, domain: string, energy: string, notes: string)
      requires result.Some? && Valid(today)
      modifies this
      ensures result == old(result)
      ensures history == old(history) + [Entry(now, WeekId(today), domain, energy, Strip(notes),
                                               old(result).value.goal, old(result).value.line)]
    {
      history := history + [Entry(now, WeekId(today), domain, energy, Strip(notes), result.value.goal, result.value.line)];
    }

    /** "クリア". */
    method Clear()
      modifies this
      ensures result == None && history == old(history)
    {
      result := None;
    }
  }
}
