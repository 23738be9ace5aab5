/**
 * day69_one_thing_tomorrow: a single task for tomorrow.  On a near-zero
 * energy day the task is an entry of that energy's pool; otherwise it is a
 * task of the chosen domain, kept as it is when it already says "だけ"
 * ("only") and otherwise followed by a modifier of the chosen energy in
 * full-width brackets.  The result can be saved or cleared.
 */
module OneThingTomorrow {
  import opened PyText
  import opened NoteText

  /** `ONE_THINGS`: the candidate tasks of each domain. */
  const OneThings: map<string, seq<string>> := map[
    "開発（アプリ/コード）" := [
      "プロジェクトを開くだけ（起動だけでOK）",
      "1行だけ改善する（変数名/表示文など）",
      "READMEに1行追記する",
      "バグを1つだけ再現してメモする",
      "UIを1か所だけ整える（余白/見出し/ボタン）",
      "Push準備だけする（add/commitは後でOK）"],
    "発信（Note/X/ブログ）" := [
      "タイトルだけ決める",
      "見出しを3つ作る",
      "200文字だけ書く",
      "ネタを箇条書きで5個出す",
      "過去アプリを1つ紹介する文章を作る"],
    "学習（勉強/資格）" := [
      "テキストを開いて1ページだけ読む",
      "問題を1問だけ解く",
      "今日の疑問を1つメモする",
      "重要語句を3つだけ書き出す"],
    "生活（家/体）" := [
      "机の上を1か所だけ片づける（30秒でもOK）",
      "洗い物を“1つだけ”洗う",
      "明日の準備を1つだけする（服/カバン/水）",
      "5分だけ散歩 or ストレッチ",
      "湯船 or 温かい飲み物で体温を上げる"],
    "メンタル（整える）" := [
      "不安を1行だけ書き出して終了",
      "スマホを裏返して3分休む",
      "深呼吸（4秒吸って6秒吐く×5回）",
      "『今日できたこと』を1つ思い出す"]
  ]

  /** The near-zero energy level, whose task is its own pool entry. */
  const NearZero: string := "ほぼゼロ（守る日）"

  /** `ENERGY_LEVELS`: the modifiers of each energy level. */
  const EnergyLevels: map<string, seq<string>> := map[
    NearZero := [
      "『休む』をひとつだけとして採用（布団に入るだけ）",
      "水をひと口飲む",
      "目を閉じて1分だけ呼吸する"],
    "低め（ゆっくり）" := [
      "5分だけやる",
      "準備だけする",
      "1か所だけ整える"],
    "普通（いける）" := [
      "短いアウトプットを出す",
      "1つ改善する",
      "1つ終わらせる"],
    "高め（攻められる）" := [
      "小さめの完成まで持っていく",
      "1本投稿する",
      "次の段取りまで作る"]
  ]

  const LunaLines: seq<string> := [
    "それだけで十分。明日は進む。",
    "小さく勝つと、流れが戻る。",
    "“ひとつだけ”は最強の戦略。",
    "今日のあなたに合うサイズでいこう。",
    "できたら勝ち。できなくても、また選び直せばいい。"
  ]

  /** The marker that a task is already small enough. */
  const Only: string := "だけ"

  datatype Result = Result(one: string, line: string, noteLine: string)

  /**
   * `pick_one(domain, energy, notes)`, with the `random.choice` draws given
   * as indices: `b` into the domain's tasks, `m` into the energy's pool and
   * `l` into the lines.
   */
  function PickOne(domain: string, energy: string, notes: string, b: nat, m: nat, l: nat): (r: Result)
    requires domain in OneThings && energy in EnergyLevels
    requires b < |OneThings[domain]| && m < |EnergyLevels[energy]| && l < |LunaLines|
    ensures energy == NearZero ==> r.one in EnergyLevels[NearZero]
    ensures energy != NearZero && Contains(OneThings[domain][b], Only) ==> r.one == OneThings[domain][b]
    ensures energy != NearZero && !Contains(OneThings[domain][b], Only) ==>
      exists j :: (0 <= j < |EnergyLevels[energy]| && r.one == OneThings[domain][b] + "（" + EnergyLevels[energy][j] + "）")
    ensures r.line in LunaLines
    ensures r.noteLine == NoteLine(notes)
  {
    var one := if energy == NearZero then EnergyLevels[energy][m]
               else
                 var base := OneThings[domain][b];
                 if Contains(base, Only) then base else base + "（" + EnergyLevels[energy][m] + "）";
    Result(one, LunaLines[l], NoteLine(notes))
  }

  /**
   * Off a near-zero day the drawn task is kept unchanged exactly when it
   * already says "だけ", so every task then says "だけ" or ends with a
   * bracketed modifier.
   */
  lemma KeptWhenOnly(domain: string, energy: string, notes: string, b: nat, m: nat, l: nat)
    requires domain in OneThings && energy in EnergyLevels && energy != NearZero
    requires b < |OneThings[domain]| && m < |EnergyLevels[energy]| && l < |LunaLines|
    ensures PickOne(domain, energy, notes, b, m, l).one == OneThings[domain][b]
        <==> Contains(OneThings[domain][b], Only)
    ensures var one := PickOne(domain, energy, notes, b, m, l).one;
      Contains(one, Only) || (|one| > 0 && one[|one| - 1] == '）')
  {
    var base := OneThings[domain][b];
    if !Contains(base, Only) {
      assert |PickOne(domain, energy, notes, b, m, l).one| > |base|;
    }
  }

  /** A history row: the task with the choices and stripped note it was saved with. */
  datatype Entry = Entry(time: string, domain: string, energy: string, notes: string, one: string, line: string)

  class Planner {
    /** `st.session_state["result"]`. */
    var result: Option<Result>
    var history: seq<Entry>

    constructor(history0: seq<Entry>)
      ensures result == None && history == history0
    {
      result := None;
      history := history0;
    }

    /** "明日の“ひとつだけ”を決める". */
    method Decide(domain: string, energy: string, notes: string, b: nat, m: nat, l: nat)
      requires domain in OneThings && energy in EnergyLevels
      requires b < |OneThings[domain]| && m < |EnergyLevels[energy]| && l < |LunaLines|
      modifies this
      ensures result == Some(PickOne(domain, energy, notes, b, m, l))
      ensures history == old(history)
    {
      result := Some(PickOne(domain, energy, notes, b, m, l));
    }

    /** "履歴に保存": the shown task with the current choices is appended. */
    method Save(now: string, domain: string, energy: string, notes: string)
      requires result.Some?
      modifies this
      ensures result == old(result)
      ensures history == old(history) + [Entry(now, domain, energy, Strip(notes), old(result).value.one, old(result).value.line)]
    {
      history := history + [Entry(now, domain, energy, Strip(notes), result.value.one, result.value.line)];
    }

    /** "クリア". */
    method Clear()
      modifies this
      ensures result == None && history == old(history)
    {
      result := None;
    }
  }
}
