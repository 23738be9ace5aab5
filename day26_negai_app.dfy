/**
 * day26_negai_app: a four-step, seventeen-seconds-each focus ritual.  The
 * session keeps the step (1 to 4, then 5 meaning done), the wish, the
 * theme, the generated future message and a finished flag that makes the
 * message be generated once per completion.
 */
module NegaiApp {
  import opened PyText

  // ---------------------------------------------------------------------
  // Pure helpers

  /** The wish as quoted in the message: stripped, and over 40 characters cut to 37 plus "…". */
  function ShortWish(wish: string): (r: string)
    ensures |Strip(wish)| <= 40 ==> r == Strip(wish)
    ensures |Strip(wish)| > 40 ==> |r| == 38 && r[..37] == Strip(wish)[..37] && r[37] == '…'
    ensures |r| <= 40
  {
    var w := Strip(wish);
    if |w| > 40 then w[..37] + "…" else w
  }

  /** `base_templates[pick].format(wish=w)`: only the first template quotes the wish. */
  function Template(pick: nat, w: string): string
    requires pick < 5
  {
    match pick
    case 0 => "「" + w + "」っていう願い、未来のご主人にとってはもう『当たり前の景色』になってるよ。"
    case 1 => "焦って動き回るよりも、今日みたいに【波動をそろえる時間】を持つことが、一番の近道なんだよ。"
    case 2 => "ちゃんと感じきれた68秒は、行動の質をじわじわ変えていくからね。ご主人はもう、スタートを切ってる。"
    case 3 => "途中で落ち込む日があっても大丈夫。未来のご主人は、その全部込みで『よくここまで来たな』って笑ってるよ。"
    case _ => "ご主人が思ってる以上に、宇宙もアタイも、ちゃんと味方だからね。"
  }

  /** `theme_tail`: a closing line per theme. */
  const ThemeTails: map<string, string> := map[
    "お金・豊かさ" := "お金は、ご主人の喜びと好奇心についてくる“エネルギーの流れ”みたいなもの。楽しむことを、遠慮しないでね。",
    "仕事・ライフワーク" := "仕事は『自分をすり減らす場』じゃなくて、『自分の才能を試して育てるステージ』。少しずつ、そっち側に寄っていくよ。",
    "恋愛・パートナーシップ" := "ご主人が自分を大切にするほど、周りとの関係もほどけていくからね。まずは自分の心に、優しくしてあげて。",
    "健康・美容" := "体は、魂の“お家”みたいなもの。ちょっとずつでも、ご主人の体が喜ぶ選択を足していこうね。",
    "自己成長・学び" := "インプットも休息も、どっちも成長の一部。『止まったように見える日』にも、ちゃんと発酵は進んでるよ。",
    "家族・人間関係" := "完璧な家族なんてどこにもないからこそ、ご主人の小さな優しさが、ちゃんと光ってるよ。",
    "その他" := "ご主人の“変なこだわり”や“マニアックな夢”こそ、未来の世界を面白くするタネなんだよ。"]

  /** `theme_tail.get(theme, "")`. */
  function ThemeTail(theme: string): string {
    if theme in ThemeTails then ThemeTails[theme] else ""
  }

  /** `generate_future_message(wish, theme)` with `random.choice` given as the index `pick`. */
  function FutureMessage(wish: string, theme: string, pick: nat): (m: string)
    requires pick < 5
  {
    Template(pick, ShortWish(wish)) + "\n\n" + ThemeTail(theme)
  }

  /** The message is the picked line, a blank line and the theme's tail; the first line quotes the short wish. */
  lemma FutureMessageShape(wish: string, theme: string, pick: nat)
    requires pick < 5
    ensures var m := FutureMessage(wish, theme, pick);
      var t := ThemeTail(theme);
      |m| >= |t| + 2 && m[|m| - |t|..] == t && m[|m| - |t| - 2..|m| - |t|] == "\n\n"
      && (pick == 0 ==> m[1..1 + |ShortWish(wish)|] == ShortWish(wish))
  {
    var m := FutureMessage(wish, theme, pick);
    var first := Template(pick, ShortWish(wish));
    assert m == first + "\n\n" + ThemeTail(theme);
    if pick == 0 {
      var w := ShortWish(wish);
      assert first == "「" + w + "」っていう願い、未来のご主人にとってはもう『当たり前の景色』になってるよ。";
      assert m[1..1 + |w|] == first[1..1 + |w|];
    }
  }

  /** `render_circle_timer`'s fill: `(total - max(0, remaining)) / total`, clamped into [0, 1]. */
  function CirclePercent(remaining: real, total: int): (p: real)
    requires total > 0
    ensures 0.0 <= p <= 1.0
    ensures 0.0 <= remaining <= total as real ==> p * total as real == total as real - remaining
  {
    var r := if remaining < 0.0 then 0.0 else remaining;
    var q := (total as real - r) / total as real;
    if q < 0.0 then 0.0 else if q > 1.0 then 1.0 else q
  }

  datatype StepText = StepText(badge: string, guide: string, keyword: string)

  /** `STEP_TEXT[step]`, defined for steps 1 to 4. */
  function StepTextOf(step: int): StepText
    requires 1 <= step <= 4
  {
    match step
    case 1 => StepText("STEP 1 / イメージを「ぼんやり」流す17秒", "ふわっとでいいから、願いが叶った状態を映画みたいに流してみよう。細かく考えすぎなくてOK。", "映像に慣れる時間")
    case 2 => StepText("STEP 2 / 感情を「じんわり」感じる17秒", "その未来の自分が感じているであろう嬉しさ・安心・誇らしさを、胸のあたりで味わってみて。", "感情を強める時間")
    case 3 => StepText("STEP 3 / 感謝を「先取り」する17秒", "その未来がもう起きている前提で、「叶ってくれてありがとう」と心の中で何度か唱えてみよう。", "感謝を灯す時間")
    case _ => StepText("STEP 4 / 宇宙に「任せる」17秒", "どう叶うかは一旦手放して、『なるようになる、でもきっとうまくいく』と信頼して、力を抜いてみよう。", "手放しの時間")
  }

  // ---------------------------------------------------------------------
  // The session

  class Session {
    var step: int
    var wishText: string
    var theme: string
    var futureMessage: string
    var finished: bool

    /** The step is at least 1, and the message is only ever marked generated on the completion screen. */
    predicate Valid()
      reads this
    {
      step >= 1 && (finished ==> step > 4)
    }

    /** The session defaults. */
    constructor()
      ensures step == 1 && wishText == "" && theme == "お金・豊かさ" && futureMessage == "" && !finished
      ensures Valid()
    {
      step := 1;
      wishText := "";
      theme := "お金・豊かさ";
      futureMessage := "";
      finished := false;
    }

    /** The reset button and the "別の願いで" button: back to step 1, nothing generated. */
    method Reset()
      modifies this
      ensures step == 1 && futureMessage == "" && !finished
      ensures wishText == old(wishText) && theme == old(theme)
      ensures Valid()
    {
      step := 1;
      futureMessage := "";
      finished := false;
    }

    /** A finished seventeen-second run on a step page (steps 1 to 4, a wish written) moves one step on. */
    method FinishRun()
      requires Valid() && step <= 4 && !IsBlank(wishText)
      modifies this
      ensures step == old(step) + 1
      ensures wishText == old(wishText) && theme == old(theme) && futureMessage == old(futureMessage) && finished == old(finished)
      ensures Valid()
    {
      step := step + 1;
    }

    /** The completion screen (step above 4): the message is generated only the first time. */
    method ShowCompletion(pick: nat) returns (shown: string)
      requires Valid() && step > 4 && pick < 5
      modifies this
      ensures finished
      ensures old(finished) ==> futureMessage == old(futureMessage)
      ensures !old(finished) ==> futureMessage == FutureMessage(wishText, theme, pick)
      ensures shown == futureMessage
      ensures step == old(step) && wishText == old(wishText) && theme == old(theme)
      ensures Valid()
    {
      if !finished {
        futureMessage := FutureMessage(wishText, theme, pick);
        finished := true;
      }
      shown := futureMessage;
    }
  }

  /** Showing the completion screen again keeps the message of the first showing. */
  method CompletionOnce(s: Session, pick1: nat, pick2: nat)
    requires s.Valid() && s.step > 4 && pick1 < 5 && pick2 < 5
    modifies s
    ensures s.finished && s.futureMessage == old(if s.finished then s.futureMessage else FutureMessage(s.wishText, s.theme, pick1))
  {
    var first := s.ShowCompletion(pick1);
    var second := s.ShowCompletion(pick2);
    assert second == first;
  }
}
