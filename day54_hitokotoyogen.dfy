/**
 * day54_hitokotoyogen: a one-line oracle.  A draw picks a theme and a
 * message and dates them today; the voice wraps the message between a
 * spoken prefix and suffix, softened in the sweet tone.  A draw is saved at
 * the front of the history unless the same message is already saved for
 * the same date.
 */
module Hitokotoyogen {
  import opened Calendar
  import opened DateText
  import opened PyText
  import opened PyList

  const Themes: seq<string> := [
    "整える", "動く", "休む", "手放す", "整頓", "集中", "挑戦",
    "信じる", "優しくする", "守る", "進める", "待つ", "深呼吸", "余白"
  ]

  const Messages: seq<string> := [
    "今日は『急がない』が勝ち。",
    "焦りはノイズ。深呼吸してから動こ？",
    "小さく始めれば、ちゃんと進むよ。",
    "完成じゃなくて『着手』が正解。",
    "今日は守りでOK。整えるだけで十分。",
    "一歩だけ。たったそれで流れが変わる。",
    "気分が乗らない日は、環境を整えよ。",
    "今の自分のままで、前に進める。",
    "迷ったら『やさしい方』を選ぼ。",
    "短くてもいい。続けたあなたが強い。",
    "今日の勝利条件は『やめない』こと。",
    "できない日があっても、あなたは失ってない。",
    "未来は、今日の1ミリから作られる。",
    "『やる気』じゃなくて『仕組み』で勝と。",
    "ひとつ片付けると、ひとつ運が空く。",
    "いま必要なのは答えじゃなくて、休息かも。",
    "今日は『選ぶ』日。何をやらないか決めよ。",
    "静かな時間が、あなたを強くする。",
    "比べないで。あなたの速度でいい。",
    "うまくいく前の『準備期間』だよ。",
    "今日は『整ったら勝ち』。成果はあとで来る。",
    "心が重いなら、タスクを小さく刻も。",
    "大丈夫。今の迷いは、成長の前兆。",
    "今日は『余白』が運を呼ぶ。",
    "一番大事なことは、もう分かってるはず。"
  ]

  const VoicePrefixes: seq<string> := [
    "……ねぇ、ご主人。",
    "聞こえる？",
    "ふふ、いい？",
    "落ち着いて、いくよ。",
    "今のあなたに、これ。",
    "大丈夫。聞いて。",
    "うん、受け取って。"
  ]

  const VoiceSuffixes: seq<string> := [
    "……以上。信じてみて？",
    "……今日はそれで十分。",
    "……やれる分だけでいいよ。",
    "……うん、いける。",
    "……焦らなくて大丈夫。",
    "……一緒に進も。",
    "……ちゃんと見てるよ。"
  ]

  /** The softened ending that replaces a full stop, question or exclamation mark in the sweet tone. */
  const Soft: string := "…♡"

  /** The stored draw. */
  datatype Draw = Draw(date: string, theme: string, message: string, createdAt: string)

  /** "✨ 一行予言を引く": theme `t` and message `m` drawn, dated `today`, created at `now`. */
  function DrawOne(t: nat, m: nat, today: Date, now: string): (d: Draw)
    requires t < |Themes| && m < |Messages| && InPyRange(today)
    ensures d.theme in Themes && d.message in Messages
    ensures d.date == Iso(today) && FromIso(d.date) == Some(today)
    ensures d.createdAt == now
  {
    FromIsoIso(today);
    Draw(Iso(today), Themes[t], Messages[m], now)
  }

  // ---------------------------------------------------------------------
  // The voice

  /** The sweet tone is any tone whose label contains "甘め". */
  predicate Sweet(tone: string) {
    Contains(tone, "甘め")
  }

  /** Each character of `s` that is one of `marks` becomes "…♡"; every other character stays in place. */
  function Soften(s: string, marks: string): (r: string)
    ensures |r| >= |s|
  {
    if s == [] then [] else (if s[0] in marks then Soft else [s[0]]) + Soften(s[1..], marks)
  }

  /** The sweet prefix: every "。", "？" and "！" becomes "…♡". */
  function SweetPrefix(prefix: string): (p: string)
    ensures p == Soften(prefix, "。？！")
    ensures '。' !in p && '？' !in p && '！' !in p
    ensures forall x :: x in p && x !in Soft ==> x in prefix
  {
    SweetPrefixSoftens(prefix);
    ReplaceChar(ReplaceChar(ReplaceChar(prefix, '。', Soft), '？', Soft), '！', Soft)
  }

  /** The sweet suffix: every "？" and "。" becomes "…♡" (an exclamation mark is kept). */
  function SweetSuffix(suffix: string): (s: string)
    ensures s == Soften(suffix, "？。")
    ensures '？' !in s && '。' !in s
    ensures forall x :: x in s && x !in Soft ==> x in suffix
  {
    SweetSuffixSoftens(suffix);
    ReplaceChar(ReplaceChar(suffix, '？', Soft), '。', Soft)
  }

  /** "…♡" holds none of the marks, so the chained replacements rewrite one character at a time. */
  lemma {:induction false} SweetPrefixSoftens(s: string)
    ensures ReplaceChar(ReplaceChar(ReplaceChar(s, '。', Soft), '？', Soft), '！', Soft) == Soften(s, "。？！")
  {
    if s != [] {
      var x, rest := s[0], s[1..];
      assert s == [x] + rest;
      SweetPrefixSoftens(rest);
      ReplaceCharAppend([x], rest, '。', Soft);
      ReplaceCharOne(x, '。', Soft);
      var h1 := if x == '。' then Soft else [x];
      ReplaceCharAppend(h1, ReplaceChar(rest, '。', Soft), '？', Soft);
      var h2 := if x == '。' || x == '？' then Soft else [x];
      assert ReplaceChar(h1, '？', Soft) == h2 by { if x != '。' { ReplaceCharOne(x, '？', Soft); } }
      ReplaceCharAppend(h2, ReplaceChar(ReplaceChar(rest, '。', Soft), '？', Soft), '！', Soft);
      assert ReplaceChar(h2, '！', Soft) == (if x in "。？！" then Soft else [x]) by {
        if x != '。' && x != '？' { ReplaceCharOne(x, '！', Soft); }
      }
    }
  }

  lemma {:induction false} SweetSuffixSoftens(s: string)
    ensures ReplaceChar(ReplaceChar(s, '？', Soft), '。', Soft) == Soften(s, "？。")
  {
    if s != [] {
      var x, rest := s[0], s[1..];
      assert s == [x] + rest;
      SweetSuffixSoftens(rest);
      ReplaceCharAppend([x], rest, '？', Soft);
      ReplaceCharOne(x, '？', Soft);
      var h1 := if x == '？' then Soft else [x];
      ReplaceCharAppend(h1, ReplaceChar(rest, '？', Soft), '。', Soft);
      assert ReplaceChar(h1, '。', Soft) == (if x in "？。" then Soft else [x]) by {
        if x != '？' { ReplaceCharOne(x, '。', Soft); }
      }
    }
  }

  /** Softening works character by character, so it distributes over concatenation. */
  lemma {:induction false} SoftenAppend(a: string, b: string, marks: string)
    ensures Soften(a + b, marks) == Soften(a, marks) + Soften(b, marks)
  {
    if a == [] {
      assert a + b == b;
    } else {
      var head := if a[0] in marks then Soft else [a[0]];
      assert (a + b)[0] == a[0] && (a + b)[1..] == a[1..] + b;
      assert Soften(a + b, marks) == head + Soften(a[1..] + b, marks);
      SoftenAppend(a[1..], b, marks);
    }
  }

  /** `voice_text`: prefix, message and suffix separated by blank lines, softened in the sweet tone. */
  function VoiceText(tone: string, prefix: string, message: string, suffix: string): (text: string)
    ensures Sweet(tone) ==> text == Voice(Soften(prefix, "。？！"), message + "♡", Soften(suffix, "？。"))
    ensures |text| >= |prefix| + |message| + |suffix| + 4
  {
    if Sweet(tone) then Voice(SweetPrefix(prefix), message + "♡", SweetSuffix(suffix))
    else Voice(prefix, message, suffix)
  }

  /** `f"{prefix}\n\n{msg}\n\n{suffix}"`. */
  function Voice(p: string, m: string, s: string): string {
    p + "\n\n" + m + "\n\n" + s
  }

  /** The voice layout is the five lines joined with line breaks. */
  lemma VoiceJoin(p: string, m: string, s: string)
    ensures Join("\n", [p, "", m, "", s]) == Voice(p, m, s)
  {
    var parts := [p, "", m, "", s];
    assert Join("\n", parts[4..]) == s;
    assert Join("\n", parts[3..]) == "" + "\n" + s;
    assert Join("\n", parts[2..]) == m + "\n" + ("" + "\n" + s);
    assert Join("\n", parts[1..]) == "" + "\n" + (m + "\n" + ("" + "\n" + s));
    assert Join("\n", parts) == p + "\n" + ("" + "\n" + (m + "\n" + ("" + "\n" + s)));
  }

  /**
   * With single-line parts the voice reads as five lines: the prefix, a
   * blank line, the message (with a heart in the sweet tone), a blank line
   * and the suffix.
   */
  lemma VoiceLines(tone: string, prefix: string, message: string, suffix: string)
    requires '\n' !in prefix && '\n' !in message && '\n' !in suffix
    ensures var lines := Split(VoiceText(tone, prefix, message, suffix), '\n');
      |lines| == 5 && lines[1] == "" && lines[3] == ""
      && lines[2] == (if Sweet(tone) then message + "♡" else message)
      && lines[0] == (if Sweet(tone) then SweetPrefix(prefix) else prefix)
      && lines[4] == (if Sweet(tone) then SweetSuffix(suffix) else suffix)
  {
    var p := if Sweet(tone) then SweetPrefix(prefix) else prefix;
    var m := if Sweet(tone) then message + "♡" else message;
    var s := if Sweet(tone) then SweetSuffix(suffix) else suffix;
    assert '\n' !in p && '\n' !in s;
    assert '\n' !in m;
    var parts := [p, "", m, "", s];
    forall i | 0 <= i < |parts| ensures !ContainsChar(parts[i], '\n') {
      assert '\n' !in parts[i];
    }
    VoiceJoin(p, m, s);
    JoinSplit(parts, '\n');
  }

  // ---------------------------------------------------------------------
  // The page

  /** No two saved draws share both date and message. */
  predicate NoRepeats(history: seq<Draw>) {
    forall i, j :: 0 <= i < j < |history| ==>
      !(history[i].date == history[j].date && history[i].message == history[j].message)
  }

  /** The history list shows the newest fifty. */
  function Listed(history: seq<Draw>): (shown: seq<Draw>)
    ensures |shown| <= 50 && |shown| <= |history| && shown == history[..|shown|]
    ensures |history| <= 50 ==> shown == history
  {
    Take(history, 50)
  }

  class Oracle {
    /** `st.session_state.current_draw`. */
    var current: Option<Draw>
    /** `st.session_state.played`: the typewriter voice has run for the current draw. */
    var played: bool
    var history: seq<Draw>

    constructor(history0: seq<Draw>)
      ensures current == None && !played && history == history0
    {
      current := None;
      played := false;
      history := history0;
    }

    /** "✨ 一行予言を引く": a fresh draw, whose voice has not played yet. */
    method DrawToday(t: nat, m: nat, today: Date, now: string)
      requires t < |Themes| && m < |Messages| && InPyRange(today)
      modifies this
      ensures current == Some(DrawOne(t, m, today, now)) && !played
      ensures history == old(history)
    {
      current := Some(DrawOne(t, m, today, now));
      played := false;
    }

    /** "🧹 今日の表示をリセット". */
    method Reset()
      modifies this
      ensures current == None && !played && history == old(history)
    {
      current := None;
      played := false;
    }

    /** Showing the draw: the voice is typed out the first time only, then shown at once. */
    method Show() returns (typed: bool)
      requires current.Some?
      modifies this
      ensures typed == !old(played)
      ensures played && current == old(current) && history == old(history)
    {
      typed := !played;
      played := true;
    }

    /** "💾 この予言を保存": the draw goes to the front unless its date and message are already saved. */
    method Save() returns (saved: bool)
      requires current.Some?
      modifies this
      ensures var d := old(current).value;
        saved <==> forall i :: 0 <= i < |old(history)| ==>
          !(old(history)[i].date == d.date && old(history)[i].message == d.message)
      ensures history == if saved then [old(current).value] + old(history) else old(history)
      ensures current == old(current) && played == old(played)
      ensures NoRepeats(old(history)) ==> NoRepeats(history)
    {
      var d := current.value;
      saved := true;
      for n := 0 to |history|
        invariant saved <==> forall i :: 0 <= i < n ==> !(history[i].date == d.date && history[i].message == d.message)
      {
        if history[n].date == d.date && history[n].message == d.message {
          saved := false;
        }
      }
      if saved {
        history := [d] + history;
      }
    }

    /** "🗑️ 履歴を全消去". */
    method ClearHistory()
      modifies this
      ensures history == [] && current == old(current) && played == old(played)
    {
      history := [];
    }
  }

  /** Saving the same draw twice leaves what saving it once leaves. */
  method SaveTwice(o: Oracle) returns (first: bool, second: bool)
    requires o.current.Some?
    modifies o
    ensures !second
    ensures o.history == if first then [old(o.current).value] + old(o.history) else old(o.history)
  {
    first := o.Save();
    if first {
      assert o.history[0] == o.current.value;
    }
    second := o.Save();
  }
}
