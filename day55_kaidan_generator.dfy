/**
 * day55_kaidan_generator: a one-minute ghost story put together from
 * template pools.  Seven lines (opening, sense, sign, two escalations,
 * climax, ending) are drawn and filled with the place, the time and the
 * keyword; the fear level picks the climax pool and, from level 4, adds an
 * eighth line after the third.
 */
module KaidanGenerator {
  import opened PyText

  const Openings: seq<string> := [
    "それに気づいたのは、{time}のことだった。",
    "最初は気のせいだと思った。けれど、{time}に起きた出来事は違った。",
    "{time}。{place}にいた私は、妙な違和感を覚えた。"
  ]

  const Senses: seq<string> := [
    "空気がひやりと沈み、音だけが遠くにあるみたいだった。",
    "生ぬるい風が首筋をなぞって、背中がぞわっとした。",
    "なぜか、そこだけ音が吸い込まれるように静かだった。"
  ]

  const Signs: seq<string> := [
    "視界の端で、白いものが揺れた。",
    "床が、きし…きし…と、誰かの重さで鳴った。",
    "スマホの画面が一瞬だけ真っ黒になり、知らない番号から通知が来た。",
    "背後のガラスに、私以外の影が映った。"
  ]

  const Escalate1: seq<string> := [
    "振り返っても、何もない。",
    "確かめようとしても、理由が見つからない。",
    "見間違いだと自分に言い聞かせた。"
  ]

  /** The whisper of the third escalation, split around its keyword placeholder. */
  const WhisperHead: string := "そして、耳元で小さく『…"
  const WhisperTail: string := "…』と囁く声がした。"

  const Escalate2: seq<string> := [
    "でも、同じことがもう一度起きた。",
    "次は、もっとはっきり見えた。",
    WhisperHead + "{keyword}" + WhisperTail
  ]

  const ClimaxSoft: seq<string> := [
    "気づいた瞬間、胸の奥が冷たくなった。——それは最初から、そこにいた。",
    "逃げるように帰ったのに、玄関の鍵が内側から回った気がした。",
    "その夜、鏡に映った私の後ろに、もう一人の“私”が立っていた。"
  ]

  const ClimaxHard: seq<string> := [
    "帰ろうとしても足が動かない。床に、黒い指の跡が増えていく。",
    "目を閉じた瞬間、頬に触れる指の感触があった。冷たくて、湿っていた。",
    "ライトが消えた。暗闇の中で、呼吸だけが二つ分聞こえた。"
  ]

  const Endings: seq<string> := [
    "翌朝、{place}の写真を見返したら、写ってはいけないものが写っていた。",
    "思い出したくないのに、{time}になると同じ匂いがする。",
    "今も、{place}の近くを通ると、背後で足音が増える。"
  ]

  /** The extra lines of levels 4 and 5. */
  const Inserts: seq<string> := [
    "それなのに、私の足元だけが妙に温かかった。",
    "誰かが私の名前を、正しい発音で呼んだ。",
    "影が一瞬だけ“笑った”気がした。"
  ]

  // ---------------------------------------------------------------------
  // Template filling

  /** `t` begins with `p`. */
  predicate StartsWith(t: string, p: string) {
    |t| >= |p| && t[..|p|] == p
  }

  /** `template.format(place=..., time=..., keyword=...)` on templates whose only braces are these placeholders. */
  function Fill(t: string, place: string, time: string, keyword: string): string
    decreases |t|
  {
    if t == [] then []
    else if StartsWith(t, "{place}") then place + Fill(t[7..], place, time, keyword)
    else if StartsWith(t, "{time}") then time + Fill(t[6..], place, time, keyword)
    else if StartsWith(t, "{keyword}") then keyword + Fill(t[9..], place, time, keyword)
    else [t[0]] + Fill(t[1..], place, time, keyword)
  }

  /** Text that differs from a pattern at some position within both does not begin with it. */
  lemma NotStartsWith(t: string, p: string, j: nat)
    requires j < |t| && j < |p| && t[j] != p[j]
    ensures !StartsWith(t, p)
  {
    if |t| >= |p| {
      assert t[..|p|][j] == t[j];
    }
  }

  /** Text without an opening brace is copied as it is, in front of whatever follows. */
  lemma {:induction false} FillPlain(a: string, rest: string, place: string, time: string, keyword: string)
    requires '{' !in a
    ensures Fill(a + rest, place, time, keyword) == a + Fill(rest, place, time, keyword)
    decreases |a|
  {
    if a != [] {
      var t := a + rest;
      assert t[0] == a[0] && a[0] in a;
      assert '{' !in a[1..] by {
        assert forall x :: x in a[1..] ==> x in a;
      }
      calc {
        Fill(t, place, time, keyword);
      == { FillStep(t, place, time, keyword); }
        [t[0]] + Fill(t[1..], place, time, keyword);
      == { assert t[1..] == a[1..] + rest; }
        [a[0]] + Fill(a[1..] + rest, place, time, keyword);
      == { FillPlain(a[1..], rest, place, time, keyword); }
        [a[0]] + (a[1..] + Fill(rest, place, time, keyword));
      == { assert a == [a[0]] + a[1..]; }
        a + Fill(rest, place, time, keyword);
      }
    } else {
      assert a + rest == rest;
    }
  }

  /** A character other than an opening brace is copied. */
  lemma FillStep(t: string, place: string, time: string, keyword: string)
    requires t != [] && t[0] != '{'
    ensures Fill(t, place, time, keyword) == [t[0]] + Fill(t[1..], place, time, keyword)
  {
    NotStartsWith(t, "{place}", 0);
    NotStartsWith(t, "{time}", 0);
    NotStartsWith(t, "{keyword}", 0);
  }

  /** Filling puts no line break in when neither the template nor the values hold one. */
  lemma {:induction false} FillNoBreak(t: string, place: string, time: string, keyword: string)
    requires '\n' !in t && '\n' !in place && '\n' !in time && '\n' !in keyword
    ensures '\n' !in Fill(t, place, time, keyword)
    decreases |t|
  {
    if t != [] {
      var k := if StartsWith(t, "{place}") then 7
               else if StartsWith(t, "{time}") then 6
               else if StartsWith(t, "{keyword}") then 9
               else 1;
      assert forall x :: x in t[k..] ==> x in t;
      assert t[0] in t;
      FillNoBreak(t[k..], place, time, keyword);
    }
  }

  // ---------------------------------------------------------------------
  // The story

  /** `choose_climax(level)`: the soft pool up to level 2, both at 3, the hard pool from 4; `c` is the draw. */
  function ClimaxPool(level: int): (pool: seq<string>)
    ensures level <= 2 ==> pool == ClimaxSoft
    ensures level == 3 ==> pool == ClimaxSoft + ClimaxHard
    ensures level >= 4 ==> pool == ClimaxHard
  {
    if level <= 2 then ClimaxSoft
    else if level == 3 then ClimaxSoft + ClimaxHard
    else ClimaxHard
  }

  /** Levels 1 and 2 never reach a hard climax, and levels 4 and 5 never a soft one. */
  lemma ClimaxBands(level: int, c: nat)
    requires c < |ClimaxPool(level)|
    ensures level <= 2 ==> ClimaxPool(level)[c] !in ClimaxHard
    ensures level >= 4 ==> ClimaxPool(level)[c] !in ClimaxSoft
  {
    assert forall i, j :: 0 <= i < |ClimaxSoft| && 0 <= j < |ClimaxHard| ==> ClimaxSoft[i][0] != ClimaxHard[j][0];
  }

  /** `keyword.strip() or "ねえ"`: the stripped keyword, never blank. */
  function KeywordOr(keyword: string): (k: string)
    ensures !IsBlank(k) && Strip(k) == k
    ensures !IsBlank(keyword) ==> k == Strip(keyword)
  {
    StripIdempotent(keyword);
    StrippedWord("ねえ");
    if IsBlank(keyword) then "ねえ" else Strip(keyword)
  }

  /** `place.strip() or "どこか"`, applied before the story is generated: the stripped place, never blank. */
  function PlaceOr(place: string): (p: string)
    ensures !IsBlank(p) && Strip(p) == p
    ensures !IsBlank(place) ==> p == Strip(place)
  {
    StripIdempotent(place);
    StrippedWord("どこか");
    if IsBlank(place) then "どこか" else Strip(place)
  }

  /** The `random.choice` draws, one index per pool. */
  datatype Draws = Draws(opening: nat, sense: nat, sign: nat, escalate1: nat, escalate2: nat,
                         climax: nat, ending: nat, insert: nat)

  predicate Fits(d: Draws, level: int) {
    d.opening < |Openings| && d.sense < |Senses| && d.sign < |Signs| && d.escalate1 < |Escalate1|
    && d.escalate2 < |Escalate2| && d.climax < |ClimaxPool(level)| && d.ending < |Endings| && d.insert < |Inserts|
  }

  /** The seven lines from the drawn templates, `k` being the keyword after its default. */
  function Lines(opening: string, sense: string, sign: string, escalate1: string, escalate2: string,
                 climax: string, ending: string, place: string, time: string, k: string): (lines: seq<string>)
    ensures |lines| == 7
  {
    [ Fill(opening, place, time, k), sense, sign, escalate1,
      Fill(escalate2, place, time, k), Fill(climax, place, time, k), Fill(ending, place, time, k) ]
  }

  /** The seven lines before the level adjustment. */
  function BaseParts(place: string, time: string, level: int, k: string, d: Draws): (parts: seq<string>)
    requires Fits(d, level)
    ensures |parts| == 7
  {
    Lines(Openings[d.opening], Senses[d.sense], Signs[d.sign], Escalate1[d.escalate1],
          Escalate2[d.escalate2], ClimaxPool(level)[d.climax], Endings[d.ending], place, time, k)
  }

  /** The `parts` of `generate_kaidan`: seven lines, and at level 4 or more an extra line put in at index 3. */
  function Parts(place: string, time: string, level: int, keyword: string, d: Draws): (parts: seq<string>)
    requires Fits(d, level)
    ensures |parts| == if level >= 4 then 8 else 7
    ensures parts[1] in Senses && parts[2] in Signs
    ensures level >= 4 ==> parts[3] in Inserts && parts[4] in Escalate1
    ensures level < 4 ==> parts[3] in Escalate1
    ensures var k := KeywordOr(keyword);
      parts[|parts| - 3] == Fill(Escalate2[d.escalate2], place, time, k)
      && parts[|parts| - 2] == Fill(ClimaxPool(level)[d.climax], place, time, k)
    ensures var k := KeywordOr(keyword);
      parts[0] == Fill(Openings[d.opening], place, time, k)
      && parts[|parts| - 1] == Fill(Endings[d.ending], place, time, k)
  {
    var base := BaseParts(place, time, level, KeywordOr(keyword), d);
    if level >= 4 then base[..3] + [Inserts[d.insert]] + base[3..] else base
  }

  /** `generate_kaidan(place, time_str, level, keyword)`: the parts joined with line breaks. */
  function GenerateKaidan(place: string, time: string, level: int, keyword: string, d: Draws): (story: string)
    requires Fits(d, level)
    ensures var opening := Fill(Openings[d.opening], place, time, KeywordOr(keyword));
      StartsWith(story, opening)
    ensures var ending := Fill(Endings[d.ending], place, time, KeywordOr(keyword));
      |ending| <= |story| && story[|story| - |ending|..] == ending
  {
    JoinEnds("\n", Parts(place, time, level, keyword, d));
    Join("\n", Parts(place, time, level, keyword, d))
  }

  /**
   * With single-line inputs the story reads back, line by line, as its
   * parts: seven lines, or eight from level 4.
   */
  lemma StoryLines(place: string, time: string, level: int, keyword: string, d: Draws)
    requires Fits(d, level)
    requires '\n' !in place && '\n' !in time && '\n' !in keyword
    ensures Split(GenerateKaidan(place, time, level, keyword, d), '\n') == Parts(place, time, level, keyword, d)
    ensures |Split(GenerateKaidan(place, time, level, keyword, d), '\n')| == if level >= 4 then 8 else 7
  {
    var k := KeywordOr(keyword);
    if !IsBlank(keyword) {
      StripNoBreak(keyword);
    }
    var base := BaseParts(place, time, level, k, d);
    BaseSingleLine(place, time, level, k, d);
    var parts := Parts(place, time, level, keyword, d);
    if level >= 4 {
      DrawnSingleLine(level, d);
      assert parts == base[..3] + [Inserts[d.insert]] + base[3..];
      forall i | 0 <= i < |parts| ensures '\n' !in parts[i] {
        if i > 3 {
          assert parts[i] == base[i - 1];
        }
      }
    }
    forall i | 0 <= i < |parts| ensures !ContainsChar(parts[i], '\n') {
      assert '\n' !in parts[i];
    }
    JoinSplit(parts, '\n');
  }

  /** The seven base lines are single lines when the place, time and keyword are. */
  lemma BaseSingleLine(place: string, time: string, level: int, k: string, d: Draws)
    requires Fits(d, level)
    requires '\n' !in place && '\n' !in time && '\n' !in k
    ensures forall i :: 0 <= i < 7 ==> '\n' !in BaseParts(place, time, level, k, d)[i]
  {
    DrawnSingleLine(level, d);
    LinesSingleLine(Openings[d.opening], Senses[d.sense], Signs[d.sign], Escalate1[d.escalate1],
                    Escalate2[d.escalate2], ClimaxPool(level)[d.climax], Endings[d.ending], place, time, k);
  }

  lemma LinesSingleLine(opening: string, sense: string, sign: string, escalate1: string, escalate2: string,
                        climax: string, ending: string, place: string, time: string, k: string)
    requires '\n' !in opening && '\n' !in sense && '\n' !in sign && '\n' !in escalate1
    requires '\n' !in escalate2 && '\n' !in climax && '\n' !in ending
    requires '\n' !in place && '\n' !in time && '\n' !in k
    ensures forall i :: 0 <= i < 7 ==> '\n' !in Lines(opening, sense, sign, escalate1, escalate2, climax, ending, place, time, k)[i]
  {
    FillNoBreak(opening, place, time, k);
    FillNoBreak(escalate2, place, time, k);
    FillNoBreak(climax, place, time, k);
    FillNoBreak(ending, place, time, k);
  }

  /** None of the drawn templates holds a line break. */
  lemma DrawnSingleLine(level: int, d: Draws)
    requires Fits(d, level)
    ensures '\n' !in Openings[d.opening] && '\n' !in Senses[d.sense] && '\n' !in Signs[d.sign]
    ensures '\n' !in Escalate1[d.escalate1] && '\n' !in Escalate2[d.escalate2]
    ensures '\n' !in ClimaxPool(level)[d.climax] && '\n' !in Endings[d.ending] && '\n' !in Inserts[d.insert]
  {
    OpeningsSingleLine();
    SensesSingleLine();
    SignsSingleLine();
    Escalate1SingleLine();
    Escalate2SingleLine();
    ClimaxSoftSingleLine();
    ClimaxHardSingleLine();
    EndingsSingleLine();
    InsertsSingleLine();
    if level == 3 {
      var c := ClimaxPool(level)[d.climax];
      assert c in ClimaxSoft || c in ClimaxHard;
    }
  }

  lemma OpeningsSingleLine() ensures forall i :: 0 <= i < |Openings| ==> '\n' !in Openings[i] {}
  lemma SensesSingleLine() ensures forall i :: 0 <= i < |Senses| ==> '\n' !in Senses[i] {}
  lemma SignsSingleLine() ensures forall i :: 0 <= i < |Signs| ==> '\n' !in Signs[i] {}
  lemma Escalate1SingleLine() ensures forall i :: 0 <= i < |Escalate1| ==> '\n' !in Escalate1[i] {}
  lemma Escalate2SingleLine() ensures forall i :: 0 <= i < |Escalate2| ==> '\n' !in Escalate2[i] {}
  lemma ClimaxSoftSingleLine() ensures forall i :: 0 <= i < |ClimaxSoft| ==> '\n' !in ClimaxSoft[i] {}
  lemma ClimaxHardSingleLine() ensures forall i :: 0 <= i < |ClimaxHard| ==> '\n' !in ClimaxHard[i] {}
  lemma EndingsSingleLine() ensures forall i :: 0 <= i < |Endings| ==> '\n' !in Endings[i] {}
  lemma InsertsSingleLine() ensures forall i :: 0 <= i < |Inserts| ==> '\n' !in Inserts[i] {}

  /** Stripping keeps a text free of line breaks. */
  lemma StripNoBreak(s: string)
    requires '\n' !in s
    ensures '\n' !in Strip(s)
  {
    var l := LStrip(s);
    LStripShape(s);
    RStripShape(l);
    assert forall x :: x in l ==> x in s;
    assert forall x :: x in RStrip(l) ==> x in l;
  }

  /** The whisper, when drawn, speaks the stripped keyword, or "ねえ" when none was given. */
  lemma WhisperSpeaksKeyword(place: string, time: string, level: int, keyword: string, d: Draws)
    requires Fits(d, level) && d.escalate2 == 2
    ensures var parts := Parts(place, time, level, keyword, d);
      parts[|parts| - 3] == WhisperHead + KeywordOr(keyword) + WhisperTail
  {
    FillWhisper(place, time, KeywordOr(keyword));
  }

  /** Filling the whisper template puts the keyword between its two halves. */
  lemma FillWhisper(place: string, time: string, k: string)
    ensures Fill(Escalate2[2], place, time, k) == WhisperHead + k + WhisperTail
  {
    WhisperNoBrace();
    var t := "{keyword}" + WhisperTail;
    assert Escalate2[2] == WhisperHead + t;
    FillPlain(WhisperHead, t, place, time, k);
    assert StartsWith(t, "{keyword}") && t[9..] == WhisperTail;
    NotStartsWith(t, "{place}", 1);
    NotStartsWith(t, "{time}", 1);
    FillPlain(WhisperTail, [], place, time, k);
    assert WhisperTail + [] == WhisperTail;
  }

  lemma WhisperNoBrace() ensures '{' !in WhisperHead && '{' !in WhisperTail {}
}
