/**
 * day16_stress_checker: eight statements answered on a four-step scale
 * worth 0 to 3 points each.  The total out of 24 picks one of three bands,
 * each with a heading and three pieces of advice.
 */
module StressChecker {

  /** The eight statements. */
  const QuestionCount: nat := 8

  /** "全くない", "たまにある", "よくある", "ほとんどいつも". */
  datatype Answer = Never | Sometimes | Often | Always

  /** `options[choice]`. */
  function Points(a: Answer): (p: int)
    ensures 0 <= p <= 3
  {
    match a
    case Never => 0
    case Sometimes => 1
    case Often => 2
    case Always => 3
  }

  /** The question loop: `scores.append(options[choice])` for each answer. */
  method CollectScores(choices: seq<Answer>) returns (scores: seq<int>)
    ensures |scores| == |choices|
    ensures forall k :: 0 <= k < |scores| ==> scores[k] == Points(choices[k])
  {
    scores := [];
    for k := 0 to |choices|
      invariant |scores| == k
      invariant forall j :: 0 <= j < k ==> scores[j] == Points(choices[j])
    {
      scores := scores + [Points(choices[k])];
    }
  }

  /** `sum(scores)`. */
  function Sum(scores: seq<int>): int {
    if scores == [] then 0 else Sum(scores[..|scores| - 1]) + scores[|scores| - 1]
  }

  /** With every score in 0..3 the total lies in 0..3 * len(scores). */
  lemma {:induction false} SumBounds(scores: seq<int>)
    requires forall k :: 0 <= k < |scores| ==> 0 <= scores[k] <= 3
    ensures 0 <= Sum(scores) <= 3 * |scores|
  {
    if scores != [] {
      SumBounds(scores[..|scores| - 1]);
    }
  }

  /** The collected scores of the eight answers total 0..24. */
  lemma TotalInRange(choices: seq<Answer>, scores: seq<int>)
    requires |choices| == QuestionCount && |scores| == |choices|
    requires forall k :: 0 <= k < |scores| ==> scores[k] == Points(choices[k])
    ensures 0 <= Sum(scores) <= 24
  {
    SumBounds(scores);
  }

  /** `level = total_score / max_score`, the progress bar's fill. */
  function Level(total: int, maxScore: int): (level: real)
    requires 0 <= total <= maxScore && maxScore > 0
    ensures 0.0 <= level <= 1.0
    ensures level == 0.0 <==> total == 0
    ensures level == 1.0 <==> total == maxScore
  {
    var q := total as real / maxScore as real;
    assert q * maxScore as real == total as real;
    q
  }

  datatype Band = Low | Mid | High

  /** `total_score <= 8` is low, `<= 16` middling, anything above high. */
  function BandOf(total: int): (b: Band)
    ensures b == Low <==> total <= 8
    ensures b == Mid <==> 8 < total <= 16
    ensures b == High <==> 16 < total
  {
    if total <= 8 then Low else if total <= 16 then Mid else High
  }

  function Rank(b: Band): nat {
    match b
    case Low => 0
    case Mid => 1
    case High => 2
  }

  /** A higher total never gives a lower band. */
  lemma BandMonotone(s: int, t: int)
    requires s <= t
    ensures Rank(BandOf(s)) <= Rank(BandOf(t))
  {
  }

  /** The band's heading and its advice list. */
  function Advice(b: Band): (r: (string, seq<string>))
    ensures |r.1| == 3
  {
    match b
    case Low => ("ストレスは今のところ**低め**みたい。", [
      "この状態をキープするために、好きなことをする時間を少しだけ確保しておこう。",
      "疲れを感じる前に、こまめに休憩を入れてあげて。",
      "「今日はここまでやれた自分えらい」と、1つだけでも自分をほめてみよう。"])
    case Mid => ("ストレスは**やや高め**になってきているかも。", [
      "今日は「完璧にやる」じゃなくて「60〜70％できたらOK」にしてみよう。",
      "5分だけでも深呼吸しながら、目を閉じてぼーっとする時間をとってみて。",
      "スマホ・SNSから少しだけ離れて、温かい飲み物を飲みながら休むのもおすすめ。"])
    case High => ("ストレスが**かなり高い状態**かもしれない…！", [
      "今日は「がんばる日」じゃなくて「生き延びる日」にしてOKだよ。",
      "やることを3つじゃなくて、1つだけに絞って、それ以外は明日に回してみて。",
      "もし数週間レベルでつらさが続くようなら、専門家や相談窓口に頼るのも本当に大事だよ。"])
  }
}
