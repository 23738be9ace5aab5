/**
 * day5_yesno_maze: a YES/NO maze.  Each question node names the node a YES
 * and a NO lead to; result nodes carry a personality type.  The session
 * keeps the current node and the list of (question text, answer) pairs.
 * Node keys are the source's dictionary keys ("start", "corridor", ...),
 * written here as the constructors of `NodeId`.
 */
module YesNoMaze {

  datatype NodeId =
    | Start | Corridor | StayRoom | Picture | RunAhead | SlowExit
    | SafeHaven | ResonantSoul | Observer | DeepDiver | QuickExit | Reflector | QuietWalker

  datatype Node =
    | Question(text: string, yesNext: NodeId, noNext: NodeId)
    | Result(title: string, keyword: string)

  /** The "yes_next" and "no_next" of a question node; None for a result node. */
  function Links(id: NodeId): Option<(NodeId, NodeId)> {
    match id
    case Start => Some((Corridor, StayRoom))
    case Corridor => Some((Picture, RunAhead))
    case StayRoom => Some((SlowExit, SafeHaven))
    case Picture => Some((ResonantSoul, Observer))
    case RunAhead => Some((DeepDiver, QuickExit))
    case SlowExit => Some((Reflector, QuietWalker))
    case _ => None
  }

  predicate IsResult(id: NodeId) {
    Links(id).None?
  }

  /** The "text" of a question node. */
  function QuestionText(id: NodeId): string
    requires !IsResult(id)
  {
    match id
    case Start => StartText
    case Corridor => CorridorText
    case StayRoom => StayRoomText
    case Picture => PictureText
    case RunAhead => RunAheadText
    case SlowExit => SlowExitText
  }

  // The question texts, one constant per question node.
  const StartText: string := "薄暗い部屋。扉がひとつだけあります。\n\n扉の向こうから、かすかな光が漏れている…\n\n扉を開けてみますか？"
  const CorridorText: string := "扉の先は長い廊下。壁には古い絵がいくつも並んでいます。\n\nそのうちの一枚が、なぜかとても気になる…\n\n立ち止まって、その絵をじっくり観察しますか？"
  const StayRoomText: string := "あなたは部屋にとどまることにしました。\n\nしばらくすると、天井から小さな光の粒が降りてきて、部屋全体がやわらかく照らされ始めます。\n\nここは危険ではなさそう…\n\nそれでも、やっぱり外の世界を目指しますか？"
  const PictureText: string := "絵の中には、どこか自分に似た人物が描かれていました。\n\nその人物は、迷宮から抜け出そうと手を伸ばしています。\n\nあなたも迷宮から抜け出すために、思い切って『絵に触れてみる』ことにしますか？"
  const RunAheadText: string := "あなたは立ち止まらず、一気に廊下を駆け抜けることにしました。\n\n角を曲がると、出口らしき扉と、『もっと奥へ』と書かれた階段があります。\n\nリスクを取って、階段を下りてみますか？"
  const SlowExitText: string := "あなたは慎重に廊下へと出ます。\n\n途中、小さな窓から外の景色が見えました。\n\nここで一息ついて、景色を眺めながら、自分のこれからについて少し考えてみますか？"

  /** The "title" and "keyword" of a result node. */
  function ResultText(id: NodeId): (string, string)
    requires IsResult(id)
  {
    match id
    case SafeHaven => ("安全基地の守護者タイプ", "安心・土台・マイペース")
    case ResonantSoul => ("共鳴する魂の探求者タイプ", "共鳴・情熱・没頭")
    case Observer => ("静かな観察者タイプ", "俯瞰・冷静・分析")
    case DeepDiver => ("深堀りダイバータイプ", "集中・継続・情熱")
    case QuickExit => ("スピード脱出ランナータイプ", "行動・瞬発力・チャレンジ")
    case Reflector => ("内省する旅人タイプ", "内省・感性・成長")
    case QuietWalker => ("静かに進むウォーカータイプ", "継続・安定・静かな強さ")
  }

  /** `nodes[id]`. */
  function NodeAt(id: NodeId): (n: Node)
    ensures n.Question? <==> !IsResult(id)
  {
    match Links(id)
    case Some((y, n)) => Question(QuestionText(id), y, n)
    case None => var (t, k) := ResultText(id); Result(t, k)
  }

  /** The most answers that can still be given from `id` before a result shows. */
  function Height(id: NodeId): (h: nat)
    ensures h == 0 <==> IsResult(id)
  {
    match id
    case Start => 3
    case Corridor => 2
    case StayRoom => 2
    case Picture => 1
    case RunAhead => 1
    case SlowExit => 1
    case _ => 0
  }

  /** The node a YES (`true`) or NO (`false`) at question `id` leads to. */
  function Next(id: NodeId, yes: bool): (n: NodeId)
    requires !IsResult(id)
    ensures n != Start && n != id
    ensures Height(n) < Height(id)
  {
    if yes then Links(id).value.0 else Links(id).value.1
  }

  /** The successor is the node's own "yes_next" or "no_next". */
  lemma NextIsLink(id: NodeId, yes: bool)
    requires !IsResult(id)
    ensures NodeAt(id).Question?
    ensures Next(id, yes) == if yes then NodeAt(id).yesNext else NodeAt(id).noNext
  {
  }

  /** The maze is closed: no key is missing, and exactly the six question nodes have successors. */
  lemma Closed()
    ensures forall id :: !IsResult(id) <==> id in {Start, Corridor, StayRoom, Picture, RunAhead, SlowExit}
  {
  }

  /**
   * Where the answers `p` lead from `id`; None when an answer is given at a
   * result node, which shows no YES/NO buttons.
   */
  function Walk(id: NodeId, p: seq<bool>): (r: Option<NodeId>)
    ensures r.Some? ==> |p| + Height(r.value) <= Height(id)
    ensures IsResult(id) && p != [] ==> r.None?
    decreases |p|
  {
    if p == [] then Some(id)
    else if IsResult(id) then None
    else Walk(Next(id, p[0]), p[1..])
  }

  datatype Option<T> = None | Some(value: T)

  /** The one answer sequence that leads from start to each result. */
  function PathTo(id: NodeId): (p: seq<bool>)
    requires IsResult(id)
    ensures 2 <= |p| <= 3
  {
    match id
    case SafeHaven => [false, false]
    case ResonantSoul => [true, true, true]
    case Observer => [true, true, false]
    case DeepDiver => [true, false, true]
    case QuickExit => [true, false, false]
    case Reflector => [false, true, true]
    case QuietWalker => [false, true, false]
  }

  /** The walk from start after the first two answers, and after the third when the second did not end it. */
  lemma Steps(p: seq<bool>)
    requires |p| >= 2
    ensures var n2 := Next(Next(Start, p[0]), p[1]);
      Walk(Start, p[..2]) == Some(n2)
      && (|p| >= 3 && !IsResult(n2) ==> Walk(Start, p[..3]) == Some(Next(n2, p[2])))
  {
    WalkSnoc(Start, [], p[0]);
    assert [] + [p[0]] == p[..1];
    WalkSnoc(Start, p[..1], p[1]);
    assert p[..1] + [p[1]] == p[..2];
    var n2 := Next(Next(Start, p[0]), p[1]);
    if |p| >= 3 && !IsResult(n2) {
      WalkSnoc(Start, p[..2], p[2]);
      assert p[..2] + [p[2]] == p[..3];
    }
  }

  /** The path of each result leads there. */
  lemma PathToReaches(id: NodeId)
    requires IsResult(id)
    ensures Walk(Start, PathTo(id)) == Some(id)
  {
    var p := PathTo(id);
    Steps(p);
    assert p[..|p|] == p;
  }

  /** Every sequence of three answers meets a result after its second or third answer. */
  lemma AlwaysEnds(p: seq<bool>)
    requires |p| == 3
    ensures (Walk(Start, p[..2]).Some? && IsResult(Walk(Start, p[..2]).value))
         || (Walk(Start, p).Some? && IsResult(Walk(Start, p).value))
  {
    Steps(p);
    assert p[..3] == p;
  }

  /** A result is reached by its own path and by no other. */
  lemma ReachedOnlyByPath(p: seq<bool>, id: NodeId)
    requires IsResult(id)
    ensures Walk(Start, p) == Some(id) <==> p == PathTo(id)
  {
    PathToReaches(id);
    if Walk(Start, p) == Some(id) {
      PathOf(p, id);
    }
  }

  /** The answers that reach a result from start are that result's path. */
  lemma PathOf(p: seq<bool>, id: NodeId)
    requires Walk(Start, p) == Some(id) && IsResult(id)
    ensures p == PathTo(id)
  {
    HistoryBound(p, id);
    if |p| == 0 {
      assert false;
    } else if |p| == 1 {
      assert false;
    } else {
      Steps(p);
      var n2 := Next(Next(Start, p[0]), p[1]);
      if |p| == 2 {
        assert p[..2] == p;
        assert p == [p[0], p[1]];
      } else if IsResult(n2) {
        assert false;
      } else {
        assert p[..3] == p;
        assert p == [p[0], p[1], p[2]];
      }
    }
  }

  /** The state of the game: the current node, the answered questions and (ghost) the answers. */
  class Maze {
    var current: NodeId
    var history: seq<(string, string)>
    ghost var answers: seq<bool>

    /** `current` is where `answers` lead from start and `history` holds one entry per answer. */
    ghost predicate Valid()
      reads this
    {
      Walk(Start, answers) == Some(current) && Recorded(history, answers)
    }

    /** The session starts at "start" with an empty history. */
    constructor()
      ensures current == Start && history == [] && answers == []
      ensures Valid()
    {
      current := Start;
      history := [];
      answers := [];
    }

    /** The YES or NO button at a question: one entry is recorded and the chosen successor becomes current. */
    method Answer(yes: bool)
      requires Valid() && !IsResult(current)
      modifies this
      ensures history == old(history) + [(QuestionText(old(current)), if yes then "YES" else "NO")]
      ensures current == Next(old(current), yes)
      ensures answers == old(answers) + [yes]
      ensures Valid()
    {
      WalkSnoc(Start, answers, yes);
      var entry := (QuestionText(current), if yes then "YES" else "NO");
      RecordedSnoc(history, answers, entry, yes);
      history := history + [entry];
      current := Next(current, yes);
      answers := answers + [yes];
    }

    /** "もう一度", offered only on a result page: back to start with an empty history. */
    method Restart()
      requires IsResult(current)
      modifies this
      ensures current == Start && history == [] && answers == []
      ensures Valid()
    {
      current := Start;
      history := [];
      answers := [];
    }
  }

  /** The history holds one row per answer, each row's answer text matching the answer. */
  predicate Recorded(history: seq<(string, string)>, answers: seq<bool>) {
    |history| == |answers|
    && forall k :: 0 <= k < |answers| ==> history[k].1 == (if answers[k] then "YES" else "NO")
  }

  /** Appending a row together with its answer keeps the history in step. */
  lemma RecordedSnoc(history: seq<(string, string)>, answers: seq<bool>, entry: (string, string), yes: bool)
    requires Recorded(history, answers)
    requires entry.1 == (if yes then "YES" else "NO")
    ensures Recorded(history + [entry], answers + [yes])
  {
    var h, a := history + [entry], answers + [yes];
    forall k | 0 <= k < |a| ensures h[k].1 == (if a[k] then "YES" else "NO") {
      if k < |answers| {
        assert h[k] == history[k] && a[k] == answers[k];
      }
    }
  }

  /** Answering once more at a question extends the walk by one step. */
  lemma {:induction false} WalkSnoc(id: NodeId, p: seq<bool>, yes: bool)
    requires Walk(id, p).Some? && !IsResult(Walk(id, p).value)
    ensures Walk(id, p + [yes]) == Some(Next(Walk(id, p).value, yes))
    decreases |p|
  {
    if p != [] {
      assert (p + [yes])[1..] == p[1..] + [yes];
      WalkSnoc(Next(id, p[0]), p[1..], yes);
    }
  }

  /** At most three answers are ever given, and after three the current node is a result. */
  lemma HistoryBound(answers: seq<bool>, current: NodeId)
    requires Walk(Start, answers) == Some(current)
    ensures |answers| <= 3
    ensures |answers| == 3 ==> IsResult(current)
  {
  }

  /** A walk that gets anywhere got somewhere after each prefix. */
  lemma {:induction false} WalkPrefixSome(id: NodeId, p: seq<bool>, q: seq<bool>)
    requires Walk(id, p + q).Some?
    ensures Walk(id, p).Some?
    decreases |p|
  {
    if p != [] {
      assert (p + q)[1..] == p[1..] + q;
      WalkPrefixSome(Next(id, p[0]), p[1..], q);
    }
  }

  /** No answer can be given once a result is reached. */
  lemma {:induction false} WalkAfterResult(id: NodeId, p: seq<bool>, q: seq<bool>)
    requires Walk(id, p).Some? && IsResult(Walk(id, p).value) && q != []
    ensures Walk(id, p + q) == None
    decreases |p|
  {
    if p != [] {
      assert (p + q)[1..] == p[1..] + q;
      WalkAfterResult(Next(id, p[0]), p[1..], q);
    }
  }
}
