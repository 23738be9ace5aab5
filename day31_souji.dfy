/**
 * day31_souji: a year-end cleaning checklist.  Four sections of default
 * tasks plus the user's own tasks are shown as checkboxes whose states live
 * in a `done` map keyed "section::item" and "custom::i::item"; the page
 * counts the ticked ones, shows the progress and, on request, a cheering
 * line picked from the bucket of the count.
 */
module Souji {
  import opened PyText
  import opened PyList

  /** `DEFAULT_TASKS`, in dictionary order. */
  const DefaultTasks: seq<(string, seq<string>)> := [
    ("🏠 リビング", ["床を少し拭いた", "テーブルの上を片付けた", "ゴミをまとめた", "ソファ周りを整えた"]),
    ("🍳 キッチン", ["シンクを流した", "コンロ周りを拭いた", "排水口をさっと掃除", "冷蔵庫の中を1段だけ整理"]),
    ("🛁 水回り", ["洗面台を拭いた", "トイレをさっと掃除", "お風呂の排水口を流した", "鏡をひと拭き"]),
    ("🧺 玄関・その他", ["玄関をさっと掃く", "靴をそろえる", "いらない紙を捨てる", "洗濯物をたたむ（or まとめる）"])
  ]

  /** The checkbox keys of the sections, section by section and item by item. */
  function SectionKeys(sections: seq<(string, seq<string>)>): (keys: seq<string>)
    ensures |keys| == TaskCount(sections)
  {
    if sections == [] then []
    else
      var (name, items) := sections[0];
      seq(|items|, i requires 0 <= i < |items| => name + "::" + items[i]) + SectionKeys(sections[1..])
  }

  function TaskCount(sections: seq<(string, seq<string>)>): nat {
    if sections == [] then 0 else |sections[0].1| + TaskCount(sections[1..])
  }

  /** The checkbox keys of the user's tasks, numbered from 1. */
  function CustomKeys(custom: seq<string>): (keys: seq<string>)
    ensures |keys| == |custom|
  {
    seq(|custom|, i requires 0 <= i < |custom| => "custom::" + NatToString(i + 1) + "::" + custom[i])
  }

  /** Every checkbox of the page in display order. */
  function AllKeys(sections: seq<(string, seq<string>)>, custom: seq<string>): (keys: seq<string>)
    ensures |keys| == TaskCount(sections) + |custom|
  {
    SectionKeys(sections) + CustomKeys(custom)
  }

  /** The default list has sixteen tasks. */
  lemma DefaultCount()
    ensures TaskCount(DefaultTasks) == 16
  {
    assert DefaultTasks[1..][1..][1..][1..] == [];
  }

  /** `progress`: `done_count / total`, or 0.0 without tasks. */
  function Progress(doneCount: int, total: int): (p: real)
    requires 0 <= doneCount <= total
    ensures 0.0 <= p <= 1.0
    ensures total == 0 ==> p == 0.0
    ensures total > 0 ==> p * total as real == doneCount as real
  {
    if total == 0 then 0.0
    else
      var q := doneCount as real / total as real;
      assert q * total as real == doneCount as real;
      q
  }

  datatype Bucket = Low | Mid | High

  /** `pick_message`'s bucket: at most 1 is low, at most 4 middling, more is high. */
  function BucketOf(done: int): (b: Bucket)
    ensures b == Low <==> done <= 1
    ensures b == Mid <==> 1 < done <= 4
    ensures b == High <==> 4 < done
  {
    if done <= 1 then Low else if done <= 4 then Mid else High
  }

  function Cheers(b: Bucket): (r: seq<string>)
    ensures |r| == 3
  {
    match b
    case Low => ["今日は体を守った。それだけで十分えらい。", "ふわっとしてる日は“ゼロ”でもOK。休むのが仕事。", "進まない日も、止まってるんじゃなく整えてる。"]
    case Mid => ["十分！ちゃんと前に進んでる。", "その“少し”が一番強い。積み上げは勝ち。", "よし、今日の分はクリア。あとはやさしく過ごそう。"]
    case High => ["年末の神が微笑んでる✨", "やったね。部屋が整うと心も整う。", "めちゃくちゃ前進！今日は胸張っていい日。"]
  }

  /** `pick_message(done)` with `random.choice` given as the index `pick`. */
  function PickMessage(done: int, pick: nat): (m: string)
    requires pick < 3
    ensures m in Cheers(BucketOf(done))
  {
    Cheers(BucketOf(done))[pick]
  }

  /**
   * `after` is `before` with each of `keys` set to its box: the keys are
   * added, the other entries are kept, and a key's value is the box of its
   * last occurrence.
   */
  ghost predicate Ticked(before: map<string, bool>, keys: seq<string>, boxes: seq<bool>, after: map<string, bool>)
    requires |boxes| == |keys|
  {
    (forall key :: key in after <==> key in before || key in keys)
    && (forall key :: key in before && key !in keys ==> after[key] == before[key])
    && (forall k :: 0 <= k < |keys| && (forall j :: k < j < |keys| ==> keys[j] != keys[k]) ==> after[keys[k]] == boxes[k])
  }

  /** Setting one more key keeps `Ticked`. */
  lemma TickedStep(before: map<string, bool>, keys: seq<string>, boxes: seq<bool>, after: map<string, bool>, key: string, b: bool)
    requires |boxes| == |keys| && Ticked(before, keys, boxes, after)
    ensures Ticked(before, keys + [key], boxes + [b], after[key := b])
  {
    var keys', boxes' := keys + [key], boxes + [b];
    forall k | 0 <= k < |keys'| && (forall j :: k < j < |keys'| ==> keys'[j] != keys'[k])
      ensures after[key := b][keys'[k]] == boxes'[k]
    {
      if k < |keys| {
        assert keys'[|keys|] != keys'[k];
        assert forall j :: k < j < |keys| ==> keys[j] == keys'[j];
      }
    }
  }

  /**
   * One pass over the checkboxes: a missing key defaults to False, then
   * takes the box's value; every box is counted and every ticked one.
   */
  method Tick(done: map<string, bool>, keys: seq<string>, boxes: seq<bool>) returns (after: map<string, bool>, total: int, doneCount: int)
    requires |boxes| == |keys|
    ensures Ticked(done, keys, boxes, after)
    ensures total == |keys| && doneCount == CountTrue(boxes) && 0 <= doneCount <= total
  {
    after := done;
    total := 0;
    doneCount := 0;
    for n := 0 to |keys|
      invariant total == n && doneCount == CountTrue(boxes[..n])
      invariant Ticked(done, keys[..n], boxes[..n], after)
    {
      assert boxes[..n + 1] == boxes[..n] + [boxes[n]];
      assert keys[..n + 1] == keys[..n] + [keys[n]];
      var key := keys[n];
      ghost var prior := after;
      if key !in after {
        after := after[key := false];
      }
      var checked := boxes[n];
      after := after[key := checked];
      assert after == prior[key := checked];
      TickedStep(done, keys[..n], boxes[..n], prior, key, checked);
      total := total + 1;
      if checked {
        doneCount := doneCount + 1;
      }
    }
    assert boxes[..|keys|] == boxes && keys[..|keys|] == keys;
  }

  class Board {
    var sections: seq<(string, seq<string>)>
    var done: map<string, bool>
    var custom: seq<string>

    /** The session defaults: the default tasks, nothing ticked, no own tasks. */
    constructor()
      ensures sections == DefaultTasks && done == map[] && custom == []
    {
      sections := DefaultTasks;
      done := map[];
      custom := [];
    }

    /** "追加する": the stripped text is appended when it is not empty. */
    method AddCustom(text: string) returns (added: bool)
      modifies this
      ensures added <==> Strip(text) != ""
      ensures custom == if added then old(custom) + [Strip(text)] else old(custom)
      ensures sections == old(sections) && done == old(done)
    {
      var t := Strip(text);
      added := t != "";
      if added {
        custom := custom + [t];
      }
    }

    /** "追加タスクを全消し": the own tasks go, their ticks stay in `done`. */
    method ClearCustom()
      modifies this
      ensures custom == [] && sections == old(sections) && done == old(done)
    {
      custom := [];
    }

    /**
     * The checklist loops over the default sections and then the own tasks;
     * `boxes` holds each checkbox's value in that order.
     */
    method Pass(boxes: seq<bool>) returns (total: int, doneCount: int)
      requires |boxes| == TaskCount(sections) + |custom|
      modifies this
      ensures sections == old(sections) && custom == old(custom)
      ensures total == TaskCount(sections) + |custom|
      ensures doneCount == CountTrue(boxes) && 0 <= doneCount <= total
      ensures Ticked(old(done), AllKeys(sections, custom), boxes, done)
    {
      done, total, doneCount := Tick(done, AllKeys(sections, custom), boxes);
    }
    /** "今日のチェックをリセット": every stored tick becomes False; the tasks stay. */
    method ResetChecks()
      modifies this
      ensures done.Keys == old(done).Keys && forall key :: key in done ==> !done[key]
      ensures sections == old(sections) && custom == old(custom)
    {
      done := map key | key in done :: false;
    }
  }
}
