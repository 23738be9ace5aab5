/**
 * day84_action_selector: one journal entry per day. The day's mode comes
 * from three 0-10 scores, a pool of actions for that mode is reordered
 * towards the user's goals, one action is picked, and the day is closed
 * with a done flag and a review.
 */
module ActionSelector {
  import opened PyText
  import opened Sorting

  // ---------------------------------------------------------------------
  // Entries

  datatype Scores = Scores(energy: Option<int>, focus: Option<int>, mood: Option<int>)

  datatype Entry = Entry(
    date: string, createdAt: string, updatedAt: string,
    mode: string, scores: Scores,
    selectedAction: string, selectedCategory: string, whyThis: string,
    done: bool, review: string, savedAt: string, doneAt: string)

  /** A fresh entry for `dkey`, as `get_or_create_today` builds it. */
  function NewEntry(dkey: string, now: string): (e: Entry)
    ensures e.date == dkey && e.mode == "未判定" && !e.done
    ensures e.scores == Scores(None, None, None)
    ensures e.selectedAction == "" && e.review == "" && e.doneAt == ""
  {
    Entry(dkey, now, now, "未判定", Scores(None, None, None), "", "", "", false, "", "", "")
  }

  /** `find_entry(data, dkey)`: the position of the first entry dated `dkey`. */
  function FindEntry(entries: seq<Entry>, dkey: string): (r: Option<nat>)
    ensures r.Some? ==> r.value < |entries| && entries[r.value].date == dkey
    ensures r.Some? ==> forall k :: 0 <= k < r.value ==> entries[k].date != dkey
    ensures r.None? <==> forall k :: 0 <= k < |entries| ==> entries[k].date != dkey
  {
    if entries == [] then None
    else if entries[0].date == dkey then Some(0)
    else match FindEntry(entries[1..], dkey)
      case None => None
      case Some(i) => Some(i + 1)
  }

  /** Appending never changes what an earlier entry is found at. */
  lemma {:induction false} FindEntryAppend(entries: seq<Entry>, e: Entry, dkey: string)
    ensures FindEntry(entries, dkey).Some? ==> FindEntry(entries + [e], dkey) == FindEntry(entries, dkey)
    ensures FindEntry(entries, dkey).None? && e.date == dkey ==> FindEntry(entries + [e], dkey) == Some(|entries|)
  {
    if entries != [] {
      assert (entries + [e])[1..] == entries[1..] + [e];
      FindEntryAppend(entries[1..], e, dkey);
    }
  }

  // ---------------------------------------------------------------------
  // Mode

  /** `mode_from_scores(energy, focus, mood)`: the mode and the mean score. */
  function ModeFromScores(energy: int, focus: int, mood: int): (r: (string, real))
    ensures r.1 * 3.0 == (energy + focus + mood) as real
    ensures r.0 == "攻め" <==> r.1 >= 7.0
    ensures r.0 == "守り" <==> 4.5 <= r.1 < 7.0
    ensures r.0 == "回復" <==> r.1 < 4.5
  {
    var avg := (energy + focus + mood) as real / 3.0;
    if avg >= 7.0 then ("攻め", avg)
    else if avg >= 4.5 then ("守り", avg)
    else ("回復", avg)
  }

  /** For whole-number scores the bands are sums: at least 21, at least 14, below 14. */
  lemma ModeBySum(energy: int, focus: int, mood: int)
    ensures var m := ModeFromScores(energy, focus, mood).0;
      var s := energy + focus + mood;
      (m == "攻め" <==> s >= 21) && (m == "守り" <==> 14 <= s < 21) && (m == "回復" <==> s < 14)
  {
    var s := energy + focus + mood;
    var avg := ModeFromScores(energy, focus, mood).1;
    assert avg * 3.0 == s as real;
    if s >= 14 {
      assert s as real >= 14.0;
    } else {
      assert s <= 13;
      assert s as real <= 13.0;
    }
  }

  // ---------------------------------------------------------------------
  // Suggestions

  datatype Action = Action(category: string, text: string)

  /** `ACTION_POOLS.get(mode)`. */
  function Pool(mode: string): (r: Option<seq<Action>>)
    ensures r.Some? <==> mode in {"攻め", "守り", "回復"}
    ensures r.Some? ==> |r.value| == 5
  {
    if mode == "攻め" then Some([
      Action("開発", "Day83/Day84を30分改善（UI/機能1つ）"),
      Action("発信", "Note記事の見出し→導入だけ書く（15分）"),
      Action("学習", "Python/Streamlitを1テーマだけ学ぶ（20分）"),
      Action("整理", "タスク棚卸し→今日の最優先を決める（10分）"),
      Action("家族", "家の用事を1つ片付けて心を軽くする（10分）")])
    else if mode == "守り" then Some([
      Action("整理", "机の上を5分だけ片付ける"),
      Action("学習", "軽い読書 or 動画を10分だけ"),
      Action("発信", "一言投稿（気づき/学び/日記）を書くだけ"),
      Action("開発", "バグ修正 or 1行改善だけやる"),
      Action("回復", "ストレッチ＋水分補給＋深呼吸")])
    else if mode == "回復" then Some([
      Action("回復", "睡眠/仮眠/横になる（最優先）"),
      Action("回復", "入浴 or 温かい飲み物で整える"),
      Action("整理", "“やらないこと”を3つ決めて脳を軽くする"),
      Action("家族", "家族対応を“優先タスク”として認める（罪悪感0）"),
      Action("超軽", "5分だけ：メモ1行 or タイトルだけ作る")])
    else None
  }

  /** `any(k in boost_keywords for k in keys)`. */
  predicate AnyIn(keys: seq<string>, hay: string) {
    exists i :: 0 <= i < |keys| && Contains(hay, keys[i])
  }

  const DevKeys: seq<string> := ["ルナ", "luna", "アプリ", "streamlit", "開発"]
  const PostKeys: seq<string> := ["note", "ブログ", "発信", "記事"]
  const StudyKeys: seq<string> := ["勉強", "学習", "python"]

  /** The boost of one action: `score(item)` is its negation. */
  function Boost(a: Action, mode: string, kw: string): (s: int)
    ensures 0 <= s <= 2
    ensures a.category == "開発" ==> (s == 2 <==> AnyIn(DevKeys, kw)) && (s == 0 <==> !AnyIn(DevKeys, kw))
    ensures a.category == "発信" ==> (s == 2 <==> AnyIn(PostKeys, kw)) && (s == 0 <==> !AnyIn(PostKeys, kw))
    ensures a.category == "学習" ==> (s == 1 <==> AnyIn(StudyKeys, kw)) && (s == 0 <==> !AnyIn(StudyKeys, kw))
    ensures a.category in {"回復", "超軽"} ==> (s == 1 <==> mode == "回復") && (s == 0 <==> mode != "回復")
    ensures a.category !in {"開発", "発信", "学習", "回復", "超軽"} ==> s == 0
  {
    (if AnyIn(DevKeys, kw) && a.category == "開発" then 2 else 0)
    + (if AnyIn(PostKeys, kw) && a.category == "発信" then 2 else 0)
    + (if AnyIn(StudyKeys, kw) && a.category == "学習" then 1 else 0)
    + (if mode == "回復" && a.category in ["回復", "超軽"] then 1 else 0)
  }

  /** The sort key `score`: smaller sorts first. */
  function ScoreKey(mode: string, kw: string): Action -> int {
    a => -Boost(a, mode, kw)
  }

  /** The goals as `boost_keywords` sees them. */
  function Keywords(goals: seq<string>): string {
    Lower(Join(" ", goals))
  }

  /** `ACTION_POOLS.get(mode, [])`. */
  function Base(mode: string): (r: seq<Action>)
    ensures Pool(mode).Some? ==> r == Pool(mode).value
    ensures Pool(mode).None? ==> r == []
  {
    if Pool(mode).Some? then Pool(mode).value else []
  }

  /**
   * `build_suggestions(mode, goals)`: the mode's pool (empty for an unknown
   * mode), reordered by decreasing boost, keeping the pool's order among
   * actions of equal boost.
   */
  function BuildSuggestions(mode: string, goals: seq<string>): (r: seq<Action>)
    ensures multiset(r) == multiset(Base(mode)) && |r| == |Base(mode)|
    ensures forall i, j :: 0 <= i < j < |r| ==> Boost(r[i], mode, Keywords(goals)) >= Boost(r[j], mode, Keywords(goals))
    ensures Stable(Base(mode), r, ScoreKey(mode, Keywords(goals)))
    ensures mode !in {"攻め", "守り", "回復"} ==> r == []
  {
    Suggest(Base(mode), mode, Keywords(goals))
  }

  /** The sort itself, on any pool. */
  function Suggest(base: seq<Action>, mode: string, kw: string): (r: seq<Action>)
    ensures multiset(r) == multiset(base) && |r| == |base|
    ensures forall i, j :: 0 <= i < j < |r| ==> Boost(r[i], mode, kw) >= Boost(r[j], mode, kw)
    ensures Stable(base, r, ScoreKey(mode, kw))
  {
    IntLessTotal();
    var r := SortBy(base, ScoreKey(mode, kw), IntLess());
    forall i, j | 0 <= i < j < |r| ensures Boost(r[i], mode, kw) >= Boost(r[j], mode, kw) {
      assert !IntLess()(ScoreKey(mode, kw)(r[j]), ScoreKey(mode, kw)(r[i]));
    }
    r
  }

  /** In recovery mode, whatever the goals, every rest or very light action comes before any other. */
  lemma RecoveryFirst(goals: seq<string>)
    ensures var r := BuildSuggestions("回復", goals);
      forall i, j :: 0 <= i < j < |r| && r[j].category in {"回復", "超軽"} ==> r[i].category in {"回復", "超軽"}
  {
    var r := BuildSuggestions("回復", goals);
    var kw := Keywords(goals);
    RecoveryPoolCategories();
    forall i, j | 0 <= i < j < |r| && r[j].category in {"回復", "超軽"} ensures r[i].category in {"回復", "超軽"} {
      assert Boost(r[j], "回復", kw) == 1;
      assert r[i] in multiset(r);
      assert r[i] in Base("回復");
    }
  }

  lemma RecoveryPoolCategories()
    ensures forall a :: a in Base("回復") ==> a.category in {"回復", "超軽", "整理", "家族"}
  {
    var p := Base("回復");
    forall a | a in p ensures a.category in {"回復", "超軽", "整理", "家族"} {
      var i :| 0 <= i < 5 && p[i] == a;
    }
  }

  // ---------------------------------------------------------------------
  // The journal

  class Journal {
    var entries: seq<Entry>

    constructor()
      ensures entries == []
    {
      entries := [];
    }

    /**
     * `get_or_create_today()`: today's entry, appended only when no entry
     * has today's date; the result is where `find_entry` now finds it.
     */
    method GetOrCreateToday(today: string, now: string) returns (i: nat)
      modifies this
      ensures FindEntry(entries, today) == Some(i)
      ensures old(FindEntry(entries, today)).Some? ==> entries == old(entries)
      ensures old(FindEntry(entries, today)).None? ==> entries == old(entries) + [NewEntry(today, now)]
    {
      var found := FindEntry(entries, today);
      FindEntryAppend(entries, NewEntry(today, now), today);
      if found.Some? {
        return found.value;
      }
      entries := entries + [NewEntry(today, now)];
      i := |entries| - 1;
    }

    /** The scored branch: mode and whole-number scores stored, nothing else on the entry changes. */
    method ScoreDay(i: nat, energy: int, focus: int, mood: int)
      requires i < |entries|
      modifies this
      ensures |entries| == old(|entries|)
      ensures forall k :: 0 <= k < |entries| && k != i ==> entries[k] == old(entries[k])
      ensures entries[i] == old(entries[i]).(mode := ModeFromScores(energy, focus, mood).0,
                                            scores := Scores(Some(energy), Some(focus), Some(mood)))
    {
      var mode := ModeFromScores(energy, focus, mood).0;
      entries := entries[i := entries[i].(mode := mode, scores := Scores(Some(energy), Some(focus), Some(mood)))];
    }

    /** The manual branch: the chosen mode is stored and the scores are kept. */
    method ChooseMode(i: nat, mode: string)
      requires i < |entries| && mode in {"攻め", "守り", "回復"}
      modifies this
      ensures |entries| == old(|entries|)
      ensures forall k :: 0 <= k < |entries| && k != i ==> entries[k] == old(entries[k])
      ensures entries[i] == old(entries[i]).(mode := mode)
      ensures Pool(entries[i].mode).Some?
    {
      entries := entries[i := entries[i].(mode := mode)];
    }

    /**
     * Saving the pick: the `pick`-th suggestion for the entry's mode, with
     * the stripped reason and the saving time; the action comes from that
     * mode's pool.
     */
    method SavePick(i: nat, goals: seq<string>, pick: nat, why: string, now: string)
      requires i < |entries| && pick < |BuildSuggestions(entries[i].mode, goals)|
      modifies this
      ensures |entries| == old(|entries|)
      ensures forall k :: 0 <= k < |entries| && k != i ==> entries[k] == old(entries[k])
      ensures var a := BuildSuggestions(old(entries[i].mode), goals)[pick];
        entries[i] == old(entries[i]).(selectedCategory := a.category, selectedAction := a.text,
                                       whyThis := Strip(why), savedAt := now, updatedAt := now)
      ensures Action(entries[i].selectedCategory, entries[i].selectedAction) in Base(entries[i].mode)
    {
      var suggestions := BuildSuggestions(entries[i].mode, goals);
      var a := suggestions[pick];
      assert a in multiset(Base(entries[i].mode));
      entries := entries[i := entries[i].(selectedCategory := a.category, selectedAction := a.text,
                                          whyThis := Strip(why), savedAt := now, updatedAt := now)];
    }

    /**
     * The reset button: the pick, its reason, the review, the timestamps
     * and the done flag are cleared; date, mode and scores stay.
     */
    method Reset(i: nat, now: string)
      requires i < |entries|
      modifies this
      ensures |entries| == old(|entries|)
      ensures forall k :: 0 <= k < |entries| && k != i ==> entries[k] == old(entries[k])
      ensures var e, o := entries[i], old(entries[i]);
        e.date == o.date && e.createdAt == o.createdAt && e.mode == o.mode && e.scores == o.scores
        && e.selectedAction == "" && e.selectedCategory == "" && e.whyThis == ""
        && !e.done && e.review == "" && e.savedAt == "" && e.doneAt == "" && e.updatedAt == now
    {
      var e := entries[i].(selectedAction := "", selectedCategory := "", whyThis := "",
                           done := false, review := "", savedAt := "", doneAt := "", updatedAt := now);
      entries := entries[i := e];
    }

    /** Closing the day: the done flag, the stripped review and the closing time on this entry only. */
    method CloseDay(i: nat, done: bool, review: string, now: string)
      requires i < |entries|
      modifies this
      ensures |entries| == old(|entries|)
      ensures forall k :: 0 <= k < |entries| && k != i ==> entries[k] == old(entries[k])
      ensures entries[i] == old(entries[i]).(done := done, review := Strip(review), doneAt := now, updatedAt := now)
      ensures Strip(entries[i].review) == entries[i].review
    {
      var r := Strip(review);
      StripIdempotent(review);
      entries := entries[i := entries[i].(done := done, review := r, doneAt := now, updatedAt := now)];
    }
  }
}
