/**
 * day44_reward_gacha: one small reward a day.  The log maps ISO dates to
 * rewards.  A day already in the log shows its reward and offers no draw;
 * otherwise the draw seeds the generator with the date, so the reward is a
 * fixed function of the day, and records it.  The history shows the newest
 * fourteen days first.
 */
module RewardGacha {
  import opened Calendar
  import opened DateText
  import opened PyText
  import opened PyList
  import opened Sorting

  const Rewards: seq<string> := [
    "温かい飲み物をゆっくり飲む",
    "10分だけストレッチ",
    "目を閉じて深呼吸30秒",
    "今日は風呂を最優先にする",
    "好きな音楽を1曲聴く",
    "5分だけ片付け",
    "今日は何もしない許可を出す"
  ]

  /** The history shows this many days. */
  const Shown: int := 14

  /** The log's (date, reward) items in the dict's insertion order. */
  type Log = seq<(string, string)>

  /** A dict holds each key once. */
  predicate DistinctKeys(log: Log) {
    forall i, j :: 0 <= i < j < |log| ==> log[i].0 != log[j].0
  }

  /** `log.get(key)`. */
  function Lookup(log: Log, key: string): (r: Option<string>)
    ensures r.None? <==> forall i :: 0 <= i < |log| ==> log[i].0 != key
    ensures r.Some? ==> exists i :: 0 <= i < |log| && log[i] == (key, r.value)
  {
    if log == [] then None
    else if log[0].0 == key then
      assert log[0] == (key, log[0].1);
      Some(log[0].1)
    else
      var r := Lookup(log[1..], key);
      assert forall i :: 1 <= i < |log| ==> log[i] == log[1..][i - 1];
      r
  }

  /** In a dict the value found is the one stored under the key. */
  lemma LookupUnique(log: Log, i: int)
    requires DistinctKeys(log) && 0 <= i < |log|
    ensures Lookup(log, log[i].0) == Some(log[i].1)
  {
    var r := Lookup(log, log[i].0);
    var j :| 0 <= j < |log| && log[j] == (log[i].0, r.value);
    assert i == j;
  }

  /**
   * `random.seed(today); random.choice(REWARDS)`: the seeded generator is
   * given as `seeded`, the index it draws for a seed.
   */
  function DrawFor(key: string, seeded: string -> nat): (reward: string)
    requires seeded(key) < |Rewards|
    ensures reward in Rewards
  {
    Rewards[seeded(key)]
  }

  class Gacha {
    var log: Log

    constructor(log0: Log)
      ensures log == log0
    {
      log := log0;
    }

    /**
     * One run of the page on `today`: a logged day shows its reward and
     * nothing changes; otherwise a press of "🎰 ご褒美を引く" draws and
     * records today's reward, and without a press nothing is shown.
     */
    method Visit(today: Date, pressed: bool, seeded: string -> nat) returns (shown: Option<string>)
      requires InPyRange(today) && seeded(Iso(today)) < |Rewards|
      modifies this
      ensures var key := Iso(today);
        Lookup(old(log), key).Some? ==> shown == Lookup(old(log), key) && log == old(log)
      ensures var key := Iso(today);
        Lookup(old(log), key).None? && pressed ==>
          shown == Some(DrawFor(key, seeded)) && log == old(log) + [(key, DrawFor(key, seeded))]
      ensures Lookup(old(log), Iso(today)).None? && !pressed ==> shown == None && log == old(log)
      ensures DistinctKeys(old(log)) ==> DistinctKeys(log)
    {
      var key := Iso(today);
      shown := Lookup(log, key);
      if shown.None? && pressed {
        var reward := DrawFor(key, seeded);
        log := log + [(key, reward)];
        shown := Some(reward);
      }
    }

    /** "🧨 ログ全削除". */
    method ClearAll()
      modifies this
      ensures log == []
    {
      log := [];
    }
  }

  /** Once drawn, a day's reward stays: a second visit that day shows it again and changes nothing. */
  method VisitTwice(g: Gacha, today: Date, seeded: string -> nat) returns (first: Option<string>, second: Option<string>)
    requires InPyRange(today) && seeded(Iso(today)) < |Rewards|
    modifies g
    ensures first.Some? && second == first
    ensures g.log == if Lookup(old(g.log), Iso(today)).Some? then old(g.log)
                     else old(g.log) + [(Iso(today), DrawFor(Iso(today), seeded))]
  {
    first := g.Visit(today, true, seeded);
    if Lookup(old(g.log), Iso(today)).None? {
      var key := Iso(today);
      var log0 := old(g.log);
      var logged := log0 + [(key, DrawFor(key, seeded))];
      assert g.log == logged;
      LookupAppend(log0, key, DrawFor(key, seeded));
    }
    second := g.Visit(today, true, seeded);
  }

  /** A key appended to a log without it is found with its value. */
  lemma {:induction false} LookupAppend(log: Log, key: string, v: string)
    requires Lookup(log, key).None?
    ensures Lookup(log + [(key, v)], key) == Some(v)
  {
    if log == [] {
      assert log + [(key, v)] == [(key, v)];
    } else {
      assert log[0].0 != key;
      assert (log + [(key, v)])[1..] == log[1..] + [(key, v)];
      assert forall i :: 0 <= i < |log[1..]| ==> log[1..][i] == log[i + 1];
      LookupAppend(log[1..], key, v);
    }
  }

  function DateOf(item: (string, string)): string {
    item.0
  }

  /** `sorted(log.items(), reverse=True)[:14]`: the newest fourteen days first. */
  function History(log: Log): (h: Log)
    requires DistinctKeys(log)
    ensures |h| == if |log| < Shown then |log| else Shown
    ensures SortedBy(h, DateOf, Flip(StrOrder()))
    ensures forall k :: 0 <= k < |h| ==> h[k] in log
    ensures forall x :: x in log && x !in h ==> forall k :: 0 <= k < |h| ==> !StrLess(h[k].0, x.0)
    ensures multiset(h) <= multiset(log)
    ensures forall i, j :: 0 <= i < j < |h| ==> StrLess(h[j].0, h[i].0)
  {
    StrOrderTotal();
    FlipTotal(StrOrder());
    var sorted := SortBy(log, DateOf, Flip(StrOrder()));
    TakeSorted(log, sorted, DateOf, Flip(StrOrder()), Shown);
    DistinctKeysPerm(log, sorted);
    var h := Take(sorted, Shown);
    assert DistinctKeys(h) by {
      forall i, j | 0 <= i < j < |h| ensures h[i].0 != h[j].0 {
        assert h[i] == sorted[i] && h[j] == sorted[j];
      }
    }
    NewestFirstStrict(h);
    h
  }

  /** Newest first with one entry per day: each day is strictly later than every day after it. */
  lemma NewestFirstStrict(h: Log)
    requires SortedBy(h, DateOf, Flip(StrOrder())) && DistinctKeys(h)
    ensures forall i, j :: 0 <= i < j < |h| ==> StrLess(h[j].0, h[i].0)
  {
    forall i, j | 0 <= i < j < |h| ensures StrLess(h[j].0, h[i].0) {
      assert !StrLess(h[i].0, h[j].0);
      StrLessTotal(h[i].0, h[j].0);
    }
  }

  /** A log with one entry per day has each entry once. */
  lemma OnceEach(log: Log, p: int)
    requires DistinctKeys(log) && 0 <= p < |log|
    ensures multiset(log)[log[p]] == 1
  {
    var x := log[p];
    assert log == log[..p] + [x] + log[p + 1..];
    assert x !in log[..p] by {
      forall k | 0 <= k < p ensures log[..p][k] != x { assert log[k].0 != log[p].0; }
    }
    var post := log[p + 1..];
    assert x !in post by {
      forall k | 0 <= k < |post| ensures post[k] != x { assert post[k] == log[p + 1 + k]; }
    }
  }

  /** Reordering a log with one entry per day keeps one entry per day. */
  lemma DistinctKeysPerm(log: Log, r: Log)
    requires DistinctKeys(log) && multiset(r) == multiset(log)
    ensures DistinctKeys(r)
  {
    forall i, j | 0 <= i < j < |r| ensures r[i].0 != r[j].0 {
      if r[i].0 == r[j].0 {
        assert r[i] in multiset(log) && r[j] in multiset(log);
        var p :| 0 <= p < |log| && log[p] == r[i];
        var q :| 0 <= q < |log| && log[q] == r[j];
        assert p == q;
        var x := r[i];
        assert r == r[..j] + [x] + r[j + 1..];
        assert x in r[..j];
        assert multiset(r)[x] >= 2;
        OnceEach(log, p);
      }
    }
  }
}
