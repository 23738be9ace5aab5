/**
 * day33_otoshidama: New Year money received and spent per child, a rule
 * per child that splits the received total into "free to spend", "save"
 * and "held by the parent", and a list of money the parent gave away.
 */
module Otoshidama {
  import opened PyText
  import opened PyJson
  import opened PyList
  import opened Calendar
  import opened DateText

  /** A stored money record; `who` is the giver of a received gift or the category of a purchase. */
  datatype Record =
    | Received(child: string, who: string, amount: int, d: string, memo: string)
    | Spent(child: string, who: string, amount: int, d: string, memo: string)

  /** Money the parent handed out. */
  datatype Gift = Gift(to: string, relation: string, amount: int, d: string, memo: string)

  /** A child's rule: each part is `"fixed"` yen or a percentage (any other kind counts as a percentage). */
  datatype Rule = Rule(spendType: string, spendValue: Json, saveType: string, saveValue: Json)

  datatype Allowances = Allowances(spendOk: int, save: int, parentHold: int)

  /** `safe_int(x, default)`: `int(x)`, or `default` where `int` raises. */
  function SafeInt(x: Json, default: int): (r: int)
    ensures x.JInt? ==> r == x.i
    ensures x.JNull? || x.JList? || x.JObject? ==> r == default
  {
    match x
    case JInt(i) => i
    case JBool(b) => if b then 1 else 0
    case JStr(s) => (match ParseInt(s) case Some(v) => v case None => default)
    case _ => default
  }

  // ---------------------------------------------------------------------
  // Totals

  /** `sum(r["amount"] for r in rows if r["child"] == child)`. */
  function SumFor(rows: seq<Record>, child: string): int {
    if rows == [] then 0
    else (if rows[0].child == child then rows[0].amount else 0) + SumFor(rows[1..], child)
  }

  /** A child's total depends only on that child's rows, and grows by exactly what is appended for it. */
  lemma {:induction false} SumForAppend(rows: seq<Record>, x: Record, child: string)
    ensures SumFor(rows + [x], child) == SumFor(rows, child) + (if x.child == child then x.amount else 0)
  {
    if rows != [] {
      assert (rows + [x])[1..] == rows[1..] + [x];
      SumForAppend(rows[1..], x, child);
    }
  }

  /** Removing one row lowers its child's total by its amount and no other child's total. */
  lemma {:induction false} SumForRemove(rows: seq<Record>, x: Record, child: string)
    requires x in rows
    ensures SumFor(RemoveFirst(rows, x), child) == SumFor(rows, child) - (if x.child == child then x.amount else 0)
  {
    if rows[0] != x {
      var r := RemoveFirst(rows, x);
      assert r[0] == rows[0];
      assert r[1..] == RemoveFirst(rows[1..], x) by {
        var i := IndexOf(rows[1..], x);
        assert IndexOf(rows, x) == i + 1;
      }
      SumForRemove(rows[1..], x, child);
    } else {
      assert RemoveFirst(rows, x) == rows[1..];
    }
  }

  /** With only positive amounts, a child's total is never negative. */
  lemma {:induction false} SumForNonNegative(rows: seq<Record>, child: string)
    requires forall k :: 0 <= k < |rows| ==> rows[k].amount > 0
    ensures SumFor(rows, child) >= 0
  {
    if rows != [] {
      SumForNonNegative(rows[1..], child);
    }
  }

  /** `sum(g["amount"] for g in data["given"])`. */
  function TotalGiven(given: seq<Gift>): int {
    if given == [] then 0 else given[0].amount + TotalGiven(given[1..])
  }

  lemma {:induction false} TotalGivenAppend(given: seq<Gift>, g: Gift)
    ensures TotalGiven(given + [g]) == TotalGiven(given) + g.amount
  {
    if given != [] {
      assert (given + [g])[1..] == given[1..] + [g];
      TotalGivenAppend(given[1..], g);
    }
  }

  lemma {:induction false} TotalGivenRemove(given: seq<Gift>, g: Gift)
    requires g in given
    ensures TotalGiven(RemoveFirst(given, g)) == TotalGiven(given) - g.amount
  {
    if given[0] != g {
      var r := RemoveFirst(given, g);
      assert r[1..] == RemoveFirst(given[1..], g) by {
        assert IndexOf(given, g) == IndexOf(given[1..], g) + 1;
      }
      TotalGivenRemove(given[1..], g);
    } else {
      assert RemoveFirst(given, g) == given[1..];
    }
  }

  // ---------------------------------------------------------------------
  // Rules and the split

  /** The rule used when a child has none: 5000 yen to spend, 50% saved. */
  const DefaultRule := Rule("fixed", JInt(5000), "percent", JInt(50))

  /** `get_rule`: the child's stored rule, or the default rule. */
  function GetRule(rules: map<string, Rule>, child: string): (r: Rule)
    ensures child in rules ==> r == rules[child]
    ensures child !in rules ==> r == DefaultRule
  {
    if child in rules then rules[child] else DefaultRule
  }

  /** One part of the split before the overlap adjustment: a fixed amount (at least 0) or a clamped percentage of the total, floored. */
  function Portion(total: int, kind: string, value: Json): (r: int)
    ensures kind == "fixed" ==> r >= 0
    ensures kind != "fixed" && total >= 0 ==> 0 <= r <= total
    ensures kind != "fixed" ==> exists pct :: 0 <= pct <= 100 && r == total * pct / 100
  {
    if kind == "fixed" then
      var v := SafeInt(value, 0);
      if v > 0 then v else 0
    else
      var p := SafeInt(value, 0);
      var pct := if p < 0 then 0 else if p > 100 then 100 else p;
      PercentBound(total, pct);
      total * pct / 100
  }

  lemma PercentBound(total: int, pct: int)
    requires 0 <= pct <= 100
    ensures total >= 0 ==> 0 <= total * pct / 100 <= total
  {
    if total >= 0 {
      assert total * pct <= total * 100;
      assert 0 <= total * pct;
    }
  }

  /**
   * `calc_allowances`: save is its rule's amount untouched; when spend and
   * save together exceed the total, spend shrinks to what is left after
   * saving; the parent holds the rest, never below 0.
   */
  function CalcAllowances(total: int, rule: Rule): (r: Allowances)
    ensures r.save == Portion(total, rule.saveType, rule.saveValue)
    ensures r.parentHold >= 0
    ensures total >= 0 ==> 0 <= r.spendOk <= Portion(total, rule.spendType, rule.spendValue) && r.save >= 0
    ensures r.save <= total ==> r.spendOk + r.save + r.parentHold == total
    ensures var spend := Portion(total, rule.spendType, rule.spendValue);
      spend + r.save <= total ==> r.spendOk == spend
    ensures var spend := Portion(total, rule.spendType, rule.spendValue);
      spend + r.save > total ==> r.spendOk == (if total - r.save > 0 then total - r.save else 0)
    ensures r.parentHold == (if total - r.spendOk - r.save > 0 then total - r.spendOk - r.save else 0)
  {
    var spend := Portion(total, rule.spendType, rule.spendValue);
    var save := Portion(total, rule.saveType, rule.saveValue);
    var spendOk := if spend + save > total then (if total - save > 0 then total - save else 0) else spend;
    var rest := total - spendOk - save;
    Allowances(spendOk, save, if rest > 0 then rest else 0)
  }

  /** The split of the default rule: 5000 yen (or what remains after saving half) to spend. */
  lemma DefaultSplit(total: int)
    requires total >= 0
    ensures var r := CalcAllowances(total, DefaultRule);
      r.save == total / 2 && r.spendOk == (if 5000 + total / 2 > total then total - total / 2 else 5000)
      && r.spendOk + r.save + r.parentHold == total
  {
    var r := CalcAllowances(total, DefaultRule);
    assert r.save == total * 50 / 100;
  }

  // ---------------------------------------------------------------------
  // The stored data

  class Ledger {
    var children: seq<string>
    var received: seq<Record>
    var spent: seq<Record>
    var rules: map<string, Rule>
    var given: seq<Gift>

    /** Stored records are of their list's kind. */
    ghost predicate Valid()
      reads this
    {
      (forall k :: 0 <= k < |received| ==> received[k].Received?)
      && (forall k :: 0 <= k < |spent| ==> spent[k].Spent?)
    }

    /** `default_state()`: one child "子どもA" and nothing recorded. */
    constructor()
      ensures Valid()
      ensures children == ["子どもA"] && received == [] && spent == [] && rules == map[] && given == []
    {
      children := ["子どもA"];
      received := [];
      spent := [];
      rules := map[];
      given := [];
    }

    /** "データを初期化": back to `default_state()`. */
    method Reset()
      modifies this
      ensures Valid()
      ensures children == ["子どもA"] && received == [] && spent == [] && rules == map[] && given == []
    {
      children := ["子どもA"];
      received := [];
      spent := [];
      rules := map[];
      given := [];
    }

    /** "追加" in the sidebar: a stripped, non-blank name not yet listed is appended. */
    method AddChild(newChild: string)
      modifies this
      ensures var name := Strip(newChild);
        children == if name != [] && name !in old(children) then old(children) + [name] else old(children)
      ensures received == old(received) && spent == old(spent) && rules == old(rules) && given == old(given)
    {
      var name := Strip(newChild);
      if name != [] && name !in children {
        children := children + [name];
      }
    }

    /** "この子を削除": the child leaves the list; its records and rule stay. */
    method RemoveChild(target: string)
      modifies this
      ensures target != "（選択）" && target in old(children) ==> children == RemoveFirst(old(children), target)
      ensures !(target != "（選択）" && target in old(children)) ==> children == old(children)
      ensures received == old(received) && spent == old(spent) && rules == old(rules) && given == old(given)
    {
      if target != "（選択）" && target in children {
        children := RemoveFirst(children, target);
      }
    }

    /** "この子のルールを保存": the child's rule is replaced; nobody else's changes. */
    method SaveRule(child: string, spendType: string, spendValue: int, saveType: string, saveValue: int)
      modifies this
      ensures rules == old(rules)[child := Rule(spendType, JInt(spendValue), saveType, JInt(saveValue))]
      ensures children == old(children) && received == old(received) && spent == old(spent) && given == old(given)
    {
      rules := rules[child := Rule(spendType, JInt(spendValue), saveType, JInt(saveValue))];
    }

    /** "＋ 追加（もらった）": kept only with a non-blank giver and a positive amount. */
    method AddReceived(child: string, from: string, amount: int, day: Date, memo: string)
      requires InPyRange(day)
      requires Valid()
      modifies this
      ensures Valid()
      ensures Strip(from) != [] && amount > 0 ==>
        received == old(received) + [Received(child, Strip(from), amount, Iso(day), Strip(memo))]
      ensures !(Strip(from) != [] && amount > 0) ==> received == old(received)
      ensures SumFor(received, child) == old(SumFor(received, child)) + (if Strip(from) != [] && amount > 0 then amount else 0)
      ensures forall c :: c != child ==> SumFor(received, c) == old(SumFor(received, c))
      ensures children == old(children) && spent == old(spent) && rules == old(rules) && given == old(given)
    {
      if Strip(from) != [] && amount > 0 {
        var x := Received(child, Strip(from), amount, Iso(day), Strip(memo));
        forall c ensures SumFor(received + [x], c) == SumFor(received, c) + (if x.child == c then x.amount else 0) {
          SumForAppend(received, x, c);
        }
        received := received + [x];
      }
    }

    /** "＋ 追加（使った）": kept only with a non-blank category and a positive amount. */
    method AddSpent(child: string, category: string, amount: int, day: Date, memo: string)
      requires InPyRange(day)
      requires Valid()
      modifies this
      ensures Valid()
      ensures Strip(category) != [] && amount > 0 ==>
        spent == old(spent) + [Spent(child, Strip(category), amount, Iso(day), Strip(memo))]
      ensures !(Strip(category) != [] && amount > 0) ==> spent == old(spent)
      ensures SumFor(spent, child) == old(SumFor(spent, child)) + (if Strip(category) != [] && amount > 0 then amount else 0)
      ensures forall c :: c != child ==> SumFor(spent, c) == old(SumFor(spent, c))
      ensures children == old(children) && received == old(received) && rules == old(rules) && given == old(given)
    {
      if Strip(category) != [] && amount > 0 {
        var x := Spent(child, Strip(category), amount, Iso(day), Strip(memo));
        forall c ensures SumFor(spent + [x], c) == SumFor(spent, c) + (if x.child == c then x.amount else 0) {
          SumForAppend(spent, x, c);
        }
        spent := spent + [x];
      }
    }

    /** "＋ 追加（渡した）": kept only with a non-blank recipient and a positive amount. */
    method AddGiven(to: string, relation: string, amount: int, day: Date, memo: string)
      requires InPyRange(day)
      modifies this
      ensures Strip(to) != [] && amount > 0 ==>
        given == old(given) + [Gift(Strip(to), Strip(relation), amount, Iso(day), Strip(memo))]
      ensures !(Strip(to) != [] && amount > 0) ==> given == old(given)
      ensures TotalGiven(given) == old(TotalGiven(given)) + (if Strip(to) != [] && amount > 0 then amount else 0)
      ensures children == old(children) && received == old(received) && spent == old(spent) && rules == old(rules)
    {
      if Strip(to) != [] && amount > 0 {
        var g := Gift(Strip(to), Strip(relation), amount, Iso(day), Strip(memo));
        TotalGivenAppend(given, g);
        given := given + [g];
      }
    }

    /**
     * "削除（この行）" under もらった: the shown row `r` is looked up with
     * `index` and popped, so exactly one equal record goes.
     */
    method DeleteReceived(r: Record)
      requires r in received
      requires Valid()
      modifies this
      ensures Valid()
      ensures received == RemoveFirst(old(received), r)
      ensures multiset(received) == multiset(old(received)) - multiset{r}
      ensures SumFor(received, r.child) == old(SumFor(received, r.child)) - r.amount
      ensures children == old(children) && spent == old(spent) && rules == old(rules) && given == old(given)
    {
      RemoveFirstMultiset(received, r);
      SumForRemove(received, r, r.child);
      received := RemoveFirst(received, r);
    }

    /** "削除（この行）" under 使った. */
    method DeleteSpent(s: Record)
      requires s in spent
      requires Valid()
      modifies this
      ensures Valid()
      ensures spent == RemoveFirst(old(spent), s)
      ensures multiset(spent) == multiset(old(spent)) - multiset{s}
      ensures SumFor(spent, s.child) == old(SumFor(spent, s.child)) - s.amount
      ensures children == old(children) && received == old(received) && rules == old(rules) && given == old(given)
    {
      RemoveFirstMultiset(spent, s);
      SumForRemove(spent, s, s.child);
      spent := RemoveFirst(spent, s);
    }

    /** "削除（この行）" in the given list. */
    method DeleteGiven(g: Gift)
      requires g in given
      modifies this
      ensures given == RemoveFirst(old(given), g)
      ensures multiset(given) == multiset(old(given)) - multiset{g}
      ensures TotalGiven(given) == old(TotalGiven(given)) - g.amount
      ensures children == old(children) && received == old(received) && spent == old(spent) && rules == old(rules)
    {
      RemoveFirstMultiset(given, g);
      TotalGivenRemove(given, g);
      given := RemoveFirst(given, g);
    }

    /**
     * The split shown for `child`: the saving its rule asks of its received
     * total, and the three parts making up that total whenever the saving fits.
     */
    function ChildAllowances(child: string): (r: Allowances)
      reads this
      ensures r.save == Portion(SumFor(received, child), GetRule(rules, child).saveType, GetRule(rules, child).saveValue)
      ensures r.parentHold >= 0
      ensures r.save <= SumFor(received, child) ==> r.spendOk + r.save + r.parentHold == SumFor(received, child)
      ensures r == CalcAllowances(SumFor(received, child), GetRule(rules, child))
    {
      CalcAllowances(SumFor(received, child), GetRule(rules, child))
    }
  }
}
