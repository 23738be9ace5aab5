/**
 * day71_weekly_review: the week's review counts only what was done.  The
 * five item fields that are not blank, plus one for a non-blank free text,
 * make the count; the count picks Luna's line, and the copy text lists the
 * non-blank items under a header with the count.
 */
module WeeklyReview {
  import opened PyText
  import opened PyList

  const LunaLines: seq<string> := [
    "ほら、ちゃんと進んでる。",
    "ゼロじゃない。それが一番すごい。",
    "積み重ねは、もう始まってるよ。",
    "今週のあなた、ほんとにえらい。",
    "できた数だけ、未来は軽くなる。"
  ]

  /** The number of item fields on the page. */
  const ItemFields: int := 5

  function FilledFn(): string -> bool { x => !IsBlank(x) }

  /** `done_list`: the items whose stripped text is not empty, as typed and in order. */
  function DoneList(items: seq<string>): (done: seq<string>)
    ensures |done| <= |items|
    ensures forall k :: 0 <= k < |done| ==> !IsBlank(done[k]) && done[k] in items
    ensures forall x :: multiset(done)[x] == if IsBlank(x) then 0 else multiset(items)[x]
  {
    var r := Filter(items, FilledFn());
    forall x ensures multiset(r)[x] == if IsBlank(x) then 0 else multiset(items)[x] {
      FilterMultiset(items, FilledFn(), x);
    }
    r
  }

  /** Listing two runs of items one after the other lists their done items in the same order. */
  lemma DoneListAppend(a: seq<string>, b: seq<string>)
    ensures DoneList(a + b) == DoneList(a) + DoneList(b)
  {
    FilterAppend(a, b, FilledFn());
  }

  /** A single item is listed, unchanged, exactly when it is not blank. */
  lemma DoneListOne(x: string)
    ensures DoneList([x]) == if IsBlank(x) then [] else [x]
  {
    assert [x][1..] == [];
  }

  /** `count`: the done items, plus one when the free text is not blank. */
  function Count(items: seq<string>, extra: string): (count: nat)
    ensures count == |Filter(items + [extra], FilledFn())|
  {
    FilterAppend(items, [extra], FilledFn());
    assert [extra][1..] == [];
    |DoneList(items)| + if IsBlank(extra) then 0 else 1
  }

  /** With the page's five fields the count lies in 0..6, and it is 6 exactly when everything is filled. */
  lemma CountRange(items: seq<string>, extra: string)
    requires |items| == ItemFields
    ensures 0 <= Count(items, extra) <= ItemFields + 1
    ensures Count(items, extra) == ItemFields + 1 <==> (forall k :: 0 <= k < |items| ==> !IsBlank(items[k])) && !IsBlank(extra)
  {
    if Count(items, extra) == ItemFields + 1 {
      FilterKeepsLength(items + [extra], FilledFn());
      assert forall k :: 0 <= k < |items| ==> items[k] == (items + [extra])[k];
      assert extra == (items + [extra])[|items|];
    }
    if (forall k :: 0 <= k < |items| ==> !IsBlank(items[k])) && !IsBlank(extra) {
      assert forall x :: x in items + [extra] ==> FilledFn()(x);
      FilterAll(items + [extra], FilledFn());
    }
  }

  /** `LUNA_LINES[count % len(LUNA_LINES)]`: every count gives a line, repeating every five. */
  function LineFor(count: nat): (line: string)
    ensures line in LunaLines
    ensures line == LunaLines[count % |LunaLines|]
  {
    LunaLines[count % |LunaLines|]
  }

  /** Counts five apart get the same line. */
  lemma LinePeriodic(count: nat)
    ensures LineFor(count + 5) == LineFor(count)
  {
    assert (count + 5) % 5 == count % 5;
  }

  /** `copy_text`: a header with the count, then the done items one per line. */
  function CopyText(items: seq<string>, extra: string): (text: string)
  {
    "今週の成果：" + IntToString(Count(items, extra)) + "個\n" + Join("\n", DoneList(items))
  }

  /**
   * When some item is filled and no item holds a line break (the fields are
   * single-line), the lines of the copy text after the header are exactly
   * the done items: nothing blank is listed and nothing done is lost.
   */
  lemma CopyTextLines(items: seq<string>, extra: string)
    requires DoneList(items) != []
    requires forall k :: 0 <= k < |items| ==> !ContainsChar(items[k], '\n')
    ensures var header := "今週の成果：" + IntToString(Count(items, extra)) + "個";
      Split(CopyText(items, extra), '\n') == [header] + DoneList(items)
  {
    var n := Count(items, extra);
    var header := "今週の成果：" + IntToString(n) + "個";
    var done := DoneList(items);
    HeaderNoBreak(n);
    DoneNoBreak(items);
    assert CopyText(items, extra) == header + ['\n'] + Join(['\n'], done);
    HeaderAndLines(header, done);
  }

  /** A single-line header over single-line rows splits back into the header and the rows. */
  lemma HeaderAndLines(header: string, rows: seq<string>)
    requires rows != [] && !ContainsChar(header, '\n')
    requires forall k :: 0 <= k < |rows| ==> !ContainsChar(rows[k], '\n')
    ensures Split(header + ['\n'] + Join(['\n'], rows), '\n') == [header] + rows
  {
    JoinSplit(rows, '\n');
    SplitFirst(header, Join(['\n'], rows), '\n');
  }

  /** The header line holds no line break. */
  lemma HeaderNoBreak(n: nat)
    ensures !ContainsChar("今週の成果：" + IntToString(n) + "個", '\n')
  {
    var header := "今週の成果：" + IntToString(n) + "個";
    NumeralNoBreak(n);
    var t := IntToString(n);
    forall i | 0 <= i < |header| ensures header[i] != '\n' {
      if 6 <= i < 6 + |t| {
        assert header[i] == t[i - 6];
      }
    }
  }

  /** Done items are items, so single-line items give single-line done items. */
  lemma DoneNoBreak(items: seq<string>)
    requires forall k :: 0 <= k < |items| ==> !ContainsChar(items[k], '\n')
    ensures forall k :: 0 <= k < |DoneList(items)| ==> !ContainsChar(DoneList(items)[k], '\n')
  {
    var done := DoneList(items);
    forall k | 0 <= k < |done| ensures !ContainsChar(done[k], '\n') {
      assert done[k] in items;
      var j :| 0 <= j < |items| && items[j] == done[k];
    }
  }

  /** The decimal form of a count is digits only. */
  lemma NumeralNoBreak(n: nat)
    ensures forall i :: 0 <= i < |IntToString(n)| ==> IntToString(n)[i] != '\n'
  {
    assert AllDigits(NatToString(n));
  }
}
