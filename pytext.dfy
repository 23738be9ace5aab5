/**
 * The pieces of Python's `str` behaviour that the apps rely on: whitespace
 * (`str.isspace`), `strip`, `lower`, `in`, `split`, `join`, decimal
 * formatting (`str(n)`, `f"{n:02d}"`), `int()` parsing, and the CSV field
 * quoting the apps write by hand (section 2 of RFC 4180).
 */
module PyText {

  datatype Option<T> = None | Some(value: T)

  /** `c.isspace()` for a single character (Unicode White_Space plus the ASCII separators 0x1C..0x1F). */
  predicate IsSpace(c: char) {
    c == ' ' || ('\t' <= c <= '\r') || ('\U{1C}' <= c <= '\U{1F}') || c == '\U{85}' || c == '\U{A0}'
    || c == '\U{1680}' || ('\U{2000}' <= c <= '\U{200A}') || c == '\U{2028}' || c == '\U{2029}'
    || c == '\U{202F}' || c == '\U{205F}' || c == '\U{3000}'
  }

  predicate AllSpace(s: string) {
    forall i :: 0 <= i < |s| ==> IsSpace(s[i])
  }

  /** `s.lstrip()`. */
  function LStrip(s: string): string {
    if s != [] && IsSpace(s[0]) then LStrip(s[1..]) else s
  }

  /** `s.rstrip()`. */
  function RStrip(s: string): string {
    if s != [] && IsSpace(s[|s| - 1]) then RStrip(s[..|s| - 1]) else s
  }

  /** `s.strip()`. */
  function Strip(s: string): (r: string)
    ensures |r| <= |s|
    ensures r == [] || (!IsSpace(r[0]) && !IsSpace(r[|r| - 1]))
  {
    LStripShape(s);
    RStripShape(LStrip(s));
    var r := RStrip(LStrip(s));
    assert r != [] ==> r[0] == LStrip(s)[0];
    r
  }

  /** `lstrip` drops the leading whitespace and nothing else. */
  lemma {:induction false} LStripShape(s: string)
    ensures var r := LStrip(s);
      |r| <= |s| && r == s[|s| - |r|..] && (r == [] || !IsSpace(r[0])) && AllSpace(s[..|s| - |r|])
    decreases |s|
  {
    if s != [] && IsSpace(s[0]) {
      LStripShape(s[1..]);
      var r := LStrip(s[1..]);
      assert s[..|s| - |r|] == [s[0]] + s[1..][..|s| - 1 - |r|];
    }
  }

  /** `rstrip` drops the trailing whitespace and nothing else. */
  lemma {:induction false} RStripShape(s: string)
    ensures var r := RStrip(s);
      |r| <= |s| && r == s[..|r|] && (r == [] || !IsSpace(r[|r| - 1])) && AllSpace(s[|r|..])
    decreases |s|
  {
    if s != [] && IsSpace(s[|s| - 1]) {
      RStripShape(s[..|s| - 1]);
      var r := RStrip(s[..|s| - 1]);
      assert s[|r|..] == s[..|s| - 1][|r|..] + [s[|s| - 1]];
    }
  }

  /** `strip` keeps the longest middle part with no whitespace at either end. */
  lemma StripShape(s: string)
    ensures var r := Strip(s);
      exists i :: 0 <= i <= |s| - |r| && r == s[i..i + |r|] && AllSpace(s[..i]) && AllSpace(s[i + |r|..])
    ensures var r := Strip(s); r == [] || (!IsSpace(r[0]) && !IsSpace(r[|r| - 1]))
  {
    var l := LStrip(s);
    LStripShape(s);
    RStripShape(l);
    var r := RStrip(l);
    var i := |s| - |l|;
    assert r == s[i..i + |r|];
    assert s[i + |r|..] == l[|r|..];
    if r != [] {
      assert r[0] == l[0];
    }
  }

  /** `x or d` on text. */
  function OrElse(v: string, d: string): (r: string)
    ensures v != "" ==> r == v
    ensures v == "" ==> r == d
  {
    if v == "" then d else v
  }

  /** `not s.strip()`. */
  predicate IsBlank(s: string) {
    Strip(s) == []
  }

  lemma BlankIffAllSpace(s: string)
    ensures IsBlank(s) <==> AllSpace(s)
  {
    var r := Strip(s);
    StripShape(s);
    var i :| 0 <= i <= |s| - |r| && r == s[i..i + |r|] && AllSpace(s[..i]) && AllSpace(s[i + |r|..]);
    if r == [] {
      forall k | 0 <= k < |s| ensures IsSpace(s[k]) {
        if k < i { assert s[k] == s[..i][k]; } else { assert s[k] == s[i..][k - i]; }
      }
    } else {
      assert s[i] == r[0];
    }
  }

  /** A word that neither starts nor ends with whitespace is its own strip, and is not blank. */
  lemma StrippedWord(w: string)
    requires |w| > 0 && !IsSpace(w[0]) && !IsSpace(w[|w| - 1])
    ensures Strip(w) == w && !IsBlank(w)
  {
  }

  /** Stripping twice is stripping once. */
  lemma StripIdempotent(s: string)
    ensures Strip(Strip(s)) == Strip(s)
  {
    var r := Strip(s);
    StripShape(s);
    if r != [] {
      assert LStrip(r) == r;
      assert RStrip(r) == r;
    }
  }

  // ---------------------------------------------------------------------
  // re.sub(r"\s+", " ", s).strip()

  /** Every maximal whitespace run replaced by one space (`re.sub(r"\s+", " ", s)`). */
  function CollapseWs(s: string): (r: string)
    ensures |r| <= |s|
    ensures r == [] <==> s == []
    decreases |s|
  {
    if s == [] then []
    else if IsSpace(s[0]) then
      LStripShape(s);
      var rest := LStrip(s);
      [' '] + CollapseWs(rest)
    else [s[0]] + CollapseWs(s[1..])
  }

  /** Whitespace only as single ' ' characters. */
  predicate Collapsed(t: string) {
    (forall i :: 0 <= i < |t| && IsSpace(t[i]) ==> t[i] == ' ')
    && (forall i :: 0 <= i < |t| - 1 ==> !SpacePair(t, i))
  }

  /** Whitespace at i and at i + 1. */
  predicate SpacePair(t: string, i: int)
    requires 0 <= i < |t| - 1
  {
    IsSpace(t[i]) && IsSpace(t[i + 1])
  }

  /** Collapsed, and no whitespace at either end. */
  predicate Normalized(t: string) {
    Collapsed(t) && (t == [] || (!IsSpace(t[0]) && !IsSpace(t[|t| - 1])))
  }

  /** `normalize_ws`: whitespace runs become one space, then the ends are stripped. */
  function NormalizeWs(s: string): (r: string)
    ensures Normalized(r)
  {
    CollapseWsCollapsed(s);
    var c := CollapseWs(s);
    StripKeepsCollapsed(c);
    Strip(c)
  }

  lemma StripKeepsCollapsed(c: string)
    requires Collapsed(c)
    ensures Normalized(Strip(c))
  {
    var r := Strip(c);
    assert Collapsed(r) by {
      var i := StripSlice(c);
      SliceCollapsed(c, i, i + |r|);
    }
    assert r == [] || (!IsSpace(r[0]) && !IsSpace(r[|r| - 1])) by {
      StripShape(c);
    }
  }

  /** Where `s.strip()` sits inside `s`. */
  lemma StripSlice(s: string) returns (i: nat)
    ensures i + |Strip(s)| <= |s| && Strip(s) == s[i..i + |Strip(s)|]
  {
    var l := LStrip(s);
    LStripShape(s);
    RStripShape(l);
    i := |s| - |l|;
  }

  /** Collapsed text with one more character in front. */
  lemma CollapsedCons(x: char, t: string)
    ensures Collapsed([x] + t) <==>
      (IsSpace(x) ==> x == ' ') && Collapsed(t) && !(IsSpace(x) && t != [] && IsSpace(t[0]))
  {
    if Collapsed([x] + t) {
      CollapsedTail(x, t);
    }
    if (IsSpace(x) ==> x == ' ') && Collapsed(t) && !(IsSpace(x) && t != [] && IsSpace(t[0])) {
      CollapsedFront(x, t);
    }
  }

  lemma CollapsedTail(x: char, t: string)
    requires Collapsed([x] + t)
    ensures (IsSpace(x) ==> x == ' ') && Collapsed(t) && !(IsSpace(x) && t != [] && IsSpace(t[0]))
  {
    var u := [x] + t;
    assert u[0] == x;
    forall k | 0 <= k < |t| ensures IsSpace(t[k]) ==> t[k] == ' ' {
      assert u[k + 1] == t[k];
    }
    forall k | 0 <= k < |t| - 1 ensures !SpacePair(t, k) {
      assert u[k + 1] == t[k] && u[k + 2] == t[k + 1];
      assert !SpacePair(u, k + 1);
    }
    if t != [] {
      assert u[1] == t[0];
      assert !SpacePair(u, 0);
    }
  }

  lemma CollapsedFront(x: char, t: string)
    requires (IsSpace(x) ==> x == ' ') && Collapsed(t) && !(IsSpace(x) && t != [] && IsSpace(t[0]))
    ensures Collapsed([x] + t)
  {
    var u := [x] + t;
    forall k | 0 <= k < |u| && IsSpace(u[k]) ensures u[k] == ' ' {
      if k > 0 {
        assert u[k] == t[k - 1];
      }
    }
    forall k | 0 <= k < |u| - 1 ensures !SpacePair(u, k) {
      if k > 0 {
        assert u[k] == t[k - 1] && u[k + 1] == t[k];
        assert !SpacePair(t, k - 1);
      } else {
        assert u[1] == t[0];
      }
    }
  }

  lemma SliceCollapsed(c: string, i: int, j: int)
    requires Collapsed(c) && 0 <= i <= j <= |c|
    ensures Collapsed(c[i..j])
  {
    var t := c[i..j];
    assert forall k :: 0 <= k < |t| ==> t[k] == c[i + k];
    forall k | 0 <= k < |t| - 1
      ensures !SpacePair(t, k)
    {
      assert !SpacePair(c, i + k);
    }
  }

  lemma {:induction false} CollapseWsCollapsed(s: string)
    ensures Collapsed(CollapseWs(s))
    ensures s != [] ==> CollapseWs(s) != [] && (IsSpace(CollapseWs(s)[0]) <==> IsSpace(s[0]))
    decreases |s|
  {
    if s == [] {
    } else if IsSpace(s[0]) {
      LStripShape(s);
      var rest := LStrip(s);
      CollapseWsCollapsed(rest);
      CollapsedCons(' ', CollapseWs(rest));
    } else {
      CollapseWsCollapsed(s[1..]);
      CollapsedCons(s[0], CollapseWs(s[1..]));
    }
  }

  lemma {:induction false} CollapseWsFixed(t: string)
    requires Collapsed(t)
    ensures CollapseWs(t) == t
    decreases |t|
  {
    if t != [] {
      assert t == [t[0]] + t[1..];
      CollapsedCons(t[0], t[1..]);
      if IsSpace(t[0]) {
        assert LStrip(t) == t[1..];
      }
      CollapseWsFixed(t[1..]);
    }
  }

  /** `normalize_ws` is idempotent. */
  lemma NormalizeWsIdempotent(s: string)
    ensures NormalizeWs(NormalizeWs(s)) == NormalizeWs(s)
  {
    var t := NormalizeWs(s);
    CollapseWsFixed(t);
    if t != [] {
      assert LStrip(t) == t;
      assert RStrip(t) == t;
    }
  }

  // ---------------------------------------------------------------------
  // Case, containment, splitting, joining

  /** `s.lower()` for ASCII letters. */
  function Lower(s: string): (r: string)
    ensures |r| == |s|
    ensures forall i :: 0 <= i < |s| ==> r[i] == if 'A' <= s[i] <= 'Z' then (s[i] as int + 32) as char else s[i]
  {
    if s == [] then [] else [LowerChar(s[0])] + Lower(s[1..])
  }

  function LowerChar(c: char): char {
    if 'A' <= c <= 'Z' then (c as int + 32) as char else c
  }

  /** Python's `needle in hay` for strings. */
  predicate Contains(hay: string, needle: string) {
    exists i :: 0 <= i <= |hay| - |needle| && OccursAt(hay, needle, i)
  }

  predicate OccursAt(hay: string, needle: string, i: int) {
    0 <= i <= |hay| - |needle| && hay[i..i + |needle|] == needle
  }

  predicate ContainsChar(s: string, c: char) {
    exists i :: 0 <= i < |s| && s[i] == c
  }

  lemma ContainsCharIsContains(s: string, c: char)
    ensures ContainsChar(s, c) <==> Contains(s, [c])
  {
    if ContainsChar(s, c) {
      var i :| 0 <= i < |s| && s[i] == c;
      assert OccursAt(s, [c], i);
    }
    if Contains(s, [c]) {
      var i :| 0 <= i <= |s| - 1 && OccursAt(s, [c], i);
      assert s[i] == s[i..i + 1][0];
    }
  }

  /** `sep.join(parts)`. */
  function Join(sep: string, parts: seq<string>): string {
    if parts == [] then []
    else if |parts| == 1 then parts[0]
    else parts[0] + sep + Join(sep, parts[1..])
  }

  /** `s.split(c)` for a one-character separator. */
  function Split(s: string, c: char): (parts: seq<string>)
    ensures |parts| >= 1
    ensures forall k :: 0 <= k < |parts| ==> !ContainsChar(parts[k], c)
    decreases |s|
  {
    if s == [] then [[]]
    else
      var rest := Split(s[1..], c);
      if s[0] == c then [[]] + rest
      else [[s[0]] + rest[0]] + rest[1..]
  }

  /** Joining the parts with the separator gives back the text. */
  lemma {:induction false} SplitJoin(s: string, c: char)
    ensures Join([c], Split(s, c)) == s
    decreases |s|
  {
    if s != [] {
      var rest := Split(s[1..], c);
      SplitJoin(s[1..], c);
      if s[0] == c {
        assert Join([c], [[]] + rest) == [] + [c] + Join([c], rest);
      } else {
        JoinConsFirst(s[0], rest, c);
      }
      assert s == [s[0]] + s[1..];
    }
  }

  lemma JoinConsFirst(x: char, parts: seq<string>, c: char)
    requires |parts| >= 1
    ensures Join([c], [[x] + parts[0]] + parts[1..]) == [x] + Join([c], parts)
  {
    var q := [[x] + parts[0]] + parts[1..];
    assert q[0] == [x] + parts[0] && q[1..] == parts[1..] && |q| == |parts|;
    if |parts| == 1 {
      assert Join([c], q) == q[0];
      assert Join([c], parts) == parts[0];
    } else {
      JoinHead([c], q);
      JoinHead([c], parts);
      var j := Join([c], parts[1..]);
      assert Join([c], q) == ([x] + parts[0]) + [c] + j;
      ConsAssoc(x, parts[0] + [c], j);
      assert [x] + parts[0] + [c] == [x] + (parts[0] + [c]);
    }
  }

  lemma ConsAssoc(x: char, a: string, b: string)
    ensures ([x] + a) + b == [x] + (a + b)
  {
    var l, r := ([x] + a) + b, [x] + (a + b);
    assert |l| == |r|;
    forall i | 0 <= i < |l| ensures l[i] == r[i] {
      if i == 0 {
      } else if i <= |a| {
        assert l[i] == a[i - 1] && r[i] == a[i - 1];
      } else {
        assert l[i] == b[i - 1 - |a|] && r[i] == b[i - 1 - |a|];
      }
    }
  }

  /** A join begins with its first part and ends with its last. */
  lemma {:induction false} JoinEnds(sep: string, parts: seq<string>)
    requires parts != []
    ensures var r := Join(sep, parts);
      |parts[0]| <= |r| && r[..|parts[0]|] == parts[0]
      && |parts[|parts| - 1]| <= |r| && r[|r| - |parts[|parts| - 1]|..] == parts[|parts| - 1]
  {
    if |parts| > 1 {
      var tail := Join(sep, parts[1..]);
      JoinEnds(sep, parts[1..]);
      var r := parts[0] + sep + tail;
      assert Join(sep, parts) == r;
      assert r[..|parts[0]|] == parts[0];
      assert r[|r| - |tail|..] == tail;
      assert parts[1..][|parts| - 2] == parts[|parts| - 1];
    }
  }

  lemma JoinHead(sep: string, parts: seq<string>)
    requires |parts| > 1
    ensures Join(sep, parts) == parts[0] + sep + Join(sep, parts[1..])
  {
  }

  /** `s.split(c)` has one more part than `s` has separators. */
  lemma {:induction false} SplitCount(s: string, c: char)
    ensures |Split(s, c)| == CountChar(s, c) + 1
    decreases |s|
  {
    if s != [] { SplitCount(s[1..], c); }
  }

  /** Text without the separator splits into itself alone. */
  lemma {:induction false} SplitNone(s: string, c: char)
    requires !ContainsChar(s, c)
    ensures Split(s, c) == [s]
    decreases |s|
  {
    if s != [] {
      assert !ContainsChar(s[1..], c) by {
        forall i | 0 <= i < |s[1..]| ensures s[1..][i] != c { assert s[1..][i] == s[i + 1]; }
      }
      SplitNone(s[1..], c);
      assert s[0] != c;
      assert [s[0]] + s[1..] == s;
    }
  }

  /** `(a + c + b).split(c) == [a, b]` when neither part holds the separator. */
  lemma {:induction false} SplitTwo(a: string, b: string, c: char)
    requires !ContainsChar(a, c) && !ContainsChar(b, c)
    ensures Split(a + [c] + b, c) == [a, b]
    decreases |a|
  {
    var s := a + [c] + b;
    if a == [] {
      assert s[1..] == b;
      SplitNone(b, c);
    } else {
      assert s[1..] == a[1..] + [c] + b;
      assert !ContainsChar(a[1..], c) by {
        forall i | 0 <= i < |a[1..]| ensures a[1..][i] != c { assert a[1..][i] == a[i + 1]; }
      }
      SplitTwo(a[1..], b, c);
      assert a[0] != c;
      assert [a[0]] + a[1..] == a;
    }
  }

  /** `(a + c + t).split(c)` is `a` followed by the parts of `t`, when `a` holds no separator. */
  lemma {:induction false} SplitFirst(a: string, t: string, c: char)
    requires !ContainsChar(a, c)
    ensures Split(a + [c] + t, c) == [a] + Split(t, c)
    decreases |a|
  {
    var s := a + [c] + t;
    if a == [] {
      assert s[1..] == t;
    } else {
      assert s[1..] == a[1..] + [c] + t;
      assert !ContainsChar(a[1..], c) by {
        forall i | 0 <= i < |a[1..]| ensures a[1..][i] != c { assert a[1..][i] == a[i + 1]; }
      }
      SplitFirst(a[1..], t, c);
      assert a[0] != c;
      assert [a[0]] + a[1..] == a;
    }
  }

  /** Splitting joined parts that hold no separator gives the parts back. */
  lemma {:induction false} JoinSplit(parts: seq<string>, c: char)
    requires |parts| >= 1
    requires forall k :: 0 <= k < |parts| ==> !ContainsChar(parts[k], c)
    ensures Split(Join([c], parts), c) == parts
    decreases |parts|
  {
    if |parts| == 1 {
      SplitNone(parts[0], c);
    } else {
      JoinSplit(parts[1..], c);
      SplitFirst(parts[0], Join([c], parts[1..]), c);
      assert [parts[0]] + parts[1..] == parts;
    }
  }

  function CountChar(s: string, c: char): nat {
    if s == [] then 0 else (if s[0] == c then 1 else 0) + CountChar(s[1..], c)
  }

  /** `s.replace(c, r)` for a single character `c`. */
  function ReplaceChar(s: string, c: char, r: string): (t: string)
    ensures c !in r ==> c !in t
    ensures forall d :: d !in s && d !in r ==> d !in t
    ensures c !in s ==> t == s
    ensures |t| == |s| + CountChar(s, c) * (|r| - 1)
  {
    if s == [] then []
    else
      var head := if s[0] == c then r else [s[0]];
      var rest := ReplaceChar(s[1..], c, r);
      var k := CountChar(s[1..], c);
      assert |head| == |r| || |head| == 1;
      assert s[0] == c ==> (k + 1) * (|r| - 1) == k * (|r| - 1) + |r| - 1;
      assert forall d :: d in s[1..] ==> d in s;
      head + rest
  }
  /** `replace` works character by character: it distributes over concatenation. */
  lemma {:induction false} ReplaceCharAppend(a: string, b: string, c: char, r: string)
    ensures ReplaceChar(a + b, c, r) == ReplaceChar(a, c, r) + ReplaceChar(b, c, r)
  {
    if a == [] {
      assert a + b == b;
    } else {
      var head := if a[0] == c then r else [a[0]];
      var x := a[1..];
      calc {
        ReplaceChar(a + b, c, r);
      == { assert (a + b)[0] == a[0] && (a + b)[1..] == x + b; }
        head + ReplaceChar(x + b, c, r);
      == { ReplaceCharAppend(x, b, c, r); }
        head + (ReplaceChar(x, c, r) + ReplaceChar(b, c, r));
      ==
        (head + ReplaceChar(x, c, r)) + ReplaceChar(b, c, r);
      }
    }
  }

  /** On one character, `replace` gives the replacement or the character itself. */
  lemma ReplaceCharOne(x: char, c: char, r: string)
    ensures ReplaceChar([x], c, r) == if x == c then r else [x]
  {
    assert [x][1..] == [];
  }


  // ---------------------------------------------------------------------
  // Decimal text

  predicate IsDigit(c: char) { '0' <= c <= '9' }

  predicate AllDigits(s: string) {
    forall i :: 0 <= i < |s| ==> IsDigit(s[i])
  }

  function DigitChar(d: nat): char
    requires d < 10
  {
    ('0' as int + d) as char
  }

  /** The value of a string of ASCII digits, most significant first. */
  function DigitsValue(s: string): nat
    requires AllDigits(s)
  {
    if s == [] then 0 else DigitsValue(s[..|s| - 1]) * 10 + (s[|s| - 1] as int - '0' as int)
  }

  /** `str(n)` for n >= 0. */
  function NatToString(n: nat): (s: string)
    ensures |s| >= 1 && AllDigits(s)
    ensures |s| > 1 ==> s[0] != '0'
    ensures DigitsValue(s) == n
  {
    if n < 10 then [DigitChar(n)]
    else
      var s := NatToString(n / 10) + [DigitChar(n % 10)];
      assert s[..|s| - 1] == NatToString(n / 10);
      s
  }

  /** `str(n)`. */
  function IntToString(n: int): string {
    if n < 0 then "-" + NatToString(-n) else NatToString(n)
  }

  /** Left-pads `s` with '0' to at least `width` characters. */
  function PadZeros(s: string, width: nat): (r: string)
    ensures |r| == if |s| >= width then |s| else width
    ensures r[|r| - |s|..] == s
    ensures forall i :: 0 <= i < |r| - |s| ==> r[i] == '0'
    decreases width - |s|
  {
    if |s| >= width then s
    else
      var z := "0" + s;
      var r := PadZeros(z, width);
      assert r[|r| - |s|..] == r[|r| - |z|..][1..] == s;
      assert forall i :: 0 <= i < |r| - |s| ==> r[i] == '0' by {
        forall i | 0 <= i < |r| - |s| ensures r[i] == '0' {
          if i == |r| - |z| {
            assert r[i] == r[|r| - |z|..][0] == z[0];
          }
        }
      }
      r
  }

  /** `f"{n:0{width}d}"` for n >= 0. */
  function ZeroPadded(n: nat, width: nat): (s: string)
    ensures AllDigits(s) && DigitsValue(s) == n
    ensures |s| >= width
    ensures 1 <= width && n < Pow10(width) ==> |s| == width
  {
    var s := PadZeros(NatToString(n), width);
    LeadingZerosValue(s, |s| - |NatToString(n)|);
    if 1 <= width && n < Pow10(width) then NatToStringShort(n, width); s else s
  }

  /** A number below 100 pads to exactly two digits. */
  lemma ZeroPaddedTwo(n: nat)
    requires n < 100
    ensures |ZeroPadded(n, 2)| == 2
  {
    assert Pow10(2) == 100 by { assert Pow10(1) == 10; }
  }

  /** Two texts around one separator character, with the positions of the three parts. */
  function Glue(a: string, sep: char, b: string): (s: string)
    ensures |s| == |a| + 1 + |b| && s[|a|] == sep && s[..|a|] == a && s[|a| + 1..] == b
  {
    a + [sep] + b
  }

  /** `dt.strftime("%H:%M")` for a minute of the day. */
  function HourMinute(m: int): (s: string)
    requires 0 <= m < 24 * 60
    ensures |s| == 5 && s[2] == ':'
    ensures ParseInt(s[..2]) == Some(m / 60) && ParseInt(s[3..]) == Some(m % 60)
  {
    var h, mm := ZeroPadded(m / 60, 2), ZeroPadded(m % 60, 2);
    assert |h| == 2 && |mm| == 2 by {
      ZeroPaddedTwo(m / 60);
      ZeroPaddedTwo(m % 60);
    }
    ParseIntZeroPadded(m / 60, 2);
    ParseIntZeroPadded(m % 60, 2);
    Glue(h, ':', mm)
  }

  function Pow10(k: nat): (p: nat)
    ensures p >= 1
  {
    if k == 0 then 1 else 10 * Pow10(k - 1)
  }

  /** A number below 10^w has at most w decimal digits. */
  lemma {:induction false} NatToStringShort(n: nat, w: nat)
    requires 1 <= w && n < Pow10(w)
    ensures |NatToString(n)| <= w
  {
    if n >= 10 {
      assert Pow10(1) == 10;
      NatToStringShort(n / 10, w - 1);
    }
  }

  /** Leading zeros do not change the value of a digit string. */
  lemma {:induction false} LeadingZerosValue(s: string, k: nat)
    requires k <= |s| && AllDigits(s[k..])
    requires forall i :: 0 <= i < k ==> s[i] == '0'
    ensures AllDigits(s) && DigitsValue(s) == DigitsValue(s[k..])
    decreases |s|
  {
    if k == |s| {
      assert forall i :: 0 <= i < |s| ==> IsDigit(s[i]);
      ZerosValue(s);
    } else {
      assert s[|s| - 1] == s[k..][|s| - 1 - k];
      assert AllDigits(s[..|s| - 1][k..]) by { assert s[..|s| - 1][k..] == s[k..][..|s| - 1 - k]; }
      LeadingZerosValue(s[..|s| - 1], k);
      assert s[k..][..|s[k..]| - 1] == s[..|s| - 1][k..];
    }
  }

  lemma {:induction false} ZerosValue(s: string)
    requires forall i :: 0 <= i < |s| ==> s[i] == '0'
    ensures AllDigits(s) && DigitsValue(s) == 0
  {
    if s != [] { ZerosValue(s[..|s| - 1]); }
  }

  // ---------------------------------------------------------------------
  // int()

  /**
   * The value of a base-10 numeral as `int()` reads it, read from the right:
   * digits, with single underscores allowed between two digits.
   */
  function NumeralValue(s: string): (r: Option<nat>)
    decreases |s|
  {
    if s == [] || !IsDigit(s[|s| - 1]) then None
    else
      var d := s[|s| - 1] as int - '0' as int;
      var p := s[..|s| - 1];
      if p == [] then Some(d)
      else
        var q := if p[|p| - 1] == '_' then p[..|p| - 1] else p;
        match NumeralValue(q)
        case None => None
        case Some(v) => Some(v * 10 + d)
  }

  /** `int(s)` in base 10 for ASCII numerals: surrounding whitespace, an optional sign, underscores between digits. */
  function ParseInt(s: string): (r: Option<int>)
    ensures r.Some? ==> !IsBlank(s)
  {
    var t := Strip(s);
    if t == [] then None else ParseSigned(t)
  }

  /** A stripped numeral with an optional leading sign. */
  function ParseSigned(t: string): Option<int>
    requires t != []
  {
    var body := if t[0] == '-' || t[0] == '+' then t[1..] else t;
    match NumeralValue(body)
    case None => None
    case Some(v) => Some(if t[0] == '-' then -(v as int) else v as int)
  }

  /** `int(str(n)) == n`. */
  lemma ParseIntToString(n: int)
    ensures ParseInt(IntToString(n)) == Some(n)
  {
    if n < 0 {
      var s := IntToString(n);
      assert s[1..] == NatToString(-n);
      ParseIntNeg(s);
    } else {
      ParseIntDigits(NatToString(n));
    }
  }

  /** `int(f"{n:0{w}d}") == n`. */
  lemma ParseIntZeroPadded(n: nat, width: nat)
    ensures ParseInt(ZeroPadded(n, width)) == Some(n)
  {
    ParseIntDigits(ZeroPadded(n, width));
  }

  lemma ParseIntDigits(d: string)
    requires |d| >= 1 && AllDigits(d)
    ensures ParseInt(d) == Some(DigitsValue(d))
  {
    EndsNotSpace(d);
    ParseDigitsBody(d);
  }

  lemma ParseIntNeg(s: string)
    requires |s| >= 2 && s[0] == '-' && AllDigits(s[1..])
    ensures ParseInt(s) == Some(-(DigitsValue(s[1..]) as int))
  {
    assert IsDigit(s[1..][|s| - 2]);
    EndsNotSpace(s);
    ParseDigitsBody(s[1..]);
    assert ParseSigned(s) == Some(-(DigitsValue(s[1..]) as int));
  }

  /** A plain digit string reads as its decimal value. */
  lemma {:induction false} ParseDigitsBody(d: string)
    requires |d| >= 1 && AllDigits(d)
    ensures NumeralValue(d) == Some(DigitsValue(d))
    decreases |d|
  {
    var p := d[..|d| - 1];
    assert IsDigit(d[|d| - 1]);
    if p != [] {
      assert AllDigits(p) by {
        forall i | 0 <= i < |p| ensures IsDigit(p[i]) { assert p[i] == d[i]; }
      }
      assert IsDigit(p[|p| - 1]);
      ParseDigitsBody(p);
    }
  }

  /** A string whose first and last characters are not whitespace strips to itself. */
  lemma EndsNotSpace(s: string)
    requires |s| >= 1 && (IsDigit(s[0]) || s[0] == '-') && IsDigit(s[|s| - 1])
    ensures Strip(s) == s
  {
    assert !IsSpace(s[0]);
    assert !IsSpace(s[|s| - 1]);
    NoSpaceEnds(s);
  }

  lemma NoSpaceEnds(s: string)
    requires |s| >= 1 && !IsSpace(s[0]) && !IsSpace(s[|s| - 1])
    ensures Strip(s) == s
  {
    assert LStrip(s) == s;
    assert RStrip(s) == s;
  }

  // ---------------------------------------------------------------------
  // CSV fields (section 2 of RFC 4180)

  /** `v.replace('"', '""')`. */
  function DoubleQuotes(v: string): string {
    if v == [] then [] else (if v[0] == '"' then "\"\"" else [v[0]]) + DoubleQuotes(v[1..])
  }

  predicate NeedsQuotes(v: string) {
    ContainsChar(v, ',') || ContainsChar(v, '"') || ContainsChar(v, '\n')
  }

  /** A field is quoted iff it holds a comma, a double quote or a newline; inner quotes are doubled. */
  function QuoteField(v: string): (r: string)
    ensures !NeedsQuotes(v) ==> r == v
    ensures NeedsQuotes(v) ==> |r| >= 2 && r[0] == '"' && r[|r| - 1] == '"'
  {
    if NeedsQuotes(v) then "\"" + DoubleQuotes(v) + "\"" else v
  }

  /** A comma-separated record line built from quoted fields. */
  function CsvLine(fields: seq<string>): string {
    Join(",", MapQuote(fields))
  }

  function MapQuote(fields: seq<string>): (r: seq<string>)
    ensures |r| == |fields|
    ensures forall k :: 0 <= k < |fields| ==> r[k] == QuoteField(fields[k])
  {
    if fields == [] then [] else [QuoteField(fields[0])] + MapQuote(fields[1..])
  }

  /** Reads the rest of a quoted field after its opening quote: `""` is a quote, a lone `"` ends it. */
  function ParseQuoted(s: string): (r: Option<(string, string)>)
    ensures r.Some? ==> |r.value.1| < |s|
    decreases |s|
  {
    if s == [] then None
    else if s[0] == '"' then
      if |s| >= 2 && s[1] == '"' then
        match ParseQuoted(s[2..])
        case Some(p) => Some(("\"" + p.0, p.1))
        case None => None
      else Some(([], s[1..]))
    else
      match ParseQuoted(s[1..])
      case Some(p) => Some(([s[0]] + p.0, p.1))
      case None => None
  }

  /** Reads an unquoted field up to the next comma. */
  function ParseBare(s: string): (r: (string, string))
    ensures |r.1| <= |s|
  {
    if s == [] || s[0] == ',' then ([], s)
    else var p := ParseBare(s[1..]); ([s[0]] + p.0, p.1)
  }

  /** One field and the text after it, which must be empty or start with a comma. */
  function ParseField(s: string): (r: Option<(string, string)>)
    ensures r.Some? ==> |r.value.1| <= |s|
  {
    if s != [] && s[0] == '"' then
      match ParseQuoted(s[1..])
      case Some(p) => if p.1 == [] || p.1[0] == ',' then Some(p) else None
      case None => None
    else Some(ParseBare(s))
  }

  /** A record line read back into its fields. */
  function ParseCsvLine(s: string): (r: Option<seq<string>>)
    ensures r.Some? ==> 1 <= |r.value| <= |s| + 1
    decreases |s|
  {
    match ParseField(s)
    case None => None
    case Some(p) =>
      if p.1 == [] then Some([p.0])
      else
        match ParseCsvLine(p.1[1..])
        case Some(rest) => Some([p.0] + rest)
        case None => None
  }

  lemma {:induction false} ParseQuotedDoubled(v: string, tail: string)
    requires tail == [] || tail[0] != '"'
    ensures ParseQuoted(DoubleQuotes(v) + "\"" + tail) == Some((v, tail))
    decreases |v|
  {
    var s := DoubleQuotes(v) + "\"" + tail;
    if v == [] {
      assert s == "\"" + tail;
      assert s[1..] == tail;
    } else {
      var x := DoubleQuotes(v[1..]) + "\"" + tail;
      ParseQuotedDoubled(v[1..], tail);
      if v[0] == '"' {
        assert s == "\"\"" + x;
        assert s[2..] == x;
        assert "\"" + v[1..] == v;
      } else {
        assert s == [v[0]] + x;
        assert s[1..] == x;
        assert [v[0]] + v[1..] == v;
      }
    }
  }

  lemma {:induction false} ParseBareField(v: string, tail: string)
    requires !ContainsChar(v, ',')
    requires tail == [] || tail[0] == ','
    ensures ParseBare(v + tail) == (v, tail)
    decreases |v|
  {
    if v != [] {
      assert !ContainsChar(v[1..], ',') by {
        forall i | 0 <= i < |v[1..]| ensures v[1..][i] != ',' { assert v[1..][i] == v[i + 1]; }
      }
      ParseBareField(v[1..], tail);
      assert (v + tail)[1..] == v[1..] + tail;
      assert (v + tail)[0] == v[0] != ',';
      assert [v[0]] + v[1..] == v;
    } else {
      assert v + tail == tail;
    }
  }

  /** A quoted field reads back as the original value. */
  lemma ParseFieldQuoted(v: string, tail: string)
    requires tail == [] || tail[0] == ','
    ensures ParseField(QuoteField(v) + tail) == Some((v, tail))
  {
    if NeedsQuotes(v) {
      ParseFieldWrapped(v, tail);
    } else {
      ParseFieldPlain(v, tail);
    }
  }

  lemma ParseFieldWrapped(v: string, tail: string)
    requires tail == [] || tail[0] == ','
    ensures ParseField("\"" + DoubleQuotes(v) + "\"" + tail) == Some((v, tail))
  {
    var x := DoubleQuotes(v) + "\"" + tail;
    ParseQuotedDoubled(v, tail);
    assert "\"" + DoubleQuotes(v) + "\"" + tail == "\"" + x;
    ParseFieldOpen(x, v, tail);
  }

  lemma ParseFieldOpen(x: string, v: string, tail: string)
    requires tail == [] || tail[0] == ','
    requires ParseQuoted(x) == Some((v, tail))
    ensures ParseField("\"" + x) == Some((v, tail))
  {
    assert ("\"" + x)[1..] == x;
  }

  lemma ParseFieldPlain(v: string, tail: string)
    requires tail == [] || tail[0] == ','
    requires !ContainsChar(v, ',') && !ContainsChar(v, '"')
    ensures ParseField(v + tail) == Some((v, tail))
  {
    ParseBareField(v, tail);
    if v != [] {
      assert (v + tail)[0] == v[0] != '"';
    } else {
      assert v + tail == tail;
    }
  }

  /** Every exported record line parses back into exactly its fields. */
  lemma {:induction false} CsvLineRoundTrip(fields: seq<string>)
    requires |fields| >= 1
    ensures ParseCsvLine(CsvLine(fields)) == Some(fields)
    decreases |fields|
  {
    var q := MapQuote(fields);
    if |fields| == 1 {
      ParseFieldQuoted(fields[0], []);
      assert CsvLine(fields) == QuoteField(fields[0]) + [];
      assert fields == [fields[0]];
    } else {
      var tail := CsvLine(fields[1..]);
      assert MapQuote(fields[1..]) == q[1..];
      assert CsvLine(fields) == QuoteField(fields[0]) + ("," + tail);
      ParseFieldQuoted(fields[0], "," + tail);
      CsvLineRoundTrip(fields[1..]);
      assert ("," + tail)[1..] == tail;
      assert [fields[0]] + fields[1..] == fields;
    }
  }
}
