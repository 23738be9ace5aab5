/**
 * day30_suuhi: a one-digit numerology fortune.  The digits of a date
 * (year, two-digit month, two-digit day) are summed, and the sum is summed
 * again digit by digit until a single digit remains; that digit selects a
 * keyword and a message.
 */
module Suuhi {
  import opened Calendar
  import opened DateText
  import opened PyText

  /** `sum(int(x) for x in s)` over a string of digits. */
  function DigitSum(s: string): nat
    requires AllDigits(s)
  {
    if s == [] then 0 else DigitSum(s[..|s| - 1]) + (s[|s| - 1] as int - '0' as int)
  }

  /** The digit sum of a concatenation is the sum of the digit sums. */
  lemma {:induction false} DigitSumAppend(a: string, b: string)
    requires AllDigits(a) && AllDigits(b)
    ensures AllDigits(a + b) && DigitSum(a + b) == DigitSum(a) + DigitSum(b)
    decreases |b|
  {
    if b != [] {
      var b' := b[..|b| - 1];
      assert (a + b)[..|a + b| - 1] == a + b';
      DigitSumAppend(a, b');
    } else {
      assert a + b == a;
    }
  }

  /** Casting out nines: a digit string's value exceeds its digit sum by a multiple of 9. */
  lemma {:induction false} DigitSumMod9(s: string) returns (k: nat)
    requires AllDigits(s)
    ensures DigitsValue(s) == DigitSum(s) + 9 * k
  {
    if s == [] {
      k := 0;
    } else {
      var p := s[..|s| - 1];
      var j := DigitSumMod9(p);
      var v := DigitsValue(p);
      k := j + v;
      assert DigitsValue(s) == v * 10 + (s[|s| - 1] as int - '0' as int);
    }
  }

  /** The digit sum is zero only for a string of zeros, i.e. only when the value is zero. */
  lemma {:induction false} DigitSumZero(s: string)
    requires AllDigits(s)
    ensures DigitSum(s) == 0 <==> DigitsValue(s) == 0
  {
    if s != [] {
      DigitSumZero(s[..|s| - 1]);
    }
  }

  /** Leading zeros add nothing to the digit sum. */
  lemma {:induction false} DigitSumZeros(s: string, k: nat)
    requires k <= |s| && AllDigits(s[k..])
    requires forall i :: 0 <= i < k ==> s[i] == '0'
    ensures AllDigits(s) && DigitSum(s) == DigitSum(s[k..])
  {
    var z := s[..k];
    assert forall i :: 0 <= i < |z| ==> z[i] == '0';
    assert AllDigits(z) && DigitSum(z) == 0 by {
      ZerosValue(z);
      DigitSumZero(z);
    }
    assert s == z + s[k..];
    DigitSumAppend(z, s[k..]);
  }

  /** The digit sum of `str(n)` is at most `n`, and below it once `n` has two digits. */
  lemma {:induction false} DigitSumBelow(n: nat)
    ensures DigitSum(NatToString(n)) <= n
    ensures n > 9 ==> DigitSum(NatToString(n)) < n
  {
    if n >= 10 {
      var s := NatToString(n);
      assert s[..|s| - 1] == NatToString(n / 10);
      DigitSumBelow(n / 10);
    }
  }

  /** `str(d.year) + f"{d.month:02d}" + f"{d.day:02d}"`. */
  function DateDigits(d: Date): (s: string)
    requires InPyRange(d)
    ensures AllDigits(s)
  {
    var y, m, dd := NatToString(d.year), ZeroPadded(d.month, 2), ZeroPadded(d.day, 2);
    DigitSumAppend(y, m);
    DigitSumAppend(y + m, dd);
    y + m + dd
  }

  /** The digital root: 0 for 0, otherwise the one digit 1..9 congruent to `n` modulo 9. */
  function DigitalRoot(n: nat): (r: nat)
    ensures n == 0 <==> r == 0
    ensures n > 0 ==> 1 <= r <= 9 && r % 9 == n % 9
  {
    if n == 0 then 0 else 1 + (n - 1) % 9
  }

  /** Adding a multiple of 9 to a positive number keeps its digital root. */
  lemma {:induction false} RootShift(a: nat, k: nat)
    requires a > 0
    ensures DigitalRoot(a + 9 * k) == DigitalRoot(a)
  {
    if k > 0 {
      RootShift(a, k - 1);
      assert a + 9 * k - 1 == (a + 9 * (k - 1) - 1) + 9;
    }
  }

  /** Zero-padding the month and the day does not change the sum. */
  lemma PaddingIrrelevant(d: Date)
    requires InPyRange(d)
    ensures DigitSum(DateDigits(d))
         == DigitSum(NatToString(d.year)) + DigitSum(NatToString(d.month)) + DigitSum(NatToString(d.day))
  {
    var y, m, dd := NatToString(d.year), ZeroPadded(d.month, 2), ZeroPadded(d.day, 2);
    DigitSumAppend(y, m);
    DigitSumAppend(y + m, dd);
    PaddedSum(d.month);
    PaddedSum(d.day);
  }

  lemma PaddedSum(n: nat)
    ensures DigitSum(ZeroPadded(n, 2)) == DigitSum(NatToString(n))
  {
    var s := ZeroPadded(n, 2);
    var t := NatToString(n);
    assert s == PadZeros(t, 2);
    DigitSumZeros(s, |s| - |t|);
  }

  /** For a real date the digits do not sum to zero: the month is at least 1. */
  lemma DateDigitsPositive(d: Date)
    requires InPyRange(d)
    ensures DigitSum(DateDigits(d)) >= 1
  {
    PaddingIrrelevant(d);
    DigitSumZero(NatToString(d.month));
  }

  /** `calc_number(d)`: the digit sum, then the digit sum of `str(n)` while `n > 9`. */
  method CalcNumber(d: Date) returns (n: int)
    requires InPyRange(d)
    ensures 1 <= n <= 9
    ensures n == DigitalRoot(DigitSum(DateDigits(d)))
    ensures n % 9 == DigitSum(DateDigits(d)) % 9
    ensures DigitSum(DateDigits(d)) % 9 == 0 ==> n == 9
  {
    var digits := DateDigits(d);
    DateDigitsPositive(d);
    var total := DigitSum(digits);
    n := total;
    ghost var start := n;
    while n > 9
      invariant n >= 1 && DigitalRoot(n) == DigitalRoot(start)
      decreases n
    {
      var s := NatToString(n);
      SumStep(n);
      n := DigitSum(s);
    }
    RootOfDigit(n);
    assert n == DigitalRoot(total);
    if total % 9 == 0 { RootNine(total); }
  }

  /** One pass of the loop: the digit sum of a two-digit-or-longer number is smaller, positive and has the same root. */
  lemma SumStep(n: nat)
    requires n > 9
    ensures 1 <= DigitSum(NatToString(n)) < n
    ensures DigitalRoot(DigitSum(NatToString(n))) == DigitalRoot(n)
  {
    var s := NatToString(n);
    DigitSumBelow(n);
    var k := DigitSumMod9(s);
    DigitSumZero(s);
    RootShift(DigitSum(s), k);
  }

  /** Multiples of 9 have root 9. */
  lemma RootNine(t: nat)
    requires t > 0 && t % 9 == 0
    ensures DigitalRoot(t) == 9
  {
    var r := DigitalRoot(t);
    assert r % 9 == 0 && 1 <= r <= 9;
  }

  lemma RootOfDigit(n: nat)
    requires 1 <= n <= 9
    ensures DigitalRoot(n) == n
  {
  }

  /** The keyword and message of each number. */
  const NumMessages: map<int, (string, string)> := map[
    1 := ("スタート・行動", "小さな一歩でOK。1ミリでも前に進めたら、今日は合格だよ。"),
    2 := ("やさしさ・バランス", "自分にも他人にもやさしく。休むことも立派な行動だよ。"),
    3 := ("楽しさ・ひらめき", "しんどい日でも、ちょっとだけクスッとできることを探してみて。"),
    4 := ("安定・土台づくり", "今日は“崩さない”だけで十分。現状維持は立派な成果だよ。"),
    5 := ("変化・気分転換", "いつもと違う飲み物やルーティンにしてみると、流れが軽くなるよ。"),
    6 := ("愛情・ケア", "誰かを気づかう前に、自分の心と体をなでなでしてあげてね。"),
    7 := ("内省・ひとり時間", "ひとりでぼーっとする時間も大事。考えすぎたら深呼吸だけしよう。"),
    8 := ("パワー・成果", "今日は“やれたこと”に目を向けて。できなかったことは一旦保留。"),
    9 := ("手放し・リセット", "もう抱えきれないものは、心の中でそっと『手放す』って宣言してみて。")
  ]

  /** Every number `calc_number` can give has an entry. */
  lemma MessagesCover()
    ensures forall n :: 1 <= n <= 9 ==> n in NumMessages
  {
  }

  /** The button: the number of the date and its entry, which always exists. */
  method Fortune(d: Date) returns (n: int, keyword: string, message: string)
    requires InPyRange(d)
    ensures 1 <= n <= 9 && n in NumMessages
    ensures n == DigitalRoot(DigitSum(DateDigits(d)))
    ensures (keyword, message) == NumMessages[n]
  {
    n := CalcNumber(d);
    MessagesCover();
    keyword, message := NumMessages[n].0, NumMessages[n].1;
  }
}
