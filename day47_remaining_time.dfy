/**
 * day47_remaining_time: the time left until 23:59:59 on December 31 of the
 * current year, as days, hours, minutes and seconds, with a message banded
 * on the days.  The clock reading is a parameter: today's date, the second
 * of the day and the microsecond.
 */
module RemainingTime {
  import opened Calendar

  const SecondsPerDay: int := 24 * 3600

  /** `end - now` in microseconds, with `end = datetime(today.year, 12, 31, 23, 59, 59)`. */
  function RemainingMicros(today: Date, secondOfDay: int, micro: int): int
    requires Valid(today)
  {
    var end := Date(today.year, 12, 31);
    (DiffDays(end, today) * SecondsPerDay + (SecondsPerDay - 1 - secondOfDay)) * 1000000 - micro
  }

  /** `int(x / 10**6)`: division truncating toward zero. */
  function TruncMicros(us: int): (s: int)
    ensures us >= 0 ==> s * 1000000 <= us < (s + 1) * 1000000
    ensures us < 0 ==> (s - 1) * 1000000 < us <= s * 1000000
  {
    if us >= 0 then us / 1000000 else -((-us) / 1000000)
  }

  /** `total_seconds`: the truncated remaining seconds, raised to 0 when negative. */
  function TotalSeconds(today: Date, secondOfDay: int, micro: int): (t: int)
    requires Valid(today)
    ensures t >= 0
  {
    var s := TruncMicros(RemainingMicros(today, secondOfDay, micro));
    if s < 0 then 0 else s
  }

  /**
   * For a real clock reading the total is the whole seconds from the current
   * second to the year's last second, one less when a fraction of the
   * current second has already passed.
   */
  lemma TotalSecondsExact(today: Date, secondOfDay: int, micro: int)
    requires Valid(today) && 0 <= secondOfDay < SecondsPerDay && 0 <= micro < 1000000
    ensures var m := DiffDays(Date(today.year, 12, 31), today) * SecondsPerDay + (SecondsPerDay - 1 - secondOfDay);
      m >= 0 && TotalSeconds(today, secondOfDay, micro) == if micro > 0 && m > 0 then m - 1 else m
    ensures TotalSeconds(today, secondOfDay, micro) / SecondsPerDay <= DiffDays(Date(today.year, 12, 31), today) < DaysInYear(today.year)
  {
    var end := Date(today.year, 12, 31);
    YearOrdinalBounds(today);
    assert Ordinal(end) == DaysBeforeYear(today.year + 1) by {
      DaysBeforeYearStep(today.year);
    }
    var m := DiffDays(end, today) * SecondsPerDay + (SecondsPerDay - 1 - secondOfDay);
    var us := m * 1000000 - micro;
    if micro > 0 && m > 0 {
      assert (m - 1) * 1000000 <= us < m * 1000000;
    } else if micro > 0 {
      assert -1000000 < us < 0;
    } else {
      assert us == m * 1000000;
    }
    DaysBeforeYearStep(today.year);
  }

  datatype Breakdown = Breakdown(days: int, hours: int, minutes: int, seconds: int)

  /** `days, hours, minutes, seconds` from `total_seconds`. */
  function Split(total: int): (b: Breakdown)
    requires total >= 0
    ensures b.days * 86400 + b.hours * 3600 + b.minutes * 60 + b.seconds == total
    ensures b.days >= 0 && 0 <= b.hours < 24 && 0 <= b.minutes < 60 && 0 <= b.seconds < 60
  {
    var days := total / SecondsPerDay;
    var hours := total % SecondsPerDay / 3600;
    var minutes := total % 3600 / 60;
    var seconds := total % 60;
    SplitParts(total);
    Breakdown(days, hours, minutes, seconds)
  }

  lemma SplitParts(total: int)
    requires total >= 0
    ensures total % 86400 / 3600 * 3600 + total % 3600 == total % 86400
    ensures total % 3600 / 60 * 60 + total % 60 == total % 3600
  {
    HoursOfDay(total);
    MinutesOfHour(total);
  }

  /** Within a day, the seconds past the hour are those of the whole count. */
  lemma HoursOfDay(total: int)
    requires total >= 0
    ensures total % 86400 % 3600 == total % 3600
  {
    var q, r := total / 86400, total % 86400;
    var q2, s := r / 3600, r % 3600;
    assert total == 3600 * (24 * q + q2) + s;
  }

  /** Within an hour, the seconds past the minute are those of the whole count. */
  lemma MinutesOfHour(total: int)
    requires total >= 0
    ensures total % 3600 % 60 == total % 60
  {
    var q, r := total / 3600, total % 3600;
    var q2, s := r / 60, r % 60;
    assert total == 60 * (60 * q + q2) + s;
  }

  datatype Message = JustBegun | PlentyLeft | ChoicesRemain | TodayOnly | MadeIt

  function Rank(m: Message): nat {
    match m
    case MadeIt => 0
    case TodayOnly => 1
    case ChoicesRemain => 2
    case PlentyLeft => 3
    case JustBegun => 4
  }

  /** The message: at least 300 days, 100, 30, 1, or less. */
  function MessageFor(days: int): (m: Message)
    ensures m == JustBegun <==> days >= 300
    ensures m == PlentyLeft <==> 100 <= days < 300
    ensures m == ChoicesRemain <==> 30 <= days < 100
    ensures m == TodayOnly <==> 1 <= days < 30
    ensures m == MadeIt <==> days < 1
  {
    if days >= 300 then JustBegun
    else if days >= 100 then PlentyLeft
    else if days >= 30 then ChoicesRemain
    else if days >= 1 then TodayOnly
    else MadeIt
  }

  /** More days left never gives an earlier-in-the-year message. */
  lemma MessageMonotone(a: int, b: int)
    requires a <= b
    ensures Rank(MessageFor(a)) <= Rank(MessageFor(b))
  {
  }

  function MessageText(m: Message): string {
    match m
    case JustBegun => "まだ始まったばかり。焦る必要はない。"
    case PlentyLeft => "十分な時間がある。選び直していい。"
    case ChoicesRemain => "まだ選択肢は残っている。"
    case TodayOnly => "今日は今日だけを見ればいい。"
    case MadeIt => "ここまで来た。それでいい。"
  }
}
