/**
 * day50_milestone_record: the Day 50 record.  From today's date it derives
 * the days elapsed since the start (counted from 1), the days made (capped
 * at 50) and the days stopped, and writes the record once: an existing
 * record is only shown, never replaced.
 */
module MilestoneRecord {
  import opened Calendar
  import opened DateText
  import opened PyText

  /** `START_DATE`, day 1. */
  const StartDate: Date := Date(2025, 11, 19)

  /** `DAY_NUMBER`. */
  const DayNumber: int := 50

  /** `elapsed_days = (today - START_DATE).days + 1`. */
  function ElapsedDays(today: Date): (n: int)
    requires Valid(today)
    ensures Valid(StartDate) && n == Ordinal(today) - Ordinal(StartDate) + 1
  {
    assert Valid(StartDate);
    DiffDays(today, StartDate) + 1
  }

  /** The start date is day 1, and the day after any date is one more. */
  lemma ElapsedDaysStep(today: Date)
    requires Valid(today)
    ensures ElapsedDays(StartDate) == 1
    ensures ElapsedDays(Next(today)) == ElapsedDays(today) + 1
  {
  }

  /** `made_days = min(elapsed_days, DAY_NUMBER)`. */
  function MadeDays(elapsed: int): (made: int)
    ensures made <= elapsed && made <= DayNumber
    ensures made == elapsed || made == DayNumber
  {
    if elapsed < DayNumber then elapsed else DayNumber
  }

  datatype Record = Record(day: int, date: string, startDate: string, elapsedDays: int,
                           madeDays: int, stoppedDays: int, message: string, createdAt: string)

  /** The record built on `today` (the clock reading `now` is the creation time). */
  function BuildRecord(today: Date, now: string): (r: Record)
    requires InPyRange(today)
    ensures r.day == DayNumber && r.date == Iso(today) && r.createdAt == now
    ensures r.elapsedDays == ElapsedDays(today) && r.madeDays == MadeDays(r.elapsedDays)
    ensures r.stoppedDays == DayNumber - r.madeDays >= 0
  {
    assert InPyRange(StartDate);
    var elapsed := ElapsedDays(today);
    var made := MadeDays(elapsed);
    var stopped := DayNumber - made;
    Record(DayNumber, Iso(today), Iso(StartDate), elapsed, made,
           if stopped < 0 then 0 else stopped, "止まりながら、50日続いた。", now)
  }

  /**
   * The made and stopped days of a record add up to 50, the clamp at zero
   * never applies, and from day 50 on nothing is stopped.
   */
  lemma RecordFigures(today: Date, now: string)
    requires InPyRange(today)
    ensures var r := BuildRecord(today, now);
      r.madeDays + r.stoppedDays == DayNumber && r.stoppedDays >= 0
      && (r.stoppedDays == 0 <==> r.elapsedDays >= DayNumber)
      && (1 <= r.elapsedDays <= DayNumber ==> r.stoppedDays == DayNumber - r.elapsedDays)
  {
  }

  class Milestone {
    /** The stored file's record, if the file exists. */
    var stored: Option<Record>

    constructor(stored0: Option<Record>)
      ensures stored == stored0
    {
      stored := stored0;
    }

    /** "Day50を記録する": offered only while no record exists, and then stores today's record. */
    method Write(today: Date, now: string) returns (written: bool)
      requires InPyRange(today)
      modifies this
      ensures written <==> old(stored) == None
      ensures stored == if written then Some(BuildRecord(today, now)) else old(stored)
    {
      written := stored == None;
      if written {
        stored := Some(BuildRecord(today, now));
      }
    }
  }

  /** The record is write-once: a later write, on whatever day, keeps the first record. */
  method WriteOnce(m: Milestone, day1: Date, now1: string, day2: Date, now2: string)
    requires InPyRange(day1) && InPyRange(day2)
    modifies m
    ensures m.stored == if old(m.stored) == None then Some(BuildRecord(day1, now1)) else old(m.stored)
  {
    var first := m.Write(day1, now1);
    var second := m.Write(day2, now2);
    assert !second;
  }
}
