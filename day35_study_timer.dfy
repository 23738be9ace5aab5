/**
 * day35_study_timer: a stop-here study timer.  Start fixes a deadline a
 * chosen number of minutes ahead; while running, the page shows the whole
 * seconds left as "mm:ss"; the timer stops, with one of a few closing
 * messages, either when the user interrupts it or when fewer than one
 * second remains.  The clock is a parameter (`now`, in seconds, as a real
 * number), and so is the random choice of message (`pick`).
 */
module StudyTimer {
  import opened PyText
  import opened PyNum

  /** The radio's choices, in minutes. */
  const Options: seq<nat> := [5, 10, 15, 25]

  const DoneMessages: seq<string> := [
    "今日はここまで。止まれたのは判断力。",
    "集中できなくてもOK。向き合った時間は残った。",
    "途中でも大丈夫。悪化しなかった、それが勝ち。",
    "“やった感”じゃなく“やった事実”。区切り完了。",
    "今日は生存優先でOK。ここまでで十分。"
  ]

  /** Below 100 minutes: `f"{m:02d}:{x:02d}"` is exactly five characters. */
  function ShortMmss(sec: nat): (s: string)
    requires sec < 100 * 60
    ensures |s| == 5 && s[2] == ':'
    ensures ParseInt(s[..2]) == Some(sec / 60) && ParseInt(s[3..]) == Some(sec % 60)
  {
    var m, x := ZeroPadded(sec / 60, 2), ZeroPadded(sec % 60, 2);
    assert |m| == 2 && |x| == 2 by {
      ZeroPaddedTwo(sec / 60);
      ZeroPaddedTwo(sec % 60);
    }
    ParseIntZeroPadded(sec / 60, 2);
    ParseIntZeroPadded(sec % 60, 2);
    Glue(m, ':', x)
  }

  /** `fmt_mmss`: whole minutes and the seconds left over, each padded to two digits. */
  function FmtMmss(sec: nat): (s: string)
    ensures |s| >= 5
    ensures sec < 100 * 60 ==> (|s| == 5 && s[2] == ':'
      && ParseInt(s[..2]) == Some(sec / 60) && ParseInt(s[3..]) == Some(sec % 60))
  {
    if sec < 100 * 60 then ShortMmss(sec)
    else
      var m, x := ZeroPadded(sec / 60, 2), ZeroPadded(sec % 60, 2);
      ZeroPaddedTwo(sec % 60);
      Glue(m, ':', x)
  }

  /** Reads "mm:ss" back into seconds. */
  function ParseMmss(s: string): (r: Option<int>)
    ensures r.Some? ==> |s| == 5 && s[2] == ':'
  {
    if |s| != 5 || s[2] != ':' then None
    else
      match (ParseInt(s[..2]), ParseInt(s[3..]))
      case (Some(m), Some(x)) => if 0 <= x < 60 then Some(m * 60 + x) else None
      case _ => None
  }

  /** The display loses nothing below 100 minutes: the seconds come back from the text. */
  lemma MmssRoundTrip(sec: nat)
    requires sec < 100 * 60
    ensures ParseMmss(FmtMmss(sec)) == Some(sec)
  {
    ParseMmssFields(FmtMmss(sec), sec / 60, sec % 60, sec);
  }

  lemma ParseMmssFields(s: string, m: int, x: int, v: int)
    requires |s| == 5 && s[2] == ':' && ParseInt(s[..2]) == Some(m) && ParseInt(s[3..]) == Some(x)
    requires 0 <= x < 60 && v == m * 60 + x
    ensures ParseMmss(s) == Some(v)
  {
  }

  /** While the timer shows a time below 100 minutes, it is never "00:00". */
  lemma NeverZero(sec: nat)
    requires 0 < sec < 100 * 60
    ensures FmtMmss(sec) != "00:00"
  {
    MmssRoundTrip(sec);
    ZeroClock();
  }

  lemma ZeroClock()
    ensures ParseMmss("00:00") == Some(0)
  {
    var zero := "00:00";
    assert zero[..2] == "00" && zero[3..] == "00";
    assert AllDigits("00") && DigitsValue("00") == 0 by {
      assert "00"[..1] == "0" && "0"[..0] == "";
    }
    ParseIntDigits("00");
    ParseMmssFields(zero, 0, 0, 0);
  }

  /** Started at `start` for `d` seconds, at a whole `k` seconds later the display shows `d - k`. */
  lemma CountsDown(d: nat, start: real, k: nat)
    requires k < d
    ensures Trunc((start + d as real) - (start + k as real)) == d - k
  {
    assert (start + d as real) - (start + k as real) == (d - k) as real;
  }

  class Timer {
    var running: bool
    var endTs: Option<real>
    var durationSec: int
    var lastDoneMsg: string

    /** A running timer has a deadline and no closing message; a stopped one, no deadline. */
    predicate Valid()
      reads this
    {
      (running <==> endTs.Some?)
      && (running ==> lastDoneMsg == "")
      && (lastDoneMsg == "" || lastDoneMsg in DoneMessages)
    }

    /** The session's initial values. */
    constructor()
      ensures Valid()
      ensures !running && endTs == None && durationSec == 0 && lastDoneMsg == ""
    {
      running := false;
      endTs := None;
      durationSec := 0;
      lastDoneMsg := "";
    }

    /** ▶ Start, shown only while stopped: the deadline is `minutes` ahead of `now`. */
    method Start(minutes: nat, now: real)
      requires Valid() && minutes in Options
      modifies this
      ensures Valid()
      ensures !old(running) ==> (running && durationSec == minutes * 60
        && endTs == Some(now + (minutes * 60) as real) && lastDoneMsg == "")
      ensures old(running) ==> (running && endTs == old(endTs) && durationSec == old(durationSec)
        && lastDoneMsg == old(lastDoneMsg))
    {
      if !running {
        running := true;
        durationSec := minutes * 60;
        endTs := Some(now + durationSec as real);
        lastDoneMsg := "";
      }
    }

    /** ■ Interrupt, shown only while running: stop with a closing message. */
    method Stop(pick: nat)
      requires Valid() && pick < |DoneMessages|
      modifies this
      ensures Valid()
      ensures old(running) ==> (!running && endTs == None && lastDoneMsg == DoneMessages[pick])
      ensures !old(running) ==> (!running && endTs == old(endTs) && lastDoneMsg == old(lastDoneMsg))
      ensures durationSec == old(durationSec)
    {
      if running {
        running := false;
        endTs := None;
        lastDoneMsg := DoneMessages[pick];
      }
    }

    /**
     * One rerun of the display: the whole seconds left are shown, or, once
     * they reach zero, the timer stops with a closing message.
     */
    method Tick(now: real, pick: nat) returns (shown: Option<string>)
      requires Valid() && pick < |DoneMessages|
      modifies this
      ensures Valid()
      ensures durationSec == old(durationSec)
      ensures old(running) && old(endTs).value - now < 1.0 ==>
        (!running && endTs == None && lastDoneMsg == DoneMessages[pick] && shown == None)
      ensures old(running) && old(endTs).value - now >= 1.0 ==>
        (running && endTs == old(endTs) && lastDoneMsg == old(lastDoneMsg)
        && shown == Some(FmtMmss(Trunc(old(endTs).value - now))))
      ensures !old(running) ==> (!running && endTs == old(endTs) && lastDoneMsg == old(lastDoneMsg) && shown == None)
    {
      shown := None;
      if running && endTs.Some? {
        var remaining := Trunc(endTs.value - now);
        TruncNonPositive(endTs.value - now);
        if remaining <= 0 {
          running := false;
          endTs := None;
          lastDoneMsg := DoneMessages[pick];
        } else {
          shown := Some(FmtMmss(remaining));
        }
      }
    }
  }
}
