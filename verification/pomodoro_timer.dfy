/** The flow (pomodoro) timer: a count of seconds and a counting flag,
    changed by the reset, break and play/pause buttons and by the
    one-second interval tick, and shown as "mm:ss". */
module PomodoroTimer {
  import opened JsString

  /** The length of a work session and of a break, in seconds. */
  const WorkSeconds := 1500
  const BreakSeconds := 300

  // ---------------------------------------------------------------- display

  /** `secondsToMinutes(seconds)`: whole minutes (`Math.floor(seconds / 60)`;
      Dafny's `/` by a positive divisor is the floor) and the remainder
      (JavaScript's `%`), each as `String(..)` left-padded with '0' to two
      characters, joined by ':'. */
  function SecondsToMinutes(seconds: int): (r: string)
    ensures |r| >= 5
  {
    var minutes := seconds / 60;
    var remainingSeconds := JsRem(seconds, 60);
    ClockText(IntToString(minutes), IntToString(remainingSeconds))
  }

  /** `t` is a run of decimal digits denoting `n`. */
  predicate ReadsAs(t: string, n: int)
  {
    AllDigits(t) && DigitsValue(t) == n
  }

  /** The two numerals padded to two characters and joined by ':'. */
  function ClockText(minutesText: string, secondsText: string): (r: string)
    ensures |r| >= 5
  {
    PadStart(minutesText, 2, '0') + ":" + PadStart(secondsText, 2, '0')
  }

  /** For a non-negative count the display reads back as the count: the
      digits before the last ':' are its minutes, the two after it its
      seconds, which are below 60; below 100 minutes it is five
      characters. */
  lemma SecondsToMinutesReadsBack(seconds: int, r: string)
    requires seconds >= 0 && r == SecondsToMinutes(seconds)
    ensures r[|r| - 3] == ':'
    ensures ReadsAs(r[..|r| - 3], seconds / 60)
    ensures ReadsAs(r[|r| - 2..], seconds % 60)
    ensures seconds < 6000 <==> |r| == 5
  {
    var minutes, secs := seconds / 60, seconds % 60;
    var a, b := NatToString(minutes), NatToString(secs);
    DisplayIsClockText(seconds);
    NatToStringValue(minutes);
    NatToStringValue(secs);
    NumeralWidth(minutes);
    NumeralWidth(secs);
    MinutesBelowHundred(seconds);
    ClockTextReadsBack(a, b, r);
  }

  /** For a non-negative count `%` is the remainder of the floor division,
      so the display is the clock text of the two numerals. */
  lemma DisplayIsClockText(seconds: int)
    requires seconds >= 0
    ensures SecondsToMinutes(seconds) == ClockText(NatToString(seconds / 60), NatToString(seconds % 60))
  {
    assert IntToString(seconds / 60) == NatToString(seconds / 60);
    assert JsRem(seconds, 60) == seconds % 60;
  }

  /** A count below 6000 seconds is below 100 minutes, and only such a
      count is. */
  lemma MinutesBelowHundred(seconds: int)
    requires seconds >= 0
    ensures seconds < 6000 <==> seconds / 60 < 100
  {
    assert seconds == 60 * (seconds / 60) + seconds % 60 && 0 <= seconds % 60 < 60;
  }

  /** The clock text of two numerals, the second of at most two digits,
      reads back as the two numbers, and is five characters long exactly
      when the first numeral has at most two digits. */
  lemma ClockTextReadsBack(a: string, b: string, r: string)
    requires AllDigits(a) && AllDigits(b) && |b| <= 2 && r == ClockText(a, b)
    ensures r[|r| - 3] == ':'
    ensures ReadsAs(r[..|r| - 3], DigitsValue(a))
    ensures ReadsAs(r[|r| - 2..], DigitsValue(b))
    ensures |a| <= 2 <==> |r| == 5
  {
    ClockTextParts(a, b);
    PaddedReadsAs(a);
    PaddedReadsAs(b);
  }

  /** The clock text is the padded minutes, ':', the padded seconds. */
  lemma ClockTextParts(a: string, b: string)
    requires |b| <= 2
    ensures var r := ClockText(a, b);
      && |r| == |PadStart(a, 2, '0')| + 3 && r[|r| - 3] == ':'
      && r[..|r| - 3] == PadStart(a, 2, '0') && r[|r| - 2..] == PadStart(b, 2, '0')
  {
    SplitAtColon(PadStart(a, 2, '0'), PadStart(b, 2, '0'));
  }

  /** A numeral padded to two characters still reads as its value, and is
      two characters long when the numeral has at most two digits. */
  lemma PaddedReadsAs(a: string)
    requires AllDigits(a)
    ensures ReadsAs(PadStart(a, 2, '0'), DigitsValue(a))
    ensures |PadStart(a, 2, '0')| == if |a| <= 2 then 2 else |a|
  {
    PadZerosValue(a, 2);
  }

  /** `String(n)` has at most two digits exactly when `n` is below 100. */
  lemma NumeralWidth(n: nat)
    ensures |NatToString(n)| <= 2 <==> n < 100
  {
    if n < 100 {
      NatToStringLength(n);
    } else {
      MinutesWidth(n);
    }
  }

  /** The parts of `a + ":" + b` for a two-character `b`. */
  lemma SplitAtColon(a: string, b: string)
    requires |b| == 2
    ensures var r := a + ":" + b;
      |r| == |a| + 3 && r[|r| - 3] == ':' && r[..|r| - 3] == a && r[|r| - 2..] == b
  {
    var r := a + ":" + b;
    assert r[..|r| - 3] == a;
    assert r[|r| - 2..] == b;
  }

  /** A hundred minutes or more take at least three digits. */
  lemma {:induction false} MinutesWidth(n: nat)
    requires n >= 100
    ensures |NatToString(n)| >= 3
  {
    if n / 10 >= 100 {
      MinutesWidth(n / 10);
    } else {
      NatToStringLength(n / 10);
    }
  }

  /** A fresh work session shows "25:00". */
  lemma WorkDisplay()
    ensures SecondsToMinutes(WorkSeconds) == "25:00"
  {
    assert WorkSeconds / 60 == 25 && JsRem(WorkSeconds, 60) == 0;
    assert IntToString(25) == NatToString(25) == "25";
    assert IntToString(0) == NatToString(0) == "0";
    assert PadStart("25", 2, '0') == "25";
    assert PadStart("0", 2, '0') == "00";
  }

  /** A break shows "05:00". */
  lemma BreakDisplay()
    ensures SecondsToMinutes(BreakSeconds) == "05:00"
  {
    assert PadStart(NatToString(5), 2, '0') == "05";
    assert SecondsToMinutes(BreakSeconds) == ClockText(NatToString(5), NatToString(0));
  }

  // ------------------------------------------------------------ transitions

  /** The component's state: `time` and `isCounting`. */
  datatype TimerState = TimerState(time: int, isCounting: bool)

  /** `resetTimer(interval)`: stopped, with the count set. */
  function Reset(s: TimerState, interval: int): (t: TimerState)
    ensures !t.isCounting && t.time == interval
  {
    TimerState(interval, false)
  }

  /** `takeBreak()`: five minutes on the clock, counting untouched. */
  function Break(s: TimerState): (t: TimerState)
    ensures t.time == BreakSeconds && t.isCounting == s.isCounting
  {
    s.(time := BreakSeconds)
  }

  /** `toggleCountdown()`: counting flipped, the count untouched. */
  function Toggle(s: TimerState): (t: TimerState)
    ensures t.isCounting == !s.isCounting && t.time == s.time
  {
    s.(isCounting := !s.isCounting)
  }

  /** Toggling twice restores the state. */
  lemma ToggleTwice(s: TimerState)
    ensures Toggle(Toggle(s)) == s
  {
  }

  /** The interval callback, which only runs while counting: at zero (or
      below) it stops counting, otherwise it takes one second off. Without
      an interval nothing happens. */
  function TickStep(s: TimerState): (t: TimerState)
    ensures s.isCounting && s.time > 0 ==> t == TimerState(s.time - 1, true)
    ensures s.isCounting && s.time <= 0 ==> t == TimerState(s.time, false)
    ensures !s.isCounting ==> t == s
  {
    if !s.isCounting then s
    else if s.time <= 0 then s.(isCounting := false)
    else s.(time := s.time - 1)
  }

  /** `n` ticks in a row. */
  function Ticks(s: TimerState, n: nat): TimerState
    decreases n
  {
    if n == 0 then s else Ticks(TickStep(s), n - 1)
  }

  /** From a running count of `t >= 0` seconds, `n` ticks count down to
      `t - n` while `n <= t`; the tick after reaching zero stops the timer,
      which then stays at zero. The count never goes negative. */
  lemma {:induction false} TicksCountDown(t: int, n: nat)
    requires t >= 0
    ensures n <= t ==> Ticks(TimerState(t, true), n) == TimerState(t - n, true)
    ensures n > t ==> Ticks(TimerState(t, true), n) == TimerState(0, false)
    ensures Ticks(TimerState(t, true), n).time >= 0
  {
    if n > 0 {
      if t > 0 {
        TicksCountDown(t - 1, n - 1);
      } else {
        StoppedStays(TimerState(0, false), n - 1);
      }
    }
  }

  /** A paused timer does not change however many ticks pass. */
  lemma {:induction false} StoppedStays(s: TimerState, n: nat)
    requires !s.isCounting
    ensures Ticks(s, n) == s
  {
    if n > 0 {
      StoppedStays(TickStep(s), n - 1);
    }
  }

  /** The component. */
  class Timer {
    var time: int
    var isCounting: bool

    function State(): TimerState
      reads this
    {
      TimerState(time, isCounting)
    }

    /** `useState(1500)` and `useState(false)`. */
    constructor ()
      ensures State() == TimerState(WorkSeconds, false)
    {
      time := WorkSeconds;
      isCounting := false;
    }

    /** `resetTimer(interval)`: stop, and set the count; the reset button
        passes 1500. */
    method ResetTimer(interval: int)
      modifies this
      ensures State() == Reset(old(State()), interval)
    {
      isCounting := false;
      time := interval;
    }

    /** `takeBreak()`: five minutes on the clock; counting is untouched. */
    method TakeBreak()
      modifies this`time
      ensures State() == Break(old(State()))
    {
      time := BreakSeconds;
    }

    /** `toggleCountdown()`. */
    method ToggleCountdown()
      modifies this`isCounting
      ensures State() == Toggle(old(State()))
    {
      isCounting := !isCounting;
    }

    /** One firing of the one-second interval. The effect keeps an interval
        only while counting and re-creates it on every change of `time`,
        so the callback always sees the current count. */
    method Tick()
      modifies this
      ensures State() == TickStep(old(State()))
    {
      if isCounting {
        if time <= 0 {
          isCounting := false;
        } else {
          time := time - 1;
        }
      }
    }
  }
}
