/** The start/stop tracker of components/common/time-tracker.tsx. Its React state
    becomes the fields of a class; `Date.now()` and the locale time string become
    parameters of the operations. */
module TimeTracker {
  import opened Js
  import Time

  /** `formatDuration`: whole seconds as `HH:MM:SS`. */
  function FormatDuration(seconds: int): string {
    Time.Clock(seconds / 3600, IntRem(seconds, 3600) / 60, IntRem(seconds, 60))
  }

  /** Whole seconds between a timer start (or 0 when there is none) and `now`, both in milliseconds. */
  function ElapsedSeconds(timerStart: Option<int>, now: int): int {
    (now - timerStart.GetOr(0)) / 1000
  }

  /** The tracker's state as a value; the class below keeps it in separate fields. */
  datatype State = State(
    description: string,
    startTime: string,
    endTime: string,
    duration: string,
    isBillable: bool,
    isTracking: bool,
    isManualMode: bool,
    timerStart: Option<int>)

  const Initial := State("", "", "", "", false, false, true, None)

  /** What one press of the start/stop button does. `localeTime` is what
      `new Date().toLocaleTimeString()` gives at the moment `now`. */
  function StartStop(st: State, now: int, localeTime: string): State {
    var moved :=
      if !st.isTracking then
        if st.isManualMode then st.(startTime := localeTime) else st.(timerStart := Some(now))
      else
        if st.isManualMode then st.(endTime := localeTime)
        else st.(duration := FormatDuration(ElapsedSeconds(st.timerStart, now)), timerStart := None);
    moved.(isTracking := !st.isTracking)
  }

  /** One tick of the interval that runs while tracking in timer mode. */
  function Tick(st: State, now: int): State {
    if st.isTracking && !st.isManualMode then
      st.(duration := FormatDuration(ElapsedSeconds(st.timerStart, now)))
    else st
  }

  // ------------------------------------------------------------ formatDuration

  /** The printed fields split the seconds exactly, with minutes and seconds in 0..59. */
  lemma FormatDurationFields(seconds: nat)
    ensures var h, m, s := seconds / 3600, IntRem(seconds, 3600) / 60, IntRem(seconds, 60);
      FormatDuration(seconds) == Time.Clock(h, m, s) &&
      h * 3600 + m * 60 + s == seconds && 0 <= m < 60 && 0 <= s < 60
  {
    var r := seconds % 3600;
    assert seconds == (seconds / 3600) * 3600 + r;
    assert r == (r / 60) * 60 + r % 60;
    assert seconds % 60 == r % 60 by {
      assert seconds == ((seconds / 3600) * 60 + r / 60) * 60 + r % 60;
    }
  }

  /** Reading the string back with `convertDurationToMinutes` gives the seconds as minutes. */
  lemma {:induction false} FormatDurationReadsBack(seconds: nat)
    ensures Time.DurationToMinutes(FormatDuration(seconds)) == Num(seconds as real / 60.0)
  {
    FormatDurationFields(seconds);
    var h, m, s := seconds / 3600, IntRem(seconds, 3600) / 60, IntRem(seconds, 60);
    Time.ParseClock(h, m, s);
    assert h as real * 60.0 + m as real + s as real / 60.0 == seconds as real / 60.0 by {
      assert (h * 3600 + m * 60 + s) as real == seconds as real;
    }
  }

  /** The string has three colon-separated fields, each padded to two digits or more. */
  lemma {:induction false} FormatDurationPadded(seconds: nat)
    ensures var parts := Split(FormatDuration(seconds), ':');
      |parts| == 3 && forall i :: 0 <= i < 3 ==> |parts[i]| >= 2 && AllDigits(parts[i])
  {
    FormatDurationFields(seconds);
    var h, m, s := seconds / 3600, IntRem(seconds, 3600) / 60, IntRem(seconds, 60);
    Time.ClockParts(h, m, s);
    var parts := Split(FormatDuration(seconds), ':');
    assert parts == [Time.Field(h), Time.Field(m), Time.Field(s)];
    forall i | 0 <= i < 3 ensures |parts[i]| >= 2 && AllDigits(parts[i]) {
      Time.FieldShape(if i == 0 then h else if i == 1 then m else s);
    }
  }

  /** The tracker's formatter and the minutes converter print the same string for whole seconds. */
  lemma {:induction false} FormatDurationAgreesWithMinutes(seconds: nat)
    ensures FormatDuration(seconds) == Time.MinutesToDuration(seconds as real / 60.0)
  {
    FormatDurationFields(seconds);
    var h, m, s := seconds / 3600, IntRem(seconds, 3600) / 60, IntRem(seconds, 60);
    assert seconds as real / 60.0 == h as real * 60.0 + m as real + s as real / 60.0 by {
      assert (h * 3600 + m * 60 + s) as real == seconds as real;
    }
    Time.FieldsOfClock(h, m, s);
  }

  // ------------------------------------------------------------ start/stop

  /** Every press flips `isTracking` and leaves the mode, the description and billing alone. */
  lemma StartStopFlips(st: State, now: int, localeTime: string)
    ensures var st' := StartStop(st, now, localeTime);
      st'.isTracking == !st.isTracking && st'.isManualMode == st.isManualMode &&
      st'.description == st.description && st'.isBillable == st.isBillable
  {
  }

  /** In manual mode a start sets only the start time and a stop only the end time. */
  lemma ManualModeTouchesOnlyTimes(st: State, now: int, localeTime: string)
    requires st.isManualMode
    ensures StartStop(st, now, localeTime) ==
      if st.isTracking then st.(endTime := localeTime, isTracking := false)
      else st.(startTime := localeTime, isTracking := true)
  {
  }

  /** A timer-mode start followed by a stop records the whole seconds in between
      and clears the timer start; the displayed times are untouched. */
  lemma TimerModeSession(st: State, t0: int, t1: int, l0: string, l1: string)
    requires !st.isTracking && !st.isManualMode && t0 <= t1
    ensures var done := StartStop(StartStop(st, t0, l0), t1, l1);
      done == st.(duration := FormatDuration((t1 - t0) / 1000), timerStart := None) &&
      Time.DurationToMinutes(done.duration) == Num(((t1 - t0) / 1000) as real / 60.0)
  {
    FormatDurationReadsBack((t1 - t0) / 1000);
  }

  /** A stop in timer mode with no recorded start (the mode was switched while
      tracking) measures from time 0. */
  lemma StopWithoutStartMeasuresFromZero(st: State, now: int, localeTime: string)
    requires st.isTracking && !st.isManualMode && st.timerStart == None
    ensures StartStop(st, now, localeTime).duration == FormatDuration(now / 1000)
  {
  }

  /** Switching to timer mode during a manual session and stopping records the time since 0. */
  lemma SwitchModeWhileTracking(now: int, l0: string, l1: string)
    ensures var started := StartStop(Initial, 0, l0);
      var stopped := StartStop(started.(isManualMode := false), now, l1);
      !stopped.isTracking && stopped.duration == FormatDuration(now / 1000) && stopped.startTime == l0
  {
  }

  /** The tracker as the component holds it: one field per piece of state. */
  class Tracker {
    var description: string
    var startTime: string
    var endTime: string
    var duration: string
    var isBillable: bool
    var isTracking: bool
    var isManualMode: bool
    var timerStart: Option<int>

    function Snapshot(): State
      reads this
    {
      State(description, startTime, endTime, duration, isBillable, isTracking, isManualMode, timerStart)
    }

    /** The initial state: not tracking, manual mode, empty texts, no timer start, not billable. */
    constructor ()
      ensures Snapshot() == Initial
    {
      description, startTime, endTime, duration := "", "", "", "";
      isBillable, isTracking, isManualMode := false, false, true;
      timerStart := None;
    }

    /** `handleStartStop` */
    method HandleStartStop(now: int, localeTime: string)
      modifies this
      ensures Snapshot() == StartStop(old(Snapshot()), now, localeTime)
    {
      if !isTracking {
        if isManualMode {
          startTime := localeTime;
        } else {
          timerStart := Some(now);
        }
      } else {
        if isManualMode {
          endTime := localeTime;
        } else {
          var end := now;
          var durationInSeconds := (end - timerStart.GetOr(0)) / 1000;
          duration := FormatDuration(durationInSeconds);
          timerStart := None;
        }
      }
      isTracking := !isTracking;
    }

    /** The body of the interval callback. */
    method OnTick(now: int)
      modifies this
      ensures Snapshot() == Tick(old(Snapshot()), now)
    {
      if isTracking && !isManualMode {
        duration := FormatDuration((now - timerStart.GetOr(0)) / 1000);
      }
    }

    /** The mode switch: `setIsManualMode(!checked)`. */
    method SetTimerMode(checked: bool)
      modifies this
      ensures Snapshot() == old(Snapshot()).(isManualMode := !checked)
    {
      isManualMode := !checked;
    }
  }
}
