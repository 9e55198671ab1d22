/** Duration conversions of utils/time.ts (repeated unchanged inside
    components/common/timer-list.tsx): a number of minutes, possibly with a
    fractional part, to an `HH:MM:SS` string and back. Minutes are exact reals. */
module Time {
  import opened Js

  /** `String(n).padStart(2, '0')` for an integer-valued number. */
  function Field(n: int): string {
    PadStart2(IntToString(n))
  }

  /** The `${h}:${m}:${s}` template with each field padded. */
  function Clock(h: int, m: int, s: int): string {
    Field(h) + ":" + Field(m) + ":" + Field(s)
  }

  /** The three numbers `convertMinutesToDuration` prints: hours, minutes and seconds. */
  function DurationFields(minutes: real): (int, int, int) {
    ((minutes / 60.0).Floor, RealRem(minutes, 60.0).Floor, RealRem(minutes * 60.0, 60.0).Floor)
  }

  /** `convertMinutesToDuration` */
  function MinutesToDuration(minutes: real): string {
    var (h, m, s) := DurationFields(minutes);
    Clock(h, m, s)
  }

  /** `convertDurationToMinutes`: the first three colon-separated parts read as numbers.
      With fewer than three parts some of them are `undefined`, and the sum is NaN. */
  function DurationToMinutes(duration: string): Number {
    var parts := Split(duration, ':');
    if |parts| < 3 then NaN
    else
      match (ToNumber(parts[0]), ToNumber(parts[1]), ToNumber(parts[2]))
      case (Num(h), Num(m), Num(s)) => Num(h * 60.0 + m + s / 60.0)
      case _ => NaN
  }

  // ------------------------------------------------------------ fields

  /** For a non-negative number of minutes, the minutes and seconds fields lie in 0..59. */
  lemma FieldsInRange(minutes: real)
    requires minutes >= 0.0
    ensures var (h, m, s) := DurationFields(minutes);
      h >= 0 && 0 <= m < 60 && 0 <= s < 60
  {
  }

  /** The fields together count the whole seconds in `minutes`: the fraction of a second is dropped. */
  lemma FieldsCountWholeSeconds(minutes: real)
    requires minutes >= 0.0
    ensures var (h, m, s) := DurationFields(minutes);
      h * 3600 + m * 60 + s == (minutes * 60.0).Floor
  {
    var q := (minutes / 60.0).Floor;
    var r := minutes - 60.0 * q as real;
    assert 0.0 <= r < 60.0;
    assert RealRem(minutes, 60.0) == r;
    assert r.Floor + 60 * q == minutes.Floor by {
      FloorShift(r, 60 * q);
    }
    var t := minutes * 60.0 - 60.0 * minutes.Floor as real;
    assert (minutes * 60.0 / 60.0) == minutes;
    assert RealRem(minutes * 60.0, 60.0) == t;
    assert 0.0 <= t < 60.0;
    assert t.Floor + 60 * minutes.Floor == (minutes * 60.0).Floor by {
      FloorShift(t, 60 * minutes.Floor);
    }
  }

  lemma FloorShift(x: real, k: int)
    ensures (x + k as real).Floor == x.Floor + k
  {
  }

  /** Minutes that are a whole number `k` of seconds are split exactly: h·3600 + m·60 + s == k. */
  lemma FieldsOfWholeSeconds(k: nat)
    ensures var (h, m, s) := DurationFields(k as real / 60.0);
      h * 3600 + m * 60 + s == k && 0 <= m < 60 && 0 <= s < 60
  {
    FieldsCountWholeSeconds(k as real / 60.0);
    assert (k as real / 60.0) * 60.0 == k as real;
  }

  // ------------------------------------------------------------ the printed form

  /** A field holds at least two digits and reads back as its number; from 10 on,
      it is the number's own digits, so hours of 100 and more keep every digit. */
  lemma FieldShape(n: nat)
    ensures |Field(n)| >= 2 && AllDigits(Field(n)) && DigitsValue(Field(n)) == n
    ensures n >= 10 ==> Field(n) == NatToString(n)
    ensures ':' !in Field(n)
  {
    PaddedNatValue(n);
  }

  /** Reading a printed clock back gives its fields. */
  lemma ClockParts(h: nat, m: nat, s: nat)
    ensures Split(Clock(h, m, s), ':') == [Field(h), Field(m), Field(s)]
  {
    FieldShape(h);
    FieldShape(m);
    FieldShape(s);
    SplitThree(Field(h), Field(m), Field(s), ':');
  }

  lemma FieldNumber(n: nat)
    ensures ToNumber(Field(n)) == Num(n as real)
  {
    FieldShape(n);
  }

  /** The printed form as a special case: `convertDurationToMinutes("HH:MM:SS")` is H·60 + M + S/60. */
  lemma ParseClock(h: nat, m: nat, s: nat)
    ensures DurationToMinutes(Clock(h, m, s)) == Num(h as real * 60.0 + m as real + s as real / 60.0)
  {
    ClockParts(h, m, s);
    FieldNumber(h);
    FieldNumber(m);
    FieldNumber(s);
  }

  /** `convertDurationToMinutes` on any text of three colon-free parts, such as the user
      types: unpadded, out-of-range or signed fields are read as they stand, a part that
      is no number makes the sum NaN, and whatever follows a third colon is ignored. */
  lemma {:induction false} ReadParts(a: string, b: string, c: string, rest: string)
    requires ':' !in a && ':' !in b && ':' !in c
    ensures var text := a + ":" + b + ":" + c;
      DurationToMinutes(text + ":" + rest) == DurationToMinutes(text)
    ensures ToNumber(a).Num? && ToNumber(b).Num? && ToNumber(c).Num? ==>
      DurationToMinutes(a + ":" + b + ":" + c) ==
        Num(ToNumber(a).value * 60.0 + ToNumber(b).value + ToNumber(c).value / 60.0)
    ensures ToNumber(a).NaN? || ToNumber(b).NaN? || ToNumber(c).NaN? ==>
      DurationToMinutes(a + ":" + b + ":" + c) == NaN
  {
    var text := a + ":" + b + ":" + c;
    SplitThree(a, b, c, ':');
    assert text + ":" + rest == a + [':'] + (b + ":" + c + ":" + rest);
    SplitJoined(a, ':', b + ":" + c + ":" + rest);
    assert b + ":" + c + ":" + rest == b + [':'] + (c + ":" + rest);
    SplitJoined(b, ':', c + ":" + rest);
    SplitJoined(c, ':', rest);
  }

  /** Typed durations that no printed clock produces: "1:30:00" and "0:90:0" are both an
      hour and a half, and "-1:00:00" is minus an hour. */
  lemma UnpaddedDuration()
    ensures DurationToMinutes("1:30:00") == Num(90.0)
  {
    assert "1:30:00" == "1" + ":" + "30" + ":" + "00";
    assert DigitsValue("30") == 30 && DigitsValue("00") == 0 && DigitsValue("1") == 1;
    ReadParts("1", "30", "00", "");
  }

  lemma OverflowingMinutes()
    ensures DurationToMinutes("0:90:0") == Num(90.0)
  {
    assert "0:90:0" == "0" + ":" + "90" + ":" + "0";
    assert DigitsValue("90") == 90 && DigitsValue("0") == 0;
    ReadParts("0", "90", "0", "");
  }

  lemma NegativeHours()
    ensures DurationToMinutes("-1:00:00") == Num(-60.0)
  {
    assert "-1:00:00" == "-1" + ":" + "00" + ":" + "00";
    assert "-1"[1..] == "1";
    assert DigitsValue("00") == 0 && DigitsValue("1") == 1;
    ReadParts("-1", "00", "00", "");
  }

  /** Two colon-free parts leave the seconds `undefined`, so the reading is NaN; "1:30" is one case. */
  lemma {:induction false} TwoPartsIsNaN(a: string, b: string)
    requires ':' !in a && ':' !in b
    ensures DurationToMinutes(a + ":" + b) == NaN
  {
    assert a + ":" + b == a + [':'] + b;
    SplitJoined(a, ':', b);
    SplitNoSeparator(b, ':');
  }

  /** Text without a colon has fewer than three parts, so it reads as NaN; this covers ''. */
  lemma NoColonIsNaN(duration: string)
    requires ':' !in duration
    ensures DurationToMinutes(duration) == NaN
  {
    SplitNoSeparator(duration, ':');
  }

  // ------------------------------------------------------------ round trips

  /** Printing and reading back truncates to whole seconds: the result is
      floor(60m)/60, never above m and less than a second below it, and
      exactly m when m is a whole number of seconds. */
  lemma {:induction false} MinutesRoundTrip(minutes: real)
    requires minutes >= 0.0
    ensures DurationToMinutes(MinutesToDuration(minutes)) == Num((minutes * 60.0).Floor as real / 60.0)
    ensures var back := DurationToMinutes(MinutesToDuration(minutes)).value;
      back <= minutes && back > minutes - 1.0 / 60.0
    ensures ((minutes * 60.0).Floor as real == minutes * 60.0) ==>
      DurationToMinutes(MinutesToDuration(minutes)) == Num(minutes)
  {
    var (h, m, s) := DurationFields(minutes);
    FieldsInRange(minutes);
    FieldsCountWholeSeconds(minutes);
    ParseClock(h, m, s);
    var k := (minutes * 60.0).Floor;
    assert h as real * 60.0 + m as real + s as real / 60.0 == k as real / 60.0;
  }

  /** The three fields printed for H·60 + M + S/60 minutes are H, M and S. */
  lemma {:induction false} FieldsOfClock(h: nat, m: nat, s: nat)
    requires m < 60 && s < 60
    ensures DurationFields(h as real * 60.0 + m as real + s as real / 60.0) == (h, m, s)
  {
    var x := h as real * 60.0 + m as real + s as real / 60.0;
    HoursOfClock(h, m as real + s as real / 60.0);
    MinutesOfClock(h, m, s);
    SecondsOfClock(h, m, s);
  }

  lemma HoursOfClock(h: nat, rest: real)
    requires 0.0 <= rest < 60.0
    ensures ((h as real * 60.0 + rest) / 60.0).Floor == h
    ensures RealRem(h as real * 60.0 + rest, 60.0) == rest
  {
    var x := h as real * 60.0 + rest;
    assert x / 60.0 == h as real + rest / 60.0;
    FloorShift(rest / 60.0, h);
  }

  lemma MinutesOfClock(h: nat, m: nat, s: nat)
    requires m < 60 && s < 60
    ensures RealRem(h as real * 60.0 + m as real + s as real / 60.0, 60.0).Floor == m
  {
    HoursOfClock(h, m as real + s as real / 60.0);
    FloorShift(s as real / 60.0, m);
  }

  lemma SecondsOfClock(h: nat, m: nat, s: nat)
    requires m < 60 && s < 60
    ensures RealRem((h as real * 60.0 + m as real + s as real / 60.0) * 60.0, 60.0).Floor == s
  {
    var x := h as real * 60.0 + m as real + s as real / 60.0;
    var k := 60 * h + m;
    assert x * 60.0 / 60.0 == x;
    assert x == k as real + s as real / 60.0;
    FloorShift(s as real / 60.0, k);
    assert Trunc(x) == k;
    assert x * 60.0 - 60.0 * k as real == s as real;
  }

  /** Reading a canonical clock string and printing the minutes again gives the same string. */
  lemma {:induction false} ClockRoundTrip(h: nat, m: nat, s: nat)
    requires m < 60 && s < 60
    ensures DurationToMinutes(Clock(h, m, s)).Num?
    ensures MinutesToDuration(DurationToMinutes(Clock(h, m, s)).value) == Clock(h, m, s)
  {
    ParseClock(h, m, s);
    FieldsOfClock(h, m, s);
  }
}
