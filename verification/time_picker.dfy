/**
 * The dropdown time picker. Its value is a 24-hour "HH:MM" string; it shows and edits
 * a 12-hour clock with an AM/PM period. `parseInt` on a field without leading digits
 * gives NaN, which is `None` here; NaN survives the arithmetic and prints as "NaN".
 */
module TimePicker {
  import opened Wrappers
  import opened JsStrings

  datatype Period = AM | PM {
    function Name(): string {
      match this
      case AM => "AM"
      case PM => "PM"
    }
  }

  /** The picker's state: the 12-hour hour, the minute and the period. */
  datatype Clock12 = Clock12(hour: Option<nat>, minute: Option<nat>, period: Period)

  /** 24h to 12h: 0 is 12 AM, 1..11 AM, 12 is 12 PM, 13..23 are 1..11 PM. */
  function To12(h24: nat): (r: (nat, Period))
    ensures h24 < 24 ==> 1 <= r.0 <= 12
    ensures r.1.AM? <==> h24 < 12
    ensures h24 < 24 ==> r.0 % 12 == h24 % 12
  {
    if h24 == 0 then (12, AM)
    else if h24 < 12 then (h24, AM)
    else if h24 == 12 then (12, PM)
    else (h24 - 12, PM)
  }

  /** 12h to 24h: PM adds 12 except at 12, and 12 AM is 0. */
  function To24(h: nat, p: Period): (r: nat)
    ensures 1 <= h <= 12 ==> r < 24
    ensures 1 <= h <= 12 ==> (r < 12 <==> p.AM?)
    ensures 1 <= h <= 12 ==> r % 12 == h % 12
  {
    if p.PM? && h != 12 then h + 12
    else if p.AM? && h == 12 then 0
    else h
  }

  /** The two conversions are inverse on the 24-hour range. */
  lemma To24OfTo12(h24: nat)
    requires h24 < 24
    ensures To24(To12(h24).0, To12(h24).1) == h24
  {
  }

  /** ... and on the 12-hour clock. */
  lemma To12OfTo24(h: nat, p: Period)
    requires 1 <= h <= 12
    ensures To12(To24(h, p)) == (h, p)
  {
  }

  /** `initializeTime`: an absent or empty value is 12:00 AM; otherwise the two fields are parsed and converted. */
  function InitializeTime(value: Option<string>): (c: Clock12)
    ensures value.None? || value.value == "" ==> c == Clock12(Some(12), Some(0), AM)
  {
    if value.None? || value.value == "" then Clock12(Some(12), Some(0), AM)
    else
      var parts := Split(value.value, ':');
      var minute := if |parts| >= 2 then ParseInt(parts[1]) else None;
      match ParseInt(parts[0])
      case None => Clock12(None, minute, PM)
      case Some(h24) =>
        var c := To12(h24);
        Clock12(Some(c.0), minute, c.1)
  }

  /** A number as the picker prints it: zero-padded to two digits, or "NaN". */
  function NumberText(n: Option<nat>): string {
    match n
    case None => "NaN"
    case Some(v) => Pad2(v)
  }

  /** The 24-hour value `handleTimeChange` emits for a 12-hour selection. */
  function TimeString(hour: Option<nat>, minute: Option<nat>, period: Period): string {
    var hour24 := match hour
      case None => None
      case Some(h) => Some(To24(h, period));
    NumberText(hour24) + ":" + NumberText(minute)
  }

  /** A well-formed 24-hour value: two digits below 24, a colon, two digits below 60. */
  predicate IsHHMM(s: string) {
    |s| == 5 && s[2] == ':' && AllDigits(s[..2]) && AllDigits(s[3..]) &&
    ValueOf(s[..2]) < 24 && ValueOf(s[3..]) < 60
  }

  /** Splitting "HH:MM" at the colon gives its two fields. */
  lemma SplitHHMM(s: string)
    requires IsHHMM(s)
    ensures Split(s, ':') == [s[..2], s[3..]]
  {
    assert s == s[..2] + [':'] + s[3..];
    assert ':' !in s[..2] by { assert !IsDigit(':'); }
    assert ':' !in s[3..] by { assert !IsDigit(':'); }
    SplitCons(s[..2], ':', s[3..]);
    SplitNoSep(s[3..], ':');
  }

  /** Initialising from a well-formed value and emitting the picker's state gives that value back. */
  lemma RoundTrip(s: string)
    requires IsHHMM(s)
    ensures var c := InitializeTime(Some(s));
      c.hour.Some? && 1 <= c.hour.value <= 12 && c.minute.Some? && c.minute.value < 60 &&
      TimeString(c.hour, c.minute, c.period) == s
  {
    SplitHHMM(s);
    var hh, mm := s[..2], s[3..];
    var h24 := ValueOf(hh);
    To24OfTo12(h24);
    TwoDigitsRoundTrip(hh);
    TwoDigitsRoundTrip(mm);
    assert s == hh + ":" + mm;
  }

  /** What the picker emits is well formed and initialises back to the picker's own state. */
  lemma EmittedRoundTrip(h: nat, m: nat, p: Period)
    requires 1 <= h <= 12 && m < 60
    ensures IsHHMM(TimeString(Some(h), Some(m), p))
    ensures InitializeTime(Some(TimeString(Some(h), Some(m), p))) == Clock12(Some(h), Some(m), p)
  {
    var s := TimeString(Some(h), Some(m), p);
    var hh, mm := Pad2(To24(h, p)), Pad2(m);
    assert s[..2] == hh && s[3..] == mm;
    SplitHHMM(s);
    To12OfTo24(h, p);
  }

  /** The hour buttons. */
  function Hours(): (r: seq<nat>)
    ensures |r| == 12 && forall i | 0 <= i < 12 :: r[i] == i + 1
  {
    seq(12, i requires 0 <= i < 12 => i + 1)
  }

  /** `minutes.filter(m => m % 5 === 0)`. */
  function MultiplesOf5(ms: seq<nat>): (r: seq<nat>)
    ensures forall x :: x in r <==> x in ms && x % 5 == 0
  {
    if ms == [] then []
    else (if ms[0] % 5 == 0 then [ms[0]] else []) + MultiplesOf5(ms[1..])
  }

  /** The minute buttons: 0, 5, ..., 55. */
  function MinuteOptions(): (r: seq<nat>)
    ensures forall m :: m in r <==> 0 <= m < 60 && m % 5 == 0
  {
    var minutes := seq(60, i requires 0 <= i < 60 => i as nat);
    forall m | 0 <= m < 60
      ensures m in minutes
    {
      assert minutes[m] == m;
    }
    forall m | m in minutes
      ensures m < 60
    {
      var i :| 0 <= i < |minutes| && minutes[i] == m;
    }
    MultiplesOf5(minutes)
  }

  /** `displayTime`: the 12-hour state as "hh:mm AM". */
  function DisplayTime(c: Clock12): (r: string)
    ensures c.hour.Some? && c.hour.value < 100 && c.minute.Some? && c.minute.value < 100 ==>
      |r| == 8 && r[2] == ':' && r[5] == ' ' && AllDigits(r[..2]) && AllDigits(r[3..5]) &&
      ValueOf(r[..2]) == c.hour.value && ValueOf(r[3..5]) == c.minute.value && r[6..] == c.period.Name()
  {
    var r := NumberText(c.hour) + ":" + NumberText(c.minute) + " " + c.period.Name();
    assert c.hour.Some? && c.hour.value < 100 && c.minute.Some? && c.minute.value < 100 ==>
      r[..2] == Pad2(c.hour.value) && r[3..5] == Pad2(c.minute.value);
    r
  }

  /** The picker component: its 12-hour state, set by the buttons, each of which emits the 24-hour value. */
  class Picker {
    var hour: Option<nat>
    var minute: Option<nat>
    var period: Period

    function State(): Clock12
      reads this
    {
      Clock12(hour, minute, period)
    }

    constructor(value: Option<string>)
      ensures State() == InitializeTime(value)
    {
      var c := InitializeTime(value);
      hour := c.hour;
      minute := c.minute;
      period := c.period;
    }

    /** An hour button. */
    method SelectHour(h: nat) returns (emitted: string)
      requires h in Hours()
      modifies this
      ensures State() == old(State()).(hour := Some(h))
      ensures emitted == TimeString(hour, minute, period)
      ensures minute.Some? && minute.value < 60 ==> IsHHMM(emitted) && InitializeTime(Some(emitted)) == State()
    {
      hour := Some(h);
      emitted := TimeString(Some(h), minute, period);
      if minute.Some? && minute.value < 60 {
        EmittedRoundTrip(h, minute.value, period);
      }
    }

    /** A minute button. */
    method SelectMinute(m: nat) returns (emitted: string)
      requires m in MinuteOptions()
      modifies this
      ensures State() == old(State()).(minute := Some(m))
      ensures emitted == TimeString(hour, minute, period)
      ensures hour.Some? && 1 <= hour.value <= 12 ==> IsHHMM(emitted) && InitializeTime(Some(emitted)) == State()
    {
      minute := Some(m);
      emitted := TimeString(hour, Some(m), period);
      if hour.Some? && 1 <= hour.value <= 12 {
        EmittedRoundTrip(hour.value, m, period);
      }
    }

    /** The AM or PM button. */
    method SelectPeriod(p: Period) returns (emitted: string)
      modifies this
      ensures State() == old(State()).(period := p)
      ensures emitted == TimeString(hour, minute, period)
      ensures hour.Some? && 1 <= hour.value <= 12 && minute.Some? && minute.value < 60 ==>
        IsHHMM(emitted) && InitializeTime(Some(emitted)) == State()
    {
      period := p;
      emitted := TimeString(hour, minute, p);
      if hour.Some? && 1 <= hour.value <= 12 && minute.Some? && minute.value < 60 {
        EmittedRoundTrip(hour.value, minute.value, p);
      }
    }
  }
}
