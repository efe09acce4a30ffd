/**
 * The alarm hook: when the next alarm is, how long until it rings, when it
 * becomes active, what stopping it does, and how the remaining time is shown.
 * Times are integer milliseconds since the epoch; a day is 86 400 000 ms.
 */
module AlarmEngine {
  import opened Common

  const HourMs: nat := 3_600_000
  const MinuteMs: nat := 60_000
  const SecondMs: nat := 1000
  const DayMs: int := 86_400_000

  // ---------------------------------------------------------------------------
  // The remaining time as text
  // ---------------------------------------------------------------------------

  datatype Clock = Clock(hours: nat, minutes: nat, seconds: nat)

  function ClockMs(c: Clock): int
  {
    c.hours * HourMs + c.minutes * MinuteMs + c.seconds * SecondMs
  }

  /** Whole hours, minutes under 60 and seconds under 60; the milliseconds left over are under a second. */
  function Decompose(ms: nat): (c: Clock)
    ensures c.minutes < 60 && c.seconds < 60
    ensures ClockMs(c) <= ms < ClockMs(c) + SecondMs
  {
    var h := ms / HourMs;
    var inHour := ms % HourMs;
    var m := inHour / MinuteMs;
    var inMinute := inHour % MinuteMs;
    var s := inMinute / SecondMs;
    assert ms == h * HourMs + inHour;
    assert inHour == m * MinuteMs + inMinute && m < 60;
    assert inMinute == s * SecondMs + inMinute % SecondMs && s < 60;
    ModOfHour(ms);
    Clock(h, m, s)
  }

  /** Within an hour, the position in the minute is the position in the minute of the whole. */
  lemma ModOfHour(ms: nat)
    ensures (ms % HourMs) % MinuteMs == ms % MinuteMs
  {
    var h := ms / HourMs;
    var inHour := ms % HourMs;
    assert ms == (h * 60) * MinuteMs + inHour;
    var m := inHour / MinuteMs;
    assert ms == (h * 60 + m) * MinuteMs + inHour % MinuteMs;
  }

  /** Which of the three forms the remaining time takes, with the numbers it shows. */
  datatype Shown = HoursMinutes(h: nat, m: nat) | MinutesSeconds(m: nat, s: nat) | SecondsOnly(s: nat)

  /** Hours and minutes when there is an hour left, else minutes and seconds when there is a minute, else seconds. */
  function Shows(c: Clock): Shown
  {
    if c.hours > 0 then HoursMinutes(c.hours, c.minutes)
    else if c.minutes > 0 then MinutesSeconds(c.minutes, c.seconds)
    else SecondsOnly(c.seconds)
  }

  /** formatTimeRemaining. */
  function FormatTimeRemaining(ms: nat): string
  {
    var c := Decompose(ms);
    if c.hours > 0 then NatToString(c.hours) + "時間" + NatToString(c.minutes) + "分"
    else if c.minutes > 0 then NatToString(c.minutes) + "分" + NatToString(c.seconds) + "秒"
    else NatToString(c.seconds) + "秒"
  }

  /** The number of leading decimal digits. */
  function DigitPrefixLength(s: string): (n: nat)
    ensures n <= |s| && (forall i :: 0 <= i < n ==> IsDigit(s[i]))
    ensures n < |s| ==> !IsDigit(s[n])
    decreases |s|
  {
    if s == [] || !IsDigit(s[0]) then 0 else 1 + DigitPrefixLength(s[1..])
  }

  /** A number at the front of the text, and what follows it. */
  function ParseNumber(s: string): Option<(nat, string)>
  {
    var n := DigitPrefixLength(s);
    if n == 0 then None else Some((ParseDecimal(s[..n]), s[n..]))
  }

  /** A number followed by exactly `unit` and nothing else. */
  function NumberThen(s: string, unit: string): Option<nat>
  {
    match ParseNumber(s)
    case Some((b, tail)) => if tail == unit then Some(b) else None
    case None => None
  }

  /** The rest of a displayed time after its first number `a`. */
  function AfterFirst(a: nat, rest: string): Option<Shown>
  {
    if rest == "秒" then Some(SecondsOnly(a))
    else if |rest| >= 2 && rest[..2] == "時間" then
      var b := NumberThen(rest[2..], "分");
      if b.Some? then Some(HoursMinutes(a, b.value)) else None
    else if |rest| >= 1 && rest[..1] == "分" then
      var b := NumberThen(rest[1..], "秒");
      if b.Some? then Some(MinutesSeconds(a, b.value)) else None
    else None
  }

  /** Reads a displayed remaining time back: the reference for what FormatTimeRemaining shows. */
  function ParseRemaining(s: string): Option<Shown>
  {
    match ParseNumber(s)
    case None => None
    case Some((a, rest)) => AfterFirst(a, rest)
  }

  lemma {:induction false} DigitPrefixOf(d: string, rest: string)
    requires forall i :: 0 <= i < |d| ==> IsDigit(d[i])
    requires rest == [] || !IsDigit(rest[0])
    ensures DigitPrefixLength(d + rest) == |d|
    decreases |d|
  {
    if d != [] {
      assert (d + rest)[1..] == d[1..] + rest;
      DigitPrefixOf(d[1..], rest);
    } else {
      assert d + rest == rest;
    }
  }

  lemma ParseRendered(n: nat, rest: string)
    requires rest == [] || !IsDigit(rest[0])
    ensures ParseNumber(NatToString(n) + rest) == Some((n, rest))
  {
    var d := NatToString(n);
    DigitPrefixOf(d, rest);
    assert (d + rest)[..|d|] == d;
    assert (d + rest)[|d|..] == rest;
    ParseNatToString(n);
  }

  lemma NumberThenRendered(n: nat, unit: string)
    requires |unit| > 0 && !IsDigit(unit[0])
    ensures NumberThen(NatToString(n) + unit, unit) == Some(n)
  {
    ParseRendered(n, unit);
  }

  lemma ParseHoursMinutes(h: nat, m: nat)
    ensures ParseRemaining(NatToString(h) + "時間" + NatToString(m) + "分") == Some(HoursMinutes(h, m))
  {
    var tail := NatToString(m) + "分";
    var rest := "時間" + tail;
    assert NatToString(h) + "時間" + NatToString(m) + "分" == NatToString(h) + rest;
    ParseRendered(h, rest);
    assert |tail| >= 2;
    assert |rest| == 2 + |tail|;
    assert rest != "秒";
    assert rest[..2] == "時間" && rest[2..] == tail;
    NumberThenRendered(m, "分");
    assert AfterFirst(h, rest) == Some(HoursMinutes(h, m));
  }

  /** After the first number, a minutes mark, the seconds and a seconds mark read as minutes and seconds. */
  lemma AfterMinutes(m: nat, sec: nat)
    ensures AfterFirst(m, "分" + (NatToString(sec) + "秒")) == Some(MinutesSeconds(m, sec))
  {
    var tail := NatToString(sec) + "秒";
    var rest := "分" + tail;
    assert rest[0] == '分' && |rest| >= 2;
    assert rest != "秒";
    assert rest[..2][0] == '分';
    assert rest[..1] == "分" && rest[1..] == tail;
    NumberThenRendered(sec, "秒");
  }

  lemma ParseMinutesSeconds(m: nat, sec: nat)
    ensures ParseRemaining(NatToString(m) + "分" + NatToString(sec) + "秒") == Some(MinutesSeconds(m, sec))
  {
    var rest := "分" + (NatToString(sec) + "秒");
    assert NatToString(m) + "分" + NatToString(sec) + "秒" == NatToString(m) + rest;
    ParseRendered(m, rest);
    AfterMinutes(m, sec);
  }

  lemma ParseSecondsOnly(sec: nat)
    ensures ParseRemaining(NatToString(sec) + "秒") == Some(SecondsOnly(sec))
  {
    ParseRendered(sec, "秒");
  }

  /** What formatTimeRemaining prints reads back as the form and the numbers the decomposition calls for. */
  lemma FormatShowsDecomposition(ms: nat)
    ensures ParseRemaining(FormatTimeRemaining(ms)) == Some(Shows(Decompose(ms)))
  {
    var c := Decompose(ms);
    if c.hours > 0 {
      ParseHoursMinutes(c.hours, c.minutes);
    } else if c.minutes > 0 {
      ParseMinutesSeconds(c.minutes, c.seconds);
    } else {
      ParseSecondsOnly(c.seconds);
    }
  }

  // ---------------------------------------------------------------------------
  // Alarm times
  // ---------------------------------------------------------------------------

  /**
   * The next ring time: the alarm's time of day on today's date, or a day
   * later when that is not after now. It is after now whenever the parsed
   * time lies within a day before now, as a time of day on the current date does.
   */
  function NextAlarmTime(parsedToday: int, now: int): (r: int)
    ensures r == parsedToday || r == parsedToday + DayMs
    ensures parsedToday > now ==> r == parsedToday
    ensures parsedToday <= now ==> r == parsedToday + DayMs
    ensures now - DayMs < parsedToday ==> r > now
  {
    if !(parsedToday > now) then parsedToday + DayMs else parsedToday
  }

  /** The countdown: never negative, zero exactly when the alarm time has come. */
  function Countdown(alarmAt: int, now: int): (r: nat)
    ensures r == 0 <==> alarmAt <= now
    ensures r >= alarmAt - now
    ensures alarmAt > now ==> now + r == alarmAt
  {
    var diff := alarmAt - now;
    if 0 > diff then 0 else diff
  }

  /** What the activation check does. */
  datatype Activation = NoCheck | ActivateNow | ActivateAfter(delayMs: nat)

  /** The activation effect: nothing without an alarm or when already ringing, now when due, else after the difference. */
  function CheckActivation(alarmAt: Option<int>, isActive: bool, now: int): (r: Activation)
    ensures alarmAt.None? || isActive <==> r == NoCheck
    ensures r == ActivateNow <==> alarmAt.Some? && !isActive && alarmAt.value <= now
    ensures r.ActivateAfter? ==> r.delayMs > 0 && now + r.delayMs == alarmAt.value
  {
    if alarmAt.None? || isActive then NoCheck
    else
      var diff := alarmAt.value - now;
      if diff <= 0 then ActivateNow else ActivateAfter(diff)
  }

  /**
   * Stopping a ringing alarm does not make it ring again at once: the next
   * check waits for the alarm time a day later.
   */
  lemma StopDefersActivation(alarmAt: int, now: int)
    requires alarmAt <= now < alarmAt + DayMs
    ensures CheckActivation(Some(alarmAt + DayMs), false, now) == ActivateAfter(alarmAt + DayMs - now)
    ensures Countdown(alarmAt + DayMs, now) == alarmAt + DayMs - now > 0
  {
  }

  // ---------------------------------------------------------------------------
  // The hook's state
  // ---------------------------------------------------------------------------

  datatype AlarmInfo = AlarmInfo(id: string, time: string, alarmLabel: Option<string>, alarmDateTime: int)

  /** The countdown before the first update is Infinity. */
  datatype TimeUntil = Infinite | Finite(ms: nat)

  /** How fetching the user's alarm ends. */
  datatype FetchOutcome =
    | NotOk                                       // the response was not ok
    | NoAlarm                                     // the response had no alarm
    | Found(id: string, time: string, alarmLabel: Option<string>, parsedToday: int) // time of day on today's date, parsed
    | Failed                                      // fetch or JSON threw

  datatype HookState = HookState(alarmInfo: Option<AlarmInfo>, isActive: bool, timeUntilAlarm: TimeUntil, isLoading: bool)

  /** formattedTimeUntil: no text exactly while the countdown is still the Infinity sentinel. */
  function FormattedTimeUntil(t: TimeUntil): (r: Option<string>)
    ensures r.None? <==> t.Infinite?
    ensures t.Finite? ==> r == Some(FormatTimeRemaining(t.ms))
  {
    match t
    case Infinite => None
    case Finite(ms) => Some(FormatTimeRemaining(ms))
  }

  class Hook {
    var alarmInfo: Option<AlarmInfo>
    var isActive: bool
    var timeUntilAlarm: TimeUntil
    var isLoading: bool

    function Snapshot(): HookState
      reads this
    {
      HookState(alarmInfo, isActive, timeUntilAlarm, isLoading)
    }

    constructor()
      ensures Snapshot() == HookState(None, false, Infinite, true)
    {
      alarmInfo := None;
      isActive := false;
      timeUntilAlarm := Infinite;
      isLoading := true;
    }

    /**
     * fetchAlarmInfo once the request settles: a found alarm is stored with
     * its next ring time; a bad response or no alarm clears it; a thrown
     * error keeps whatever was there. Loading ends in every case.
     */
    method AlarmFetched(outcome: FetchOutcome, now: int)
      modifies this
      ensures !isLoading && isActive == old(isActive) && timeUntilAlarm == old(timeUntilAlarm)
      ensures outcome.Found? ==>
                alarmInfo == Some(AlarmInfo(outcome.id, outcome.time, outcome.alarmLabel,
                                            NextAlarmTime(outcome.parsedToday, now)))
      ensures outcome.NotOk? || outcome.NoAlarm? ==> alarmInfo == None
      ensures outcome.Failed? ==> alarmInfo == old(alarmInfo)
    {
      match outcome {
        case NotOk =>
          alarmInfo := None;
        case NoAlarm =>
          alarmInfo := None;
        case Found(id, time, alarmLabel, parsedToday) =>
          var alarmDateTime := parsedToday;
          if !(alarmDateTime > now) {
            alarmDateTime := alarmDateTime + DayMs;
          }
          alarmInfo := Some(AlarmInfo(id, time, alarmLabel, alarmDateTime));
        case Failed =>
      }
      isLoading := false;
    }

    /** updateCountdown, run on every tick while there is an alarm. */
    method UpdateCountdown(now: int)
      modifies this
      ensures alarmInfo.None? ==> Snapshot() == old(Snapshot())
      ensures alarmInfo.Some? ==>
                Snapshot() == old(Snapshot()).(timeUntilAlarm := Finite(Countdown(alarmInfo.value.alarmDateTime, now)))
    {
      if alarmInfo.None? {
        return;
      }
      var diff := alarmInfo.value.alarmDateTime - now;
      timeUntilAlarm := Finite(if 0 > diff then 0 else diff);
    }

    /** The activation effect: ring now when due, or return the delay of the timeout that will. */
    method CheckAlarm(now: int) returns (scheduled: Option<nat>)
      modifies this
      ensures var check := CheckActivation(if old(alarmInfo).Some? then Some(old(alarmInfo).value.alarmDateTime) else None,
                                           old(isActive), now);
        && Snapshot() == (if check == ActivateNow then old(Snapshot()).(isActive := true) else old(Snapshot()))
        && scheduled == (if check.ActivateAfter? then Some(check.delayMs) else None)
    {
      scheduled := None;
      if alarmInfo.None? || isActive {
        return;
      }
      var diff := alarmInfo.value.alarmDateTime - now;
      if diff <= 0 {
        isActive := true;
        return;
      }
      scheduled := Some(diff);
    }

    /** The activation timeout fires. */
    method ActivationFired()
      modifies this
      ensures Snapshot() == old(Snapshot()).(isActive := true)
    {
      isActive := true;
    }

    /** stopAlarm: silent again, and the alarm moves exactly one day on; nothing else changes. */
    method StopAlarm()
      modifies this
      ensures !isActive
      ensures old(alarmInfo).None? ==> alarmInfo == None
      ensures old(alarmInfo).Some? ==>
                alarmInfo == Some(old(alarmInfo).value.(alarmDateTime := old(alarmInfo).value.alarmDateTime + DayMs))
      ensures timeUntilAlarm == old(timeUntilAlarm) && isLoading == old(isLoading)
    {
      isActive := false;
      if alarmInfo.Some? {
        var nextAlarm := alarmInfo.value.alarmDateTime + DayMs;
        alarmInfo := Some(alarmInfo.value.(alarmDateTime := nextAlarm));
      }
    }

  }
}
