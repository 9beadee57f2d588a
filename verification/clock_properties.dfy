/** Properties that relate several clock operations. */
module ClockProperties {
  import opened Results
  import opened Settings
  import opened Clock
  import Decimal
  import Utilities
  import Digital

  /** In 12-hour mode every face hour 0..12 is shown for some hour of the day. */
  lemma TwelveHourOnto(opts: Options, r: int)
    requires opts.twelveHour && 0 <= r <= 12
    ensures exists h :: 0 <= h <= 23 && TwelveHour(opts, h) == r
  {
    assert TwelveHour(opts, r) == r;
  }

  /** With the default options the face runs on 24 hours: the hour is shown as it is. */
  lemma DefaultsShowTwentyFourHours(h: int)
    ensures TwelveHour(DefaultOptions, h) == h
    ensures MaxHour(DefaultOptions) == 23
  {
  }

  /** Stepping the minutes up and back down, or down and back up, restores the alarm. */
  lemma MinuteStepsUndo(a: Alarm)
    requires 0 <= a.minutes <= 59
    ensures DecrementMin(IncrementMin(a)) == a
    ensures IncrementMin(DecrementMin(a)) == a
  {
  }

  /** Stepping the hours up and back down, or down and back up, restores the alarm. */
  lemma HourStepsUndo(a: Alarm, opts: Options)
    requires 0 <= a.hours <= MaxHour(opts)
    ensures DecrementHour(IncrementHour(a, opts), opts) == a
    ensures IncrementHour(DecrementHour(a, opts), opts) == a
  {
  }

  /** The hour edits keep an hour that starts in 0..max inside 0..max. */
  lemma HourStepsStayInRange(a: Alarm, opts: Options)
    requires 0 <= a.hours <= MaxHour(opts)
    ensures 0 <= IncrementHour(a, opts).hours <= MaxHour(opts)
    ensures 0 <= DecrementHour(a, opts).hours <= MaxHour(opts)
  {
  }

  /** `k` presses of the minute-up button. */
  function PressMinuteUp(a: Alarm, k: nat): Alarm
    decreases k
  {
    if k == 0 then a else IncrementMin(PressMinuteUp(a, k - 1))
  }

  /** `k` presses of the hour-up button. */
  function PressHourUp(a: Alarm, opts: Options, k: nat): Alarm
    decreases k
  {
    if k == 0 then a else IncrementHour(PressHourUp(a, opts, k - 1), opts)
  }

  /** Pressing minute-up `k` times advances the minutes by `k` on a sixty-minute dial. */
  lemma {:induction false} MinuteUpCycles(a: Alarm, k: nat)
    requires 0 <= a.minutes <= 59
    ensures PressMinuteUp(a, k) == a.(minutes := (a.minutes + k) % 60)
    decreases k
  {
    if k > 0 {
      MinuteUpCycles(a, k - 1);
    }
  }

  /** Pressing hour-up `k` times advances the hours by `k` on a dial of `MaxHour + 1` hours. */
  lemma {:induction false} HourUpCycles(a: Alarm, opts: Options, k: nat)
    requires 0 <= a.hours <= MaxHour(opts)
    ensures PressHourUp(a, opts, k) == a.(hours := (a.hours + k) % (MaxHour(opts) + 1))
    decreases k
  {
    if k > 0 {
      HourUpCycles(a, opts, k - 1);
    }
  }

  /** Opening and then confirming the set screen arms the alarm at the time on the screen. */
  lemma OpenThenConfirmArms(a: Alarm, opts: Options)
    requires !a.isReady
    ensures Set(Set(a, opts), opts) == a.(isSet := true, sound := Howl(opts.sound, opts.loop, false))
  {
  }

  /** Once a tick has rung, no later tick rings, whatever time it samples. */
  lemma RingsOnlyOnce(a: Alarm, opts: Options, t: Time, t': Time)
    requires Tick(a, opts, t).Ok? && Tick(a, opts, t).value.rang
    ensures Tick(Tick(a, opts, t).value.alarm, opts, t') == Ok(Frame(Face(opts, t'), Digital.ToDigital(Face(opts, t')), Tick(a, opts, t).value.alarm, false))
  {
  }

  /** A reset alarm shows 0:00 on the set screen and no tick rings it. */
  lemma ResetClearsAlarm(a: Alarm, opts: Options, t: Time)
    ensures SetScreen(Reset(a)) == Digital.ToDigital("0:00")
    ensures Tick(Reset(a), opts, t).Ok? && Tick(Reset(a), opts, t).value.alarm == Reset(a)
    ensures !Tick(Reset(a), opts, t).value.rang
  {
    assert Decimal.DigitChar(0) == '0';
    assert Decimal.Text(0) == "0";
    assert Utilities.ZeroBuffer(0) == "00";
    assert Decimal.Text(Reset(a).hours) + ":" + Utilities.ZeroBuffer(Reset(a).minutes) == "0:00";
  }

  /** Stopping leaves nothing armed: no tick rings until the alarm is set again. */
  lemma StopDisarms(a: Alarm, opts: Options, t: Time)
    requires Stop(a).Ok?
    ensures Tick(Stop(a).value, opts, t).Ok? && !Tick(Stop(a).value, opts, t).value.rang
  {
  }

  /** In 12-hour mode the set screen offers hours 0..11 while the face shows 12 from noon
      to one o'clock, so an alarm set on the screen never rings during that hour. */
  lemma NoonNeverRings(a: Alarm, opts: Options, t: Time)
    requires opts.twelveHour && 0 <= a.hours <= MaxHour(opts)
    requires t.hours == 12
    ensures !Matches(a, opts, t)
  {
  }

  /** A snooze that pushes the minutes to sixty or beyond arms an alarm that no valid time matches. */
  lemma SnoozePastTheHourNeverRings(a: Alarm, opts: Options, t: Time)
    requires Snooze(a, opts).Ok? && Snooze(a, opts).value.minutes >= 60
    requires t.Valid()
    ensures !Matches(Snooze(a, opts).value, opts, t)
  {
  }

  /** Seven hour-up presses on the freshly opened set screen reach hour 7, on either face. */
  lemma PressHourUpToSeven(opts: Options, screen: Alarm)
    requires screen == Set(Initial, opts)
    ensures PressHourUp(screen, opts, 7) == Alarm(NoSound, true, false, 7, 0)
  {
    HourUpCycles(screen, opts, 7);
  }

  /** Thirty minute-up presses from minute 0 reach minute 30. */
  lemma PressMinuteUpToThirty(a: Alarm)
    requires a.minutes == 0
    ensures PressMinuteUp(a, 30) == a.(minutes := 30)
  {
    MinuteUpCycles(a, 30);
  }

  /** Opening the set screen of a fresh clock, pressing hour-up seven times and minute-up
      thirty times, then confirming, arms the alarm for 7:30. */
  lemma SetSevenThirty(opts: Options)
    ensures Set(PressMinuteUp(PressHourUp(Set(Initial, opts), opts, 7), 30), opts)
         == Alarm(Howl(opts.sound, opts.loop, false), false, true, 7, 30)
  {
    PressHourUpToSeven(opts, Set(Initial, opts));
    PressMinuteUpToThirty(PressHourUp(Set(Initial, opts), opts, 7));
  }

  /** The alarm armed for 7:30 through the set-screen buttons on the 12-hour face rings at
      7:30:00; a five-minute snooze moves it to 7:35. */
  lemma SnoozeScenario(opts: Options)
    requires opts.twelveHour && opts.snoozeTime == 5
    ensures
      var armed := Set(PressMinuteUp(PressHourUp(Set(Initial, opts), opts, 7), 30), opts);
      && Tick(armed, opts, Time(7, 30, 0)).Ok? && Tick(armed, opts, Time(7, 30, 0)).value.rang
      && Snooze(Tick(armed, opts, Time(7, 30, 0)).value.alarm, opts) == Ok(armed.(minutes := 35))
  {
    SetSevenThirty(opts);
  }
}
