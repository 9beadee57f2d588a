/** The alarm clock: the alarm record, the hour transform, the set-screen edits,
    the mode transitions and the per-second tick. */
module Clock {
  import opened Results
  import opened Decimal
  import opened Utilities
  import opened Digital
  import opened Settings

  /** The alarm sound: the empty placeholder of a fresh clock, or a loaded sound and whether it plays. */
  datatype Sound = NoSound | Howl(src: string, loop: bool, playing: bool)

  /** The alarm record. `isReady` is true while the set screen is open; `isSet` while the alarm is armed.
      `hours` is kept in the face's own hour numbering. */
  datatype Alarm = Alarm(sound: Sound, isReady: bool, isSet: bool, hours: int, minutes: int)

  /** A sample of the wall clock. */
  datatype Time = Time(hours: int, minutes: int, seconds: int) {
    predicate Valid() {
      0 <= hours <= 23 && 0 <= minutes <= 59 && 0 <= seconds <= 59
    }
  }

  /** Calling `play` or `stop` on the placeholder sound raises an error. */
  datatype Fault = SoundNotLoaded

  /** What one tick produces: the face text, its markup, the alarm afterwards and whether it rang. */
  datatype Frame = Frame(face: string, markup: string, alarm: Alarm, rang: bool)

  /** The alarm of a freshly constructed clock. */
  const Initial: Alarm := Alarm(NoSound, false, false, 0, 0)

  /** The hour shown on the face: hours past noon lose twelve in 12-hour mode. */
  function TwelveHour(opts: Options, h: int): (r: int)
    ensures !opts.twelveHour ==> r == h
    ensures opts.twelveHour ==> r == (if h > 12 then h - 12 else h)
    ensures opts.twelveHour && 0 <= h <= 23 ==> 0 <= r <= 12 && r % 12 == h % 12
  {
    if opts.twelveHour && h > 12 then h - 12 else h
  }

  /** The largest alarm hour the set screen offers: the face hour of 23. */
  function MaxHour(opts: Options): (r: int)
    ensures r == (if opts.twelveHour then 11 else 23)
  {
    TwelveHour(opts, 23)
  }

  /** Clears the alarm time and disarms it; whether the set screen is open is left alone. */
  function Reset(a: Alarm): (r: Alarm)
    ensures r.hours == 0 && r.minutes == 0 && !r.isSet
    ensures r.isReady == a.isReady && r.sound == a.sound
  {
    a.(hours := 0, minutes := 0, isSet := false)
  }

  /** The "Set Alarm" button: opens the set screen, or confirms it, arming the alarm with a new sound. */
  function Set(a: Alarm, opts: Options): (r: Alarm)
    ensures r.isReady == !a.isReady
    ensures r.hours == a.hours && r.minutes == a.minutes
    ensures !a.isReady ==> r.isSet == a.isSet && r.sound == a.sound
    ensures a.isReady ==> r.isSet && r.sound == Howl(opts.sound, opts.loop, false)
  {
    if !a.isReady then a.(isReady := true)
    else a.(isReady := false, isSet := true, sound := Howl(opts.sound, opts.loop, false))
  }

  function IncrementMin(a: Alarm): (r: Alarm)
    ensures r == a.(minutes := r.minutes)
    ensures 0 <= a.minutes <= 59 ==> r.minutes == (a.minutes + 1) % 60
    ensures a.minutes < 59 ==> r.minutes == a.minutes + 1
    ensures a.minutes >= 59 ==> r.minutes == 0
  {
    if a.minutes < 59 then a.(minutes := a.minutes + 1) else a.(minutes := 0)
  }

  function DecrementMin(a: Alarm): (r: Alarm)
    ensures r == a.(minutes := r.minutes)
    ensures 0 <= a.minutes <= 59 ==> r.minutes == (a.minutes + 59) % 60
    ensures a.minutes > 0 ==> r.minutes == a.minutes - 1
    ensures a.minutes <= 0 ==> r.minutes == 59
  {
    if a.minutes > 0 then a.(minutes := a.minutes - 1) else a.(minutes := 59)
  }

  function IncrementHour(a: Alarm, opts: Options): (r: Alarm)
    ensures r == a.(hours := r.hours)
    ensures 0 <= a.hours <= MaxHour(opts) ==> r.hours == (a.hours + 1) % (MaxHour(opts) + 1)
    ensures a.hours < MaxHour(opts) ==> r.hours == a.hours + 1
    ensures a.hours >= MaxHour(opts) ==> r.hours == 0
  {
    if a.hours < TwelveHour(opts, 23) then a.(hours := a.hours + 1) else a.(hours := 0)
  }

  function DecrementHour(a: Alarm, opts: Options): (r: Alarm)
    ensures r == a.(hours := r.hours)
    ensures 0 <= a.hours <= MaxHour(opts) ==> r.hours == (a.hours + MaxHour(opts)) % (MaxHour(opts) + 1)
    ensures a.hours > 0 ==> r.hours == a.hours - 1
    ensures a.hours <= 0 ==> r.hours == MaxHour(opts)
  {
    if a.hours > 0 then a.(hours := a.hours - 1) else a.(hours := TwelveHour(opts, 23))
  }

  /** Starts the sound and disarms the alarm, so that it cannot fire again on the next tick. */
  function Ring(a: Alarm): (r: Result<Alarm, Fault>)
    ensures r.Err? <==> a.sound.NoSound?
    ensures r.Ok? ==> r.value == a.(sound := r.value.sound, isSet := false)
    ensures r.Ok? ==> r.value.sound == a.sound.(playing := true)
  {
    match a.sound
    case NoSound => Err(SoundNotLoaded)
    case Howl(src, loop, _) => Ok(a.(sound := Howl(src, loop, true), isSet := false))
  }

  /** The "Stop" button: silences the sound and resets the alarm. */
  function Stop(a: Alarm): (r: Result<Alarm, Fault>)
    ensures r.Err? <==> a.sound.NoSound?
    ensures r.Ok? ==> r.value == Reset(a).(sound := a.sound.(playing := false))
  {
    match a.sound
    case NoSound => Err(SoundNotLoaded)
    case Howl(src, loop, _) => Ok(Reset(a.(sound := Howl(src, loop, false))))
  }

  /** The "Snooze" button: silences the sound and re-arms the alarm `snoozeTime` minutes later,
      adding to the minutes without wrapping at sixty and without touching the hour. */
  function Snooze(a: Alarm, opts: Options): (r: Result<Alarm, Fault>)
    ensures r.Err? <==> a.sound.NoSound?
    ensures r.Ok? ==> r.value.isSet && r.value.isReady == a.isReady && r.value.hours == a.hours
    ensures r.Ok? ==> r.value.minutes - a.minutes == opts.snoozeTime
    ensures r.Ok? ==> r.value.sound == a.sound.(playing := false)
  {
    match a.sound
    case NoSound => Err(SoundNotLoaded)
    case Howl(src, loop, _) =>
      Ok(a.(sound := Howl(src, loop, false), isSet := true, minutes := a.minutes + opts.snoozeTime))
  }

  /** The clock face `H:MM`, or `H:MM:SS` when seconds are shown. */
  function Face(opts: Options, t: Time): string {
    Text(TwelveHour(opts, t.hours)) + ":" + ZeroBuffer(t.minutes)
      + (if opts.seconds then ":" + ZeroBuffer(t.seconds) else "")
  }

  /** The alarm fires when it is armed and the face shows its hour and minute. */
  predicate Matches(a: Alarm, opts: Options, t: Time) {
    a.isSet && t.minutes == a.minutes && TwelveHour(opts, t.hours) == a.hours
  }

  /** One tick of the clock for the sampled time `t`: draw the face, and ring when the alarm matches. */
  function Tick(a: Alarm, opts: Options, t: Time): (r: Result<Frame, Fault>)
    ensures r.Err? <==> Matches(a, opts, t) && a.sound.NoSound?
    ensures r.Ok? ==> r.value.rang == Matches(a, opts, t)
    ensures r.Ok? && r.value.rang ==>
              && !r.value.alarm.isSet
              && r.value.alarm.sound == a.sound.(playing := true)
              && r.value.alarm == a.(isSet := false, sound := r.value.alarm.sound)
    ensures r.Ok? && !r.value.rang ==> r.value.alarm == a
    ensures r.Ok? ==> r.value.face == Face(opts, t)
    ensures r.Ok? ==> r.value.markup == Markup(Pieces(Face(opts, t)))
  {
    var face := Face(opts, t);
    if Matches(a, opts, t) then
      match Ring(a)
      case Err(e) => Err(e)
      case Ok(b) => Ok(Frame(face, ToDigital(face), b, true))
    else
      Ok(Frame(face, ToDigital(face), a, false))
  }

  /** The set screen shows the alarm hour as stored and the padded alarm minutes. */
  function SetScreen(a: Alarm): (markup: string)
    ensures markup == Markup(Pieces(Text(a.hours) + ":" + ZeroBuffer(a.minutes)))
  {
    ToDigital(Text(a.hours) + ":" + ZeroBuffer(a.minutes))
  }
}
