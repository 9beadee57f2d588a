# Alarm clock core, modelled in Dafny

This project models the logic of a browser alarm-clock widget: the `Clock` component
in `src/clock.js` and the `zeroBuffer` helper in `src/utilities.js`. Without the page,
the timer and the sound library, that logic is a set of pure functions over an alarm
record and an options record:

- the alarm record `{sound, isReady, isSet, hours, minutes}` (`Clock.Alarm`). `isReady`
  is true while the set screen is open. `isSet` is true while the alarm is armed.
- the options record (`Settings.Options`), with the defaults of `src/defaultOptions.js`.
  That object has no `twelveHour` key, so by default the clock uses the 24-hour face.
  The component's doc comment claims other defaults (twelve-hour on, snooze 5 minutes).
  The model follows the object: snooze 1 minute, seconds hidden, loop on.
- `twelveHour`, which takes twelve off hours past noon in 12-hour mode.
- the set-screen edits (minute and hour up/down). They wrap at 59 and at `twelveHour(23)`.
- the buttons: `set` opens the set screen, then confirms it. `stop` and `reset` clear the alarm.
  `snooze` re-arms the alarm.
- `tick` for a sampled time. It builds the face `H:MM[:SS]` and converts it to image markup
  with `toDigital`. It rings when the armed alarm matches, and ringing disarms the alarm.

The sound is a value `NoSound | Howl(src, loop, playing)`. A fresh clock holds the empty
placeholder. Calling `play` or `stop` on it raises, so `Ring`, `Stop` and `Snooze` return
`Err(SoundNotLoaded)` in that case. `Session` models a run of button presses and ticks. A
handler that raises leaves the alarm unchanged. A tick that raises halts the run.
`Session` proves that no tick ever raises from a fresh clock. A Stop or Snooze press without a
loaded sound does raise and leaves the alarm unchanged; the page hides those buttons until the
alarm rings, and the model leaves button visibility out.

Two behaviours of the source are kept as written:

- `snooze` adds the snooze time to the minutes without wrapping. An alarm pushed to minute 60
  or later never rings (`ClockProperties.SnoozePastTheHourNeverRings`).
- In 12-hour mode the set screen offers hours 0..11, but the face shows 12 from noon to one
  o'clock. So an alarm set on the screen never rings in that hour (`ClockProperties.NoonNeverRings`,
  `Session.FreshClock`).

The page writes the whole face markup on every tick; there is no per-image diffing.

Modules: `Results` (Option/Result), `Decimal` (the text of whole numbers and reading digits
back), `Utilities` (`zeroBuffer`), `Digital` (`toDigital`), `Settings` (options and defaults),
`Clock` (the component), `ClockProperties` (lemmas across operations), `FaceText` (reading the
face back) and `Session` (runs of events).

## Model

| member | source | states |
|---|---|---|
| Decimal.NatDigits | src/clock.js:99 | the text of a whole number is all digits, one character exactly below 10, two exactly for 10..99, and no leading zero |
| Decimal.Text | src/clock.js:99 | the text of a number n >= 0 is non-empty digits with no leading zero unless n is 0; the text of a negative n is a minus sign followed by digits with no leading zero |
| Decimal.TextReadsBack | src/clock.js:99 | reading the digits of a number's text gives the number back, after the minus sign for negative numbers |
| Decimal.TextInjective | src/clock.js:99 | distinct whole numbers have distinct texts |
| Decimal.ParseNatDigits | src/utilities.js:13-17 | reading the digits of a number's text gives the number back |
| Decimal.ParseLeadingZero | src/utilities.js:15-16 | a "0" in front of a digit string does not change the number it reads as |
| Utilities.ZeroBuffer | src/utilities.js:13-17 | below 10 the result is "0" followed by the number's text; from 10 up it is the text unpadded; for n >= 0 it is all digits and reads back as n; for 0..99 it has exactly two characters |
| Digital.ToDigital | src/clock.js:114-120 | the markup is the concatenation of one piece per character of the time text, in order: the d.png image for a digit d, the colon image for ':', the character itself otherwise |
| Digital.ToDigitalPerCharacter | src/clock.js:114-120 | the two replacement passes equal drawing each character on its own: each digit d becomes the image d.png, each colon the colon image, and other characters stay |
| Digital.ReplaceColonsAppend | src/clock.js:117 | the colon pass works character by character, so it distributes over concatenation |
| Digital.PiecesRoundTrip | src/clock.js:114-120 | the pieces drawn for a text give that text back, one piece per character |
| Digital.AllImages | src/clock.js:114-120 | a text of digits and colons is drawn entirely with images |
| Clock.TwelveHour | src/clock.js:82-90 | returns h - 12 when 12-hour mode is on and h > 12, and h otherwise; in 12-hour mode it maps 0..23 into 0..12 and keeps h modulo 12 |
| ClockProperties.TwelveHourOnto | src/clock.js:82-90 | in 12-hour mode every face hour 0..12 is reached by some hour of the day |
| Clock.MaxHour | src/clock.js:168-175 | the hour bound twelveHour(23) is 11 in 12-hour mode and 23 otherwise |
| ClockProperties.DefaultsShowTwentyFourHours | src/defaultOptions.js:3-15 | with the default options the hour is shown unchanged and the set screen goes up to 23 |
| Clock.Reset | src/clock.js:43-54 | hours and minutes become 0 and the alarm is disarmed; the set-screen flag and the sound are unchanged |
| ClockProperties.ResetClearsAlarm | src/clock.js:43-54 | after a reset the set screen draws the images of 0:00 and no tick rings the alarm or changes it |
| Clock.Set | src/clock.js:127-149 | flips isReady; opening keeps isSet and the sound; confirming arms the alarm with a new, silent sound from the options; the alarm time is kept |
| ClockProperties.OpenThenConfirmArms | src/clock.js:127-149 | opening then confirming the set screen arms the alarm at the time on the screen and changes nothing else |
| Clock.IncrementMin | src/clock.js:160-163 | m < 59 goes to m + 1 and m >= 59 to 0, which is (m + 1) mod 60 on 0..59; all other fields are unchanged |
| Clock.DecrementMin | src/clock.js:164-167 | m > 0 goes to m - 1 and m <= 0 to 59, which is (m + 59) mod 60 on 0..59; all other fields are unchanged |
| Clock.IncrementHour | src/clock.js:168-171 | hours below twelveHour(23) go up by one, others go to 0, which is (h + 1) mod (max + 1) on 0..max; all other fields are unchanged |
| Clock.DecrementHour | src/clock.js:172-175 | hours above 0 go down by one, others go to twelveHour(23), which is (h + max) mod (max + 1) on 0..max; all other fields are unchanged |
| ClockProperties.MinuteStepsUndo | src/clock.js:160-167 | on 0..59, minute-up and minute-down undo each other |
| ClockProperties.HourStepsUndo | src/clock.js:168-175 | on 0..max, hour-up and hour-down undo each other |
| ClockProperties.HourStepsStayInRange | src/clock.js:168-175 | hours starting in 0..max stay in 0..max |
| ClockProperties.MinuteUpCycles | src/clock.js:160-163 | k minute-up presses advance the minutes by k on a 60-minute dial |
| ClockProperties.HourUpCycles | src/clock.js:168-171 | k hour-up presses advance the hours by k on a dial of max + 1 hours |
| Clock.Ring | src/clock.js:177-186 | raises without a loaded sound; otherwise the sound plays and the alarm is disarmed, nothing else changes |
| Clock.Stop | src/clock.js:187-192 | raises without a loaded sound; otherwise the sound stops and the alarm is reset |
| Clock.Snooze | src/clock.js:193-205 | raises without a loaded sound; otherwise the sound stops, the alarm is armed again, the minutes grow by exactly snoozeTime with no wrap, and hours and the set-screen flag are unchanged |
| Clock.Tick | src/clock.js:96-109 | the frame's face is the face of the sampled time, and its markup draws that face one piece per character; raises exactly when a matching alarm has no sound; rings exactly when armed, the minutes match and twelveHour(hours) matches the alarm hour; ringing disarms and plays, otherwise the alarm is unchanged |
| Clock.SetScreen | src/clock.js:150-153 | the set screen draws the stored alarm hour, a colon and the padded minutes |
| ClockProperties.RingsOnlyOnce | src/clock.js:177-186 | after a tick has rung, a following tick at any time does not ring and leaves the alarm as it is |
| ClockProperties.StopDisarms | src/clock.js:187-192 | after stop no tick rings |
| ClockProperties.NoonNeverRings | src/clock.js:168-175 | in 12-hour mode an alarm hour from the set screen never matches a time in the noon hour |
| ClockProperties.SnoozePastTheHourNeverRings | src/clock.js:204 | a snooze that takes the minutes to 60 or more leaves an armed alarm that no valid time matches |
| ClockProperties.PressHourUpToSeven | src/clock.js:168-171 | seven hour-up presses on a freshly opened set screen reach hour 7, in either mode |
| ClockProperties.PressMinuteUpToThirty | src/clock.js:160-163 | thirty minute-up presses from minute 0 reach minute 30 |
| ClockProperties.SetSevenThirty | src/clock.js:127-175 | opening the set screen, pressing hour-up 7 times and minute-up 30 times, then confirming arms the alarm for 7:30 with a silent sound loaded |
| ClockProperties.SnoozeScenario | src/clock.js:193-205 | the alarm armed for 7:30 through the set-screen buttons on the 12-hour face rings at 7:30:00, and a 5-minute snooze re-arms it for 7:35 |
| FaceText.FaceSplits | src/clock.js:99 | the face of a valid time splits at its colons into the hour text and the padded minutes, followed by the padded seconds exactly when seconds are shown |
| FaceText.FaceRoundTrip | src/clock.js:99 | the face of a valid time has two colon-separated fields, or three exactly when seconds are on; the minute and second fields have two characters; reading the face gives back twelveHour(hours), the minutes and the seconds |
| FaceText.FaceDrawnWithImages | src/clock.js:99-109 | the face of a valid time is drawn entirely with images, one per character |
| Session.Step | src/clock.js:58-66 | only a raising tick is reported; a Stop or Snooze handler that raises leaves the alarm unchanged; an event rings only if it is a tick whose time matches the alarm, and ringing disarms |
| Session.InitialInv | src/clock.js:19-33 | a fresh clock satisfies the invariant: nothing armed, hour 0, minute 0 |
| Session.StepKeepsInv | src/clock.js:127-149 | from the invariant no tick raises and the invariant holds after every event: an armed alarm always has a sound loaded, because only confirming the set screen or snoozing arms it |
| Session.RunKeepsInv | src/clock.js:91-113 | from the invariant any run of events completes without a tick raising, and ends in the invariant |
| Session.AtMostOneRingPerArming | src/clock.js:177-186 | the rings in a run, plus one if the run ends armed, never exceed the armings plus one if it started armed |
| Session.TicksNeverArm | src/clock.js:101-106 | a run of ticks alone never arms the alarm |
| Session.TicksRingAtMostOnce | src/clock.js:101-106 | ticks alone ring an armed alarm at most once, and a disarmed alarm never |
| Session.FreshClock | src/clock.js:19-33 | with any options, from a fresh clock every run completes and rings at most once per arming; in 12-hour mode the alarm it reaches never matches the noon hour |

## Left out

- Page plumbing: `src/cacheDOM.js`, `hide`/`show`, button visibility and every `innerHTML` write. `Tick` and `SetScreen` return the markup instead of writing it.
- `get` and `new Date()`: the sampled time is a parameter of `Tick`.
- The `setTimeout` rescheduling in `tick`: a run of ticks is a sequence of `Ticked` events in `Session.Run`.
- `bindEvents` and the `Object.assign` merge in `init`: the options are a fixed record, and each button is an `Event`.
- The `Howl` sound library: a sound is a record with a `playing` flag. A sound that is replaced while playing keeps playing in the page; the model drops it.
- `digitPath`, `colonPath` and `am` in the default options: nothing in the clock reads them.
- Clock.Face: it has no contract of its own; `FaceText.FaceRoundTrip` and `FaceText.FaceDrawnWithImages` state what it shows.
- Clock.Matches: a definition with no contract of its own; `Clock.Tick` states that a tick rings exactly when it holds.
- Digital.ReplaceDigits, Digital.ReplaceColons: definitions of the two replacement passes with no contract of their own; `Digital.ToDigitalPerCharacter` and `Digital.ReplaceColonsAppend` state what they do.
- Decimal.Text: covers whole numbers only. Fractional snooze times and the exponent form JavaScript uses from 1e21 up are not modelled.
