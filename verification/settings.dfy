/** The options record of the clock and its default values. */
module Settings {

  /** The options the clock consults. `sound` and `loop` configure the alarm sound,
      `snoozeTime` is the snooze step in minutes, `twelveHour` selects the 12-hour face
      and `seconds` adds seconds to it. */
  datatype Options = Options(
    sound: string,
    snoozeTime: int,
    loop: bool,
    twelveHour: bool,
    seconds: bool)

  /** The defaults: the default object has no `twelveHour` key, so the clock runs on the 24-hour face. */
  const DefaultOptions: Options := Options(
    sound := "../sound/alarm-sound.wav",
    snoozeTime := 1,
    loop := true,
    twelveHour := false,
    seconds := false)
}
