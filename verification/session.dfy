/** The clock over a run of user presses and ticks: what stays true of every reachable alarm,
    and how often the alarm can ring. */
module Session {
  import opened Results
  import opened Settings
  import opened Clock

  /** A button press on the page, or one tick of the timer with the time it sampled. */
  datatype Event =
    | SetPressed
    | MinuteUp
    | MinuteDown
    | HourUp
    | HourDown
    | StopPressed
    | SnoozePressed
    | Ticked(t: Time)

  /** The alarm after an event and whether the event rang it. */
  datatype Outcome = Outcome(alarm: Alarm, rang: bool)

  /** The effect of one event. A button handler that raises leaves the alarm as it was;
      a tick that raises is reported as the error, and halts the run. */
  function Step(a: Alarm, opts: Options, e: Event): (r: Result<Outcome, Fault>)
    ensures r.Err? ==> e.Ticked?
    ensures e.StopPressed? && Stop(a).Err? ==> r == Ok(Outcome(a, false))
    ensures e.SnoozePressed? && Snooze(a, opts).Err? ==> r == Ok(Outcome(a, false))
    ensures r.Ok? && r.value.rang ==> e.Ticked? && Matches(a, opts, e.t) && !r.value.alarm.isSet
  {
    match e
    case SetPressed => Ok(Outcome(Set(a, opts), false))
    case MinuteUp => Ok(Outcome(IncrementMin(a), false))
    case MinuteDown => Ok(Outcome(DecrementMin(a), false))
    case HourUp => Ok(Outcome(IncrementHour(a, opts), false))
    case HourDown => Ok(Outcome(DecrementHour(a, opts), false))
    case StopPressed =>
      (match Stop(a)
       case Ok(b) => Ok(Outcome(b, false))
       case Err(_) => Ok(Outcome(a, false)))
    case SnoozePressed =>
      (match Snooze(a, opts)
       case Ok(b) => Ok(Outcome(b, false))
       case Err(_) => Ok(Outcome(a, false)))
    case Ticked(t) =>
      (match Tick(a, opts, t)
       case Ok(f) => Ok(Outcome(f.alarm, f.rang))
       case Err(e) => Err(e))
  }

  /** What holds of every alarm the clock reaches: an armed alarm has a sound loaded, the hour
      is one the set screen offers, and the minutes are not negative while snoozing adds a
      non-negative amount. */
  predicate Inv(a: Alarm, opts: Options) {
    && (a.isSet ==> a.sound.Howl?)
    && 0 <= a.hours <= MaxHour(opts)
    && (opts.snoozeTime >= 0 ==> a.minutes >= 0)
  }

  lemma InitialInv(opts: Options)
    ensures Inv(Initial, opts)
  {
  }

  /** From an alarm satisfying the invariant no tick raises, and the invariant holds after every event.
      A Stop or Snooze press without a loaded sound still raises; its handler leaves the alarm as it was. */
  lemma StepKeepsInv(a: Alarm, opts: Options, e: Event)
    requires Inv(a, opts)
    ensures Step(a, opts, e).Ok? && Inv(Step(a, opts, e).value.alarm, opts)
  {
  }

  /** The record of a run: the final alarm, how many ticks rang it, and how many events armed it. */
  datatype Trace = Trace(alarm: Alarm, rings: nat, arms: nat)

  /** Applies events in order; the run halts with the error of a tick that raises. */
  function Run(a: Alarm, opts: Options, es: seq<Event>): Result<Trace, Fault>
    decreases |es|
  {
    if |es| == 0 then Ok(Trace(a, 0, 0))
    else
      match Step(a, opts, es[0])
      case Err(e) => Err(e)
      case Ok(o) =>
        match Run(o.alarm, opts, es[1..])
        case Err(e) => Err(e)
        case Ok(tr) =>
          Ok(Trace(tr.alarm,
                   tr.rings + (if o.rang then 1 else 0),
                   tr.arms + (if !a.isSet && o.alarm.isSet then 1 else 0)))
  }

  /** A run from an alarm satisfying the invariant never halts and ends in the invariant. */
  lemma {:induction false} RunKeepsInv(a: Alarm, opts: Options, es: seq<Event>)
    requires Inv(a, opts)
    ensures Run(a, opts, es).Ok? && Inv(Run(a, opts, es).value.alarm, opts)
    decreases |es|
  {
    if |es| > 0 {
      StepKeepsInv(a, opts, es[0]);
      RunKeepsInv(Step(a, opts, es[0]).value.alarm, opts, es[1..]);
    }
  }

  function Flag(b: bool): nat {
    if b then 1 else 0
  }

  /** Every ring disarms and only arming re-arms, so a run rings at most once per arming,
      plus once if the alarm was armed when the run began. */
  lemma {:induction false} AtMostOneRingPerArming(a: Alarm, opts: Options, es: seq<Event>)
    requires Run(a, opts, es).Ok?
    ensures Run(a, opts, es).value.rings + Flag(Run(a, opts, es).value.alarm.isSet)
         <= Run(a, opts, es).value.arms + Flag(a.isSet)
    decreases |es|
  {
    if |es| > 0 {
      var o := Step(a, opts, es[0]).value;
      AtMostOneRingPerArming(o.alarm, opts, es[1..]);
    }
  }

  /** Ticks never arm the alarm. */
  lemma {:induction false} TicksNeverArm(a: Alarm, opts: Options, es: seq<Event>)
    requires forall i :: 0 <= i < |es| ==> es[i].Ticked?
    requires Run(a, opts, es).Ok?
    ensures Run(a, opts, es).value.arms == 0
    decreases |es|
  {
    if |es| > 0 {
      var o := Step(a, opts, es[0]).value;
      TicksNeverArm(o.alarm, opts, es[1..]);
    }
  }

  /** Left alone, an armed clock rings at most once, however many ticks match its time;
      a disarmed one never rings. */
  lemma TicksRingAtMostOnce(a: Alarm, opts: Options, es: seq<Event>)
    requires forall i :: 0 <= i < |es| ==> es[i].Ticked?
    requires Run(a, opts, es).Ok?
    ensures Run(a, opts, es).value.rings <= Flag(a.isSet)
  {
    TicksNeverArm(a, opts, es);
    AtMostOneRingPerArming(a, opts, es);
  }

  /** From a fresh clock, with any options, any run of presses and ticks completes and rings
      at most once per arming; in 12-hour mode the alarm it reaches never matches the noon hour. */
  lemma FreshClock(opts: Options, es: seq<Event>, t: Time)
    ensures Run(Initial, opts, es).Ok?
    ensures Run(Initial, opts, es).value.rings <= Run(Initial, opts, es).value.arms
    ensures opts.twelveHour && t.hours == 12 ==> !Matches(Run(Initial, opts, es).value.alarm, opts, t)
  {
    RunKeepsInv(Initial, opts, es);
    AtMostOneRingPerArming(Initial, opts, es);
  }
}
