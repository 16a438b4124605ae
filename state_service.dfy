/**
 * The state service: the indicator's one record of what the receiver is doing.
 * Every update operation stores a value; most of them are switched off until
 * the indicator has finished starting up, and each decides whether the change
 * is worth a desktop notification.  Notifications are kept here as values, in
 * the order they would have been shown.
 */
module State {
  import opened Wrappers
  import opened Frames

  /** The state record with one field per key of the source's `states` dictionary. */
  datatype DeviceState = DeviceState(
    power: bool,
    volume: Byte,
    muted: bool,
    source: Option<Source>,
    soundField: Option<SoundField>,
    pureDirect: bool,
    soundOptimizer: Option<SoundOptimizer>,
    timer: bool,
    timerHours: Byte,
    timerMinutes: Byte,
    fmTuner: Option<Byte>,
    fmTunerStereo: Option<bool>,
    fmTunerFrequency: Option<nat>)

  /** The record as the service starts: power on, low volume, nothing else known. */
  const DEFAULTS: DeviceState :=
    DeviceState(true, LOW_VOLUME, false, None, None, false, None, false, 0, 0, None, None, None)

  /** A desktop notification the service asks the indicator to show (its text is left out). */
  datatype Notice =
    | PowerNotice(on: bool)
    | MutedNotice(muted: bool)
    | SourceNotice(source: Source)
    | PureDirectNotice(on: bool)
    | SoundOptimizerNotice(optimizer: SoundOptimizer)
    | TimerOffNotice
    | TimerSetNotice(hours: Byte, minutes: Byte)
    | TimerCountdownNotice(hours: Byte, minutes: Byte)
    | FmTunerNotice(preset: Byte, frequencyCode: nat)

  /** The record after an update, with the notifications the update shows. */
  datatype Step = Step(state: DeviceState, notices: seq<Notice>)

  // ---------------------------------------------------------------------------
  // The update operations as functions of the old record
  // ---------------------------------------------------------------------------

  /** Power: gated on initialization; notifies only a change. */
  function PowerUpdate(st: DeviceState, initialized: bool, power: bool): (r: Step)
    ensures r.state.power == (if initialized then power else st.power)
    ensures r.state.(power := st.power) == st
    ensures |r.notices| <= 1
    ensures r.notices != [] <==> initialized && power != st.power
    ensures r.notices != [] ==> r.notices[0] == PowerNotice(power)
  {
    if initialized then
      Step(st.(power := power), if power != st.power then [PowerNotice(power)] else [])
    else
      Step(st, [])
  }

  /** Volume: gated on initialization; raising the level clears the mute flag; never notifies. */
  function VolumeUpdate(st: DeviceState, initialized: bool, vol: Byte): (r: Step)
    ensures !initialized ==> r.state == st
    ensures initialized ==> r.state.volume == vol && (r.state.muted <==> st.muted && vol <= st.volume)
    ensures r.state.(volume := st.volume, muted := st.muted) == st
    ensures r.notices == []
  {
    if initialized then
      var muted := if vol > st.volume then false else st.muted;
      Step(st.(muted := muted, volume := vol), [])
    else
      Step(st, [])
  }

  /** Mute flag: gated on initialization; notifies only a change. */
  function MutedUpdate(st: DeviceState, initialized: bool, muted: bool): (r: Step)
    ensures r.state.muted == (if initialized then muted else st.muted)
    ensures r.state.(muted := st.muted) == st
    ensures |r.notices| <= 1
    ensures r.notices != [] <==> initialized && muted != st.muted
    ensures r.notices != [] ==> r.notices[0] == MutedNotice(muted)
  {
    if initialized then
      Step(st.(muted := muted), if muted != st.muted then [MutedNotice(muted)] else [])
    else
      Step(st, [])
  }

  /**
   * Source: always stored, and it switches the power on (through the power
   * update, so only once initialized); a power notification comes before the
   * source notification, which is shown only for a change.
   */
  function SourceUpdate(st: DeviceState, initialized: bool, source: Source): (r: Step)
    ensures r.state.source == Some(source)
    ensures r.state.power == (initialized || st.power)
    ensures r.state.(source := st.source, power := st.power) == st
    ensures r.notices ==
              (if initialized && !st.power then [PowerNotice(true)] else [])
              + (if st.source != Some(source) then [SourceNotice(source)] else [])
  {
    var changed := Some(source) != st.source;
    var powered := PowerUpdate(st.(source := Some(source)), initialized, true);
    Step(powered.state, powered.notices + if changed then [SourceNotice(source)] else [])
  }

  /** Sound field: always stored; sound-field notifications are switched off. */
  function SoundFieldUpdate(st: DeviceState, soundField: SoundField): (r: Step)
    ensures r.state.soundField == Some(soundField)
    ensures r.state.(soundField := st.soundField) == st
    ensures r.notices == []
  {
    Step(st.(soundField := Some(soundField)), [])
  }

  /** Pure direct: gated on initialization; notifies every report, changed or not. */
  function PureDirectUpdate(st: DeviceState, initialized: bool, on: bool): (r: Step)
    ensures !initialized ==> r == Step(st, [])
    ensures initialized ==> r.state.pureDirect == on && r.notices == [PureDirectNotice(on)]
    ensures r.state.(pureDirect := st.pureDirect) == st
  {
    if initialized then Step(st.(pureDirect := on), [PureDirectNotice(on)]) else Step(st, [])
  }

  /** Sound optimizer: gated on initialization; notifies every report. */
  function SoundOptimizerUpdate(st: DeviceState, initialized: bool, optimizer: SoundOptimizer): (r: Step)
    ensures !initialized ==> r == Step(st, [])
    ensures initialized ==> r.state.soundOptimizer == Some(optimizer) && r.notices == [SoundOptimizerNotice(optimizer)]
    ensures r.state.(soundOptimizer := st.soundOptimizer) == st
  {
    if initialized then Step(st.(soundOptimizer := Some(optimizer)), [SoundOptimizerNotice(optimizer)])
    else Step(st, [])
  }

  /**
   * The timer notification policy: always on "off" and on a fresh "set"; on a
   * periodic update only in the last quarter hour before shutdown.
   */
  function TimerNotices(hours: Byte, minutes: Byte, setTimer: bool, wasUpdated: bool): (r: seq<Notice>)
    ensures |r| <= 1
    ensures !setTimer ==> r == [TimerOffNotice]
    ensures setTimer && !wasUpdated ==> r == [TimerSetNotice(hours, minutes)]
    ensures setTimer && wasUpdated ==>
              (r != [] <==> hours * 60 + minutes < 15) &&
              (r != [] ==> r == [TimerCountdownNotice(hours, minutes)])
  {
    if !setTimer then [TimerOffNotice]
    else if !wasUpdated then [TimerSetNotice(hours, minutes)]
    else if hours == 0 && minutes < 15 then [TimerCountdownNotice(hours, minutes)]
    else []
  }

  /** Timer: always stored. */
  function TimerUpdate(st: DeviceState, hours: Byte, minutes: Byte, setTimer: bool, wasUpdated: bool): (r: Step)
    ensures r.state.timer == setTimer && r.state.timerHours == hours && r.state.timerMinutes == minutes
    ensures r.state.(timer := st.timer, timerHours := st.timerHours, timerMinutes := st.timerMinutes) == st
    ensures r.notices == TimerNotices(hours, minutes, setTimer, wasUpdated)
  {
    Step(st.(timer := setTimer, timerHours := hours, timerMinutes := minutes),
         TimerNotices(hours, minutes, setTimer, wasUpdated))
  }

  /** FM tuner: gated on initialization; notifies every report. */
  function FmTunerUpdate(st: DeviceState, initialized: bool, preset: Byte, stereo: bool, frequency: nat): (r: Step)
    ensures !initialized ==> r == Step(st, [])
    ensures initialized ==>
              && r.state.fmTuner == Some(preset)
              && r.state.fmTunerStereo == Some(stereo)
              && r.state.fmTunerFrequency == Some(frequency)
              && r.notices == [FmTunerNotice(preset, frequency)]
    ensures r.state.(fmTuner := st.fmTuner, fmTunerStereo := st.fmTunerStereo, fmTunerFrequency := st.fmTunerFrequency) == st
  {
    if initialized then
      Step(st.(fmTuner := Some(preset), fmTunerStereo := Some(stereo), fmTunerFrequency := Some(frequency)),
           [FmTunerNotice(preset, frequency)])
    else
      Step(st, [])
  }

  // ---------------------------------------------------------------------------
  // Change detection: repeating an update is silent
  // ---------------------------------------------------------------------------

  /** A second identical power, mute or source update changes nothing and shows nothing. */
  lemma RepeatedUpdatesAreSilent(st: DeviceState, initialized: bool, power: bool, muted: bool, source: Source)
    ensures var p := PowerUpdate(st, initialized, power).state;
            PowerUpdate(p, initialized, power) == Step(p, [])
    ensures var m := MutedUpdate(st, initialized, muted).state;
            MutedUpdate(m, initialized, muted) == Step(m, [])
    ensures var s := SourceUpdate(st, initialized, source).state;
            SourceUpdate(s, initialized, source) == Step(s, [])
  {
  }

  /** The countdown notices, once they start, continue for every later update. */
  lemma CountdownContinues(hours: Byte, minutes: Byte, laterHours: Byte, laterMinutes: Byte)
    requires TimerNotices(hours, minutes, true, true) != []
    requires laterHours * 60 + laterMinutes <= hours * 60 + minutes
    ensures TimerNotices(laterHours, laterMinutes, true, true) == [TimerCountdownNotice(laterHours, laterMinutes)]
  {
  }

  // ---------------------------------------------------------------------------
  // The service object
  // ---------------------------------------------------------------------------

  class StateService {
    var initialized: bool
    var states: DeviceState
    /** The notifications shown so far, oldest first. */
    ghost var shown: seq<Notice>

    constructor ()
      ensures !initialized && states == DEFAULTS && shown == []
    {
      initialized := false;
      states := DEFAULTS;
      shown := [];
    }

    method UpdatePower(power: bool)
      modifies this`states, this`shown
      ensures var r := PowerUpdate(old(states), initialized, power);
              states == r.state && shown == old(shown) + r.notices
    {
      if initialized {
        var changed := power != states.power;
        states := states.(power := power);
        if changed {
          shown := shown + [PowerNotice(power)];
        }
      }
    }

    method UpdateVolume(vol: Byte)
      modifies this`states
      ensures states == VolumeUpdate(old(states), initialized, vol).state
    {
      if initialized {
        if vol > states.volume {
          states := states.(muted := false);
        }
        states := states.(volume := vol);
      }
    }

    method UpdateMuted(muted: bool)
      modifies this`states, this`shown
      ensures var r := MutedUpdate(old(states), initialized, muted);
              states == r.state && shown == old(shown) + r.notices
    {
      if initialized {
        var changed := muted != states.muted;
        states := states.(muted := muted);
        if changed {
          shown := shown + [MutedNotice(muted)];
        }
      }
    }

    method UpdateSource(source: Source)
      modifies this`states, this`shown
      ensures var r := SourceUpdate(old(states), initialized, source);
              states == r.state && shown == old(shown) + r.notices
    {
      var changed := states.source != Some(source);
      states := states.(source := Some(source));
      UpdatePower(true);
      if changed {
        shown := shown + [SourceNotice(source)];
      }
    }

    method UpdateSoundField(soundField: SoundField)
      modifies this`states
      ensures states == SoundFieldUpdate(old(states), soundField).state
    {
      states := states.(soundField := Some(soundField));
    }

    method UpdatePureDirect(on: bool)
      modifies this`states, this`shown
      ensures var r := PureDirectUpdate(old(states), initialized, on);
              states == r.state && shown == old(shown) + r.notices
    {
      if initialized {
        states := states.(pureDirect := on);
        shown := shown + [PureDirectNotice(on)];
      }
    }

    method UpdateSoundOptimizer(optimizer: SoundOptimizer)
      modifies this`states, this`shown
      ensures var r := SoundOptimizerUpdate(old(states), initialized, optimizer);
              states == r.state && shown == old(shown) + r.notices
    {
      if initialized {
        states := states.(soundOptimizer := Some(optimizer));
        shown := shown + [SoundOptimizerNotice(optimizer)];
      }
    }

    method UpdateTimer(hours: Byte, minutes: Byte, setTimer: bool, wasUpdated: bool)
      modifies this`states, this`shown
      ensures var r := TimerUpdate(old(states), hours, minutes, setTimer, wasUpdated);
              states == r.state && shown == old(shown) + r.notices
    {
      states := states.(timer := setTimer, timerHours := hours, timerMinutes := minutes);
      if !setTimer {
        shown := shown + [TimerOffNotice];
      } else if !wasUpdated {
        shown := shown + [TimerSetNotice(hours, minutes)];
      } else if hours == 0 && minutes < 15 {
        shown := shown + [TimerCountdownNotice(hours, minutes)];
      }
    }

    method UpdateFmTuner(preset: Byte, stereo: bool, frequency: nat)
      modifies this`states, this`shown
      ensures var r := FmTunerUpdate(old(states), initialized, preset, stereo, frequency);
              states == r.state && shown == old(shown) + r.notices
    {
      if initialized {
        states := states.(fmTuner := Some(preset), fmTunerStereo := Some(stereo), fmTunerFrequency := Some(frequency));
        shown := shown + [FmTunerNotice(preset, frequency)];
      }
    }
  }
}
