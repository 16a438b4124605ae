/**
 * The listener's handling of one chunk read from the receiver: dispatch it to
 * the decoders, and hand an accepted report to the state service through the
 * same update operations, in the same order, as the decoders do.
 */
module Feedback {
  import opened Wrappers
  import opened Frames
  import opened Decoders
  import opened State

  /** The power and mute updates a source report's status byte triggers, after the source update. */
  function StatusUpdate(st: DeviceState, initialized: bool, status: Byte): (r: Step)
    // 0x10 reports power off; 0x11 and 0x13 report power on, unmuted or muted; other bytes say nothing.
    ensures r.state.power == (if !initialized then st.power
                              else if status == FEEDBACK_POWER_OFF then false
                              else if status == FEEDBACK_MUTE_OFF || status == FEEDBACK_MUTE_ON then true
                              else st.power)
    ensures r.state.muted == (if initialized && status == FEEDBACK_MUTE_OFF then false
                              else if initialized && status == FEEDBACK_MUTE_ON then true
                              else st.muted)
    ensures r.state.(power := st.power, muted := st.muted) == st
    ensures status != FEEDBACK_POWER_OFF && status != FEEDBACK_MUTE_OFF && status != FEEDBACK_MUTE_ON ==> r == Step(st, [])
    ensures !initialized ==> r == Step(st, [])
    // A notice appears for each flag the byte actually changes, power first.
    ensures r.notices ==
              (if !initialized then []
               else if status == FEEDBACK_POWER_OFF then (if st.power then [PowerNotice(false)] else [])
               else if status == FEEDBACK_MUTE_OFF || status == FEEDBACK_MUTE_ON then
                 (if !st.power then [PowerNotice(true)] else [])
                 + (if st.muted != (status == FEEDBACK_MUTE_ON) then [MutedNotice(status == FEEDBACK_MUTE_ON)] else [])
               else [])
  {
    if status == FEEDBACK_POWER_OFF then
      PowerUpdate(st, initialized, false)
    else if status == FEEDBACK_MUTE_OFF || status == FEEDBACK_MUTE_ON then
      var powered := PowerUpdate(st, initialized, true);
      var muted := MutedUpdate(powered.state, initialized, status == FEEDBACK_MUTE_ON);
      Step(muted.state, powered.notices + muted.notices)
    else
      Step(st, [])
  }

  /** A source report: the source update, then the power and mute updates its status byte calls for. */
  function SourceReportStep(st: DeviceState, initialized: bool, source: Source, status: Byte): (r: Step)
    // A source report selects its source; once initialized its status byte decides power and mute.
    ensures r.state.source == Some(source)
    ensures r.state.power == (if initialized then status != FEEDBACK_POWER_OFF else st.power)
    ensures r.state.muted == (if initialized && status == FEEDBACK_MUTE_OFF then false
                              else if initialized && status == FEEDBACK_MUTE_ON then true
                              else st.muted)
    ensures r.state.(source := st.source, power := st.power, muted := st.muted) == st
    // Its notices: the forced power-on and the source change, then what the status byte changes.
    ensures r.notices ==
              (if initialized && !st.power then [PowerNotice(true)] else [])
              + (if st.source != Some(source) then [SourceNotice(source)] else [])
              + (if !initialized then []
                 else if status == FEEDBACK_POWER_OFF then [PowerNotice(false)]
                 else if (status == FEEDBACK_MUTE_OFF || status == FEEDBACK_MUTE_ON)
                         && st.muted != (status == FEEDBACK_MUTE_ON)
                 then [MutedNotice(status == FEEDBACK_MUTE_ON)]
                 else [])
  {
    var selected := SourceUpdate(st, initialized, source);
    var flagged := StatusUpdate(selected.state, initialized, status);
    Step(flagged.state, selected.notices + flagged.notices)
  }

  /** An FM tuner report: the tuner update, then the source update to the FM tuner. */
  function FmTunerReportStep(st: DeviceState, initialized: bool, preset: Byte, stereo: bool, frequency: nat): (r: Step)
    // An FM tuner report selects the FM tuner; once initialized it also stores the tuner fields and forces power on.
    ensures r.state.source == Some(FmTuner)
    ensures r.state.power == (initialized || st.power)
    ensures initialized ==>
              && r.state.fmTuner == Some(preset)
              && r.state.fmTunerStereo == Some(stereo)
              && r.state.fmTunerFrequency == Some(frequency)
    ensures r.state.(source := st.source, power := st.power, fmTuner := st.fmTuner,
                     fmTunerStereo := st.fmTunerStereo, fmTunerFrequency := st.fmTunerFrequency) == st
    // Its notices: the tuner notice once initialized, then the forced power-on and the source change.
    ensures r.notices ==
              (if initialized then [FmTunerNotice(preset, frequency)] else [])
              + (if initialized && !st.power then [PowerNotice(true)] else [])
              + (if st.source != Some(FmTuner) then [SourceNotice(FmTuner)] else [])
  {
    var tuned := FmTunerUpdate(st, initialized, preset, stereo, frequency);
    var selected := SourceUpdate(tuned.state, initialized, FmTuner);
    Step(selected.state, tuned.notices + selected.notices)
  }

  /** The effect of one accepted report on the state record, with the notifications shown. */
  function Apply(st: DeviceState, initialized: bool, ev: Event): (r: Step)
    // A timer report always stores its three fields, with the timer policy's notifications.
    ensures ev.TimerReport? ==>
              && r.state == st.(timer := !ev.kind.TimerOff?, timerHours := ev.hours, timerMinutes := ev.minutes)
              && r.notices == TimerNotices(ev.hours, ev.minutes, !ev.kind.TimerOff?, ev.kind.TimerUpdate?)
    // Source and FM tuner reports: see their steps above.
    ensures ev.SourceReport? ==> r == SourceReportStep(st, initialized, ev.source, ev.status)
    // A sound-field report always stores the field, silently.
    ensures ev.SoundFieldReport? ==> r == Step(st.(soundField := Some(ev.soundField)), [])
    // Pure-direct and optimizer reports are stored and notified once initialized, ignored before.
    ensures ev.PureDirectReport? ==>
              r == (if initialized then Step(st.(pureDirect := ev.on), [PureDirectNotice(ev.on)]) else Step(st, []))
    ensures ev.SoundOptimizerReport? ==>
              r == (if initialized then Step(st.(soundOptimizer := Some(ev.optimizer)), [SoundOptimizerNotice(ev.optimizer)])
                    else Step(st, []))
    ensures ev.FmTunerReport? ==> r == FmTunerReportStep(st, initialized, ev.preset, ev.stereo, ev.frequencyCode)
    // A volume report stores the level once initialized; a rise clears the mute flag; nothing is shown.
    ensures ev.VolumeReport? ==>
              && (initialized ==> r.state.volume == ev.level && (r.state.muted <==> st.muted && ev.level <= st.volume))
              && r.state.(volume := st.volume, muted := st.muted) == st
              && r.notices == []
    // Before initialization only the source, sound field and timer fields can change.
    ensures !initialized ==>
              r.state.(source := st.source, soundField := st.soundField, timer := st.timer,
                       timerHours := st.timerHours, timerMinutes := st.timerMinutes) == st
  {
    match ev
    case TimerReport(hours, minutes, kind) =>
      State.TimerUpdate(st, hours, minutes, !kind.TimerOff?, kind.TimerUpdate?)
    case SourceReport(source, status) =>
      SourceReportStep(st, initialized, source, status)
    case SoundFieldReport(soundField) =>
      SoundFieldUpdate(st, soundField)
    case PureDirectReport(on) =>
      PureDirectUpdate(st, initialized, on)
    case SoundOptimizerReport(optimizer) =>
      SoundOptimizerUpdate(st, initialized, optimizer)
    case FmTunerReport(preset, stereo, frequency) =>
      FmTunerReportStep(st, initialized, preset, stereo, frequency)
    case VolumeReport(level) =>
      VolumeUpdate(st, initialized, level)
  }

  // ---------------------------------------------------------------------------
  // From the wire to the record
  // ---------------------------------------------------------------------------

  /** Receiving any source's report frame selects that source; once initialized the power is as the status says. */
  lemma SourceFrameSelectsSource(st: DeviceState, initialized: bool, source: Source, status: Byte)
    requires FeedbackSource(source).Some?
    ensures var d := Dispatch(FeedbackSource(source).value + [status, 0x00]);
            && d == Accepted(SourceReport(source, status))
            && Apply(st, initialized, d.event).state.source == Some(source)
            && Apply(st, initialized, d.event).state.power == (if initialized then status != FEEDBACK_POWER_OFF else st.power)
  {
    DispatchRoundTrip(SourceReport(source, status));
  }

  /** Receiving a volume report frame once initialized stores the level and clears the mute flag exactly on a rise; before, it changes nothing. */
  lemma VolumeFrameClearsMuteOnRise(st: DeviceState, initialized: bool, level: Byte)
    ensures var d := Dispatch(FEEDBACK_VOLUME + [level]);
            && d == Accepted(VolumeReport(level))
            && Apply(st, initialized, d.event).state.volume == (if initialized then level else st.volume)
            && (Apply(st, initialized, d.event).state.muted <==> st.muted && (!initialized || level <= st.volume))
  {
    DispatchRoundTrip(VolumeReport(level));
  }

  /** Receiving an FM tuner report frame stores the tuner state once initialized and always selects the FM tuner. */
  lemma FmTunerFrameSelectsTuner(st: DeviceState, initialized: bool, preset: Byte, mono: Byte, high: Byte, low: Byte)
    ensures var d := Dispatch(FEEDBACK_FM_TUNER_PREFIX + [preset, mono, high, low]);
            && d == Accepted(FmTunerReport(preset, mono != FEEDBACK_FM_TUNER_MONO, high * 255 + low))
            && Apply(st, initialized, d.event).state.source == Some(FmTuner)
            && (initialized ==> Apply(st, initialized, d.event).state.fmTuner == Some(preset))
  {
    var data := FEEDBACK_FM_TUNER_PREFIX + [preset, mono, high, low];
    assert Take(data, 5) == FEEDBACK_FM_TUNER_PREFIX;
    assert data[5] == preset && data[6] == mono && data[7] == high && data[8] == low;
    var ev := FmTunerReport(preset, mono != FEEDBACK_FM_TUNER_MONO, high * 255 + low);
    assert DecodeFmTuner(data) == Accepted(ev);
    FirstMatchIsAnyMatch(DISPATCH_ORDER, data, FmTunerKind);
  }

  /** A chunk with the FM tuner prefix but fewer than nine bytes fails with an index error, whatever the decoders before it do. */
  lemma ShortFmTunerFrameFails(data: Frame)
    requires 5 <= |data| < 9 && data[..5] == FEEDBACK_FM_TUNER_PREFIX
    ensures Dispatch(data) == IndexError
  {
    FirstMatchIsAnyMatch(DISPATCH_ORDER, data, FmTunerKind);
  }

  /** Receiving a timer report frame produces exactly the notifications of the timer policy. */
  lemma TimerFrameNotices(st: DeviceState, initialized: bool, hours: Byte, minutes: Byte, kind: TimerKind)
    ensures var d := Dispatch(TIMER_PREFIX + [hours, minutes, TimerKindByte(kind)]);
            && d == Accepted(TimerReport(hours, minutes, kind))
            && Apply(st, initialized, d.event).notices == TimerNotices(hours, minutes, !kind.TimerOff?, kind.TimerUpdate?)
  {
    DispatchRoundTrip(TimerReport(hours, minutes, kind));
  }

  // ---------------------------------------------------------------------------
  // The listener
  // ---------------------------------------------------------------------------

  class FeedbackWatcher {
    const stateService: StateService

    constructor (stateService: StateService)
      ensures this.stateService == stateService
    {
      this.stateService := stateService;
    }

    /** A source report: select the source, then let the status byte set power and mute. */
    method ReportSource(source: Source, status: Byte)
      modifies stateService`states, stateService`shown
      ensures var r := SourceReportStep(old(stateService.states), stateService.initialized, source, status);
              stateService.states == r.state && stateService.shown == old(stateService.shown) + r.notices
    {
      stateService.UpdateSource(source);
      if status == FEEDBACK_POWER_OFF {
        stateService.UpdatePower(false);
      } else if status == FEEDBACK_MUTE_OFF || status == FEEDBACK_MUTE_ON {
        stateService.UpdatePower(true);
        stateService.UpdateMuted(status == FEEDBACK_MUTE_ON);
      }
    }

    /** An FM tuner report: store the tuner state, then select the FM tuner as source. */
    method ReportFmTuner(preset: Byte, stereo: bool, frequency: nat)
      modifies stateService`states, stateService`shown
      ensures var r := FmTunerReportStep(old(stateService.states), stateService.initialized, preset, stereo, frequency);
              stateService.states == r.state && stateService.shown == old(stateService.shown) + r.notices
    {
      stateService.UpdateFmTuner(preset, stereo, frequency);
      stateService.UpdateSource(FmTuner);
    }

    /** Hands one accepted report to the state service, as the decoder that accepted it does. */
    method Report(ev: Event)
      modifies stateService`states, stateService`shown
      ensures var r := Apply(old(stateService.states), stateService.initialized, ev);
              stateService.states == r.state && stateService.shown == old(stateService.shown) + r.notices
    {
      match ev
      case TimerReport(hours, minutes, kind) =>
        stateService.UpdateTimer(hours, minutes, !kind.TimerOff?, kind.TimerUpdate?);
      case SourceReport(source, status) =>
        ReportSource(source, status);
      case SoundFieldReport(soundField) =>
        stateService.UpdateSoundField(soundField);
      case PureDirectReport(on) =>
        stateService.UpdatePureDirect(on);
      case SoundOptimizerReport(optimizer) =>
        stateService.UpdateSoundOptimizer(optimizer);
      case FmTunerReport(preset, stereo, frequency) =>
        ReportFmTuner(preset, stereo, frequency);
      case VolumeReport(level) =>
        stateService.UpdateVolume(level);
    }

    /**
     * One pass of the read loop for a chunk: dispatch it, and apply the report
     * if a decoder accepted it.  An unrecognised chunk changes nothing; an
     * index error is what makes the loop reconnect.
     */
    method Receive(data: Frame) returns (outcome: Decoded)
      modifies stateService`states, stateService`shown
      ensures outcome == Dispatch(data)
      ensures outcome.Accepted? ==>
                var r := Apply(old(stateService.states), stateService.initialized, outcome.event);
                stateService.states == r.state && stateService.shown == old(stateService.shown) + r.notices
      ensures !outcome.Accepted? ==>
                stateService.states == old(stateService.states) && stateService.shown == old(stateService.shown)
    {
      outcome := Dispatch(data);
      if outcome.Accepted? {
        Report(outcome.event);
      }
    }
  }
}
