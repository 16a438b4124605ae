/**
 * The command service: what the indicator sends to the receiver when the user
 * picks a menu item or scrolls, and the state updates it makes alongside.
 * Each command is first a function from the state record to its effect (the
 * frames sent, in order, and the update made); the service's methods are
 * proved to have exactly that effect.  Sending is kept as a log of frames.
 */
module Commands {
  import opened Wrappers
  import opened Frames
  import opened State

  /** How far one scroll step moves the volume. */
  const SCROLL_STEP_VOLUME: int := 2

  /** What one command does: the frames sent, oldest first, and the state update with its notifications. */
  datatype Effect = Effect(sent: seq<Frame>, state: DeviceState, notices: seq<Notice>)

  /** The effect of a command that sends nothing and updates nothing. */
  function Silent(st: DeviceState): Effect
  {
    Effect([], st, [])
  }

  /** toggle_power: the frame asks the receiver for the opposite of the power the record shows. */
  function PowerToggleCommand(power: bool): (f: Frame)
    ensures f == POWER_OFF_COMMAND <==> power
    ensures f == POWER_ON_COMMAND <==> !power
  {
    if power then POWER_OFF_COMMAND else POWER_ON_COMMAND
  }

  /** set_volume: send the volume frame, then record the level (which the state service gates). */
  function SetVolumeEffect(st: DeviceState, stateInitialized: bool, vol: Byte): (r: Effect)
    ensures r.sent == [VolumeCommand(vol)] && r.notices == []
    ensures stateInitialized ==>
              && r.state.volume == vol
              && (r.state.muted <==> st.muted && vol <= st.volume)
              && r.state.(volume := st.volume, muted := st.muted) == st
    ensures !stateInitialized ==> r.state == st
  {
    Effect([VolumeCommand(vol)], VolumeUpdate(st, stateInitialized, vol).state, [])
  }

  /** The level a scroll step aims at, if volume_up / volume_down would send it at all. */
  function VolumeTarget(volume: Byte, up: bool): (r: Option<Byte>)
    ensures r.Some? <==> (if up then volume + SCROLL_STEP_VOLUME <= MAX_VOLUME else volume - SCROLL_STEP_VOLUME >= MIN_VOLUME)
    ensures r.Some? ==> r.value == (if up then volume + SCROLL_STEP_VOLUME else volume - SCROLL_STEP_VOLUME)
    ensures r.Some? && (up || volume <= MAX_VOLUME) ==> MIN_VOLUME <= r.value <= MAX_VOLUME
  {
    var target := if up then volume + SCROLL_STEP_VOLUME else volume - SCROLL_STEP_VOLUME;
    if up && target <= MAX_VOLUME then Some(target)
    else if !up && target >= MIN_VOLUME then Some(target)
    else None
  }

  /**
   * volume_up (up) or volume_down (not up): aim two steps away; send that level
   * and record it when it stays at most MAX_VOLUME going up, at least
   * MIN_VOLUME going down; otherwise do nothing.
   */
  function VolumeStepEffect(st: DeviceState, stateInitialized: bool, up: bool): (r: Effect)
    ensures var t := if up then st.volume + SCROLL_STEP_VOLUME else st.volume - SCROLL_STEP_VOLUME;
            if (up && t <= MAX_VOLUME) || (!up && t >= MIN_VOLUME) then
              && 0 <= t < 256
              && r.sent == [VolumeCommand(t)]
              && r.state == VolumeUpdate(st, stateInitialized, t).state
              && r.notices == []
            else
              r == Silent(st)
  {
    match VolumeTarget(st.volume, up)
    case None => Silent(st)
    case Some(target) => SetVolumeEffect(st, stateInitialized, target)
  }

  /** A run of scroll steps, each one up or down, applied in order. */
  function Scroll(st: DeviceState, stateInitialized: bool, ups: seq<bool>): (r: Effect)
    decreases |ups|
  {
    if ups == [] then Silent(st)
    else
      var first := VolumeStepEffect(st, stateInitialized, ups[0]);
      var rest := Scroll(first.state, stateInitialized, ups[1..]);
      Effect(first.sent + rest.sent, rest.state, first.notices + rest.notices)
  }

  /**
   * Scrolling never takes the recorded volume out of [MIN_VOLUME, MAX_VOLUME]
   * once it is there, and every volume frame it sends asks for a level in that range.
   */
  lemma {:induction false} ScrollKeepsVolumeInRange(st: DeviceState, stateInitialized: bool, ups: seq<bool>)
    requires st.volume <= MAX_VOLUME
    ensures Scroll(st, stateInitialized, ups).state.volume <= MAX_VOLUME
    ensures forall f :: f in Scroll(st, stateInitialized, ups).sent ==>
              exists level: Byte :: level <= MAX_VOLUME && f == VolumeCommand(level)
    decreases |ups|
  {
    if ups != [] {
      var first := VolumeStepEffect(st, stateInitialized, ups[0]);
      ScrollKeepsVolumeInRange(first.state, stateInitialized, ups[1..]);
    }
  }

  /** mute (muted) or unmute (not muted): gated on the command service's own flag. */
  function MuteEffect(st: DeviceState, stateInitialized: bool, commandsInitialized: bool, muted: bool): (r: Effect)
    ensures r.sent != [] <==> commandsInitialized
    ensures r.sent != [] ==> r.sent == [if muted then MUTE_COMMAND else UNMUTE_COMMAND]
    ensures r.state.muted == (if commandsInitialized && stateInitialized then muted else st.muted)
    ensures r.state.(muted := st.muted) == st
    ensures r.notices == (if commandsInitialized && stateInitialized && muted != st.muted then [MutedNotice(muted)] else [])
  {
    if commandsInitialized then
      var m := MutedUpdate(st, stateInitialized, muted);
      Effect([if muted then MUTE_COMMAND else UNMUTE_COMMAND], m.state, m.notices)
    else
      Silent(st)
  }

  /** toggle_mute: power the receiver on first if the record says it is off, then flip the mute flag. */
  function ToggleMuteEffect(st: DeviceState, stateInitialized: bool, commandsInitialized: bool): (r: Effect)
    ensures (r.sent != [] && r.sent[0] == POWER_ON_COMMAND) <==> !st.power
    ensures commandsInitialized ==> r.sent != [] && r.sent[|r.sent| - 1] == (if st.muted then UNMUTE_COMMAND else MUTE_COMMAND)
    ensures |r.sent| == (if st.power then 0 else 1) + (if commandsInitialized then 1 else 0)
    ensures r.state.muted == (if commandsInitialized && stateInitialized then !st.muted else st.muted)
    ensures r.state.(muted := st.muted) == st
    ensures r.notices == (if commandsInitialized && stateInitialized then [MutedNotice(!st.muted)] else [])
  {
    var powerOn := if st.power then [] else [PowerToggleCommand(st.power)];
    var m := MuteEffect(st, stateInitialized, commandsInitialized, !st.muted);
    Effect(powerOn + m.sent, m.state, m.notices)
  }

  /** Toggling the mute twice, once both services are initialized, restores the mute flag and sends mute and unmute once each. */
  lemma ToggleMuteTwiceRestores(st: DeviceState)
    ensures var once := ToggleMuteEffect(st, true, true);
            var twice := ToggleMuteEffect(once.state, true, true);
            && twice.state == st
            && once.sent[|once.sent| - 1] != twice.sent[|twice.sent| - 1]
  {
    var once := ToggleMuteEffect(st, true, true);
    assert once.state == st.(muted := !st.muted);
  }

  /** select_source: only once initialized, for a different source, from an activated menu item. */
  function SelectSourceEffect(st: DeviceState, stateInitialized: bool, commandsInitialized: bool,
                              source: Source, active: bool): (r: Effect)
    ensures r.sent != [] <==> commandsInitialized && active && st.source != Some(source)
    ensures r.sent != [] ==>
              && r.sent == [SourceCommand(source)]
              && r.state.source == Some(source)
              && (stateInitialized ==> r.state.power)
              && r.state.(source := st.source, power := st.power) == st
              && r.notices == (if stateInitialized && !st.power then [PowerNotice(true)] else []) + [SourceNotice(source)]
    ensures r.sent == [] ==> r == Silent(st)
  {
    if commandsInitialized && st.source != Some(source) && active then
      var s := SourceUpdate(st, stateInitialized, source);
      Effect([SourceCommand(source)], s.state, s.notices)
    else
      Silent(st)
  }

  /** Selecting the same source twice sends its command at most once. */
  lemma SelectSourceSendsOnce(st: DeviceState, stateInitialized: bool, commandsInitialized: bool, source: Source)
    ensures var once := SelectSourceEffect(st, stateInitialized, commandsInitialized, source, true);
            SelectSourceEffect(once.state, stateInitialized, commandsInitialized, source, true) == Silent(once.state)
  {
  }

  /** select_sound_field: the same guard as select_source, over the sound field. */
  function SelectSoundFieldEffect(st: DeviceState, commandsInitialized: bool, soundField: SoundField, active: bool): (r: Effect)
    ensures r.sent != [] <==> commandsInitialized && active && st.soundField != Some(soundField)
    ensures r.sent != [] ==>
              && r.sent == [SoundFieldCommand(soundField)]
              && r.state == st.(soundField := Some(soundField))
              && r.notices == []
    ensures r.sent == [] ==> r == Silent(st)
  {
    if commandsInitialized && st.soundField != Some(soundField) && active then
      Effect([SoundFieldCommand(soundField)], SoundFieldUpdate(st, soundField).state, [])
    else
      Silent(st)
  }

  /**
   * set_fmtuner: the preset frame at a list index, Python style (negative
   * indices count from the end); an index outside the list is an error.
   */
  function FmTunerCommand(index: int): (r: Option<Frame>)
    ensures r.Some? <==> -|FM_TUNER_COMMANDS| <= index < |FM_TUNER_COMMANDS|
    ensures r.Some? ==> |r.value| == 7 && r.value[5] == index % 3 + 1 && r.value[5] as int + r.value[6] as int == 0x18
  {
    if 0 <= index < |FM_TUNER_COMMANDS| then Some(FM_TUNER_COMMANDS[index])
    else if -|FM_TUNER_COMMANDS| <= index < 0 then Some(FM_TUNER_COMMANDS[index + |FM_TUNER_COMMANDS|])
    else None
  }

  /** fmtuner_preset_up (up) or fmtuner_preset_down: switch to the FM tuner first when another source is selected. */
  function FmTunerPresetEffect(st: DeviceState, commandsInitialized: bool, up: bool): (r: Effect)
    ensures r.state == st && r.notices == []
    ensures !commandsInitialized ==> r.sent == []
    ensures commandsInitialized ==>
              && r.sent != []
              && r.sent[|r.sent| - 1] == (if up then FM_TUNER_PRESET_UP else FM_TUNER_PRESET_DOWN)
              && (|r.sent| == 2 <==> st.source != Some(FmTuner))
              && (|r.sent| == 2 ==> r.sent[0] == SourceCommand(FmTuner))
              && |r.sent| <= 2
  {
    if commandsInitialized then
      var select := if st.source != Some(FmTuner) then [SourceCommand(FmTuner)] else [];
      Effect(select + [if up then FM_TUNER_PRESET_UP else FM_TUNER_PRESET_DOWN], st, [])
    else
      Silent(st)
  }

  // ---------------------------------------------------------------------------
  // The service object
  // ---------------------------------------------------------------------------

  class CommandService {
    const stateService: StateService
    var initialized: bool
    /** The frames sent so far, oldest first. */
    ghost var sent: seq<Frame>

    constructor (stateService: StateService)
      ensures this.stateService == stateService && !initialized && sent == []
    {
      this.stateService := stateService;
      initialized := false;
      sent := [];
    }

    /** send_command: one frame over a fresh connection. */
    method SendCommand(cmd: Frame)
      modifies this`sent
      ensures sent == old(sent) + [cmd]
    {
      sent := sent + [cmd];
    }

    method TogglePower()
      modifies this`sent
      ensures sent == old(sent) + [PowerToggleCommand(stateService.states.power)]
    {
      if stateService.states.power {
        SendCommand(POWER_OFF_COMMAND);
      } else {
        SendCommand(POWER_ON_COMMAND);
      }
    }

    method SetVolume(vol: Byte)
      modifies this`sent, stateService`states
      ensures var e := SetVolumeEffect(old(stateService.states), stateService.initialized, vol);
              sent == old(sent) + e.sent && stateService.states == e.state
    {
      SendCommand(VolumeCommand(vol));
      stateService.UpdateVolume(vol);
    }

    method VolumeUp()
      modifies this`sent, stateService`states
      ensures var e := VolumeStepEffect(old(stateService.states), stateService.initialized, true);
              sent == old(sent) + e.sent && stateService.states == e.state
    {
      var targetVolume := stateService.states.volume + SCROLL_STEP_VOLUME;
      if targetVolume <= MAX_VOLUME {
        SetVolume(targetVolume);
      }
    }

    method VolumeDown()
      modifies this`sent, stateService`states
      ensures var e := VolumeStepEffect(old(stateService.states), stateService.initialized, false);
              sent == old(sent) + e.sent && stateService.states == e.state
    {
      var targetVolume := stateService.states.volume - SCROLL_STEP_VOLUME;
      if targetVolume >= MIN_VOLUME {
        SetVolume(targetVolume);
      }
    }

    method Mute()
      modifies this`sent, stateService`states, stateService`shown
      ensures var e := MuteEffect(old(stateService.states), stateService.initialized, initialized, true);
              sent == old(sent) + e.sent && stateService.states == e.state
              && stateService.shown == old(stateService.shown) + e.notices
    {
      if initialized {
        SendCommand(MUTE_COMMAND);
        stateService.UpdateMuted(true);
      }
    }

    method Unmute()
      modifies this`sent, stateService`states, stateService`shown
      ensures var e := MuteEffect(old(stateService.states), stateService.initialized, initialized, false);
              sent == old(sent) + e.sent && stateService.states == e.state
              && stateService.shown == old(stateService.shown) + e.notices
    {
      if initialized {
        SendCommand(UNMUTE_COMMAND);
        stateService.UpdateMuted(false);
      }
    }

    method ToggleMute()
      modifies this`sent, stateService`states, stateService`shown
      ensures var e := ToggleMuteEffect(old(stateService.states), stateService.initialized, initialized);
              sent == old(sent) + e.sent && stateService.states == e.state
              && stateService.shown == old(stateService.shown) + e.notices
    {
      if !stateService.states.power {
        TogglePower();
      }
      if stateService.states.muted {
        Unmute();
      } else {
        Mute();
      }
    }

    method SelectSource(source: Source, active: bool)
      modifies this`sent, stateService`states, stateService`shown
      ensures var e := SelectSourceEffect(old(stateService.states), stateService.initialized, initialized, source, active);
              sent == old(sent) + e.sent && stateService.states == e.state
              && stateService.shown == old(stateService.shown) + e.notices
    {
      if initialized && stateService.states.source != Some(source) && active {
        stateService.UpdateSource(source);
        SendCommand(SourceCommand(source));
      }
    }

    method SelectSoundField(soundField: SoundField, active: bool)
      modifies this`sent, stateService`states
      ensures var e := SelectSoundFieldEffect(old(stateService.states), initialized, soundField, active);
              sent == old(sent) + e.sent && stateService.states == e.state
    {
      if initialized && stateService.states.soundField != Some(soundField) && active {
        stateService.UpdateSoundField(soundField);
        SendCommand(SoundFieldCommand(soundField));
      }
    }

    /** set_fmtuner; an index outside the preset list sends nothing and reports the error. */
    method SetFmTuner(index: int) returns (ok: bool)
      modifies this`sent
      ensures var cmd := FmTunerCommand(index);
              ok == cmd.Some? && sent == old(sent) + (if ok then [cmd.value] else [])
    {
      var cmd := FmTunerCommand(index);
      ok := cmd.Some?;
      if ok {
        SendCommand(cmd.value);
      }
    }

    method FmTunerPresetUp()
      modifies this`sent
      ensures sent == old(sent) + FmTunerPresetEffect(stateService.states, initialized, true).sent
    {
      if initialized {
        if stateService.states.source != Some(FmTuner) {
          SendCommand(SourceCommand(FmTuner));
        }
        SendCommand(FM_TUNER_PRESET_UP);
      }
    }

    method FmTunerPresetDown()
      modifies this`sent
      ensures sent == old(sent) + FmTunerPresetEffect(stateService.states, initialized, false).sent
    {
      if initialized {
        if stateService.states.source != Some(FmTuner) {
          SendCommand(SourceCommand(FmTuner));
        }
        SendCommand(FM_TUNER_PRESET_DOWN);
      }
    }
  }

  /** set_initialized: switch the state service and the command service on or off together. */
  method SetInitialized(commands: CommandService, initialized: bool)
    modifies commands`initialized, commands.stateService`initialized
    ensures commands.initialized == initialized && commands.stateService.initialized == initialized
  {
    commands.initialized := initialized;
    commands.stateService.initialized := initialized;
  }
}
