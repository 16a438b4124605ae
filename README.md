# sony-av-indicator, modelled in Dafny

sony-av-indicator is a desktop tray indicator for Sony AV receivers. It
talks to the receiver over a small binary TCP protocol. Every frame starts
with the marker byte `0x02`, followed by a length byte, a category byte, a
command byte and a payload.

The indicator has three parts:

- a feedback watcher, which reads frames the receiver pushes and decodes
  them into reports;
- a state service, which keeps one record of what the receiver is doing and
  decides which changes are worth a desktop notification;
- a command service, which turns menu picks and scroll steps into frames
  sent to the receiver, alongside updates to the record.

This project models these three parts, the byte tables they share, and the
choice of the volume icon. It proves the following:

- the seven feedback decoders exclude each other, so the order in which
  the watcher tries them does not matter;
- every report has a frame that decodes back to it;
- the update rules hold: power and mute updates wait for initialization
  while the source is always stored (only the power-on a source report
  forces waits), a volume rise clearing mute, an FM
  report selecting the FM tuner, and the timer notification policy;
- every command sends exactly the frames its guards allow, in order;
- scrolling keeps the volume within [0, 45].

Module layout:

- `Frames` (`frames.dfy`): the byte tables.
- `Decoders` (`decoders.dfy`): the `check_*` decoders and the dispatch
  order of the read loop.
- `State` (`state_service.dfy`): the update rules as functions, and the
  `StateService` class whose methods are proved equal to them.
- `Feedback` (`feedback_watcher.dfy`): the effect of one received chunk.
- `Commands` (`command_service.dfy`): each command as an effect function,
  and the `CommandService` class.
- `Indicator` (`indicator.dfy`): the volume icon.

How the model represents the source:

- Bytes are `int`s in `[0, 256)`.
- A dictionary of frames is a function from its key type to an optional
  frame, plus the key list the decoder scans.
- Notifications are kept as values (`Notice`), in the order they would be
  shown; their text is left out.
- Sending a frame appends it to a log.

The source's `StateService` declares a `__setattr_` (one trailing
underscore), so it never intercepts writes. Each assignment such as
`self.muted = False` therefore creates an instance attribute, which later
reads find before `__getattr__` falls back to the `states` dictionary. The
effect is one current value per key, which is what the `DeviceState`
record holds.

## Model

| member | source | states |
|---|---|---|
| Frames.SourceCommand | sony-av-indicator.py:44-57 | every source, amTuner included, has a 7-byte select frame `02 04 A0 42 00 code 00` |
| Frames.SoundFieldCommand | sony-av-indicator.py:60-78 | every sound field has a 6-byte select frame `02 03 A3 42 code 00` |
| Frames.VolumeCommand | sony-av-indicator.py:439-441 | the volume frame is 9 bytes: the fixed header, the level at byte 7 and a zero byte |
| Frames.FeedbackSource | sony-av-indicator.py:108-121 | exactly the eleven sources other than amTuner have a feedback prefix, `02 07 A8 82 00 code 00` |
| Frames.FeedbackSoundField | sony-av-indicator.py:127-145 | every sound field has a 6-byte feedback frame `02 04 AB 82 code 00` |
| Frames.FeedbackSoundOptimizer | sony-av-indicator.py:150-154 | the three optimizer settings have 6-byte feedback frames `02 04 AB 92 48 n` |
| Frames.LastMatch | sony-av-indicator.py:583-589 | the scan over a dictionary answers a key present in the key list whose frame is the chunk, and answers nothing exactly when no listed key matches |
| Frames.LastMatchIsReverseLookup | sony-av-indicator.py:583-589 | when no two keys share a frame, the scan answers k exactly when k is listed and its frame is the chunk, whatever the order of iteration |
| Frames.FeedbackTablesInjective | sony-av-indicator.py:108-154 | no two keys of the source, sound-field or optimizer feedback tables share a frame |
| Frames.SourceKeysCover | sony-av-indicator.py:108-121 | the scanned source keys are exactly the sources that have a feedback frame |
| Frames.SoundFieldKeysCover | sony-av-indicator.py:127-145 | every sound field is scanned |
| Frames.SoundOptimizerKeysCover | sony-av-indicator.py:150-154 | every optimizer setting is scanned |
| Frames.CommandTablesInjective | sony-av-indicator.py:44-78 | distinct sources, and distinct sound fields, are selected with distinct frames |
| Frames.CodeBytesLineUp | sony-av-indicator.py:107-121 | a source's feedback code equals its command code except for video, reported as 0xFF but selected with 0x10; sound-field codes always agree |
| Frames.FramesStartWithMarker | sony-av-indicator.py:44-160 | every frame the program sends or matches starts with the marker 0x02: the table frames in both directions, the power, mute, preset and pure-direct commands, every volume command, and the timer, FM and volume feedback prefixes |
| Frames.VolumeTemplateMatchesTable | sony-av-indicator.py:89-90 | the volume frame at level 0 is the minimum-volume command, and at 0x4A the maximum-volume command, which lies above MAX_VOLUME |
| Decoders.DecodeTimer | sony-av-indicator.py:608-619 | a timer report is accepted exactly for a 7-byte chunk with the timer prefix and a set/update/off kind byte; hours and minutes are bytes 4 and 5 |
| Decoders.DecodeSource | sony-av-indicator.py:566-581 | a source report is accepted exactly for a 9-byte chunk whose first 7 bytes are a source's prefix; the status is byte 7 |
| Decoders.DecodeSoundField | sony-av-indicator.py:583-589 | accepted exactly when the chunk is a sound field's frame, and reports that sound field |
| Decoders.DecodePureDirect | sony-av-indicator.py:591-598 | accepted exactly for the on or the off frame, reporting on iff it was the on frame |
| Decoders.DecodeSoundOptimizer | sony-av-indicator.py:600-606 | accepted exactly when the chunk is an optimizer frame, and reports that setting |
| Decoders.DecodeFmTuner | sony-av-indicator.py:621-631 | declines iff there is no FM prefix; fails with an index error iff the prefix is there but the chunk is shorter than 9 bytes; otherwise reports preset byte 5, stereo iff byte 6 is not the mono marker, and code byte7*255+byte8 |
| Decoders.DecodeVolume | sony-av-indicator.py:560-564 | accepted exactly for an 8-byte chunk with the volume prefix; the level is the last byte |
| Decoders.FirstMatch | sony-av-indicator.py:655-662 | the chunk is unknown iff every decoder in the order declines; otherwise the answer is some decoder's answer |
| Decoders.Dispatch | sony-av-indicator.py:655-662 | unknown iff all seven decoders decline; every accepted report has a frame the receiver can send |
| Decoders.AnswerCarriesSignature | sony-av-indicator.py:560-631 | any chunk a decoder does not decline carries that decoder's length, category and command bytes |
| Decoders.DecodersExclusive | sony-av-indicator.py:560-631 | no chunk is answered by two different decoders |
| Decoders.FirstMatchIsAnyMatch | sony-av-indicator.py:655-662 | the read loop's answer is the answer of any decoder that does not decline |
| Decoders.DispatchOrderIrrelevant | sony-av-indicator.py:655-662 | trying the decoders in any order that contains all of them gives the same answer |
| Decoders.DecodeReportFrame | sony-av-indicator.py:560-631 | every reportable event's frame is accepted by its decoder as that event |
| Decoders.DispatchRoundTrip | sony-av-indicator.py:655-662 | every reportable event's frame, fed to the read loop, is accepted as that event |
| State.PowerUpdate | sony-av-indicator.py:297-308 | power is stored only once initialized; one notification, exactly when it changes |
| State.VolumeUpdate | sony-av-indicator.py:310-320 | once initialized the level is stored and a rise clears the mute flag; before that nothing changes; never a notification |
| State.MutedUpdate | sony-av-indicator.py:322-336 | the mute flag is stored only once initialized; one notification, exactly when it changes |
| State.SourceUpdate | sony-av-indicator.py:338-346 | the source is always stored and forces power on once initialized; a power notification when that turns power on, then a source notification iff the source changed |
| State.SoundFieldUpdate | sony-av-indicator.py:348-354 | the sound field is always stored, without notification |
| State.PureDirectUpdate | sony-av-indicator.py:356-365 | stored and notified on every report once initialized; ignored before |
| State.SoundOptimizerUpdate | sony-av-indicator.py:367-373 | stored and notified on every report once initialized; ignored before |
| State.TimerNotices | sony-av-indicator.py:381-387 | "off" and a fresh "set" always notify; a periodic update notifies iff less than 15 minutes remain |
| State.TimerUpdate | sony-av-indicator.py:375-387 | the timer fields are always stored, with the notifications of the timer policy |
| State.FmTunerUpdate | sony-av-indicator.py:389-397 | preset, stereo flag and frequency are stored and notified once initialized; ignored before |
| State.RepeatedUpdatesAreSilent | sony-av-indicator.py:297-346 | repeating a power, mute or source update changes nothing and shows nothing |
| State.CountdownContinues | sony-av-indicator.py:385-387 | once the countdown notification starts, every later periodic update notifies too |
| State.StateService.constructor | sony-av-indicator.py:237-257 | the service starts uninitialized, with the default record: power on, volume 15, everything else unknown or off |
| State.StateService.UpdatePower | sony-av-indicator.py:297-308 | the record and the notifications become those of PowerUpdate |
| State.StateService.UpdateVolume | sony-av-indicator.py:310-320 | the record becomes that of VolumeUpdate |
| State.StateService.UpdateMuted | sony-av-indicator.py:322-336 | the record and the notifications become those of MutedUpdate |
| State.StateService.UpdateSource | sony-av-indicator.py:338-346 | the record and the notifications become those of SourceUpdate |
| State.StateService.UpdateSoundField | sony-av-indicator.py:348-354 | the record becomes that of SoundFieldUpdate |
| State.StateService.UpdatePureDirect | sony-av-indicator.py:356-365 | the record and the notifications become those of PureDirectUpdate |
| State.StateService.UpdateSoundOptimizer | sony-av-indicator.py:367-373 | the record and the notifications become those of SoundOptimizerUpdate |
| State.StateService.UpdateTimer | sony-av-indicator.py:375-387 | the record and the notifications become those of TimerUpdate |
| State.StateService.UpdateFmTuner | sony-av-indicator.py:389-397 | the record and the notifications become those of FmTunerUpdate |
| Feedback.Apply | sony-av-indicator.py:560-631 | for every report kind, the whole new record: a timer report stores the timer and gives the timer notices; a source report selects its source and, once initialized, sets power off on 0x10, on for 0x11/0x13 and the mute flag on 0x11/0x13; a sound-field report stores the field; pure-direct and optimizer reports store their setting once initialized; an FM report selects the FM tuner, forces power on once initialized, and then also stores preset, stereo and frequency; a volume report stores the level and a rise unmutes; every other field is unchanged, and before initialization only source, sound field and timer change; the notices of every kind, including a source report's forced power-on, source change and status change, and an FM report's tuner notice followed by the forced power-on and source change |
| Feedback.SourceReportStep | sony-av-indicator.py:566-581 | a source report selects its source; once initialized power is off iff the status is 0x10 and the mute flag follows 0x11/0x13; notices are the forced power-on, the source change, then the power-off or the mute change; nothing else changes |
| Feedback.FmTunerReportStep | sony-av-indicator.py:621-631 | an FM report selects the FM tuner; once initialized it forces power on and stores preset, stereo and frequency; notices are the tuner notice, the forced power-on, then the source change; nothing else changes |
| Feedback.StatusUpdate | sony-av-indicator.py:573-580 | once initialized, status 0x10 turns power off, 0x11 turns power on and unmutes, 0x13 turns power on and mutes, any other status changes nothing; before initialization nothing changes; no other field is touched; a power or mute notice appears exactly for a flag that changes, power first |
| Feedback.SourceFrameSelectsSource | sony-av-indicator.py:566-581 | a received source frame selects that source; once initialized power is on iff the status is not 0x10, and before that power is unchanged |
| Feedback.VolumeFrameClearsMuteOnRise | sony-av-indicator.py:560-564 | once initialized, a received volume frame stores the level and the record stays muted iff it was muted and the level did not rise; before that level and mute flag are unchanged |
| Feedback.FmTunerFrameSelectsTuner | sony-av-indicator.py:621-631 | a received 9-byte FM frame selects the FM tuner and, once initialized, stores its preset |
| Feedback.ShortFmTunerFrameFails | sony-av-indicator.py:621-631 | a chunk with the FM prefix but fewer than 9 bytes ends the pass with an index error |
| Feedback.TimerFrameNotices | sony-av-indicator.py:608-619 | a received timer frame produces exactly the notifications of the timer policy |
| Feedback.FeedbackWatcher.constructor | sony-av-indicator.py:550-554 | the watcher works on the given state service |
| Feedback.FeedbackWatcher.ReportSource | sony-av-indicator.py:566-581 | the source update, then the power and mute updates the status byte calls for |
| Feedback.FeedbackWatcher.ReportFmTuner | sony-av-indicator.py:621-631 | the tuner update, then the source update to the FM tuner |
| Feedback.FeedbackWatcher.Report | sony-av-indicator.py:560-631 | handing a report to the state service has exactly the effect of Apply |
| Feedback.FeedbackWatcher.Receive | sony-av-indicator.py:648-669 | a pass of the read loop answers Dispatch; an accepted chunk has the effect of Apply, and any other chunk changes nothing |
| Commands.PowerToggleCommand | sony-av-indicator.py:433-437 | the power-off frame is sent iff the record shows power on, the power-on frame iff off |
| Commands.SetVolumeEffect | sony-av-indicator.py:439-442 | sends the one volume frame for the level; once the state service is initialized the level is recorded, the record stays muted iff it was muted and the level did not rise, and nothing else changes; before that the record is unchanged |
| Commands.VolumeTarget | sony-av-indicator.py:444-452 | a scroll step aims at volume ± 2 and is taken iff that stays at most 45 going up, at least 0 going down; from inside [0, 45] it stays inside |
| Commands.VolumeStepEffect | sony-av-indicator.py:444-452 | with the target the recorded volume plus or minus 2: if the target is within 45 (going up) or at least 0 (going down), exactly the volume frame for the target is sent and the record becomes that of a volume report at the target; otherwise nothing is sent and nothing changes |
| Commands.ScrollKeepsVolumeInRange | sony-av-indicator.py:444-452 | from a volume within [0, 45], any run of scroll steps keeps the recorded volume there and only sends volume frames with levels there |
| Commands.MuteEffect | sony-av-indicator.py:454-462 | mute/unmute sends its frame iff the command service is initialized; the flag changes only when both services are, and the muted or unmuted notice appears exactly when it changes |
| Commands.ToggleMuteEffect | sony-av-indicator.py:464-470 | power-on is sent first iff the record shows power off; then unmute if muted, else mute, when initialized; the flag flips, with its muted or unmuted notice, when both services are initialized |
| Commands.ToggleMuteTwiceRestores | sony-av-indicator.py:464-470 | toggling twice restores the record, and the two toggles end with different frames |
| Commands.SelectSourceEffect | sony-av-indicator.py:472-475 | sends the source frame iff initialized, active and the source differs; then the source is recorded and power forced on, with the power-on notice if power was off and the source notice; otherwise nothing happens |
| Commands.SelectSourceSendsOnce | sony-av-indicator.py:472-475 | selecting the same source again right after sends nothing and changes nothing |
| Commands.SelectSoundFieldEffect | sony-av-indicator.py:477-480 | sends the sound-field frame iff initialized, active and the field differs, and then records exactly that field; otherwise nothing happens |
| Commands.FmTunerCommand | sony-av-indicator.py:80-84 | a preset index in [-3, 3) picks a frame whose byte 5 is the preset number (index mod 3) + 1, with bytes 5 and 6 summing to 0x18; any other index is an error |
| Commands.FmTunerPresetEffect | sony-av-indicator.py:485-495 | once initialized, the preset frame is sent last, preceded by the FM tuner select frame iff another source is recorded; the record is untouched |
| Commands.CommandService.constructor | sony-av-indicator.py:410-412 | the service starts uninitialized, on the given state service, with nothing sent |
| Commands.CommandService.SendCommand | sony-av-indicator.py:422-428 | the frame is appended to the frames sent |
| Commands.CommandService.TogglePower | sony-av-indicator.py:433-437 | sends PowerToggleCommand of the recorded power |
| Commands.CommandService.SetVolume | sony-av-indicator.py:439-442 | has exactly the effect of SetVolumeEffect |
| Commands.CommandService.VolumeUp | sony-av-indicator.py:444-447 | has exactly the effect of an upward VolumeStepEffect |
| Commands.CommandService.VolumeDown | sony-av-indicator.py:449-452 | has exactly the effect of a downward VolumeStepEffect |
| Commands.CommandService.Mute | sony-av-indicator.py:454-457 | has exactly the effect of MuteEffect towards muted |
| Commands.CommandService.Unmute | sony-av-indicator.py:459-462 | has exactly the effect of MuteEffect towards unmuted |
| Commands.CommandService.ToggleMute | sony-av-indicator.py:464-470 | has exactly the effect of ToggleMuteEffect |
| Commands.CommandService.SelectSource | sony-av-indicator.py:472-475 | has exactly the effect of SelectSourceEffect |
| Commands.CommandService.SelectSoundField | sony-av-indicator.py:477-480 | has exactly the effect of SelectSoundFieldEffect |
| Commands.CommandService.SetFmTuner | sony-av-indicator.py:482-483 | sends the preset frame of FmTunerCommand, or reports the index error and sends nothing |
| Commands.CommandService.FmTunerPresetUp | sony-av-indicator.py:485-489 | sends the frames of FmTunerPresetEffect going up |
| Commands.CommandService.FmTunerPresetDown | sony-av-indicator.py:491-495 | sends the frames of FmTunerPresetEffect going down |
| Commands.SetInitialized | sony-av-indicator.py:721-725 | the state service and the command service are switched on or off together |
| Indicator.VolumeIconFor | sony-av-indicator.py:727-738 | muted shows the muted icon; otherwise 0 shows zero, (0, 15] low, (15, 30] medium and anything above high |
| Indicator.IconNamesDistinct | sony-av-indicator.py:727-738 | every icon has its own file name |
| Indicator.IconFollowsVolume | sony-av-indicator.py:727-738 | unmuted, a louder level never shows a quieter icon |
| Indicator.RaisingVolumeClearsMutedIcon | sony-av-indicator.py:310-316 | after a volume rise is recorded, the icon is neither muted nor zero |

## Left out

- Sockets and TCP I/O are not modelled. This covers `send_command` (the frame is appended to a log instead), both `connect` methods, `reconnect`, `kill`, and the `recv`/exception/reconnect loop of the watcher's `run`. `Receive` models one pass over one chunk; an index error stands for the exception that makes the loop reconnect.
- Chunk boundaries are not modelled: a chunk is taken to be exactly one frame, as the decoders assume.
- Subnet discovery (`DeviceService`, `ScanPort`) is not modelled. It is host-name lookup, a UDP routing trick and 253 probe threads.
- The FM frequency is floating point, `round((code / 99.5) - 0.1, 1)`. The model keeps only the integer `code = byte7 * 255 + byte8`.
- GTK, AppIndicator and libnotify are not modelled: menus, labels, icon paths, `show_notification`, `update_label`, `set_volume_icon` and signal setup. Notifications are kept as `Notice` values without their text, so the `FM_TUNER_MENU_MAP` lookup in the FM notification is also gone; it would raise a KeyError for a preset outside 1 to 30.
- The scroll handler (`scroll`) is not modelled as such. `Commands.Scroll` only strings together the `volume_up`/`volume_down` steps it calls.
- Feedback.Apply: for source and sound-field reports, the source goes through the menu: the decoder activates a radio item whose callback is `select_source`/`select_sound_field`, which is gated on the command service's flag and also sends the frame back. The model applies `update_source`/`update_sound_field` directly instead, so it does not capture that round trip, nor the guards on it: `set_active(True)` on the item already active fires no callback (sony-av-indicator.py:764), and `select_source` needs a different source (473). A consequence is in the notices: once initialized, with power recorded off, a standby report (status 0x10) for the source already recorded shows a power-on notice and then a power-off notice in the model, where the program shows nothing.
- Feedback.FmTunerFrameSelectsTuner: once initialized, a preset byte outside 1 to 30 makes `update_fmtuner` raise a KeyError in its notification (sony-av-indicator.py:397), after it has stored the tuner fields (391-393). `update_source("fmTuner")` (629) then never runs, and the read loop reconnects (664-667). The model does not capture this path: it always selects the FM tuner.
- Debug printing (`debug_data` and the print statements) is not modelled.
- Commands.CommandService.SetVolume: the level is a byte by type. In the source, `bytearray` raises for a level outside [0, 256), and that error path is not modelled. Every caller in the source passes a byte.
- Python 2 dictionary iteration order is hash-based. The key lists follow the source text, and `Frames.LastMatchIsReverseLookup` shows that the order does not change the result.
- The zone byte of the command frames is fixed at zone 1, as in the source's tables.
