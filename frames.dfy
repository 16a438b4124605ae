/**
 * The receiver's binary frame tables: the fixed command frames the indicator
 * sends on TCP port 33335 and the fixed prefixes of the feedback frames the
 * receiver reports back.  Every frame is reproduced byte for byte, including
 * the trailing byte whose meaning (checksum or zero) differs between commands.
 */
module Frames {
  import opened Wrappers

  /** One octet on the wire, as the integer value `ord` gives in the source. */
  type Byte = x: int | 0 <= x < 256
  type Frame = seq<Byte>

  const MIN_VOLUME: Byte := 0
  const LOW_VOLUME: Byte := 15
  const MEDIUM_VOLUME: Byte := 30
  const MAX_VOLUME: Byte := 45

  /** The first byte of every frame in both directions. */
  const MARKER: Byte := 0x02

  datatype Source =
    | BdDvd | Game | SatCaTv | Video | Tv | SaCd | FmTuner | AmTuner
    | Bluetooth | Usb | HomeNetwork | ScreenMirroring

  datatype SoundField =
    | TwoChannelStereo | AnalogDirect | MultiStereo | Afd | Pl2Movie | Neo6Cinema
    | HdDcs | Pl2Music | Neo6Music | ConcertHallA | ConcertHallB | ConcertHallC
    | JazzClub | LiveConcert | Stadium | Sports | PortableAudio

  datatype SoundOptimizer = Off | Normal | Low

  // ---------------------------------------------------------------------------
  // Outbound command frames
  // ---------------------------------------------------------------------------

  /** The source-selection command for zone 1; every entry shares the 5-byte header. */
  function SourceCommand(s: Source): (f: Frame)
    ensures |f| == 7 && f[..5] == [0x02, 0x04, 0xA0, 0x42, 0x00] && f[6] == 0x00
  {
    match s
    case BdDvd =>           [0x02, 0x04, 0xA0, 0x42, 0x00, 0x1B, 0x00]
    case Game =>            [0x02, 0x04, 0xA0, 0x42, 0x00, 0x1C, 0x00]
    case SatCaTv =>         [0x02, 0x04, 0xA0, 0x42, 0x00, 0x16, 0x00]
    case Video =>           [0x02, 0x04, 0xA0, 0x42, 0x00, 0x10, 0x00]
    case Tv =>              [0x02, 0x04, 0xA0, 0x42, 0x00, 0x1A, 0x00]
    case SaCd =>            [0x02, 0x04, 0xA0, 0x42, 0x00, 0x02, 0x00]
    case FmTuner =>         [0x02, 0x04, 0xA0, 0x42, 0x00, 0x2E, 0x00]
    case AmTuner =>         [0x02, 0x04, 0xA0, 0x42, 0x00, 0x2F, 0x00]
    case Bluetooth =>       [0x02, 0x04, 0xA0, 0x42, 0x00, 0x33, 0x00]
    case Usb =>             [0x02, 0x04, 0xA0, 0x42, 0x00, 0x34, 0x00]
    case HomeNetwork =>     [0x02, 0x04, 0xA0, 0x42, 0x00, 0x3D, 0x00]
    case ScreenMirroring => [0x02, 0x04, 0xA0, 0x42, 0x00, 0x40, 0x00]
  }

  /** The sound-field command; every entry shares the 4-byte header and ends in 0x00. */
  function SoundFieldCommand(sf: SoundField): (f: Frame)
    ensures |f| == 6 && f[..4] == [0x02, 0x03, 0xA3, 0x42] && f[5] == 0x00
  {
    match sf
    case TwoChannelStereo => [0x02, 0x03, 0xA3, 0x42, 0x00, 0x00]
    case AnalogDirect =>     [0x02, 0x03, 0xA3, 0x42, 0x02, 0x00]
    case MultiStereo =>      [0x02, 0x03, 0xA3, 0x42, 0x27, 0x00]
    case Afd =>              [0x02, 0x03, 0xA3, 0x42, 0x21, 0x00]
    case Pl2Movie =>         [0x02, 0x03, 0xA3, 0x42, 0x23, 0x00]
    case Neo6Cinema =>       [0x02, 0x03, 0xA3, 0x42, 0x25, 0x00]
    case HdDcs =>            [0x02, 0x03, 0xA3, 0x42, 0x33, 0x00]
    case Pl2Music =>         [0x02, 0x03, 0xA3, 0x42, 0x24, 0x00]
    case Neo6Music =>        [0x02, 0x03, 0xA3, 0x42, 0x26, 0x00]
    case ConcertHallA =>     [0x02, 0x03, 0xA3, 0x42, 0x1E, 0x00]
    case ConcertHallB =>     [0x02, 0x03, 0xA3, 0x42, 0x1F, 0x00]
    case ConcertHallC =>     [0x02, 0x03, 0xA3, 0x42, 0x38, 0x00]
    case JazzClub =>         [0x02, 0x03, 0xA3, 0x42, 0x16, 0x00]
    case LiveConcert =>      [0x02, 0x03, 0xA3, 0x42, 0x19, 0x00]
    case Stadium =>          [0x02, 0x03, 0xA3, 0x42, 0x1B, 0x00]
    case Sports =>           [0x02, 0x03, 0xA3, 0x42, 0x20, 0x00]
    case PortableAudio =>    [0x02, 0x03, 0xA3, 0x42, 0x30, 0x00]
  }

  /** The three FM tuner channel selectors, indexed 0..2. */
  const FM_TUNER_COMMANDS: seq<Frame> := [
    [0x02, 0x04, 0xA1, 0x42, 0x01, 0x01, 0x17],
    [0x02, 0x04, 0xA1, 0x42, 0x01, 0x02, 0x16],
    [0x02, 0x04, 0xA1, 0x42, 0x01, 0x03, 0x15]
  ]

  const FM_TUNER_PRESET_DOWN: Frame := [0x02, 0x02, 0xA1, 0x0C, 0x51, 0x00]
  const FM_TUNER_PRESET_UP: Frame :=   [0x02, 0x02, 0xA1, 0x0B, 0x52, 0x00]

  const MIN_VOLUME_COMMAND: Frame := [0x02, 0x06, 0xA0, 0x52, 0x00, 0x03, 0x00, 0x00, 0x00]
  const MAX_VOLUME_COMMAND: Frame := [0x02, 0x06, 0xA0, 0x52, 0x00, 0x03, 0x00, 0x4A, 0x00]

  const MUTE_COMMAND: Frame :=   [0x02, 0x04, 0xA0, 0x53, 0x00, 0x01, 0x00]
  const UNMUTE_COMMAND: Frame := [0x02, 0x04, 0xA0, 0x53, 0x00, 0x00, 0x00]

  const POWER_ON_COMMAND: Frame :=  [0x02, 0x04, 0xA0, 0x60, 0x00, 0x01, 0x00]
  const POWER_OFF_COMMAND: Frame := [0x02, 0x04, 0xA0, 0x60, 0x00, 0x00, 0x00]

  /** The parametric volume command: the level is substituted at offset 7. */
  function VolumeCommand(vol: Byte): (f: Frame)
    ensures |f| == 9 && f[..7] == MIN_VOLUME_COMMAND[..7] && f[8] == 0x00
    ensures f[7] == vol
  {
    [0x02, 0x06, 0xA0, 0x52, 0x00, 0x03, 0x00, vol, 0x00]
  }

  // ---------------------------------------------------------------------------
  // Inbound feedback frames
  // ---------------------------------------------------------------------------

  const TIMER_PREFIX: Frame := [0x02, 0x05, 0xA8, 0x90]
  const TIMER_SET: Byte := 0x00
  const TIMER_UPDATE: Byte := 0x3B
  const TIMER_OFF: Byte := 0xFF

  /**
   * The source-report dictionary: each prefix is followed by a power/mute byte
   * and one more byte.  There is no entry for the AM tuner.
   */
  function FeedbackSource(s: Source): (r: Option<Frame>)
    ensures r.Some? <==> s != AmTuner
    ensures r.Some? ==> |r.value| == 7 && r.value[..5] == [0x02, 0x07, 0xA8, 0x82, 0x00] && r.value[6] == 0x00
  {
    match s
    case BdDvd =>           Some([0x02, 0x07, 0xA8, 0x82, 0x00, 0x1B, 0x00])
    case Game =>            Some([0x02, 0x07, 0xA8, 0x82, 0x00, 0x1C, 0x00])
    case SatCaTv =>         Some([0x02, 0x07, 0xA8, 0x82, 0x00, 0x16, 0x00])
    case Video =>           Some([0x02, 0x07, 0xA8, 0x82, 0x00, 0xFF, 0x00])
    case Tv =>              Some([0x02, 0x07, 0xA8, 0x82, 0x00, 0x1A, 0x00])
    case SaCd =>            Some([0x02, 0x07, 0xA8, 0x82, 0x00, 0x02, 0x00])
    case FmTuner =>         Some([0x02, 0x07, 0xA8, 0x82, 0x00, 0x2E, 0x00])
    case AmTuner =>         None
    case Bluetooth =>       Some([0x02, 0x07, 0xA8, 0x82, 0x00, 0x33, 0x00])
    case Usb =>             Some([0x02, 0x07, 0xA8, 0x82, 0x00, 0x34, 0x00])
    case HomeNetwork =>     Some([0x02, 0x07, 0xA8, 0x82, 0x00, 0x3D, 0x00])
    case ScreenMirroring => Some([0x02, 0x07, 0xA8, 0x82, 0x00, 0x40, 0x00])
  }

  /** The keys of the source-report dictionary, in the order the table lists them. */
  const FEEDBACK_SOURCE_KEYS: seq<Source> := [
    BdDvd, Game, SatCaTv, Video, Tv, SaCd, FmTuner, Bluetooth, Usb, HomeNetwork, ScreenMirroring
  ]

  const FEEDBACK_POWER_OFF: Byte := 0x10
  const FEEDBACK_MUTE_OFF: Byte := 0x11
  const FEEDBACK_MUTE_ON: Byte := 0x13

  /** The sound-field report dictionary: whole frames, one per sound field. */
  function FeedbackSoundField(sf: SoundField): (f: Frame)
    ensures |f| == 6 && f[..4] == [0x02, 0x04, 0xAB, 0x82] && f[5] == 0x00
  {
    match sf
    case TwoChannelStereo => [0x02, 0x04, 0xAB, 0x82, 0x00, 0x00]
    case AnalogDirect =>     [0x02, 0x04, 0xAB, 0x82, 0x02, 0x00]
    case MultiStereo =>      [0x02, 0x04, 0xAB, 0x82, 0x27, 0x00]
    case Afd =>              [0x02, 0x04, 0xAB, 0x82, 0x21, 0x00]
    case Pl2Movie =>         [0x02, 0x04, 0xAB, 0x82, 0x23, 0x00]
    case Neo6Cinema =>       [0x02, 0x04, 0xAB, 0x82, 0x25, 0x00]
    case HdDcs =>            [0x02, 0x04, 0xAB, 0x82, 0x33, 0x00]
    case Pl2Music =>         [0x02, 0x04, 0xAB, 0x82, 0x24, 0x00]
    case Neo6Music =>        [0x02, 0x04, 0xAB, 0x82, 0x26, 0x00]
    case ConcertHallA =>     [0x02, 0x04, 0xAB, 0x82, 0x1E, 0x00]
    case ConcertHallB =>     [0x02, 0x04, 0xAB, 0x82, 0x1F, 0x00]
    case ConcertHallC =>     [0x02, 0x04, 0xAB, 0x82, 0x38, 0x00]
    case JazzClub =>         [0x02, 0x04, 0xAB, 0x82, 0x16, 0x00]
    case LiveConcert =>      [0x02, 0x04, 0xAB, 0x82, 0x19, 0x00]
    case Stadium =>          [0x02, 0x04, 0xAB, 0x82, 0x1B, 0x00]
    case Sports =>           [0x02, 0x04, 0xAB, 0x82, 0x20, 0x00]
    case PortableAudio =>    [0x02, 0x04, 0xAB, 0x82, 0x30, 0x00]
  }

  /** The sound-field dictionary as the scan sees it: every key has an entry. */
  function SoundFieldEntry(sf: SoundField): Option<Frame>
  {
    Some(FeedbackSoundField(sf))
  }

  const FEEDBACK_SOUND_FIELD_KEYS: seq<SoundField> := [
    TwoChannelStereo, AnalogDirect, MultiStereo, Afd, Pl2Movie, Neo6Cinema, HdDcs,
    Pl2Music, Neo6Music, ConcertHallA, ConcertHallB, ConcertHallC, JazzClub,
    LiveConcert, Stadium, Sports, PortableAudio
  ]

  const FEEDBACK_PURE_DIRECT_ON: Frame :=  [0x02, 0x03, 0xAB, 0x98, 0x01]
  const FEEDBACK_PURE_DIRECT_OFF: Frame := [0x02, 0x03, 0xAB, 0x98, 0x00]

  /** The sound-optimizer report dictionary. */
  function FeedbackSoundOptimizer(so: SoundOptimizer): (f: Frame)
    ensures |f| == 6 && f[..5] == [0x02, 0x04, 0xAB, 0x92, 0x48]
  {
    match so
    case Off =>    [0x02, 0x04, 0xAB, 0x92, 0x48, 0x00]
    case Normal => [0x02, 0x04, 0xAB, 0x92, 0x48, 0x01]
    case Low =>    [0x02, 0x04, 0xAB, 0x92, 0x48, 0x02]
  }

  /** The optimizer dictionary as the scan sees it: every key has an entry. */
  function SoundOptimizerEntry(so: SoundOptimizer): Option<Frame>
  {
    Some(FeedbackSoundOptimizer(so))
  }

  const FEEDBACK_SOUND_OPTIMIZER_KEYS: seq<SoundOptimizer> := [Off, Normal, Low]

  const FEEDBACK_FM_TUNER_PREFIX: Frame := [0x02, 0x07, 0xA9, 0x82, 0x80]
  const FEEDBACK_FM_TUNER_STEREO: Byte := 0x00
  const FEEDBACK_FM_TUNER_MONO: Byte := 0x80

  const FEEDBACK_VOLUME: Frame := [0x02, 0x06, 0xA8, 0x8B, 0x00, 0x03, 0x00]

  // ---------------------------------------------------------------------------
  // The "scan every entry, the last match wins" loop of the feedback decoders
  // ---------------------------------------------------------------------------

  /** The last key, scanning `keys` in order, whose frame equals `target`. */
  function LastMatch<K>(keys: seq<K>, frameOf: K -> Option<Frame>, target: Frame): (r: Option<K>)
    ensures r.Some? ==> r.value in keys && frameOf(r.value) == Some(target)
    ensures r.None? <==> forall k :: k in keys ==> frameOf(k) != Some(target)
  {
    if keys == [] then None
    else if frameOf(keys[|keys| - 1]) == Some(target) then Some(keys[|keys| - 1])
    else LastMatch(keys[..|keys| - 1], frameOf, target)
  }

  /** No two keys of the dictionary share a frame. */
  ghost predicate Injective<K(!new)>(frameOf: K -> Option<Frame>)
  {
    forall a, b :: frameOf(a).Some? && frameOf(a) == frameOf(b) ==> a == b
  }

  /**
   * When no two keys share a frame, the scan finds exactly the key whose frame
   * is the target, whatever the order of the keys: at most one entry matches,
   * so "the last match wins" and "the only match" agree.
   */
  lemma LastMatchIsReverseLookup<K(!new)>(keys: seq<K>, frameOf: K -> Option<Frame>, target: Frame, k: K)
    requires Injective(frameOf)
    ensures LastMatch(keys, frameOf, target) == Some(k) <==> k in keys && frameOf(k) == Some(target)
  {
  }

  /** Each feedback dictionary maps distinct keys to distinct frames. */
  lemma FeedbackTablesInjective()
    ensures Injective(FeedbackSource)
    ensures Injective(SoundFieldEntry)
    ensures Injective(SoundOptimizerEntry)
  {
  }

  // ---------------------------------------------------------------------------
  // Facts about the tables
  // ---------------------------------------------------------------------------

  /** The key list of the source table holds exactly the sources that have a feedback frame. */
  lemma SourceKeysCover()
    ensures forall s :: s in FEEDBACK_SOURCE_KEYS <==> FeedbackSource(s).Some?
  {
    forall s: Source ensures s in FEEDBACK_SOURCE_KEYS <==> FeedbackSource(s).Some? {
      match s
      case BdDvd => case Game => case SatCaTv => case Video => case Tv => case SaCd =>
      case FmTuner => case AmTuner => case Bluetooth => case Usb => case HomeNetwork =>
      case ScreenMirroring =>
    }
  }

  /** The key list of the sound-field table holds every sound field, each with its entry. */
  lemma SoundFieldKeysCover()
    ensures forall sf :: sf in FEEDBACK_SOUND_FIELD_KEYS && SoundFieldEntry(sf) == Some(FeedbackSoundField(sf))
  {
    forall sf: SoundField ensures sf in FEEDBACK_SOUND_FIELD_KEYS && SoundFieldEntry(sf) == Some(FeedbackSoundField(sf)) {
      match sf
      case TwoChannelStereo => case AnalogDirect => case MultiStereo => case Afd =>
      case Pl2Movie => case Neo6Cinema => case HdDcs => case Pl2Music => case Neo6Music =>
      case ConcertHallA => case ConcertHallB => case ConcertHallC => case JazzClub =>
      case LiveConcert => case Stadium => case Sports => case PortableAudio =>
    }
  }

  /** The key list of the optimizer table holds every setting, each with its entry. */
  lemma SoundOptimizerKeysCover()
    ensures forall so :: so in FEEDBACK_SOUND_OPTIMIZER_KEYS && SoundOptimizerEntry(so) == Some(FeedbackSoundOptimizer(so))
  {
    forall so: SoundOptimizer ensures so in FEEDBACK_SOUND_OPTIMIZER_KEYS && SoundOptimizerEntry(so) == Some(FeedbackSoundOptimizer(so)) {
      match so
      case Off => case Normal => case Low =>
    }
  }

  /** Command tables are injective: distinct targets never share a frame. */
  lemma CommandTablesInjective(a: Source, b: Source, x: SoundField, y: SoundField)
    ensures SourceCommand(a) == SourceCommand(b) ==> a == b
    ensures SoundFieldCommand(x) == SoundFieldCommand(y) ==> x == y
  {
  }

  /**
   * The command and the feedback tables use the same code byte for a source,
   * except for "video", which the receiver reports as 0xFF but is selected with 0x10;
   * sound fields line up without exception.
   */
  lemma CodeBytesLineUp(s: Source, sf: SoundField)
    ensures FeedbackSource(s).Some? && s != Video ==> FeedbackSource(s).value[5] == SourceCommand(s)[5]
    ensures FeedbackSource(Video).value[5] == 0xFF != SourceCommand(Video)[5]
    ensures FeedbackSoundField(sf)[4] == SoundFieldCommand(sf)[4]
  {
  }

  /** Every table frame, in both directions, starts with the marker byte. */
  lemma FramesStartWithMarker(s: Source, sf: SoundField, so: SoundOptimizer, i: nat, v: Byte)
    ensures SourceCommand(s)[0] == MARKER && SoundFieldCommand(sf)[0] == MARKER
    ensures i < |FM_TUNER_COMMANDS| ==> FM_TUNER_COMMANDS[i][0] == MARKER
    ensures FeedbackSource(s).Some? ==> FeedbackSource(s).value[0] == MARKER
    ensures FeedbackSoundField(sf)[0] == MARKER && FeedbackSoundOptimizer(so)[0] == MARKER
    ensures POWER_ON_COMMAND[0] == MARKER && POWER_OFF_COMMAND[0] == MARKER
    ensures MUTE_COMMAND[0] == MARKER && UNMUTE_COMMAND[0] == MARKER
    ensures FM_TUNER_PRESET_UP[0] == MARKER && FM_TUNER_PRESET_DOWN[0] == MARKER
    ensures MIN_VOLUME_COMMAND[0] == MARKER && MAX_VOLUME_COMMAND[0] == MARKER && VolumeCommand(v)[0] == MARKER
    ensures FEEDBACK_PURE_DIRECT_ON[0] == MARKER && FEEDBACK_PURE_DIRECT_OFF[0] == MARKER
    ensures TIMER_PREFIX[0] == MARKER && FEEDBACK_FM_TUNER_PREFIX[0] == MARKER && FEEDBACK_VOLUME[0] == MARKER
  {
  }

  /** The table's minimum-volume frame is the volume template at level 0; the maximum one is level 0x4A, above MAX_VOLUME. */
  lemma VolumeTemplateMatchesTable()
    ensures VolumeCommand(MIN_VOLUME) == MIN_VOLUME_COMMAND
    ensures VolumeCommand(0x4A) == MAX_VOLUME_COMMAND && 0x4A > MAX_VOLUME
  {
  }
}
