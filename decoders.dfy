/**
 * The feedback decoders of the listener thread.  Each decoder looks at one
 * chunk read from the receiver, matches a fixed prefix and length, and either
 * declines it or turns it into a typed report.  The listener tries them in a
 * fixed order and stops at the first that accepts the chunk.
 */
module Decoders {
  import opened Wrappers
  import opened Frames

  /** The three trailing bytes a timer report can end with. */
  datatype TimerKind = TimerSet | TimerUpdate | TimerOff

  /** A decoded feedback report: what the decoder hands to the state service. */
  datatype Event =
    | TimerReport(hours: Byte, minutes: Byte, kind: TimerKind)
    | SourceReport(source: Source, status: Byte)
    | SoundFieldReport(soundField: SoundField)
    | PureDirectReport(on: bool)
    | SoundOptimizerReport(optimizer: SoundOptimizer)
    | FmTunerReport(preset: Byte, stereo: bool, frequencyCode: nat)
    | VolumeReport(level: Byte)

  /**
   * The answer of one decoder: the chunk is not its kind, it is a report, or
   * indexing past the end of a short chunk raised an index error.
   */
  datatype Decoded = Declined | Accepted(event: Event) | IndexError

  /** Python's `data[:-n]`: the chunk without its last n bytes, empty if it is shorter. */
  function DropLast(data: Frame, n: nat): Frame
  {
    if |data| >= n then data[..|data| - n] else []
  }

  /** Python's `data[0:n]`: at most the first n bytes. */
  function Take(data: Frame, n: nat): Frame
  {
    if |data| >= n then data[..n] else data
  }

  // ---------------------------------------------------------------------------
  // The seven decoders
  // ---------------------------------------------------------------------------

  /** A timer report is the 4-byte prefix, hours, minutes and a kind byte. */
  function DecodeTimer(data: Frame): (r: Decoded)
    ensures !r.IndexError?
    ensures r.Accepted? <==>
              |data| == 7 && data[..4] == TIMER_PREFIX && data[6] in {TIMER_SET, TIMER_UPDATE, TIMER_OFF}
    ensures r.Accepted? ==>
              && r.event.TimerReport?
              && r.event.hours == data[4] && r.event.minutes == data[5]
              && (r.event.kind == TimerOff <==> data[6] == TIMER_OFF)
              && (r.event.kind == TimerUpdate <==> data[6] == TIMER_UPDATE)
  {
    if TIMER_PREFIX == DropLast(data, 3) then
      var hours, minutes, last := data[|data| - 3], data[|data| - 2], data[|data| - 1];
      if last == TIMER_SET then Accepted(TimerReport(hours, minutes, TimerSet))
      else if last == TIMER_UPDATE then Accepted(TimerReport(hours, minutes, TimerUpdate))
      else if last == TIMER_OFF then Accepted(TimerReport(hours, minutes, TimerOff))
      else Declined
    else
      Declined
  }

  /**
   * A source report is a source-table prefix followed by two bytes; the first
   * of them carries the power and mute state.
   */
  function DecodeSource(data: Frame): (r: Decoded)
    ensures !r.IndexError?
    ensures r.Accepted? <==> |data| == 9 && exists s :: FeedbackSource(s) == Some(data[..7])
    ensures r.Accepted? ==>
              && r.event.SourceReport?
              && FeedbackSource(r.event.source) == Some(data[..7])
              && r.event.status == data[7]
  {
    SourceKeysCover();
    match LastMatch(FEEDBACK_SOURCE_KEYS, FeedbackSource, DropLast(data, 2))
    case Some(s) => Accepted(SourceReport(s, data[|data| - 2]))
    case None => Declined
  }

  /** A sound-field report is exactly one frame of the sound-field table. */
  function DecodeSoundField(data: Frame): (r: Decoded)
    ensures !r.IndexError?
    ensures r.Accepted? <==> exists sf :: FeedbackSoundField(sf) == data
    ensures r.Accepted? ==> r.event.SoundFieldReport? && FeedbackSoundField(r.event.soundField) == data
  {
    SoundFieldKeysCover();
    match LastMatch(FEEDBACK_SOUND_FIELD_KEYS, SoundFieldEntry, data)
    case Some(sf) => Accepted(SoundFieldReport(sf))
    case None => Declined
  }

  /** A pure-direct report is exactly the "on" or the "off" frame. */
  function DecodePureDirect(data: Frame): (r: Decoded)
    ensures !r.IndexError?
    ensures r.Accepted? <==> data == FEEDBACK_PURE_DIRECT_ON || data == FEEDBACK_PURE_DIRECT_OFF
    ensures r.Accepted? ==> r.event.PureDirectReport? && (r.event.on <==> data == FEEDBACK_PURE_DIRECT_ON)
  {
    if FEEDBACK_PURE_DIRECT_ON == data then Accepted(PureDirectReport(true))
    else if FEEDBACK_PURE_DIRECT_OFF == data then Accepted(PureDirectReport(false))
    else Declined
  }

  /** A sound-optimizer report is exactly one frame of the optimizer table. */
  function DecodeSoundOptimizer(data: Frame): (r: Decoded)
    ensures !r.IndexError?
    ensures r.Accepted? <==> exists so :: FeedbackSoundOptimizer(so) == data
    ensures r.Accepted? ==>
              r.event.SoundOptimizerReport? && FeedbackSoundOptimizer(r.event.optimizer) == data
  {
    SoundOptimizerKeysCover();
    match LastMatch(FEEDBACK_SOUND_OPTIMIZER_KEYS, SoundOptimizerEntry, data)
    case Some(so) => Accepted(SoundOptimizerReport(so))
    case None => Declined
  }

  /**
   * An FM tuner report is the 5-byte prefix, then the preset, the mono marker
   * and two frequency bytes.  A chunk that has the prefix but fewer than 9
   * bytes makes the decoder index past its end.
   */
  function DecodeFmTuner(data: Frame): (r: Decoded)
    ensures r.Declined? <==> !(|data| >= 5 && data[..5] == FEEDBACK_FM_TUNER_PREFIX)
    ensures r.IndexError? <==> 5 <= |data| < 9 && data[..5] == FEEDBACK_FM_TUNER_PREFIX
    ensures r.Accepted? ==>
              && r.event.FmTunerReport?
              && r.event.preset == data[5]
              && (r.event.stereo <==> data[6] != FEEDBACK_FM_TUNER_MONO)
              && r.event.frequencyCode == data[7] as int * 255 + data[8] as int <= 255 * 256
  {
    if FEEDBACK_FM_TUNER_PREFIX == Take(data, 5) then
      if |data| < 9 then IndexError
      else Accepted(FmTunerReport(data[5], data[6] != FEEDBACK_FM_TUNER_MONO, data[7] as int * 255 + data[8] as int))
    else
      Declined
  }

  /** A volume report is the 7-byte prefix followed by the level, taken as is. */
  function DecodeVolume(data: Frame): (r: Decoded)
    ensures !r.IndexError?
    ensures r.Accepted? <==> |data| == 8 && data[..7] == FEEDBACK_VOLUME
    ensures r.Accepted? ==> r.event == VolumeReport(data[7])
  {
    if FEEDBACK_VOLUME == DropLast(data, 1) then Accepted(VolumeReport(data[|data| - 1]))
    else Declined
  }

  // ---------------------------------------------------------------------------
  // Dispatch: the first decoder, in a fixed order, that does not decline
  // ---------------------------------------------------------------------------

  datatype DecoderKind = Timer | SourceKind | SoundFieldKind | PureDirect | SoundOptimizerKind | FmTunerKind | Volume

  function Decode(k: DecoderKind, data: Frame): Decoded
  {
    match k
    case Timer => DecodeTimer(data)
    case SourceKind => DecodeSource(data)
    case SoundFieldKind => DecodeSoundField(data)
    case PureDirect => DecodePureDirect(data)
    case SoundOptimizerKind => DecodeSoundOptimizer(data)
    case FmTunerKind => DecodeFmTuner(data)
    case Volume => DecodeVolume(data)
  }

  /** The order in which the listener tries the decoders. */
  const DISPATCH_ORDER: seq<DecoderKind> :=
    [Timer, SourceKind, SoundFieldKind, PureDirect, SoundOptimizerKind, FmTunerKind, Volume]

  /** The answer of the first decoder in `order` that does not decline. */
  function FirstMatch(order: seq<DecoderKind>, data: Frame): (r: Decoded)
    ensures r.Declined? <==> forall k :: k in order ==> Decode(k, data).Declined?
    ensures !r.Declined? ==> exists k :: k in order && Decode(k, data) == r
  {
    if order == [] then Declined
    else
      var d := Decode(order[0], data);
      if !d.Declined? then d else FirstMatch(order[1..], data)
  }

  /** What the listener makes of one chunk. */
  function Dispatch(data: Frame): (r: Decoded)
    ensures r.Declined? <==> forall k :: Decode(k, data).Declined?
    ensures r.Accepted? ==> Reportable(r.event)
  {
    AllDecodersListed();
    AcceptedIsReportable(data);
    FirstMatch(DISPATCH_ORDER, data)
  }

  lemma AllDecodersListed()
    ensures forall k :: k in DISPATCH_ORDER
  {
    forall k: DecoderKind ensures k in DISPATCH_ORDER {
      match k
      case Timer => case SourceKind => case SoundFieldKind => case PureDirect =>
      case SoundOptimizerKind => case FmTunerKind => case Volume =>
    }
  }

  /** Whatever a decoder accepts is a report some frame carries. */
  lemma AcceptedIsReportable(data: Frame)
    ensures forall k :: Decode(k, data).Accepted? ==> Reportable(Decode(k, data).event)
  {
    forall k: DecoderKind | Decode(k, data).Accepted? ensures Reportable(Decode(k, data).event) {
      match k
      case SourceKind => assert FeedbackSource(Decode(k, data).event.source).Some?;
      case FmTunerKind => assert Decode(k, data).event.frequencyCode <= 255 * 256;
      case Timer => case SoundFieldKind => case PureDirect => case SoundOptimizerKind => case Volume =>
    }
  }

  // ---------------------------------------------------------------------------
  // Mutual exclusion of the decoders
  // ---------------------------------------------------------------------------

  /** Bytes 1 to 3 of every chunk a decoder does not decline: length byte, category and command. */
  function Signature(k: DecoderKind): Frame
  {
    match k
    case Timer => [0x05, 0xA8, 0x90]
    case SourceKind => [0x07, 0xA8, 0x82]
    case SoundFieldKind => [0x04, 0xAB, 0x82]
    case PureDirect => [0x03, 0xAB, 0x98]
    case SoundOptimizerKind => [0x04, 0xAB, 0x92]
    case FmTunerKind => [0x07, 0xA9, 0x82]
    case Volume => [0x06, 0xA8, 0x8B]
  }

  /** A chunk that starts with a frame of at least four bytes has that frame's bytes 1 to 3. */
  lemma PrefixSignature(data: Frame, prefix: Frame)
    requires 4 <= |prefix| <= |data| && data[..|prefix|] == prefix
    ensures data[1..4] == prefix[1..4]
  {
    assert forall i :: 1 <= i < 4 ==> data[i] == data[..|prefix|][i];
  }

  lemma SourceAnswerSignature(data: Frame)
    requires !DecodeSource(data).Declined?
    ensures |data| >= 4 && data[1..4] == Signature(SourceKind)
  {
    var s :| FeedbackSource(s) == Some(data[..7]);
    assert data[..5] == data[..7][..5];
    PrefixSignature(data, [0x02, 0x07, 0xA8, 0x82, 0x00]);
  }

  lemma SoundFieldAnswerSignature(data: Frame)
    requires !DecodeSoundField(data).Declined?
    ensures |data| >= 4 && data[1..4] == Signature(SoundFieldKind)
  {
    var sf :| FeedbackSoundField(sf) == data;
    PrefixSignature(data, [0x02, 0x04, 0xAB, 0x82]);
  }

  lemma SoundOptimizerAnswerSignature(data: Frame)
    requires !DecodeSoundOptimizer(data).Declined?
    ensures |data| >= 4 && data[1..4] == Signature(SoundOptimizerKind)
  {
    var so :| FeedbackSoundOptimizer(so) == data;
    PrefixSignature(data, [0x02, 0x04, 0xAB, 0x92, 0x48]);
  }

  /** A chunk that a decoder does not decline carries that decoder's signature at bytes 1 to 3. */
  lemma AnswerCarriesSignature(k: DecoderKind, data: Frame)
    requires !Decode(k, data).Declined?
    ensures |data| >= 4 && data[1..4] == Signature(k)
  {
    match k
    case SourceKind => SourceAnswerSignature(data);
    case SoundFieldKind => SoundFieldAnswerSignature(data);
    case SoundOptimizerKind => SoundOptimizerAnswerSignature(data);
    case Timer => PrefixSignature(data, TIMER_PREFIX);
    case FmTunerKind => PrefixSignature(data, FEEDBACK_FM_TUNER_PREFIX);
    case Volume => PrefixSignature(data, FEEDBACK_VOLUME);
    case PureDirect => PrefixSignature(data, data);
  }

  /** No chunk is answered by two decoders. */
  lemma DecodersExclusive(j: DecoderKind, k: DecoderKind, data: Frame)
    requires j != k
    ensures Decode(j, data).Declined? || Decode(k, data).Declined?
  {
    if !Decode(j, data).Declined? && !Decode(k, data).Declined? {
      AnswerCarriesSignature(j, data);
      AnswerCarriesSignature(k, data);
    }
  }

  /** Because the decoders exclude each other, the first answer is the answer of any decoder that answers. */
  lemma FirstMatchIsAnyMatch(order: seq<DecoderKind>, data: Frame, k: DecoderKind)
    requires k in order && !Decode(k, data).Declined?
    ensures FirstMatch(order, data) == Decode(k, data)
  {
    var r := FirstMatch(order, data);
    var j :| j in order && Decode(j, data) == r;
    if j != k {
      DecodersExclusive(j, k, data);
    }
  }

  /** Trying the decoders in any order that includes all of them gives the same answer. */
  lemma DispatchOrderIrrelevant(order: seq<DecoderKind>, data: Frame)
    requires forall k :: k in order
    ensures FirstMatch(order, data) == Dispatch(data)
  {
    if !Dispatch(data).Declined? {
      var k :| k in DISPATCH_ORDER && Decode(k, data) == Dispatch(data);
      FirstMatchIsAnyMatch(order, data, k);
    }
  }

  // ---------------------------------------------------------------------------
  // The frames the receiver sends for each report, and the round trip
  // ---------------------------------------------------------------------------

  /** Reports that some frame carries: a source with a feedback entry, a frequency two bytes can hold. */
  predicate Reportable(ev: Event)
  {
    match ev
    case SourceReport(s, _) => FeedbackSource(s).Some?
    case FmTunerReport(_, _, code) => code <= 255 * 256
    case _ => true
  }

  function TimerKindByte(kind: TimerKind): Byte
  {
    match kind
    case TimerSet => TIMER_SET
    case TimerUpdate => TIMER_UPDATE
    case TimerOff => TIMER_OFF
  }

  /**
   * A frame the receiver sends for a report.  Bytes the decoders ignore (the
   * last byte of a source report) are 0x00; the frequency code is split as
   * high * 255 + low.
   */
  function ReportFrame(ev: Event): Frame
    requires Reportable(ev)
  {
    match ev
    case TimerReport(h, m, kind) => TIMER_PREFIX + [h, m, TimerKindByte(kind)]
    case SourceReport(s, status) => FeedbackSource(s).value + [status, 0x00]
    case SoundFieldReport(sf) => FeedbackSoundField(sf)
    case PureDirectReport(on) => if on then FEEDBACK_PURE_DIRECT_ON else FEEDBACK_PURE_DIRECT_OFF
    case SoundOptimizerReport(so) => FeedbackSoundOptimizer(so)
    case FmTunerReport(preset, stereo, code) =>
      var high := if code / 255 > 255 then 255 else code / 255;
      FEEDBACK_FM_TUNER_PREFIX
        + [preset, if stereo then FEEDBACK_FM_TUNER_STEREO else FEEDBACK_FM_TUNER_MONO, high, code - high * 255]
    case VolumeReport(level) => FEEDBACK_VOLUME + [level]
  }

  function KindOf(ev: Event): DecoderKind
  {
    match ev
    case TimerReport(_, _, _) => Timer
    case SourceReport(_, _) => SourceKind
    case SoundFieldReport(_) => SoundFieldKind
    case PureDirectReport(_) => PureDirect
    case SoundOptimizerReport(_) => SoundOptimizerKind
    case FmTunerReport(_, _, _) => FmTunerKind
    case VolumeReport(_) => Volume
  }

  /** The decoder of a report's kind reads the report back from its frame. */
  lemma DecodeReportFrame(ev: Event)
    requires Reportable(ev)
    ensures Decode(KindOf(ev), ReportFrame(ev)) == Accepted(ev)
  {
    var data := ReportFrame(ev);
    match ev
    case TimerReport(h, m, kind) =>
      assert DropLast(data, 3) == TIMER_PREFIX;
    case SourceReport(s, status) =>
      assert DropLast(data, 2) == FeedbackSource(s).value;
      FeedbackTablesInjective();
      LastMatchIsReverseLookup(FEEDBACK_SOURCE_KEYS, FeedbackSource, FeedbackSource(s).value, s);
    case SoundFieldReport(sf) =>
      FeedbackTablesInjective();
      LastMatchIsReverseLookup(FEEDBACK_SOUND_FIELD_KEYS, SoundFieldEntry, data, sf);
    case PureDirectReport(on) =>
    case SoundOptimizerReport(so) =>
      FeedbackTablesInjective();
      LastMatchIsReverseLookup(FEEDBACK_SOUND_OPTIMIZER_KEYS, SoundOptimizerEntry, data, so);
    case FmTunerReport(preset, stereo, code) =>
      assert Take(data, 5) == FEEDBACK_FM_TUNER_PREFIX;
    case VolumeReport(level) =>
      assert DropLast(data, 1) == FEEDBACK_VOLUME;
  }

  /** Dispatching the frame of any report yields exactly that report. */
  lemma DispatchRoundTrip(ev: Event)
    requires Reportable(ev)
    ensures Dispatch(ReportFrame(ev)) == Accepted(ev)
  {
    DecodeReportFrame(ev);
    FirstMatchIsAnyMatch(DISPATCH_ORDER, ReportFrame(ev), KindOf(ev));
  }
}
