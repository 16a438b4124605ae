/**
 * The panel icon: which volume icon the indicator shows for the recorded
 * mute flag and volume level.
 */
module Indicator {
  import opened Frames
  import opened State

  datatype VolumeIcon = MutedIcon | ZeroIcon | LowIcon | MediumIcon | HighIcon

  /** get_volume_icon: muted wins; otherwise the level picks one of four bands. */
  function VolumeIconFor(muted: bool, vol: Byte): (icon: VolumeIcon)
    ensures icon == MutedIcon <==> muted
    ensures icon == ZeroIcon <==> !muted && vol == MIN_VOLUME
    ensures icon == LowIcon <==> !muted && MIN_VOLUME < vol <= LOW_VOLUME
    ensures icon == MediumIcon <==> !muted && LOW_VOLUME < vol <= MEDIUM_VOLUME
    ensures icon == HighIcon <==> !muted && MEDIUM_VOLUME < vol
  {
    if muted then MutedIcon
    else if vol == MIN_VOLUME then ZeroIcon
    else if vol > MIN_VOLUME && vol <= LOW_VOLUME then LowIcon
    else if vol > LOW_VOLUME && vol <= MEDIUM_VOLUME then MediumIcon
    else HighIcon
  }

  /** The icon's file name, without directory and extension. */
  function IconName(icon: VolumeIcon): string
  {
    match icon
    case MutedIcon => "audio-volume-muted-panel"
    case ZeroIcon => "audio-volume-low-zero-panel"
    case LowIcon => "audio-volume-low-panel"
    case MediumIcon => "audio-volume-medium-panel"
    case HighIcon => "audio-volume-high-panel"
  }

  /** Every icon has its own file. */
  lemma IconNamesDistinct(a: VolumeIcon, b: VolumeIcon)
    ensures IconName(a) == IconName(b) ==> a == b
  {
  }

  /** How loud an icon looks: muted and zero show silence, then low, medium, high. */
  function Loudness(icon: VolumeIcon): nat
  {
    match icon
    case MutedIcon => 0
    case ZeroIcon => 0
    case LowIcon => 1
    case MediumIcon => 2
    case HighIcon => 3
  }

  /** Unmuted, a louder level never shows a quieter icon. */
  lemma IconFollowsVolume(v: Byte, w: Byte)
    requires v <= w
    ensures Loudness(VolumeIconFor(false, v)) <= Loudness(VolumeIconFor(false, w))
  {
  }

  /** The icon for the record, as refreshed after each volume or mute update. */
  function CurrentIcon(st: DeviceState): VolumeIcon
  {
    VolumeIconFor(st.muted, st.volume)
  }

  /** Once initialized, a volume report above the recorded level never leaves the muted icon showing. */
  lemma RaisingVolumeClearsMutedIcon(st: DeviceState, vol: Byte)
    requires vol > st.volume
    ensures CurrentIcon(VolumeUpdate(st, true, vol).state) != MutedIcon
    ensures CurrentIcon(VolumeUpdate(st, true, vol).state) != ZeroIcon
  {
  }
}
