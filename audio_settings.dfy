/**
 * The audio settings value of CarDash/AudioSettings.swift: an immutable
 * record of eight fields, the enumeration of equaliser presets with their
 * display strings, and field-wise equality.
 */
module Audio {
  import opened Wrappers

  /** Equaliser presets, in declaration order (Swift's `.none` is `NoEqualizer`). */
  datatype EqualizerSetting = NoEqualizer | PopRock | Vocals | Techno | Classical | JazzBlues

  /** The raw string of each preset, as shown on the dashboard. */
  function RawValue(e: EqualizerSetting): string {
    match e
    case NoEqualizer => "Aucun"
    case PopRock => "Pop-Rock"
    case Vocals => "Voix"
    case Techno => "Techno"
    case Classical => "Classique"
    case JazzBlues => "Jazz-Blues"
  }

  /** The failable initialiser that Swift derives for a string-backed enum:
      the preset whose raw string is `s`, if any. */
  function FromRawValue(s: string): (r: Option<EqualizerSetting>)
    ensures r.Some? ==> RawValue(r.value) == s
  {
    if s == "Aucun" then Some(NoEqualizer)
    else if s == "Pop-Rock" then Some(PopRock)
    else if s == "Voix" then Some(Vocals)
    else if s == "Techno" then Some(Techno)
    else if s == "Classique" then Some(Classical)
    else if s == "Jazz-Blues" then Some(JazzBlues)
    else None
  }

  /** Position of a preset in the declaration. */
  function Ordinal(e: EqualizerSetting): nat {
    match e
    case NoEqualizer => 0
    case PopRock => 1
    case Vocals => 2
    case Techno => 3
    case Classical => 4
    case JazzBlues => 5
  }

  /** `EqualizerSetting.allSettings`. */
  const ALL_SETTINGS: seq<EqualizerSetting> := [NoEqualizer, PopRock, Vocals, Techno, Classical, JazzBlues]

  /** The adjustable setting currently shown (Swift's `.none` is `NoMode`). */
  datatype Mode = NoMode | FrontRearBalance | LeftRightBalance | AutomaticVolume | Equalizer | Bass | Treble | Loudness

  /** All fields are immutable: a value is only ever replaced as a whole. */
  datatype AudioSettings = AudioSettings(
    activeMode: Mode,
    frontRearBalance: int,
    leftRightBalance: int,
    automaticVolume: bool,
    equalizer: EqualizerSetting,
    bass: int,
    treble: int,
    loudness: bool)

  /** The settings a new `CarInfo` starts with. */
  const DEFAULT_SETTINGS := AudioSettings(NoMode, 0, 0, false, NoEqualizer, 0, 0, false)

  /** The hand-written `==`: field by field. It is exactly value equality. */
  function Equals(lhs: AudioSettings, rhs: AudioSettings): (r: bool)
    ensures r <==> lhs == rhs
  {
    lhs.activeMode == rhs.activeMode &&
    lhs.frontRearBalance == rhs.frontRearBalance &&
    lhs.leftRightBalance == rhs.leftRightBalance &&
    lhs.automaticVolume == rhs.automaticVolume &&
    lhs.equalizer == rhs.equalizer &&
    lhs.bass == rhs.bass &&
    lhs.treble == rhs.treble &&
    lhs.loudness == rhs.loudness
  }

  /** Reading a preset back from its raw string gives the preset. */
  lemma RawValueRoundTrip(e: EqualizerSetting)
    ensures FromRawValue(RawValue(e)) == Some(e)
  {
  }

  /** No two presets share a raw string. */
  lemma RawValuesDistinct(e1: EqualizerSetting, e2: EqualizerSetting)
    ensures RawValue(e1) == RawValue(e2) ==> e1 == e2
  {
    RawValueRoundTrip(e1);
    RawValueRoundTrip(e2);
  }

  /** `allSettings` lists every preset exactly once, in declaration order. */
  lemma AllSettingsComplete(e: EqualizerSetting)
    ensures |ALL_SETTINGS| == 6
    ensures e in ALL_SETTINGS
    ensures forall i :: 0 <= i < |ALL_SETTINGS| ==> Ordinal(ALL_SETTINGS[i]) == i
    ensures forall i, j :: 0 <= i < j < |ALL_SETTINGS| ==> ALL_SETTINGS[i] != ALL_SETTINGS[j]
  {
    assert ALL_SETTINGS[Ordinal(e)] == e;
  }
}
