/**
 * The state kept by `CarInfo` (CarDash/CarInfo.swift) and what each of its
 * property setters does.
 *
 * Every stored property of `CarInfo` has a `didSet` observer that may
 * normalise the new value (clamping, trimming), may write another property,
 * and queues a change notification. `Store` is a snapshot of all properties
 * together with the queue of notifications not yet delivered, and
 * `Apply(s, w)` is the effect of one property assignment `w`. The class in
 * car_info.dfy performs these assignments in place and is proved to act as
 * `Apply`.
 */
module CarState {
  import opened Wrappers
  import opened Audio
  import opened Doors

  /** The property an observer is told about (Swift's `CarInfo.Property`). */
  datatype Property =
    | VolumeChanged | TemperatureChanged | RadioSourceChanged | RadioNameChanged
    | RadioDescriptionChanged | RadioFrequencyChanged | RadioBandNameChanged
    | InfoMessageChanged | TripInfoModeChanged | TripInfo1Changed | TripInfo2Changed
    | InstantInfoChanged | CarDoorsChanged | AudioSettingsChanged | SecretButtonChanged

  datatype CarRadioSource = FmTuner | Phone | Aux

  datatype TripInfoMode = Instant | Trip1 | Trip2

  /** Trip computer figures. The average fuel usage, a `Double` in litres per
      100 km in the source, is kept in tenths; -1 (here -10) means unknown. */
  datatype TripInfo = TripInfo(distance: int, averageFuelUsageTenths: int, averageSpeed: int)

  /** Instant figures; fuel usage in tenths, as above. */
  datatype InstantInfo = InstantInfo(autonomy: int, fuelUsageTenths: int)

  const DEFAULT_TRIP_INFO := TripInfo(0, -10, -1)
  const DEFAULT_INSTANT_INFO := InstantInfo(-1, -10)

  /** All properties of a `CarInfo`, and its queue of notifications. */
  datatype Store = Store(
    volume: int,
    temperature: int,
    radioSource: CarRadioSource,
    radioName: Option<string>,
    originalRadioName: Option<string>,
    radioDescription: Option<string>,
    radioFrequency: Option<string>,
    radioBandName: Option<string>,
    infoMessage: Option<string>,
    tripInfoMode: TripInfoMode,
    instantInfo: InstantInfo,
    tripInfo1: TripInfo,
    tripInfo2: TripInfo,
    carDoors: CarDoors,
    audioSettings: AudioSettings,
    secretButton: bool,
    pending: seq<Property>)

  /** The property values a new `CarInfo` starts with. */
  const INITIAL_STORE := Store(0, 0, FmTuner, None, None, None, None, None, None, Instant,
                               DEFAULT_INSTANT_INFO, DEFAULT_TRIP_INFO, DEFAULT_TRIP_INFO,
                               NONE, DEFAULT_SETTINGS, false, [])

  /** One assignment to one property, with the value assigned. */
  datatype Write =
    | WriteVolume(volume: int)
    | WriteTemperature(temperature: int)
    | WriteRadioSource(source: CarRadioSource)
    | WriteRadioName(name: Option<string>)
    | WriteRadioDescription(description: Option<string>)
    | WriteRadioFrequency(frequency: Option<string>)
    | WriteRadioBandName(band: Option<string>)
    | WriteInfoMessage(message: Option<string>)
    | WriteTripInfoMode(mode: TripInfoMode)
    | WriteInstantInfo(instant: InstantInfo)
    | WriteTripInfo1(trip: TripInfo)
    | WriteTripInfo2(trip: TripInfo)
    | WriteCarDoors(doors: CarDoors)
    | WriteAudioSettings(settings: AudioSettings)
    | WriteSecretButton(pressed: bool)

  /** The property an assignment is to. */
  function Target(w: Write): Property {
    match w
    case WriteVolume(_) => VolumeChanged
    case WriteTemperature(_) => TemperatureChanged
    case WriteRadioSource(_) => RadioSourceChanged
    case WriteRadioName(_) => RadioNameChanged
    case WriteRadioDescription(_) => RadioDescriptionChanged
    case WriteRadioFrequency(_) => RadioFrequencyChanged
    case WriteRadioBandName(_) => RadioBandNameChanged
    case WriteInfoMessage(_) => InfoMessageChanged
    case WriteTripInfoMode(_) => TripInfoModeChanged
    case WriteInstantInfo(_) => InstantInfoChanged
    case WriteTripInfo1(_) => TripInfo1Changed
    case WriteTripInfo2(_) => TripInfo2Changed
    case WriteCarDoors(_) => CarDoorsChanged
    case WriteAudioSettings(_) => AudioSettingsChanged
    case WriteSecretButton(_) => SecretButtonChanged
  }

  /** Whether property `p` has different values in `s` and `t`. */
  predicate Differs(s: Store, t: Store, p: Property) {
    match p
    case VolumeChanged => s.volume != t.volume
    case TemperatureChanged => s.temperature != t.temperature
    case RadioSourceChanged => s.radioSource != t.radioSource
    case RadioNameChanged => s.radioName != t.radioName
    case RadioDescriptionChanged => s.radioDescription != t.radioDescription
    case RadioFrequencyChanged => s.radioFrequency != t.radioFrequency
    case RadioBandNameChanged => s.radioBandName != t.radioBandName
    case InfoMessageChanged => s.infoMessage != t.infoMessage
    case TripInfoModeChanged => s.tripInfoMode != t.tripInfoMode
    case TripInfo1Changed => s.tripInfo1 != t.tripInfo1
    case TripInfo2Changed => s.tripInfo2 != t.tripInfo2
    case InstantInfoChanged => s.instantInfo != t.instantInfo
    case CarDoorsChanged => s.carDoors != t.carDoors
    case AudioSettingsChanged => s.audioSettings != t.audioSettings
    case SecretButtonChanged => s.secretButton != t.secretButton
  }

  /** The properties that notify on every assignment rather than on change. */
  predicate AlwaysNotifies(p: Property) {
    p == TripInfo1Changed || p == TripInfo2Changed || p == InstantInfoChanged
  }

  // ---------------------------------------------------------------------------
  // Normalisation

  /** The volume is kept between 0 and 30. */
  function Clamp(v: int): (r: int)
    ensures 0 <= r <= 30
    ensures 0 <= v <= 30 ==> r == v
    ensures v > 30 ==> r == 30
    ensures v < 0 ==> r == 0
  {
    if v > 30 then 30 else if v < 0 then 0 else v
  }

  /** `CharacterSet.whitespaces`: tab and the Unicode space separators. */
  predicate IsWhitespace(c: char) {
    c == ' ' || c == '\t' || c == '\U{00A0}' || c == '\U{1680}' || '\U{2000}' <= c <= '\U{200A}'
    || c == '\U{202F}' || c == '\U{205F}' || c == '\U{3000}'
  }

  /** Nothing but whitespace. */
  predicate Blank(s: string) {
    forall k :: 0 <= k < |s| ==> IsWhitespace(s[k])
  }

  /** Drops leading whitespace. */
  function TrimStart(s: string): (r: string)
    ensures |r| <= |s| && r == s[|s| - |r|..]
    ensures forall k :: 0 <= k < |s| - |r| ==> IsWhitespace(s[k])
    ensures r == [] || !IsWhitespace(r[0])
  {
    if s == [] || !IsWhitespace(s[0]) then s else TrimStart(s[1..])
  }

  /** Drops trailing whitespace. */
  function TrimEnd(s: string): (r: string)
    ensures |r| <= |s| && r == s[..|r|]
    ensures forall k :: |r| <= k < |s| ==> IsWhitespace(s[k])
    ensures r == [] || !IsWhitespace(r[|r| - 1])
  {
    if s == [] || !IsWhitespace(s[|s| - 1]) then s else TrimEnd(s[..|s| - 1])
  }

  /** `trimmingCharacters(in: .whitespaces)`. */
  function Trim(s: string): string {
    TrimEnd(TrimStart(s))
  }

  /** What `radioName`'s observer stores: the trimmed name, or nil when
      nothing but whitespace is left. */
  function NormalizeName(n: Option<string>): Option<string> {
    match n
    case None => None
    case Some(x) => if Trim(x) == [] then None else Some(Trim(x))
  }

  /** What `radioDescription`'s observer stores: the trimmed text, which may
      be empty. */
  function NormalizeDescription(d: Option<string>): Option<string> {
    match d
    case None => None
    case Some(x) => Some(Trim(x))
  }

  /** A notification for `p` when `changed` holds. */
  function NotifyIf(changed: bool, p: Property): seq<Property> {
    if changed then [p] else []
  }

  // ---------------------------------------------------------------------------
  // The setters

  /** `radioDescription`'s setter, which `radioName`'s observer also calls. */
  function AssignDescription(s: Store, d: Option<string>): Store {
    var nd := NormalizeDescription(d);
    s.(radioDescription := nd, pending := s.pending + NotifyIf(s.radioDescription != nd, RadioDescriptionChanged))
  }

  /** The effect of one property assignment, observers included. */
  function Apply(s: Store, w: Write): Store {
    match w
    case WriteVolume(v) =>
      var nv := Clamp(v);
      s.(volume := nv, pending := s.pending + NotifyIf(s.volume != nv, VolumeChanged))
    case WriteTemperature(v) =>
      s.(temperature := v, pending := s.pending + NotifyIf(s.temperature != v, TemperatureChanged))
    case WriteRadioSource(v) =>
      s.(radioSource := v, pending := s.pending + NotifyIf(s.radioSource != v, RadioSourceChanged))
    case WriteRadioName(n) =>
      var nv := NormalizeName(n);
      var original := if nv.Some? && s.originalRadioName.None? then nv else s.originalRadioName;
      var named := s.(radioName := nv, originalRadioName := original);
      var cleared := if nv.None? then AssignDescription(named, None) else named;
      cleared.(pending := cleared.pending + NotifyIf(s.radioName != nv, RadioNameChanged))
    case WriteRadioDescription(d) =>
      AssignDescription(s, d)
    case WriteRadioFrequency(v) =>
      s.(radioFrequency := v, pending := s.pending + NotifyIf(s.radioFrequency != v, RadioFrequencyChanged))
    case WriteRadioBandName(v) =>
      s.(radioBandName := v, pending := s.pending + NotifyIf(s.radioBandName != v, RadioBandNameChanged))
    case WriteInfoMessage(v) =>
      s.(infoMessage := v, pending := s.pending + NotifyIf(s.infoMessage != v, InfoMessageChanged))
    case WriteTripInfoMode(v) =>
      s.(tripInfoMode := v, pending := s.pending + NotifyIf(s.tripInfoMode != v, TripInfoModeChanged))
    case WriteInstantInfo(v) =>
      s.(instantInfo := v, pending := s.pending + [InstantInfoChanged])
    case WriteTripInfo1(v) =>
      s.(tripInfo1 := v, pending := s.pending + [TripInfo1Changed])
    case WriteTripInfo2(v) =>
      s.(tripInfo2 := v, pending := s.pending + [TripInfo2Changed])
    case WriteCarDoors(v) =>
      s.(carDoors := v, pending := s.pending + NotifyIf(s.carDoors != v, CarDoorsChanged))
    case WriteAudioSettings(v) =>
      s.(audioSettings := v, pending := s.pending + NotifyIf(!Equals(s.audioSettings, v), AudioSettingsChanged))
    case WriteSecretButton(v) =>
      s.(secretButton := v, pending := s.pending + NotifyIf(s.secretButton != v, SecretButtonChanged))
  }

  /** Assignments performed one after the other. */
  function ApplyAll(s: Store, ws: seq<Write>): Store
    decreases |ws|
  {
    if ws == [] then s else ApplyAll(Apply(s, ws[0]), ws[1..])
  }

  /** What the observers keep true: the volume is in range, the radio name is
      nil or trimmed and not empty, the description is trimmed, and the
      original radio name is known once any name has been. */
  predicate Valid(s: Store) {
    0 <= s.volume <= 30
    && (s.radioName.Some? ==> s.radioName.value != [] && s.radioName.value == Trim(s.radioName.value))
    && (s.radioDescription.Some? ==> s.radioDescription.value == Trim(s.radioDescription.value))
    && (s.radioName.Some? ==> s.originalRadioName.Some?)
  }

  // ---------------------------------------------------------------------------
  // Properties of the setters

  /** Trimming leaves nothing exactly when the text is all whitespace. */
  lemma TrimEmptyIffBlank(s: string)
    ensures Trim(s) == [] <==> Blank(s)
  {
    var u := TrimStart(s);
    if Trim(s) == [] {
      assert u == [];
    } else {
      assert u != [];
      assert s[|s| - |u|] == u[0];
    }
  }

  /** Trimming twice is trimming once. */
  lemma TrimIdempotent(s: string)
    ensures Trim(Trim(s)) == Trim(s)
  {
    var r := Trim(s);
    if r != [] {
      assert r[0] == TrimStart(s)[0];
      assert TrimStart(r) == r;
    }
  }

  /** Trimming keeps a text that starts and ends with other characters. */
  lemma TrimKeepsTrimmed(s: string)
    requires s != [] && !IsWhitespace(s[0]) && !IsWhitespace(s[|s| - 1])
    ensures Trim(s) == s
  {
  }

  /** Leading whitespace goes, up to the first other character. */
  lemma {:induction false} TrimStartPadded(pre: string, t: string)
    requires Blank(pre)
    requires t == [] || !IsWhitespace(t[0])
    ensures TrimStart(pre + t) == t
    decreases |pre|
  {
    if pre == [] {
      assert pre + t == t;
    } else {
      assert (pre + t)[0] == pre[0];
      assert (pre + t)[1..] == pre[1..] + t;
      TrimStartPadded(pre[1..], t);
    }
  }

  /** Trailing whitespace goes, back to the last other character. */
  lemma {:induction false} TrimEndPadded(t: string, post: string)
    requires Blank(post)
    requires t == [] || !IsWhitespace(t[|t| - 1])
    ensures TrimEnd(t + post) == t
    decreases |post|
  {
    if post == [] {
      assert t + post == t;
    } else {
      var u := t + post;
      assert u[|u| - 1] == post[|post| - 1];
      assert u[..|u| - 1] == t + post[..|post| - 1];
      TrimEndPadded(t, post[..|post| - 1]);
    }
  }

  /** Trimming removes exactly the whitespace padding around a text. */
  lemma TrimPadded(pre: string, core: string, post: string)
    requires Blank(pre) && Blank(post)
    requires core != [] && !IsWhitespace(core[0]) && !IsWhitespace(core[|core| - 1])
    ensures Trim(pre + core + post) == core
  {
    assert pre + core + post == pre + (core + post);
    TrimStartPadded(pre, core + post);
    TrimEndPadded(core, post);
  }

  /** A stored property that notifies on change queues one notification,
      for that property, exactly when the stored value is different. */
  lemma NotifyOnChange(s: Store, w: Write)
    requires !AlwaysNotifies(Target(w)) && !w.WriteRadioName?
    ensures Apply(s, w).pending == s.pending + NotifyIf(Differs(s, Apply(s, w), Target(w)), Target(w))
  {
  }

  /** Trip and instant figures notify on every assignment, equal or not. */
  lemma NotifyAlways(s: Store, w: Write)
    requires AlwaysNotifies(Target(w))
    ensures Apply(s, w).pending == s.pending + [Target(w)]
  {
  }

  /** An assignment changes its own property and nothing else, except that a
      new radio name may clear the description and set the original name. */
  lemma OnlyTargetChanges(s: Store, w: Write, p: Property)
    requires p != Target(w)
    requires w.WriteRadioName? ==> p != RadioDescriptionChanged
    ensures !Differs(s, Apply(s, w), p)
    ensures !w.WriteRadioName? ==> Apply(s, w).originalRadioName == s.originalRadioName
  {
  }

  /** Assigning a radio name: a blank name is stored as nil, which clears the
      description; the description's notification is queued before the
      name's. */
  lemma RadioNameCascade(s: Store, n: Option<string>)
    ensures var t := Apply(s, WriteRadioName(n));
      && (t.radioName.None? <==> n.None? || Blank(n.value))
      && (t.radioName.Some? ==> t.radioName == Some(Trim(n.value)))
      && (t.radioName.None? ==>
            t.radioDescription.None?
            && t.pending == s.pending + NotifyIf(s.radioDescription.Some?, RadioDescriptionChanged)
                                      + NotifyIf(s.radioName.Some?, RadioNameChanged))
      && (t.radioName.Some? ==>
            t.radioDescription == s.radioDescription
            && t.pending == s.pending + NotifyIf(s.radioName != t.radioName, RadioNameChanged))
  {
    if n.Some? {
      TrimEmptyIffBlank(n.value);
    }
  }

  /** The first non-blank radio name among some assignments, trimmed. */
  function FirstName(ws: seq<Write>): Option<string>
    decreases |ws|
  {
    if ws == [] then None
    else if ws[0].WriteRadioName? && NormalizeName(ws[0].name).Some? then NormalizeName(ws[0].name)
    else FirstName(ws[1..])
  }

  /** `originalRadioName` is set once, by the first non-blank name, and never
      changes afterwards. */
  lemma {:induction false} OriginalIsFirstName(s: Store, ws: seq<Write>)
    ensures s.originalRadioName.Some? ==> ApplyAll(s, ws).originalRadioName == s.originalRadioName
    ensures s.originalRadioName.None? ==> ApplyAll(s, ws).originalRadioName == FirstName(ws)
    decreases |ws|
  {
    if ws != [] {
      var t := Apply(s, ws[0]);
      OriginalStep(s, ws[0]);
      assert ApplyAll(s, ws) == ApplyAll(t, ws[1..]);
      OriginalIsFirstName(t, ws[1..]);
    }
  }

  /** Only a non-blank name, and only the first, sets the original name. */
  lemma OriginalStep(s: Store, w: Write)
    ensures Apply(s, w).originalRadioName
         == if w.WriteRadioName? && NormalizeName(w.name).Some? && s.originalRadioName.None?
            then NormalizeName(w.name) else s.originalRadioName
  {
    match w
    case WriteRadioName(n) =>
    case _ =>
  }

  /** Performing two runs of assignments is performing their concatenation. */
  lemma {:induction false} ApplyAllAppend(s: Store, a: seq<Write>, b: seq<Write>)
    ensures ApplyAll(s, a + b) == ApplyAll(ApplyAll(s, a), b)
    decreases |a|
  {
    if a != [] {
      assert (a + b)[0] == a[0] && (a + b)[1..] == a[1..] + b;
      ApplyAllAppend(Apply(s, a[0]), a[1..], b);
    } else {
      assert a + b == b;
    }
  }

  /** One assignment performed on its own. */
  lemma ApplyAllOne(s: Store, w: Write)
    ensures ApplyAll(s, [w]) == Apply(s, w)
  {
    assert [w][1..] == [];
  }

  /** Two assignments performed one after the other. */
  lemma ApplyAllTwo(s: Store, v: Write, w: Write)
    ensures ApplyAll(s, [v, w]) == Apply(Apply(s, v), w)
  {
    assert [v, w][1..] == [w];
    ApplyAllOne(Apply(s, v), w);
  }

  /** A new `CarInfo` satisfies the invariant. */
  lemma InitialValid()
    ensures Valid(INITIAL_STORE)
  {
  }

  /** Every setter keeps the invariant. */
  lemma ApplyPreservesValid(s: Store, w: Write)
    requires Valid(s)
    ensures Valid(Apply(s, w))
  {
    var t := Apply(s, w);
    if w.WriteRadioName? {
      if NormalizeName(w.name).Some? {
        TrimIdempotent(w.name.value);
      }
    } else if w.WriteRadioDescription? {
      if w.description.Some? {
        TrimIdempotent(w.description.value);
      }
    } else {
      assert t.radioName == s.radioName && t.radioDescription == s.radioDescription;
      assert t.originalRadioName == s.originalRadioName;
    }
  }

  /** Any run of setters keeps the invariant. */
  lemma {:induction false} ApplyAllPreservesValid(s: Store, ws: seq<Write>)
    requires Valid(s)
    ensures Valid(ApplyAll(s, ws))
    decreases |ws|
  {
    if ws != [] {
      ApplyPreservesValid(s, ws[0]);
      ApplyAllPreservesValid(Apply(s, ws[0]), ws[1..]);
    }
  }

  /** A station name arrives padded with spaces and is stored trimmed; the
      first one also becomes the original name. */
  lemma PaddedName(name: string)
    requires name == "  FIP "
    ensures var t := Apply(INITIAL_STORE, WriteRadioName(Some(name)));
      t.radioName == Some("FIP") && t.originalRadioName == Some("FIP") && t.pending == [RadioNameChanged]
  {
    var pre, core, post := "  ", "FIP", " ";
    assert name == pre + core + post;
    TrimPadded(pre, core, post);
    NameWritten(INITIAL_STORE, Some(name), Some(core));
  }

  /** Writing a name that normalises to some text stores it, keeps the
      description and records the first such name. */
  lemma NameWritten(s: Store, n: Option<string>, nv: Option<string>)
    requires NormalizeName(n) == nv && nv.Some?
    ensures Apply(s, WriteRadioName(n))
      == s.(radioName := nv, originalRadioName := if s.originalRadioName.None? then nv else s.originalRadioName,
            pending := s.pending + NotifyIf(s.radioName != nv, RadioNameChanged))
  {
  }

  /** A blank name clears both the name and the description. */
  lemma BlankNameClearsDescription(s: Store)
    requires s.radioName == Some("FIP") && s.radioDescription == Some("Jazz") && s.pending == []
    ensures var t := Apply(s, WriteRadioName(Some(" \t")));
      t.radioName.None? && t.radioDescription.None? && t.originalRadioName == s.originalRadioName
      && t.pending == [RadioDescriptionChanged, RadioNameChanged]
  {
    var blank := " \t";
    assert IsWhitespace(blank[0]) && IsWhitespace(blank[1]);
    RadioNameCascade(s, Some(blank));
  }

  /** The description, unlike the name, may be stored empty: a blank text is
      kept as "". */
  lemma BlankDescriptionKept(s: Store, text: string)
    requires s.radioDescription.None? && s.pending == [] && Blank(text)
    ensures var t := Apply(s, WriteRadioDescription(Some(text)));
      t.radioDescription == Some("") && t.pending == [RadioDescriptionChanged]
  {
    TrimEmptyIffBlank(text);
    DescriptionWritten(s, Some(text), Some(""));
  }

  /** Writing the description is `AssignDescription` of the normalised text. */
  lemma DescriptionWritten(s: Store, d: Option<string>, nd: Option<string>)
    requires NormalizeDescription(d) == nd
    ensures Apply(s, WriteRadioDescription(d))
      == s.(radioDescription := nd, pending := s.pending + NotifyIf(s.radioDescription != nd, RadioDescriptionChanged))
  {
    assert Apply(s, WriteRadioDescription(d)) == AssignDescription(s, d);
  }

  /** A volume beyond the scale is stored as its end, and re-sending the
      value already stored queues nothing. */
  lemma VolumeClamped(s: Store)
    requires s.volume == 30 && s.pending == []
    ensures Apply(s, WriteVolume(42)) == s
    ensures Apply(s, WriteVolume(-3)).volume == 0 && Apply(s, WriteVolume(-3)).pending == [VolumeChanged]
  {
  }
}
