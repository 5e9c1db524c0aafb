/**
 * `CarInfo` as an object (CarDash/CarInfo.swift and
 * CarDash/CarInfo+SerialParserDelegate.swift): its stored properties are
 * fields, each `didSet` observer is part of a setter method, and the serial
 * parser's delegate callback assigns the properties frame by frame.
 *
 * Every method is proved to act on `Snapshot()` exactly as the value-level
 * model of car_state.dfy and frame_decoding.dfy says (`Apply`, `ApplyAll`,
 * `DecodeFrame`), so the lemmas proved there hold of the object. Queued
 * notifications are the field `pending`; their delivery on the main queue is
 * not modelled.
 */
module CarInfoObject {
  import opened Bytes
  import opened Wrappers
  import opened Audio
  import opened Doors
  import opened InfoMessages
  import opened CarState
  import opened FrameDecoding

  class CarInfo {
    var volume: int
    var temperature: int
    var radioSource: CarRadioSource
    var radioName: Option<string>
    var originalRadioName: Option<string>
    var radioDescription: Option<string>
    var radioFrequency: Option<string>
    var radioBandName: Option<string>
    var infoMessage: Option<string>
    var tripInfoMode: TripInfoMode
    var instantInfo: InstantInfo
    var tripInfo1: TripInfo
    var tripInfo2: TripInfo
    var carDoors: CarDoors
    var audioSettings: AudioSettings
    var secretButton: bool
    /** Notifications queued by `notifyObservers`, oldest first. */
    var pending: seq<Property>

    /** All properties, as a value. */
    function Snapshot(): Store
      reads this
    {
      Store(volume, temperature, radioSource, radioName, originalRadioName, radioDescription,
            radioFrequency, radioBandName, infoMessage, tripInfoMode, instantInfo, tripInfo1,
            tripInfo2, carDoors, audioSettings, secretButton, pending)
    }

    /** What the observers keep true of the properties. */
    predicate Valid()
      reads this
    {
      CarState.Valid(Snapshot())
    }

    /** The property initialisers. */
    constructor ()
      ensures Snapshot() == INITIAL_STORE
      ensures Valid()
    {
      volume := 0;
      temperature := 0;
      radioSource := FmTuner;
      radioName := None;
      originalRadioName := None;
      radioDescription := None;
      radioFrequency := None;
      radioBandName := None;
      infoMessage := None;
      tripInfoMode := Instant;
      instantInfo := DEFAULT_INSTANT_INFO;
      tripInfo1 := DEFAULT_TRIP_INFO;
      tripInfo2 := DEFAULT_TRIP_INFO;
      carDoors := NONE;
      audioSettings := DEFAULT_SETTINGS;
      secretButton := false;
      pending := [];
      new;
      InitialValid();
    }

    /** `notifyObservers`: queues one notification. */
    method NotifyObservers(p: Property)
      modifies this
      ensures Snapshot() == old(Snapshot()).(pending := old(pending) + [p])
    {
      pending := pending + [p];
    }

    // -------------------------------------------------------------------------
    // Setters, each with its `didSet` observer

    method SetVolume(newValue: int)
      modifies this
      ensures Snapshot() == Apply(old(Snapshot()), WriteVolume(newValue))
    {
      var oldValue := volume;
      volume := newValue;
      if volume > 30 {
        volume := 30;
      } else if volume < 0 {
        volume := 0;
      }
      if oldValue != volume {
        NotifyObservers(VolumeChanged);
      }
    }

    method SetTemperature(newValue: int)
      modifies this
      ensures Snapshot() == Apply(old(Snapshot()), WriteTemperature(newValue))
    {
      var oldValue := temperature;
      temperature := newValue;
      if oldValue != temperature {
        NotifyObservers(TemperatureChanged);
      }
    }

    method SetRadioSource(newValue: CarRadioSource)
      modifies this
      ensures Snapshot() == Apply(old(Snapshot()), WriteRadioSource(newValue))
    {
      var oldValue := radioSource;
      radioSource := newValue;
      if oldValue != radioSource {
        NotifyObservers(RadioSourceChanged);
      }
    }

    /** The name is trimmed and an empty one becomes nil; the first name ever
        stored is remembered; a nil name clears the description through its
        own setter, before the name's notification is queued. */
    method SetRadioName(newValue: Option<string>)
      modifies this
      ensures Snapshot() == Apply(old(Snapshot()), WriteRadioName(newValue))
    {
      ghost var before := Snapshot();
      var oldValue := radioName;
      radioName := newValue;
      if radioName.Some? {
        radioName := Some(Trim(radioName.value));
      }
      if radioName.Some? && |radioName.value| == 0 {
        radioName := None;
      }
      ghost var nv := NormalizeName(newValue);
      assert radioName == nv;
      if radioName.Some? && originalRadioName.None? {
        originalRadioName := radioName;
      }
      ghost var named := Snapshot();
      assert named == before.(radioName := nv, originalRadioName := if nv.Some? && before.originalRadioName.None? then nv else before.originalRadioName);
      if radioName.None? {
        SetRadioDescription(None);
        assert Snapshot() == AssignDescription(named, None);
      }
      if oldValue != radioName {
        NotifyObservers(RadioNameChanged);
      }
    }

    /** The description is trimmed; an empty one stays empty. */
    method SetRadioDescription(newValue: Option<string>)
      modifies this
      ensures Snapshot() == Apply(old(Snapshot()), WriteRadioDescription(newValue))
    {
      ghost var before := Snapshot();
      var oldValue := radioDescription;
      radioDescription := newValue;
      if radioDescription.Some? {
        radioDescription := Some(Trim(radioDescription.value));
      }
      ghost var nd := NormalizeDescription(newValue);
      assert radioDescription == nd;
      assert Snapshot() == before.(radioDescription := nd);
      if oldValue != radioDescription {
        NotifyObservers(RadioDescriptionChanged);
      }
      assert Snapshot() == AssignDescription(before, newValue);
    }

    method SetRadioFrequency(newValue: Option<string>)
      modifies this
      ensures Snapshot() == Apply(old(Snapshot()), WriteRadioFrequency(newValue))
    {
      var oldValue := radioFrequency;
      radioFrequency := newValue;
      if oldValue != radioFrequency {
        NotifyObservers(RadioFrequencyChanged);
      }
    }

    method SetRadioBandName(newValue: Option<string>)
      modifies this
      ensures Snapshot() == Apply(old(Snapshot()), WriteRadioBandName(newValue))
    {
      var oldValue := radioBandName;
      radioBandName := newValue;
      if oldValue != radioBandName {
        NotifyObservers(RadioBandNameChanged);
      }
    }

    method SetInfoMessage(newValue: Option<string>)
      modifies this
      ensures Snapshot() == Apply(old(Snapshot()), WriteInfoMessage(newValue))
    {
      var oldValue := infoMessage;
      infoMessage := newValue;
      if oldValue != infoMessage {
        NotifyObservers(InfoMessageChanged);
      }
    }

    method SetTripInfoMode(newValue: TripInfoMode)
      modifies this
      ensures Snapshot() == Apply(old(Snapshot()), WriteTripInfoMode(newValue))
    {
      var oldValue := tripInfoMode;
      tripInfoMode := newValue;
      if oldValue != tripInfoMode {
        NotifyObservers(TripInfoModeChanged);
      }
    }

    /** Notifies on every assignment. */
    method SetInstantInfo(newValue: InstantInfo)
      modifies this
      ensures Snapshot() == Apply(old(Snapshot()), WriteInstantInfo(newValue))
    {
      instantInfo := newValue;
      NotifyObservers(InstantInfoChanged);
    }

    /** Notifies on every assignment. */
    method SetTripInfo1(newValue: TripInfo)
      modifies this
      ensures Snapshot() == Apply(old(Snapshot()), WriteTripInfo1(newValue))
    {
      tripInfo1 := newValue;
      NotifyObservers(TripInfo1Changed);
    }

    /** Notifies on every assignment. */
    method SetTripInfo2(newValue: TripInfo)
      modifies this
      ensures Snapshot() == Apply(old(Snapshot()), WriteTripInfo2(newValue))
    {
      tripInfo2 := newValue;
      NotifyObservers(TripInfo2Changed);
    }

    method SetCarDoors(newValue: CarDoors)
      modifies this
      ensures Snapshot() == Apply(old(Snapshot()), WriteCarDoors(newValue))
    {
      var oldValue := carDoors;
      carDoors := newValue;
      if oldValue != carDoors {
        NotifyObservers(CarDoorsChanged);
      }
    }

    /** Compared with the hand-written `==` of `AudioSettings`. */
    method SetAudioSettings(newValue: AudioSettings)
      modifies this
      ensures Snapshot() == Apply(old(Snapshot()), WriteAudioSettings(newValue))
    {
      var oldValue := audioSettings;
      audioSettings := newValue;
      if !Equals(oldValue, audioSettings) {
        NotifyObservers(AudioSettingsChanged);
      }
    }

    method SetSecretButton(newValue: bool)
      modifies this
      ensures Snapshot() == Apply(old(Snapshot()), WriteSecretButton(newValue))
    {
      var oldValue := secretButton;
      secretButton := newValue;
      if oldValue != secretButton {
        NotifyObservers(SecretButtonChanged);
      }
    }

    // -------------------------------------------------------------------------
    // The parser's delegate

    /** `serialParser(_:didReceiveFrame:data:)`: the assignments of
        `DecodeFrame`, in order; the state invariant is kept. */
    method DidReceiveFrame(frameId: byte, data: seq<byte>)
      requires PayloadLongEnough(frameId, data)
      modifies this
      ensures Snapshot() == ApplyAll(old(Snapshot()), DecodeFrame(frameId, data))
      ensures old(Valid()) ==> Valid()
    {
      ghost var before := Snapshot();
      if frameId == 0x01 {
        SetVolume(data[0] as int);
        ApplyAllOne(before, WriteVolume(data[0] as int));
        assert DecodeFrame(frameId, data) == [WriteVolume(data[0] as int)];
      } else if frameId == 0x02 {
        var signedTemperature := data[0] as int;
        SetTemperature(if signedTemperature < 128 then signedTemperature else signedTemperature - 256);
        ApplyAllOne(before, WriteTemperature(SignedByte(data[0])));
        assert DecodeFrame(frameId, data) == [WriteTemperature(SignedByte(data[0]))];
      } else if frameId == 0x03 {
        ReceiveRadioSource(data);
      } else if frameId == 0x04 {
        var text := ReceivedText(data);
        SetRadioName(text);
        ApplyAllOne(before, WriteRadioName(text));
        assert DecodeFrame(frameId, data) == [WriteRadioName(text)];
      } else if frameId == 0x05 {
        var frequency := Some(FormatTenths(U16(data[0], data[1])));
        SetRadioFrequency(frequency);
        ApplyAllOne(before, WriteRadioFrequency(frequency));
        assert DecodeFrame(frameId, data) == [WriteRadioFrequency(frequency)];
      } else if frameId == 0x06 {
        ReceiveRadioBand(data);
      } else if frameId == 0x07 {
        var text := ReceivedText(data);
        SetRadioDescription(text);
        ApplyAllOne(before, WriteRadioDescription(text));
        assert DecodeFrame(frameId, data) == [WriteRadioDescription(text)];
      } else if frameId == 0x08 {
        ParseInfoMessage(data);
      } else if frameId == 0x0C || frameId == 0x0D {
        var tripInfo := DecodeTrip(data);
        if frameId == 0x0C {
          SetTripInfo1(tripInfo);
          ApplyAllOne(before, WriteTripInfo1(tripInfo));
          assert DecodeFrame(frameId, data) == [WriteTripInfo1(tripInfo)];
        } else {
          SetTripInfo2(tripInfo);
          ApplyAllOne(before, WriteTripInfo2(tripInfo));
          assert DecodeFrame(frameId, data) == [WriteTripInfo2(tripInfo)];
        }
      } else if frameId == 0x0E {
        SetInstantInfo(DecodeInstant(data));
        ApplyAllOne(before, WriteInstantInfo(DecodeInstant(data)));
        assert DecodeFrame(frameId, data) == [WriteInstantInfo(DecodeInstant(data))];
      } else if frameId == 0x0F {
        ReceiveTripMode(data);
      } else if frameId == 0x10 {
        ReceiveAudioSettings(data);
      } else if frameId == 0x42 {
        SetSecretButton(data[0] != 0);
        ApplyAllOne(before, WriteSecretButton(data[0] != 0));
        assert DecodeFrame(frameId, data) == [WriteSecretButton(data[0] != 0)];
      }
      if CarState.Valid(before) {
        DecodePreservesValid(before, frameId, data);
      }
    }

    /** Frame 0x03; an unknown code is only logged. */
    method ReceiveRadioSource(data: seq<byte>)
      requires |data| >= 1
      modifies this
      ensures Snapshot() == ApplyAll(old(Snapshot()), DecodeFrame(0x03, data))
    {
      var code := data[0];
      ghost var before := Snapshot();
      if code == 1 {
        SetRadioSource(FmTuner);
      } else if code == 4 {
        SetRadioSource(Phone);
      } else if code == 5 {
        SetRadioSource(Aux);
      }
      if RadioSourceCode(code).Some? {
        ApplyAllOne(before, WriteRadioSource(RadioSourceCode(code).value));
      }
    }

    /** Frame 0x06; an unknown code is only logged. */
    method ReceiveRadioBand(data: seq<byte>)
      requires |data| >= 1
      modifies this
      ensures Snapshot() == ApplyAll(old(Snapshot()), DecodeFrame(0x06, data))
    {
      var code := data[0];
      ghost var before := Snapshot();
      if code == 1 {
        SetRadioBandName(Some("1"));
      } else if code == 2 {
        SetRadioBandName(Some("2"));
      } else if code == 4 {
        SetRadioBandName(Some("AST"));
      }
      if BandCode(code).Some? {
        ApplyAllOne(before, WriteRadioBandName(BandCode(code)));
      }
    }

    /** Frame 0x0F; an unknown code is only logged. */
    method ReceiveTripMode(data: seq<byte>)
      requires |data| >= 1
      modifies this
      ensures Snapshot() == ApplyAll(old(Snapshot()), DecodeFrame(0x0F, data))
    {
      var code := data[0];
      ghost var before := Snapshot();
      if code == 0 {
        SetTripInfoMode(Instant);
      } else if code == 1 {
        SetTripInfoMode(Trip1);
      } else if code == 2 {
        SetTripInfoMode(Trip2);
      }
      if TripModeCode(code).Some? {
        ApplyAllOne(before, WriteTripInfoMode(TripModeCode(code).value));
      }
    }

    /** Frame 0x10: the active mode is the first bit set in priority order,
        and the preset is read from byte 6 without its "active" bit. */
    method ReceiveAudioSettings(data: seq<byte>)
      requires |data| >= 7
      modifies this
      ensures Snapshot() == ApplyAll(old(Snapshot()), DecodeFrame(0x10, data))
    {
      var activeMode := ActiveModeOf(data);

      var equalizerSetting := EqualizerCode(data[6]);

      var settings := AudioSettings(activeMode, Centred(data[1]), Centred(data[0]), data[5] & 0x07 == 0x07,
                                    equalizerSetting, Centred(data[2]), Centred(data[4]), data[5] & 0x40 == 0x40);
      assert settings == DecodeAudio(data);
      assert DecodeFrame(0x10, data) == [WriteAudioSettings(settings)];
      ghost var before := Snapshot();
      SetAudioSettings(settings);
      ApplyAllOne(before, WriteAudioSettings(settings));
    }

    /** `parseInfoMessage`: the first matching row's message, or the door
        report, or both cleared when nothing matches. */
    method ParseInfoMessage(data: seq<byte>)
      requires InfoPayloadReadable(data)
      modifies this
      ensures Snapshot() == ApplyAll(old(Snapshot()), DecodeFrame(0x08, data))
    {
      ghost var before := Snapshot();
      InfoFrame(data);
      match Lookup(data)
      case Some(Show(m)) =>
        SetInfoMessage(Some(Message(m)));
        ApplyAllOne(before, WriteInfoMessage(Some(Message(m))));
        assert InfoMessageWrites(data) == [WriteInfoMessage(Some(Message(m)))];
      case Some(DecodeDoors) =>
        var decodedCarDoors := DecodedDoors(data[3], data[4]);
        SetCarDoors(decodedCarDoors);
        ApplyAllOne(before, WriteCarDoors(decodedCarDoors));
        assert InfoMessageWrites(data) == [WriteCarDoors(decodedCarDoors)];
      case None =>
        SetCarDoors(NONE);
        SetInfoMessage(None);
        ApplyAllTwo(before, WriteCarDoors(NONE), WriteInfoMessage(None));
        assert InfoMessageWrites(data) == [WriteCarDoors(NONE), WriteInfoMessage(None)];
    }
  }

  /** The `activeMode` chain of frame 0x10: the first bit set, checked in
      priority order. */
  method ActiveModeOf(data: seq<byte>) returns (activeMode: Mode)
    requires |data| >= 7
    ensures activeMode == ActiveMode(data)
  {
    activeMode := NoMode;
    if data[0] & 0x80 == 0x80 {
      activeMode := LeftRightBalance;
    } else if data[1] & 0x80 == 0x80 {
      activeMode := FrontRearBalance;
    } else if data[2] & 0x80 == 0x80 {
      activeMode := Bass;
    } else if data[4] & 0x80 == 0x80 {
      activeMode := Treble;
    } else if data[5] & 0x80 == 0x80 {
      activeMode := Loudness;
    } else if data[5] & 0x10 == 0x10 {
      activeMode := AutomaticVolume;
    } else if data[6] & 0x40 == 0x40 {
      activeMode := Equalizer;
    }
    ModeChain(data);
  }

  /** Frames 0x04 and 0x07: the text up to the first null byte. */
  method ReceivedText(data: seq<byte>) returns (text: Option<string>)
    ensures text == TextOf(data)
    ensures text.Some? ==> forall k :: 0 <= k < |text.value| ==> text.value[k] != 0 as char
  {
    var actualLength := |data|;
    var nullIndex := IndexOf(data, 0x00);
    if nullIndex.Some? {
      actualLength := nullIndex.value;
    }
    text := AsciiDecode(data[..actualLength]);
  }

  /** The door branch of `parseInfoMessage`: one flag inserted per set bit. */
  method DecodedDoors(doorByte1: byte, doorByte2: byte) returns (decodedCarDoors: CarDoors)
    ensures decodedCarDoors == DoorsFromBytes(doorByte1, doorByte2)
  {
    decodedCarDoors := NONE;
    if doorByte1 & 0x04 == 0x04 {
      decodedCarDoors := decodedCarDoors.Insert(Hood);
    }
    if doorByte1 & 0x08 == 0x08 {
      decodedCarDoors := decodedCarDoors.Insert(Trunk);
    }
    if doorByte1 & 0x10 == 0x10 {
      decodedCarDoors := decodedCarDoors.Insert(RearLeft);
    }
    if doorByte1 & 0x20 == 0x20 {
      decodedCarDoors := decodedCarDoors.Insert(RearRight);
    }
    if doorByte1 & 0x40 == 0x40 {
      decodedCarDoors := decodedCarDoors.Insert(FrontLeft);
    }
    if doorByte1 & 0x80 == 0x80 {
      decodedCarDoors := decodedCarDoors.Insert(FrontRight);
    }
    if doorByte2 & 0x40 == 0x40 {
      decodedCarDoors := decodedCarDoors.Insert(FuelFlap);
    }
  }
}
