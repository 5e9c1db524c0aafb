/**
 * What a frame from the car means, from CarDash/CarInfo+SerialParserDelegate.swift.
 *
 * `DecodeFrame(id, data)` is the list of `CarInfo` property assignments that
 * `serialParser(_:didReceiveFrame:data:)` performs for one frame, in order.
 * The class in car_info.dfy performs them in place and is proved to agree
 * with `ApplyAll(store, DecodeFrame(id, data))`.
 *
 * Numbers that the source computes as `Double(UInt16) / 10.0` are kept as
 * integer tenths.
 */
module FrameDecoding {
  import opened Bytes
  import opened Wrappers
  import opened Audio
  import opened Doors
  import opened InfoMessages
  import opened CarState

  // ---------------------------------------------------------------------------
  // Numbers

  /** `UInt16(highByte:lowByte:)`: the high byte shifted left by eight, or-ed
      with the low byte. */
  function U16(high: byte, low: byte): (r: int)
    ensures r == high as int * 256 + low as int
    ensures 0 <= r < 65536
  {
    (((high as bv16) << 8) | low as bv16) as int
  }

  /** Frame 0x02: the byte, widened to `Int16`, read as a two's-complement
      8-bit number. */
  function SignedByte(b: byte): (r: int)
    ensures -128 <= r <= 127
  {
    var wide := b as int;
    if wide < 128 then wide else wide - 256
  }

  /** A balance, bass or treble setting: the low seven bits, centred on 63. */
  function Centred(b: byte): (r: int)
    ensures -63 <= r <= 64
  {
    (b & 0x7F) as int - 63
  }

  /** The decimal digit `d`. */
  function DigitChar(d: nat): char
    requires d < 10
  {
    "0123456789"[d]
  }

  predicate IsDigit(c: char) {
    '0' <= c <= '9'
  }

  /** The value of a decimal digit. */
  function DigitValue(c: char): nat
    requires IsDigit(c)
  {
    c as int - '0' as int
  }

  /** The decimal numeral of `n`, without leading zeros. */
  function Decimal(n: nat): (r: string)
    ensures |r| >= 1
    ensures forall k :: 0 <= k < |r| ==> IsDigit(r[k])
    ensures r[0] == '0' ==> n == 0
    decreases n
  {
    if n < 10 then [DigitChar(n)] else Decimal(n / 10) + [DigitChar(n % 10)]
  }

  /** The number a string of decimal digits denotes. */
  function DecimalValue(s: string): nat
    requires forall k :: 0 <= k < |s| ==> IsDigit(s[k])
  {
    if s == [] then 0 else DecimalValue(s[..|s| - 1]) * 10 + DigitValue(s[|s| - 1])
  }

  /** Frame 0x05: `String(format: "%.2f", tenths / 10.0)`. The quotient of a
      16-bit number by ten has one decimal, so the second decimal is 0. */
  function FormatTenths(tenths: nat): string {
    Decimal(tenths / 10) + "." + [DigitChar(tenths % 10)] + "0"
  }

  // ---------------------------------------------------------------------------
  // Text

  /** `data.index(of: b)`: the position of the first `b`, if any. */
  function IndexOf(data: seq<byte>, b: byte): (r: Option<nat>)
    ensures r.Some? ==> r.value < |data| && data[r.value] == b
    ensures r.Some? ==> forall k :: 0 <= k < r.value ==> data[k] != b
    ensures r.None? ==> forall k :: 0 <= k < |data| ==> data[k] != b
  {
    if data == [] then None
    else if data[0] == b then Some(0)
    else match IndexOf(data[1..], b)
      case None => None
      case Some(i) => Some(i + 1)
  }

  /** Frames 0x04 and 0x07: the length of the text, which ends at the first
      null byte or at the end of the payload. */
  function TextLength(data: seq<byte>): nat {
    match IndexOf(data, 0) {
      case Some(i) => i
      case None => |data|
    }
  }

  predicate IsAscii(bytes: seq<byte>) {
    forall k :: 0 <= k < |bytes| ==> bytes[k] < 0x80
  }

  /** `String(data:encoding: .ascii)`: one character per byte when every byte
      is below 128, and no string otherwise. */
  function AsciiDecode(bytes: seq<byte>): (r: Option<string>)
    ensures r.Some? <==> IsAscii(bytes)
    ensures r.Some? ==> |r.value| == |bytes| && forall k :: 0 <= k < |bytes| ==> r.value[k] as int == bytes[k] as int
  {
    if IsAscii(bytes) then Some(seq(|bytes|, k requires 0 <= k < |bytes| => (bytes[k] as int) as char)) else None
  }

  /** The text of frames 0x04 and 0x07. */
  function TextOf(data: seq<byte>): Option<string> {
    AsciiDecode(data[..TextLength(data)])
  }

  // ---------------------------------------------------------------------------
  // Code tables

  /** Frame 0x03. */
  function RadioSourceCode(b: byte): Option<CarRadioSource> {
    if b == 1 then Some(FmTuner) else if b == 4 then Some(Phone) else if b == 5 then Some(Aux) else None
  }

  /** The code the car sends for each radio source. */
  function RadioSourceByte(s: CarRadioSource): byte {
    match s
    case FmTuner => 1
    case Phone => 4
    case Aux => 5
  }

  /** Frame 0x06. */
  function BandCode(b: byte): Option<string> {
    if b == 1 then Some("1") else if b == 2 then Some("2") else if b == 4 then Some("AST") else None
  }

  /** Frame 0x0F. */
  function TripModeCode(b: byte): Option<TripInfoMode> {
    if b == 0 then Some(Instant) else if b == 1 then Some(Trip1) else if b == 2 then Some(Trip2) else None
  }

  /** The code the car sends for each trip display. */
  function TripModeByte(m: TripInfoMode): byte {
    match m
    case Instant => 0
    case Trip1 => 1
    case Trip2 => 2
  }

  /** Frame 0x10, byte 6 with the "active" bit 0x40 masked out. */
  function EqualizerCode(b: byte): EqualizerSetting {
    var code := b & 0xBF;
    if code == 0x07 then Classical
    else if code == 0x0B then JazzBlues
    else if code == 0x0F then PopRock
    else if code == 0x13 then Vocals
    else if code == 0x17 then Techno
    else NoEqualizer
  }

  /** The code the car sends for each preset other than "none". */
  function EqualizerByte(e: EqualizerSetting): byte
    requires e != NoEqualizer
  {
    match e
    case Classical => 0x07
    case JazzBlues => 0x0B
    case PopRock => 0x0F
    case Vocals => 0x13
    case Techno => 0x17
  }

  // ---------------------------------------------------------------------------
  // Audio settings (frame 0x10)

  /** One "this setting is being adjusted" bit: byte `index`, mask `mask`. */
  datatype ModeBit = ModeBit(index: nat, mask: byte, mode: Mode)

  /** The active-mode bits, highest priority first. */
  const MODE_BITS: seq<ModeBit> := [
    ModeBit(0, 0x80, LeftRightBalance),
    ModeBit(1, 0x80, FrontRearBalance),
    ModeBit(2, 0x80, Bass),
    ModeBit(4, 0x80, Treble),
    ModeBit(5, 0x80, Loudness),
    ModeBit(5, 0x10, AutomaticVolume),
    ModeBit(6, 0x40, Equalizer)
  ]

  predicate BitSet(m: ModeBit, data: seq<byte>)
    requires m.index < |data|
  {
    data[m.index] & m.mask == m.mask
  }

  predicate Indexable(bits: seq<ModeBit>, data: seq<byte>) {
    forall k :: 0 <= k < |bits| ==> bits[k].index < |data| && bits[k].mode != NoMode
  }

  /** The mode of the first bit of `bits` that is set, or `NoMode`. */
  function FirstSetMode(bits: seq<ModeBit>, data: seq<byte>): (r: Mode)
    requires Indexable(bits, data)
    ensures r == NoMode <==> forall k :: 0 <= k < |bits| ==> !BitSet(bits[k], data)
    ensures r != NoMode ==> exists k :: 0 <= k < |bits| && BitSet(bits[k], data) && bits[k].mode == r
                                    && forall j :: 0 <= j < k ==> !BitSet(bits[j], data)
  {
    if bits == [] then NoMode
    else if BitSet(bits[0], data) then bits[0].mode
    else
      var r := FirstSetMode(bits[1..], data);
      assert r != NoMode ==> exists k :: 1 <= k < |bits| && BitSet(bits[k], data) && bits[k].mode == r
                                    && forall j :: 0 <= j < k ==> !BitSet(bits[j], data) by {
        if r != NoMode {
          var k :| 0 <= k < |bits| - 1 && BitSet(bits[1..][k], data) && bits[1..][k].mode == r
                 && forall j :: 0 <= j < k ==> !BitSet(bits[1..][j], data);
          assert BitSet(bits[k + 1], data) && bits[k + 1].mode == r;
          forall j | 0 <= j < k + 1
            ensures !BitSet(bits[j], data)
          {
            if j > 0 {
              assert bits[j] == bits[1..][j - 1];
            }
          }
        }
      }
      assert (forall k :: 0 <= k < |bits| ==> !BitSet(bits[k], data)) <==>
             (forall k :: 0 <= k < |bits| - 1 ==> !BitSet(bits[1..][k], data)) by {
        if forall k :: 0 <= k < |bits| - 1 ==> !BitSet(bits[1..][k], data) {
          forall k | 1 <= k < |bits|
            ensures !BitSet(bits[k], data)
          {
            assert bits[k] == bits[1..][k - 1];
          }
        }
      }
      r
  }

  /** The setting being adjusted. */
  function ActiveMode(data: seq<byte>): Mode
    requires |data| >= 7
  {
    FirstSetMode(MODE_BITS, data)
  }

  /** Frame 0x10. */
  function DecodeAudio(data: seq<byte>): (r: AudioSettings)
    requires |data| >= 7
    ensures r.activeMode == ActiveMode(data) && r.equalizer == EqualizerCode(data[6])
    ensures r.leftRightBalance == Centred(data[0]) && r.frontRearBalance == Centred(data[1])
    ensures r.bass == Centred(data[2]) && r.treble == Centred(data[4])
    ensures r.automaticVolume <==> data[5] & 0x07 == 0x07
    ensures r.loudness <==> data[5] & 0x40 == 0x40
  {
    AudioSettings(ActiveMode(data), Centred(data[1]), Centred(data[0]), data[5] & 0x07 == 0x07,
                  EqualizerCode(data[6]), Centred(data[2]), Centred(data[4]), data[5] & 0x40 == 0x40)
  }

  // ---------------------------------------------------------------------------
  // Trip computer (frames 0x0C, 0x0D, 0x0E)

  /** Bytes 0 to 3 of a trip frame, and byte 4 unless byte 3 marks the fuel
      figure unknown. */
  predicate TripReadable(data: seq<byte>) {
    |data| >= 4 && (data[3] != 0xFF ==> |data| >= 5)
  }

  /** Frames 0x0C and 0x0D; 0xFF marks a figure the car does not know. */
  function DecodeTrip(data: seq<byte>): (r: TripInfo)
    requires TripReadable(data)
    ensures r.distance == data[1] as int * 256 + data[2] as int
    ensures r.averageFuelUsageTenths == -10 <==> data[3] == 0xFF
    ensures data[3] != 0xFF ==> r.averageFuelUsageTenths == data[3] as int * 256 + data[4] as int
    ensures r.averageSpeed == -1 <==> data[0] == 0xFF
    ensures data[0] != 0xFF ==> r.averageSpeed == data[0] as int
  {
    TripInfo(U16(data[1], data[2]),
             if data[3] == 0xFF then -10 else U16(data[3], data[4]),
             if data[0] == 0xFF then -1 else data[0] as int)
  }

  /** Frame 0x0E; an unknown fuel usage reads 0, not -1. */
  function DecodeInstant(data: seq<byte>): (r: InstantInfo)
    requires TripReadable(data)
    ensures r.autonomy == -1 <==> data[3] == 0xFF
    ensures data[3] != 0xFF ==> r.autonomy == data[3] as int * 256 + data[4] as int
    ensures data[1] == 0xFF ==> r.fuelUsageTenths == 0
    ensures data[1] != 0xFF ==> r.fuelUsageTenths == data[1] as int * 256 + data[2] as int
  {
    InstantInfo(if data[3] == 0xFF then -1 else U16(data[3], data[4]),
                if data[1] == 0xFF then 0 else U16(data[1], data[2]))
  }

  // ---------------------------------------------------------------------------
  // Information messages and doors (frame 0x08)

  /** The payload bit that reports each door open. */
  predicate DoorSignal(d: Door, byte1: byte, byte2: byte) {
    match d
    case Hood => byte1 & 0x04 == 0x04
    case Trunk => byte1 & 0x08 == 0x08
    case RearLeft => byte1 & 0x10 == 0x10
    case RearRight => byte1 & 0x20 == 0x20
    case FrontLeft => byte1 & 0x40 == 0x40
    case FrontRight => byte1 & 0x80 == 0x80
    case FuelFlap => byte2 & 0x40 == 0x40
  }

  /** The doors reported by the two door bytes. */
  function DoorsFromBytes(byte1: byte, byte2: byte): (r: CarDoors)
    ensures forall d :: r.Contains(d) <==> DoorSignal(d, byte1, byte2)
    ensures r.rawValue & 2 == 0
  {
    CarDoors((if byte1 & 0x40 == 0x40 then RawBit(FrontLeft) else 0)
           | (if byte1 & 0x80 == 0x80 then RawBit(FrontRight) else 0)
           | (if byte1 & 0x10 == 0x10 then RawBit(RearLeft) else 0)
           | (if byte1 & 0x20 == 0x20 then RawBit(RearRight) else 0)
           | (if byte1 & 0x08 == 0x08 then RawBit(Trunk) else 0)
           | (if byte1 & 0x04 == 0x04 then RawBit(Hood) else 0)
           | (if byte2 & 0x40 == 0x40 then RawBit(FuelFlap) else 0))
  }

  /** The door branch of `parseInfoMessage`. */
  predicate IsDoorRow(data: seq<byte>)
    requires |data| >= 3
  {
    data[0] & 0x0F == 0x00 && (data[1] == 0xDE || data[1] == 0x0B) && data[2] & 0xF0 == 0xC0
  }

  /** The bytes `parseInfoMessage` reads: those its tests read, and bytes 3
      and 4 in the door branch. */
  predicate InfoPayloadReadable(data: seq<byte>) {
    InfoReadable(data) && (Lookup(data) == Some(DecodeDoors) ==> |data| >= 5)
  }

  /** `parseInfoMessage`: a message row shows its message, the door rows
      replace the doors, and a payload no row matches clears both. */
  function InfoMessageWrites(data: seq<byte>): seq<Write>
    requires InfoPayloadReadable(data)
  {
    match Lookup(data)
    case Some(Show(m)) => [WriteInfoMessage(Some(Message(m)))]
    case Some(DecodeDoors) => [WriteCarDoors(DoorsFromBytes(data[3], data[4]))]
    case None => [WriteCarDoors(NONE), WriteInfoMessage(None)]
  }

  // ---------------------------------------------------------------------------
  // Frames

  /** The payload holds every byte the frame's branch reads, in the order
      Swift evaluates it; the source does not check, and traps on a payload
      that ends too soon. */
  predicate PayloadLongEnough(id: byte, data: seq<byte>) {
    ((id == 0x01 || id == 0x02 || id == 0x03 || id == 0x06 || id == 0x0F || id == 0x42) ==> |data| >= 1)
    && (id == 0x05 ==> |data| >= 2)
    && ((id == 0x0C || id == 0x0D || id == 0x0E) ==> TripReadable(data))
    && (id == 0x10 ==> |data| >= 7)
    && (id == 0x08 ==> InfoPayloadReadable(data))
  }

  /** The assignments one frame performs; an unknown id or an unknown code
      performs none. */
  function DecodeFrame(id: byte, data: seq<byte>): seq<Write>
    requires PayloadLongEnough(id, data)
  {
    if id == 0x01 then [WriteVolume(data[0] as int)]
    else if id == 0x02 then [WriteTemperature(SignedByte(data[0]))]
    else if id == 0x03 then
      match RadioSourceCode(data[0]) {
        case Some(s) => [WriteRadioSource(s)]
        case None => []
      }
    else if id == 0x04 then [WriteRadioName(TextOf(data))]
    else if id == 0x05 then [WriteRadioFrequency(Some(FormatTenths(U16(data[0], data[1]))))]
    else if id == 0x06 then
      match BandCode(data[0]) {
        case Some(b) => [WriteRadioBandName(Some(b))]
        case None => []
      }
    else if id == 0x07 then [WriteRadioDescription(TextOf(data))]
    else if id == 0x08 then InfoMessageWrites(data)
    else if id == 0x0C then [WriteTripInfo1(DecodeTrip(data))]
    else if id == 0x0D then [WriteTripInfo2(DecodeTrip(data))]
    else if id == 0x0E then [WriteInstantInfo(DecodeInstant(data))]
    else if id == 0x0F then
      match TripModeCode(data[0]) {
        case Some(m) => [WriteTripInfoMode(m)]
        case None => []
      }
    else if id == 0x10 then [WriteAudioSettings(DecodeAudio(data))]
    else if id == 0x42 then [WriteSecretButton(data[0] != 0)]
    else []
  }

  // ---------------------------------------------------------------------------
  // Properties of the numbers and texts

  /** Frame 0x02 reads the byte's top bit as the sign: the result has the
      byte's bits, differs for different bytes, and 0xFE is -2. */
  lemma SignedByteRule(b: byte, c: byte)
    ensures SignedByte(b) == b as int - (if b & 0x80 == 0x80 then 256 else 0)
    ensures (SignedByte(b) + 256) % 256 == b as int
    ensures SignedByte(b) == SignedByte(c) ==> b == c
    ensures SignedByte(0xFE) == -2 && SignedByte(0x7F) == 127 && SignedByte(0x80) == -128
  {
    SignBit(b);
    SignBit(c);
  }

  /** The top bit of a byte is set exactly from 128 on. */
  lemma SignBit(b: byte)
    ensures b & 0x80 == 0x80 <==> b as int >= 128
  {
    if b >= 0x80 {
      assert b & 0x80 == 0x80;
    } else {
      assert b & 0x80 == 0;
    }
  }

  /** The numeral `Decimal(n)` denotes `n`. */
  lemma {:induction false} DecimalRoundTrip(n: nat)
    ensures DecimalValue(Decimal(n)) == n
    decreases n
  {
    if n >= 10 {
      var r := Decimal(n);
      assert r[..|r| - 1] == Decimal(n / 10);
      DecimalRoundTrip(n / 10);
    }
  }

  /** The frequency text reads back as the number of tenths: the integer
      part, a point, the tenths digit, and a trailing 0. */
  lemma FormatTenthsRoundTrip(tenths: nat)
    ensures var s := FormatTenths(tenths);
      && |s| >= 4 && s[|s| - 3] == '.' && s[|s| - 1] == '0' && IsDigit(s[|s| - 2])
      && (forall k :: 0 <= k < |s| - 3 ==> IsDigit(s[k]))
      && DecimalValue(s[..|s| - 3]) * 10 + DigitValue(s[|s| - 2]) == tenths
  {
    var s := FormatTenths(tenths);
    var whole := Decimal(tenths / 10);
    assert s[..|s| - 3] == whole;
    DecimalRoundTrip(tenths / 10);
  }

  /** 930 tenths of a megahertz is shown as "93.00". */
  lemma FrequencyText()
    ensures FormatTenths(U16(0x03, 0xA2)) == "93.00"
  {
    assert Decimal(93) == Decimal(9) + ['3'];
  }

  /** The text of frames 0x04 and 0x07 stops at the first null byte: a payload
      with a null after the text reads as the text alone. */
  lemma TextStopsAtNull(text: seq<byte>, rest: seq<byte>)
    requires forall k :: 0 <= k < |text| ==> text[k] != 0
    ensures TextLength(text) == |text|
    ensures TextLength(text + [0] + rest) == |text|
    ensures TextOf(text + [0] + rest) == TextOf(text)
  {
    var data := text + [0] + rest;
    assert data[|text|] == 0;
    assert data[..|text|] == text;
    assert text[..|text|] == text;
  }

  // ---------------------------------------------------------------------------
  // Properties of the code tables

  /** Frame 0x03 knows exactly the codes 1, 4 and 5. */
  lemma RadioSourceCodes(b: byte, s: CarRadioSource)
    ensures RadioSourceCode(b) == Some(s) <==> b == RadioSourceByte(s)
    ensures RadioSourceCode(b).None? <==> b != 1 && b != 4 && b != 5
  {
  }

  /** Frame 0x0F knows exactly the codes 0, 1 and 2. */
  lemma TripModeCodes(b: byte, m: TripInfoMode)
    ensures TripModeCode(b) == Some(m) <==> b == TripModeByte(m)
    ensures TripModeCode(b).None? <==> b > 2
  {
  }

  /** Frame 0x06 knows exactly the codes 1, 2 and 4. */
  lemma BandCodes(b: byte)
    ensures BandCode(b).None? <==> b != 1 && b != 2 && b != 4
    ensures BandCode(4) == Some("AST")
  {
  }

  /** The preset depends only on the bits of byte 6 other than the "active"
      bit, and each preset's code decodes to it whether or not that bit is
      set. */
  lemma EqualizerCodes(b: byte, e: EqualizerSetting)
    requires e != NoEqualizer
    ensures EqualizerCode(b) == EqualizerCode(b ^ 0x40) == EqualizerCode(b & 0xBF)
    ensures EqualizerCode(b) == e <==> b & 0xBF == EqualizerByte(e)
    ensures EqualizerCode(EqualizerByte(e)) == e && EqualizerCode(EqualizerByte(e) | 0x40) == e
  {
    assert (b ^ 0x40) & 0xBF == b & 0xBF;
    assert (b & 0xBF) & 0xBF == b & 0xBF;
  }

  /** The priority table read as the source's chain of tests. */
  lemma ModeChain(data: seq<byte>)
    requires |data| >= 7
    ensures ActiveMode(data) ==
      if data[0] & 0x80 == 0x80 then LeftRightBalance
      else if data[1] & 0x80 == 0x80 then FrontRearBalance
      else if data[2] & 0x80 == 0x80 then Bass
      else if data[4] & 0x80 == 0x80 then Treble
      else if data[5] & 0x80 == 0x80 then Loudness
      else if data[5] & 0x10 == 0x10 then AutomaticVolume
      else if data[6] & 0x40 == 0x40 then Equalizer
      else NoMode
  {
    var b1 := MODE_BITS[1..];
    var b2 := b1[1..];
    var b3 := b2[1..];
    var b4 := b3[1..];
    var b5 := b4[1..];
    var b6 := b5[1..];
    var b7 := b6[1..];
    assert b1[0] == ModeBit(1, 0x80, FrontRearBalance);
    assert b2[0] == ModeBit(2, 0x80, Bass);
    assert b3[0] == ModeBit(4, 0x80, Treble);
    assert b4[0] == ModeBit(5, 0x80, Loudness);
    assert b5[0] == ModeBit(5, 0x10, AutomaticVolume);
    assert b6[0] == ModeBit(6, 0x40, Equalizer);
    assert b7 == [];
    assert FirstSetMode(b7, data) == NoMode;
  }

  /** The first bit in priority order wins: a set balance bit hides every
      other, and the equaliser is active only when nothing else is. */
  lemma ActiveModePriority(data: seq<byte>)
    requires |data| >= 7
    ensures ActiveMode(data) == LeftRightBalance <==> data[0] & 0x80 == 0x80
    ensures ActiveMode(data) == Equalizer <==>
      data[0] & 0x80 != 0x80 && data[1] & 0x80 != 0x80 && data[2] & 0x80 != 0x80 && data[4] & 0x80 != 0x80
      && data[5] & 0x80 != 0x80 && data[5] & 0x10 != 0x10 && data[6] & 0x40 == 0x40
    ensures ActiveMode(data) == NoMode <==>
      data[0] & 0x80 != 0x80 && data[1] & 0x80 != 0x80 && data[2] & 0x80 != 0x80 && data[4] & 0x80 != 0x80
      && data[5] & 0x80 != 0x80 && data[5] & 0x10 != 0x10 && data[6] & 0x40 != 0x40
  {
    ModeChain(data);
  }

  // ---------------------------------------------------------------------------
  // What each frame does to the state

  /** A frame with an unknown id changes nothing. */
  lemma UnknownFrameIgnored(s: Store, id: byte, data: seq<byte>)
    requires !(id in {0x01, 0x02, 0x03, 0x04, 0x05, 0x06, 0x07, 0x08, 0x0C, 0x0D, 0x0E, 0x0F, 0x10, 0x42})
    ensures ApplyAll(s, DecodeFrame(id, data)) == s
  {
  }

  /** An unknown radio source, band or trip-display code changes nothing. */
  lemma UnknownCodeIgnored(s: Store, id: byte, data: seq<byte>)
    requires |data| >= 1
    requires (id == 0x03 && RadioSourceCode(data[0]).None?) || (id == 0x06 && BandCode(data[0]).None?)
             || (id == 0x0F && TripModeCode(data[0]).None?)
    ensures ApplyAll(s, DecodeFrame(id, data)) == s
  {
  }

  /** A volume frame leaves the volume in range, 30 for codes above 30. */
  lemma VolumeFrame(s: Store, data: seq<byte>)
    requires |data| >= 1
    ensures var t := ApplyAll(s, DecodeFrame(0x01, data));
      0 <= t.volume <= 30 && (data[0] <= 30 ==> t.volume == data[0] as int) && (data[0] > 30 ==> t.volume == 30)
  {
  }

  /** Frame 0x0C replaces only the first trip figures, 0x0D only the second,
      and each notifies even when nothing changed. */
  lemma TripFrames(s: Store, data: seq<byte>)
    requires TripReadable(data)
    ensures ApplyAll(s, DecodeFrame(0x0C, data)) == s.(tripInfo1 := DecodeTrip(data), pending := s.pending + [TripInfo1Changed])
    ensures ApplyAll(s, DecodeFrame(0x0D, data)) == s.(tripInfo2 := DecodeTrip(data), pending := s.pending + [TripInfo2Changed])
  {
    TripFrame1(s, data);
    TripFrame2(s, data);
  }

  /** Frame 0x0C on its own. */
  lemma TripFrame1(s: Store, data: seq<byte>)
    requires TripReadable(data)
    ensures ApplyAll(s, DecodeFrame(0x0C, data)) == s.(tripInfo1 := DecodeTrip(data), pending := s.pending + [TripInfo1Changed])
  {
    ApplyAllOne(s, WriteTripInfo1(DecodeTrip(data)));
  }

  /** Frame 0x0D on its own. */
  lemma TripFrame2(s: Store, data: seq<byte>)
    requires TripReadable(data)
    ensures ApplyAll(s, DecodeFrame(0x0D, data)) == s.(tripInfo2 := DecodeTrip(data), pending := s.pending + [TripInfo2Changed])
  {
    ApplyAllOne(s, WriteTripInfo2(DecodeTrip(data)));
  }

  /** Frame 0x08, a message row: it sets the message and nothing else. */
  lemma MessageFrame(s: Store, data: seq<byte>, m: nat)
    requires Lookup(data) == Some(Show(m))
    ensures PayloadLongEnough(0x08, data)
    ensures ApplyAll(s, DecodeFrame(0x08, data))
      == s.(infoMessage := Some(Message(m)), pending := s.pending + NotifyIf(s.infoMessage != Some(Message(m)), InfoMessageChanged))
  {
    ShowReadable(data, m);
    assert DecodeFrame(0x08, data) == [WriteInfoMessage(Some(Message(m)))];
    ApplyAllOne(s, WriteInfoMessage(Some(Message(m))));
  }

  /** The first pattern of the chain matches whatever the bits it masks out
      hold, and shows the automatic wiper message. */
  lemma WiperFrame(s: Store, data: seq<byte>)
    requires data == [0x71, 0x2F, 0xCA]
    ensures PayloadLongEnough(0x08, data)
    ensures ApplyAll(s, DecodeFrame(0x08, data)).infoMessage == Some("Essuie-vitre automatique activé")
  {
    assert Matches(Table()[0], data);
    LookupAnyMatch(data, 0);
    MessageFrame(s, data, 0);
  }

  /** Patterns (0x00, 0x7E) and (0x00, 0x7F) show the same text, so going
      from the first to the second queues no notification: the store
      compares texts, not patterns. */
  lemma SharedTextNotNotified(s: Store, data: seq<byte>)
    requires s.infoMessage == Some(Message(52))
    requires data == [0x00, 0x7F, 0xC8]
    ensures PayloadLongEnough(0x08, data)
    ensures ApplyAll(s, DecodeFrame(0x08, data)) == s
  {
    assert Matches(Table()[53], data);
    EngineFaultTextShared();
    LookupAnyMatch(data, 53);
    MessageFrame(s, data, 53);
  }

  /** Frame 0x08, a door row: the doors become exactly the reported ones and
      nothing else changes; the message stays. */
  lemma DoorFrame(s: Store, data: seq<byte>)
    requires |data| >= 5 && IsDoorRow(data)
    ensures PayloadLongEnough(0x08, data)
    ensures var t := ApplyAll(s, DecodeFrame(0x08, data));
      && t.carDoors == DoorsFromBytes(data[3], data[4])
      && (forall d :: t.carDoors.Contains(d) <==> DoorSignal(d, data[3], data[4]))
      && t == s.(carDoors := t.carDoors, pending := s.pending + NotifyIf(s.carDoors != t.carDoors, CarDoorsChanged))
  {
    DoorWrites(data);
    DoorsAssigned(s, DoorsFromBytes(data[3], data[4]));
  }

  /** Assigning the doors changes them and, when they differ, queues their notification. */
  lemma DoorsAssigned(s: Store, d: CarDoors)
    ensures ApplyAll(s, [WriteCarDoors(d)])
      == s.(carDoors := d, pending := s.pending + NotifyIf(s.carDoors != d, CarDoorsChanged))
  {
    ApplyAllOne(s, WriteCarDoors(d));
  }

  /** A door row decodes to the one assignment of the reported doors. */
  lemma DoorWrites(data: seq<byte>)
    requires |data| >= 5 && IsDoorRow(data)
    ensures PayloadLongEnough(0x08, data)
    ensures DecodeFrame(0x08, data) == [WriteCarDoors(DoorsFromBytes(data[3], data[4]))]
  {
    DoorLookup(data);
    LongReadable(data);
    assert DecodeFrame(0x08, data) == InfoMessageWrites(data);
  }

  /** Frame 0x08 is `parseInfoMessage`. */
  lemma InfoFrame(data: seq<byte>)
    requires InfoPayloadReadable(data)
    ensures PayloadLongEnough(0x08, data) && DecodeFrame(0x08, data) == InfoMessageWrites(data)
  {
  }

  /** A message row matched, so the payload has three bytes and is not a
      door row: frame 0x08 reads every byte it needs. */
  lemma ShowReadable(data: seq<byte>, m: nat)
    requires Lookup(data) == Some(Show(m))
    ensures PayloadLongEnough(0x08, data)
  {
    LongReadable(data);
  }

  /** Frame 0x08 that no row matches, short payloads included: the doors are
      cleared, then the message. */
  lemma UnmatchedFrame(s: Store, data: seq<byte>)
    requires InfoReadable(data) && Lookup(data).None?
    ensures ApplyAll(s, DecodeFrame(0x08, data))
      == s.(carDoors := NONE, infoMessage := None,
            pending := s.pending + NotifyIf(s.carDoors != NONE, CarDoorsChanged)
                                 + NotifyIf(s.infoMessage.Some?, InfoMessageChanged))
  {
    assert DecodeFrame(0x08, data) == [WriteCarDoors(NONE), WriteInfoMessage(None)];
    ApplyAllTwo(s, WriteCarDoors(NONE), WriteInfoMessage(None));
  }

  /** A one-byte payload whose nibble no pattern tests for is read without
      trapping and falls through the whole chain. */
  lemma NibbleOnlyFrame(s: Store, data: seq<byte>)
    requires data == [0x05]
    ensures PayloadLongEnough(0x08, data)
    ensures ApplyAll(s, DecodeFrame(0x08, data))
      == s.(carDoors := NONE, infoMessage := None,
            pending := s.pending + NotifyIf(s.carDoors != NONE, CarDoorsChanged)
                                 + NotifyIf(s.infoMessage.Some?, InfoMessageChanged))
  {
    InfoReadableBytes(data);
    ShortUnmatched(data);
    UnmatchedFrame(s, data);
  }

  /** A trip frame whose fuel figure is unknown is read from four bytes. */
  lemma ShortTripFrame(s: Store, data: seq<byte>)
    requires data == [0x50, 0x00, 0x64, 0xFF]
    ensures PayloadLongEnough(0x0C, data)
    ensures ApplyAll(s, DecodeFrame(0x0C, data)).tripInfo1 == TripInfo(100, -10, 80)
  {
    TripFrame1(s, data);
  }

  /** The door report of the front doors, read from a car frame, is summarised
      as "Portières ouvertes". */
  lemma FrontDoorsFrame(s: Store)
    ensures PayloadLongEnough(0x08, [0x00, 0xDE, 0xC8, 0xC0, 0x00])
    ensures var t := ApplyAll(s, DecodeFrame(0x08, [0x00, 0xDE, 0xC8, 0xC0, 0x00]));
      t.carDoors == CarDoors(1 | 4) && t.carDoors.Representation() == "Portières ouvertes"
  {
    var data: seq<byte> := [0x00, 0xDE, 0xC8, 0xC0, 0x00];
    DoorFrame(s, data);
    assert DoorsFromBytes(0xC0, 0x00) == CarDoors(1 | 4);
    FrontDoors(CarDoors(1 | 4));
  }

  /** Whatever frame arrives, the state invariant still holds. */
  lemma DecodePreservesValid(s: Store, id: byte, data: seq<byte>)
    requires Valid(s) && PayloadLongEnough(id, data)
    ensures Valid(ApplyAll(s, DecodeFrame(id, data)))
  {
    ApplyAllPreservesValid(s, DecodeFrame(id, data));
  }
}
