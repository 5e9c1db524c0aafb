# CarDash decode path, in Dafny

CarDash is an iPhone dashboard for a Peugeot car. An Arduino on the car's CAN
bus forwards selected CAN frames over Bluetooth Low Energy as a byte stream.
The app de-frames the stream, decodes each frame into properties of a
`CarInfo` object and shows them. This project models the path from raw bytes
to vehicle state, and proves properties of it:

- **the byte-stream de-framer** (`SerialParser.parse`). It is a class
  `SerialParsing.Parser` with the source's three fields and a loop. The loop
  is proved to act as the pure `Run`, a fold of `Step` over the input. The
  lemmas cover chunking invariance, resynchronisation on START, the escape
  rule and its quirks, the unescape round trip, and the test streams of
  `SerialParserTests`;
- **the frame decoder** (`serialParser(_:didReceiveFrame:data:)` and
  `parseInfoMessage`):
  - `FrameDecoding.DecodeFrame` gives the property assignments each frame
    makes;
  - `InfoMessages` holds the 92 patterns of the information-message chain as
    a table. It proves that at most one pattern can match a payload, and
    which payloads reach the door branch;
- **the state store** (`CarInfo` and its `didSet` observers):
  - `CarState.Apply` is the effect of one property assignment, including
    clamping, trimming, the nil-name cascade, and the notifications it
    queues;
  - `CarInfoObject.CarInfo` is the object itself: one setter method per
    property and the frame callback, each proved to act as `Apply` or
    `ApplyAll(DecodeFrame(…))`;
- **the door bitset and its French summary** (`CarDoors`):
  `Doors.CarDoors.StringRepresentation` builds the text step by step, as the
  source does, and is proved equal to a specification whose grammar rules
  are stated as lemmas;
- **the audio settings value** (`AudioSettings`), its enumerations and its
  field-wise `==`.

`Wrappers` (an `Option` type) and `Bytes` (`byte` as `bv8`) are shared
helpers.

Modelling choices:

- **Notifications.** `notifyObservers` appends a `Property` to the queue
  `pending`. Delivery on the main queue to weakly held observers is
  outside the model.
- **Decimals.** Values the source computes as `Double(UInt16) / 10.0` are
  kept as integer tenths, with the source's sentinels:
  - an unknown average fuel usage is -1.0, which is -10 tenths;
  - an unknown instant fuel usage is 0.
- **Frequency text.** `String(format: "%.2f", n / 10.0)` for a 16-bit `n`
  is the decimal numeral of `n / 10`, a point, the digit `n % 10` and a
  trailing `0` (`FrameDecoding.FormatTenths`). The quotient of a 16-bit
  number by ten is never near a rounding boundary at two decimals.
- **Payload lengths.** The source indexes the payload without checking its
  length, and an out-of-range index traps. `PayloadLongEnough` is the
  precondition that the payload holds every byte the frame's branch
  evaluates, with Swift's lazy `&&` and `?:`:
  - frames 0x0C, 0x0D and 0x0E read bytes 0 to 3, and byte 4 only when
    byte 3 is not 0xFF (`FrameDecoding.TripReadable`);
  - frame 0x08's tests read byte 1 only when the nibble of byte 0 agrees,
    and byte 2 only when byte 1 agrees too (`InfoMessages.InfoReadable`,
    worked out by `InfoMessages.InfoReadableBytes`). The door branch also
    reads bytes 3 and 4.
  A short payload that the chain tests without trapping falls through to
  the final `else` (`FrameDecoding.NibbleOnlyFrame`).
- **Message table.** The table's rows carry the number of their text. The
  texts themselves are in `InfoMessages.Message`. The store still holds and
  compares the text, as the source does. This matters because four texts
  are shown by two patterns each (`FrameDecoding.SharedTextNotNotified`).

Two behaviours of the parser that are easy to get wrong:

- **Empty payloads.** A frame with a header and an id but no payload is
  dropped, because the parser needs at least three buffered bytes
  (`SerialParsing.EmptyPayloadDropped`).
- **The escape flag.** START and END leave an armed escape flag armed
  (`SerialParsing.EscapeArms`). The next frame's first byte is then
  unescaped, but that byte is the header, which is never delivered
  (`SerialParsing.HeaderRead`).

## Model

| member | source | states |
|---|---|---|
| SerialParsing.Step | CarDash/SerialParser.swift:45-70 | one byte emits at most one frame; it emits a frame exactly on an in-frame END with at least 3 buffered bytes, and that frame is (buffer[1], buffer[2..]) with a non-empty payload |
| SerialParsing.Parser.constructor | CarDash/SerialParser.swift:28-35 | a new parser is out of frame, unarmed, with an empty buffer and no frames delivered |
| SerialParsing.Parser.Parse | CarDash/SerialParser.swift:42-72 | the byte loop leaves the fields as `Run` of the old state over the chunk, and delivers exactly `Run`'s frames after the earlier ones, in order |
| SerialParsing.RunAppend | CarDashTests/SerialParserTests.swift:87-105 | parsing `a` then `b` gives the same final state, and the same frames in the same order, as parsing `a + b` |
| SerialParsing.StartRestarts | CarDash/SerialParser.swift:49-51 | a START in any state empties the buffer and enters the frame, keeping the escape flag, so nothing before it is ever emitted afterwards |
| SerialParsing.NoiseDiscarded | CarDash/SerialParser.swift:45-47 | out of frame, bytes without START change nothing and emit nothing |
| SerialParsing.FramesAtMostEnds | CarDash/SerialParser.swift:52-56 | a call emits at most as many frames as its input has END bytes |
| SerialParsing.PayloadsNonEmpty | CarDash/SerialParser.swift:55-56 | every emitted payload has at least one byte |
| SerialParsing.ShortFrameDropped | CarDash/SerialParser.swift:52-59 | an END with fewer than 3 buffered bytes emits nothing and only leaves the frame |
| SerialParsing.EscapeArms | CarDash/SerialParser.swift:60-69 | ESCAPE appends nothing and arms the flag; START and END leave the flag as it was; the next ordinary byte is appended XOR 0x20 and disarms it |
| SerialParsing.Escape | CarDash/SerialParser.swift:60-69 | the sender's escaping, as the inverse of the unescape rule: no START or END byte on the wire, and at most twice the length |
| SerialParsing.EscapeAppend | CarDash/SerialParser.swift:60-69 | escaping a concatenation is concatenating the escaped parts, so a frame can be escaped piece by piece |
| SerialParsing.EscapeOfPlain | CarDash/SerialParser.swift:60-69 | content without START, END or ESCAPE bytes goes on the wire unchanged |
| SerialParsing.ByteEscaped | CarDash/SerialParser.swift:60-69 | inside a frame with the flag clear, one escaped byte appends exactly that byte and emits nothing |
| SerialParsing.RunPlain | CarDash/SerialParser.swift:45-69 | inside a frame with the flag clear, bytes that are not control bytes are appended as they are |
| SerialParsing.CloseFrame | CarDash/SerialParser.swift:52-56 | an END after a buffered header, id and payload delivers exactly (id, payload) and leaves the frame |
| SerialParsing.RunEscaped | CarDash/SerialParser.swift:60-69 | inside a frame, the escaped form of any content appends exactly that content and emits nothing |
| SerialParsing.HeaderRead | CarDash/SerialParser.swift:49-69 | after START, a stale armed flag only alters the first buffered byte, the header, and is then cleared |
| SerialParsing.EscapedFrameRoundTrip | CarDash/SerialParser.swift:42-72 | from any state, START, the escaped header, id and payload, then END, emit exactly the frame (id, payload) |
| SerialParsing.Resync | CarDash/SerialParser.swift:49-56 | whatever garbage comes first, a well-formed frame after it is delivered after garbage's own frames |
| SerialParsing.EmptyPayloadDropped | CarDash/SerialParser.swift:55-59 | a frame with a header and an id but no payload is not delivered |
| SerialParsing.SimpleFrame | CarDashTests/SerialParserTests.swift:39-53 | [0x12,0x02,0x01,0x42,0x13] yields exactly frame 0x01 with payload [0x42] |
| SerialParsing.EscapedFrame | CarDashTests/SerialParserTests.swift:55-69 | [0x12,0x03,0x02,0x7E,0x33,0x42,0x13] yields exactly frame 0x02 with payload [0x13,0x42] |
| SerialParsing.ComplexEscapedFrame | CarDashTests/SerialParserTests.swift:71-85 | the 25-byte test stream yields exactly frame 0x00 with payload 0x01…0x11, 0x12 |
| SerialParsing.RunSplit | CarDashTests/SerialParserTests.swift:87-105 | the frames of a stream are the frames of any prefix followed by those of the rest, parsed from the state the prefix leaves |
| SerialParsing.ComplexEscapedFrameChunked | CarDashTests/SerialParserTests.swift:87-105 | the same stream cut at any point into two calls yields the same single frame |
| SerialParsing.EscapedLastByte | CarDash/SerialParser.swift:60-69 | an escaped 0x32 just before END arrives as 0x12 at the end of the payload |
| SerialParsing.MalformedPrefix | CarDashTests/SerialParserTests.swift:121-122 | the malformed prefix emits nothing and leaves the parser in a frame with the escape flag armed |
| SerialParsing.FrameAfterMalformedData | CarDashTests/SerialParserTests.swift:121-135 | the whole malformed-data test yields exactly one frame, id 0x01 with payload [0x02,0x03] |
| FrameDecoding.U16 | CarDash/CarInfo+SerialParserDelegate.swift:11-15 | `UInt16(highByte:lowByte:)` is high * 256 + low, always below 65536 |
| FrameDecoding.SignedByte | CarDash/CarInfo+SerialParserDelegate.swift:26-28 | the temperature lies in [-128, 127] |
| FrameDecoding.SignedByteRule | CarDash/CarInfo+SerialParserDelegate.swift:26-28 | the temperature is b for b < 128 and b - 256 otherwise; it is b modulo 256; different bytes give different temperatures; 0xFE gives -2 |
| FrameDecoding.Centred | CarDash/CarInfo+SerialParserDelegate.swift:134-139 | a balance, bass or treble value lies in [-63, 64] |
| FrameDecoding.Decimal | CarDash/CarInfo+SerialParserDelegate.swift:49 | the integer part printed: at least one digit, only digits, no leading zero |
| FrameDecoding.DecimalRoundTrip | CarDash/CarInfo+SerialParserDelegate.swift:49 | reading the printed integer part back gives the number |
| FrameDecoding.FormatTenthsRoundTrip | CarDash/CarInfo+SerialParserDelegate.swift:48-49 | the frequency text is digits, a point, one digit and "0", and reading it back gives the tenths |
| FrameDecoding.FrequencyText | CarDash/CarInfo+SerialParserDelegate.swift:48-49 | bytes 0x03, 0xA2 (930 tenths) print as "93.00" |
| FrameDecoding.IndexOf | CarDash/CarInfo+SerialParserDelegate.swift:42 | `index(of:)` finds the first occurrence, or none when there is none |
| FrameDecoding.AsciiDecode | CarDash/CarInfo+SerialParserDelegate.swift:46-47 | ASCII decoding succeeds exactly when every byte is below 128, with one character of the same code per byte |
| FrameDecoding.TextStopsAtNull | CarDash/CarInfo+SerialParserDelegate.swift:40-47 | the text ends at the first null byte, and the bytes after it do not matter; without a null byte the whole payload is the text |
| FrameDecoding.RadioSourceCodes | CarDash/CarInfo+SerialParserDelegate.swift:29-39 | codes 1, 4 and 5 are the FM tuner, phone and aux sources, and no other code is a source |
| FrameDecoding.BandCodes | CarDash/CarInfo+SerialParserDelegate.swift:50-60 | codes 1, 2 and 4 are bands ("AST" for 4), and no other code is a band |
| FrameDecoding.TripModeCodes | CarDash/CarInfo+SerialParserDelegate.swift:88-98 | codes 0, 1 and 2 are the instant, trip 1 and trip 2 displays, and no other code is one |
| FrameDecoding.EqualizerCodes | CarDash/CarInfo+SerialParserDelegate.swift:117-131 | the preset depends only on byte 6 without bit 0x40, and each preset's code decodes to it with or without that bit |
| FrameDecoding.FirstSetMode | CarDash/CarInfo+SerialParserDelegate.swift:100-115 | no mode exactly when no bit is set; otherwise the mode of a set bit with no set bit before it |
| FrameDecoding.ModeChain | CarDash/CarInfo+SerialParserDelegate.swift:100-115 | the priority table gives the same mode as the source's chain of seven tests |
| FrameDecoding.ActiveModePriority | CarDash/CarInfo+SerialParserDelegate.swift:100-115 | a set left/right bit wins over all the others; the equaliser is active only when no earlier bit is set; no mode is active exactly when no bit is set |
| FrameDecoding.DecodeAudio | CarDash/CarInfo+SerialParserDelegate.swift:99-140 | every field: the active mode, the preset from byte 6, the four centred values from their bytes, automatic volume iff d5 & 0x07 == 0x07, loudness iff d5 & 0x40 |
| FrameDecoding.DecodeTrip | CarDash/CarInfo+SerialParserDelegate.swift:71-76 | needs byte 4 only when byte 3 is not 0xFF; the distance is U16(d1, d2); fuel usage is -1.0 iff d3 == 0xFF, else U16(d3, d4) tenths; speed is -1 iff d0 == 0xFF, else d0 |
| FrameDecoding.DecodeInstant | CarDash/CarInfo+SerialParserDelegate.swift:83-87 | needs byte 4 only when byte 3 is not 0xFF; autonomy is -1 iff d3 == 0xFF, else U16(d3, d4); fuel usage is 0 when d1 == 0xFF, else U16(d1, d2) tenths |
| FrameDecoding.DoorsFromBytes | CarDash/CarInfo+SerialParserDelegate.swift:306-339 | a door is open exactly when its payload bit is set (0x04 hood, 0x08 trunk, 0x10/0x20 rear, 0x40/0x80 front, byte 4 0x40 fuel flap), and the unused bit stays clear |
| FrameDecoding.UnknownFrameIgnored | CarDash/CarInfo+SerialParserDelegate.swift:143-145 | a frame with an unknown id changes no property and queues nothing |
| FrameDecoding.UnknownCodeIgnored | CarDash/CarInfo+SerialParserDelegate.swift:29-98 | an unknown radio source, band or trip-display code changes nothing |
| FrameDecoding.VolumeFrame | CarDash/CarInfo+SerialParserDelegate.swift:24-25 | a volume frame stores its byte, or 30 for bytes above 30 |
| FrameDecoding.TripFrames | CarDash/CarInfo+SerialParserDelegate.swift:71-82 | frame 0x0C replaces only the first trip figures and 0x0D only the second, each notifying even when unchanged |
| FrameDecoding.ShortTripFrame | CarDash/CarInfo+SerialParserDelegate.swift:71-80 | a four-byte trip frame whose byte 3 is 0xFF is read without byte 4, and gives distance 100, unknown fuel usage and speed 80 |
| FrameDecoding.MessageFrame | CarDash/CarInfo+SerialParserDelegate.swift:152-302 | a payload a message pattern matches is read without trapping; the pattern sets the message, notifying iff it changed, and changes nothing else |
| FrameDecoding.WiperFrame | CarDash/CarInfo+SerialParserDelegate.swift:153-154 | the payload 71 2F CA, whose high nibble of byte 0 and low nibble of byte 2 differ from the first pattern's, still takes its branch and shows the automatic-wiper message |
| FrameDecoding.SharedTextNotNotified | CarDash/CarInfo+SerialParserDelegate.swift:257-260 | going from pattern (0x00, 0x7E) to (0x00, 0x7F), which show the same text, queues no notification |
| FrameDecoding.DoorFrame | CarDash/CarInfo+SerialParserDelegate.swift:303-339 | a door pattern replaces the doors by exactly those its bytes report, leaves the message alone, and notifies iff the doors changed |
| FrameDecoding.DoorWrites | CarDash/CarInfo+SerialParserDelegate.swift:303-339 | a door pattern decodes to the single assignment of the doors its bytes report |
| FrameDecoding.UnmatchedFrame | CarDash/CarInfo+SerialParserDelegate.swift:370-373 | a payload no pattern matches, of any length the tests can read, clears the doors and then the message, each notifying iff it changed |
| FrameDecoding.ShowReadable | CarDash/CarInfo+SerialParserDelegate.swift:17-19 | a payload a message pattern matches holds every byte frame 0x08 reads |
| FrameDecoding.NibbleOnlyFrame | CarDash/CarInfo+SerialParserDelegate.swift:17-19 | the one-byte payload 0x05, whose nibble no pattern tests for, is read without trapping and clears the doors and then the message |
| FrameDecoding.FrontDoorsFrame | CarDash/CarInfo+SerialParserDelegate.swift:303-339 | d3 = 0xC0 reports the two front doors, summarised as "Portières ouvertes" |
| FrameDecoding.DecodePreservesValid | CarDash/CarInfo+SerialParserDelegate.swift:22-146 | whatever frame arrives, the store invariant still holds afterwards |
| InfoMessages.FirstMatch | CarDash/CarInfo+SerialParserDelegate.swift:152-373 | for a payload of any length, the index found matches, and no earlier row matches; no index when no row matches |
| InfoMessages.Lookup | CarDash/CarInfo+SerialParserDelegate.swift:152-373 | for a payload of any length, no action exactly when no pattern matches; otherwise the action of a matching pattern |
| InfoMessages.SameMatchSameKey | CarDash/CarInfo+SerialParserDelegate.swift:17-19 | two patterns matching the same payload pin down the same bytes 0 and 1 |
| InfoMessages.TableKeysDistinct | CarDash/CarInfo+SerialParserDelegate.swift:152-369 | no two of the 92 patterns have the same (b1, b2) |
| InfoMessages.TableWellFormed | CarDash/CarInfo+SerialParserDelegate.swift:152-369 | there are 92 patterns; each tests for nibble 0 or 1 in byte 0 and has 0xC as the high nibble of b3; exactly the patterns (0x00, 0xDE) and (0x00, 0x0B) decode the doors |
| InfoMessages.AtMostOneMatch | CarDash/CarInfo+SerialParserDelegate.swift:152-369 | at most one pattern matches any payload |
| InfoMessages.LookupAnyMatch | CarDash/CarInfo+SerialParserDelegate.swift:152-369 | the chain's answer is the action of any matching pattern, so the order of the tests does not matter |
| InfoMessages.NeedsC0 | CarDash/CarInfo+SerialParserDelegate.swift:17-19 | nothing matches unless the high nibble of byte 2 is 0xC |
| InfoMessages.DoorBranch | CarDash/CarInfo+SerialParserDelegate.swift:303-304 | the door branch is taken exactly for payloads of at least three bytes with low nibble 0 in byte 0, byte 1 0xDE or 0x0B, and high nibble 0xC in byte 2 |
| InfoMessages.ChainReadableAll | CarDash/CarInfo+SerialParserDelegate.swift:17-19 | the tests evaluated up to the first match read only present bytes exactly when every pattern's test would, since a match needs three bytes |
| InfoMessages.InfoReadableBytes | CarDash/CarInfo+SerialParserDelegate.swift:17-19 | the chain reads only present bytes exactly when there is a byte 0, a byte 1 when its nibble is 0 or 1, and a byte 2 when bytes 0 and 1 are a pattern's key |
| InfoMessages.LongReadable | CarDash/CarInfo+SerialParserDelegate.swift:17-19 | a payload of three bytes or more never makes the tests trap |
| InfoMessages.ShortUnmatched | CarDash/CarInfo+SerialParserDelegate.swift:17-19 | no pattern matches a payload shorter than three bytes |
| InfoMessages.EngineFaultTextShared | CarDash/CarInfo+SerialParserDelegate.swift:257-260 | patterns (0x00, 0x7E) and (0x00, 0x7F) show the same text |
| InfoMessages.SharedTexts | CarDash/CarInfo+SerialParserDelegate.swift:211-288 | four texts are each shown by two message numbers: 29 and 40, 42 and 49, 45 and 67, 52 and 53 |
| InfoMessages.SuspensionTextShared | CarDash/CarInfo+SerialParserDelegate.swift:211-234 | patterns (0x00, 0x12) and (0x00, 0x6C) show the same text |
| InfoMessages.GearboxTextShared | CarDash/CarInfo+SerialParserDelegate.swift:237-252 | patterns (0x00, 0x6E) and (0x00, 0x7A) show the same text |
| InfoMessages.SideLightTextShared | CarDash/CarInfo+SerialParserDelegate.swift:243-288 | patterns (0x00, 0x74) and (0x00, 0xA0) show the same text |
| InfoMessages.SharedTextRows | CarDash/CarInfo+SerialParserDelegate.swift:211-288 | the table rows of those numbers are the patterns (0x00, 0x12), (0x00, 0x6C), (0x00, 0x6E), (0x00, 0x7A), (0x00, 0x74), (0x00, 0xA0), (0x00, 0x7E) and (0x00, 0x7F), in source order among the 92 |
| CarState.Clamp | CarDash/CarInfo.swift:67-74 | the stored volume lies in [0, 30]: values above become 30, values below become 0, others are kept |
| CarState.TrimStart | CarDash/CarInfo.swift:99-100 | a suffix of the text; the dropped characters are whitespace; the result does not start with whitespace |
| CarState.TrimEnd | CarDash/CarInfo.swift:99-100 | a prefix of the text; the dropped characters are whitespace; the result does not end with whitespace |
| CarState.TrimEmptyIffBlank | CarDash/CarInfo.swift:99-102 | trimming leaves nothing exactly when the text is all whitespace |
| CarState.TrimPadded | CarDash/CarInfo.swift:99-100 | trimming removes exactly the whitespace padding around a text that starts and ends with non-whitespace |
| CarState.TrimIdempotent | CarDash/CarInfo.swift:99-100 | trimming twice is trimming once |
| CarState.TrimKeepsTrimmed | CarDash/CarInfo.swift:99-100 | a text that starts and ends with non-whitespace is kept as is |
| CarState.NotifyOnChange | CarDash/CarInfo.swift:67-210 | every property except the trip and instant figures (and the radio name, see below) queues one notification exactly when its stored value changed |
| CarState.NotifyAlways | CarDash/CarInfo.swift:163-179 | tripInfo1, tripInfo2 and instantInfo queue one notification on every assignment |
| CarState.OnlyTargetChanges | CarDash/CarInfo.swift:67-210 | an assignment changes no other property, except the radio name's effect on the description, and only the radio name sets the original name |
| CarState.RadioNameCascade | CarDash/CarInfo.swift:97-116 | the name is nil exactly when the new name is nil or blank, else it is the trimmed name; a nil name clears the description and queues its notification (iff it was set) before the name's; otherwise the description is kept |
| CarState.OriginalIsFirstName | CarDash/CarInfo.swift:104-106 | the original name is the first non-nil name ever stored and never changes afterwards |
| CarState.ApplyAllAppend | CarDash/CarInfo.swift:67-210 | performing two runs of assignments one after the other is performing their concatenation |
| CarState.InitialValid | CarDash/CarInfo.swift:67-210 | a new `CarInfo` satisfies the invariant |
| CarState.ApplyPreservesValid | CarDash/CarInfo.swift:67-129 | every assignment keeps the invariant: volume in range, the name non-empty and trimmed, the description trimmed, the original name known once a name is |
| CarState.ApplyAllPreservesValid | CarDash/CarInfo.swift:67-210 | any run of assignments keeps the invariant |
| CarState.PaddedName | CarDash/CarInfo.swift:97-116 | "  FIP " is stored as "FIP", becomes the original name, and queues one notification |
| CarState.NameWritten | CarDash/CarInfo.swift:97-116 | a name that is not blank is stored normalised, becomes the original name when none is known yet, leaves the description alone, and notifies iff the name changed |
| CarState.BlankNameClearsDescription | CarDash/CarInfo.swift:97-116 | a blank name stores nil, clears the description, and queues the description's notification before the name's |
| CarState.BlankDescriptionKept | CarDash/CarInfo.swift:120-129 | any all-whitespace description is stored as "", not nil, and queues one notification |
| CarState.VolumeClamped | CarDash/CarInfo.swift:67-79 | 42 at volume 30 changes and queues nothing; -3 stores 0 and notifies |
| CarInfoObject.CarInfo.constructor | CarDash/CarInfo.swift:56-210 | a new object holds the property initialisers and no notifications, and satisfies the invariant |
| CarInfoObject.CarInfo.NotifyObservers | CarDash/CarInfo.swift:227-237 | queues one notification and changes nothing else |
| CarInfoObject.CarInfo.SetVolume | CarDash/CarInfo.swift:67-79 | the object afterwards is `Apply` of the volume assignment |
| CarInfoObject.CarInfo.SetTemperature | CarDash/CarInfo.swift:81-87 | the object afterwards is `Apply` of the temperature assignment |
| CarInfoObject.CarInfo.SetRadioSource | CarDash/CarInfo.swift:89-95 | the object afterwards is `Apply` of the radio-source assignment |
| CarInfoObject.CarInfo.SetRadioName | CarDash/CarInfo.swift:97-116 | the object afterwards is `Apply` of the radio-name assignment, including the nested description assignment |
| CarInfoObject.CarInfo.SetRadioDescription | CarDash/CarInfo.swift:120-129 | the object afterwards is `Apply` of the description assignment |
| CarInfoObject.CarInfo.SetRadioFrequency | CarDash/CarInfo.swift:131-137 | the object afterwards is `Apply` of the frequency assignment |
| CarInfoObject.CarInfo.SetRadioBandName | CarDash/CarInfo.swift:139-145 | the object afterwards is `Apply` of the band assignment |
| CarInfoObject.CarInfo.SetInfoMessage | CarDash/CarInfo.swift:147-153 | the object afterwards is `Apply` of the message assignment |
| CarInfoObject.CarInfo.SetTripInfoMode | CarDash/CarInfo.swift:155-161 | the object afterwards is `Apply` of the trip-display assignment |
| CarInfoObject.CarInfo.SetInstantInfo | CarDash/CarInfo.swift:163-167 | the object afterwards is `Apply` of the instant-figures assignment |
| CarInfoObject.CarInfo.SetTripInfo1 | CarDash/CarInfo.swift:169-173 | the object afterwards is `Apply` of the first-trip assignment |
| CarInfoObject.CarInfo.SetTripInfo2 | CarDash/CarInfo.swift:175-179 | the object afterwards is `Apply` of the second-trip assignment |
| CarInfoObject.CarInfo.SetCarDoors | CarDash/CarInfo.swift:181-187 | the object afterwards is `Apply` of the doors assignment |
| CarInfoObject.CarInfo.SetAudioSettings | CarDash/CarInfo.swift:189-202 | the object afterwards is `Apply` of the audio-settings assignment, compared with the hand-written `==` |
| CarInfoObject.CarInfo.SetSecretButton | CarDash/CarInfo.swift:204-210 | the object afterwards is `Apply` of the secret-button assignment |
| CarInfoObject.CarInfo.DidReceiveFrame | CarDash/CarInfo+SerialParserDelegate.swift:22-146 | for any payload holding the bytes its branch evaluates, the object afterwards is the old one with the frame's `DecodeFrame` assignments performed in order, and the invariant is kept |
| CarInfoObject.CarInfo.ReceiveRadioSource | CarDash/CarInfo+SerialParserDelegate.swift:29-39 | the source switch performs exactly the assignments of frame 0x03 |
| CarInfoObject.CarInfo.ReceiveRadioBand | CarDash/CarInfo+SerialParserDelegate.swift:50-60 | the band switch performs exactly the assignments of frame 0x06 |
| CarInfoObject.CarInfo.ReceiveTripMode | CarDash/CarInfo+SerialParserDelegate.swift:88-98 | the trip-display switch performs exactly the assignments of frame 0x0F |
| CarInfoObject.CarInfo.ReceiveAudioSettings | CarDash/CarInfo+SerialParserDelegate.swift:99-140 | the `activeMode` chain (`ActiveModeOf`) and the preset switch (`EqualizerCode`) build exactly `DecodeAudio`, and the object afterwards is that assignment's `Apply` |
| CarInfoObject.CarInfo.ParseInfoMessage | CarDash/CarInfo+SerialParserDelegate.swift:152-374 | for any payload the tests can read (the door branch also needing bytes 3 and 4), the object afterwards has performed exactly the assignments of frame 0x08 |
| CarInfoObject.ActiveModeOf | CarDash/CarInfo+SerialParserDelegate.swift:100-115 | the source's chain of seven bit tests computes `ActiveMode` of the payload |
| CarInfoObject.ReceivedText | CarDash/CarInfo+SerialParserDelegate.swift:40-47 | the text from `actualLength` is the frame's text, and it has no null character |
| CarInfoObject.DecodedDoors | CarDash/CarInfo+SerialParserDelegate.swift:306-338 | the flags inserted one by one are exactly `DoorsFromBytes` of the two door bytes |
| Doors.CarDoors.Insert | CarDash/CarDoors.swift:15-22 | after inserting a door, exactly that door and the doors already open are open |
| Doors.FlagsDisjoint | CarDash/CarDoors.swift:15-22 | every flag is one bit other than bit 1, and different flags have no bit in common |
| Doors.NoneIsEmpty | CarDash/CarDoors.swift:15 | `None` contains no door |
| Doors.InsertCommutes | CarDash/CarDoors.swift:12-22 | inserting is idempotent, and the order of insertions does not matter |
| Doors.CarDoors.CountOpen | CarDash/CarDoors.swift:84-90 | the count of open doors is at most the number examined; it is zero exactly when none is open, and all of them exactly when all are open |
| Doors.CarDoors.MainDoorStrings | CarDash/CarDoors.swift:82-111 | the counting loop finds the number of open main doors, and the door item is the one the rule below says |
| Doors.CarDoors.StringRepresentation | CarDash/CarDoors.swift:81-146 | the text built step by step is the grammar-rule specification `Representation` |
| Doors.MainItemRule | CarDash/CarDoors.swift:84-111 | two or more open main doors give the single item "portières", exactly one gives that door's own phrase, none gives no item |
| Doors.ItemInitials | CarDash/CarDoors.swift:92-123 | every item is non-empty and starts with 'p', 'c' or 't' |
| Doors.SuffixRule | CarDash/CarDoors.swift:125-134 | the suffix is " ouvert", then "e" iff neither trunk nor hood is open, then "s" iff there are at least two items or two main doors |
| Doors.JoinLastTwo | CarDash/CarDoors.swift:136-143 | with at least two items, the last two are joined by " et " and the others by ", " |
| Doors.EndsWithSuffix | CarDash/CarDoors.swift:143-145 | the text ends with the suffix |
| Doors.FirstCharacter | CarDash/CarDoors.swift:143-145 | the text starts with an upper-cased item initial ('P', 'C' or 'T'), or with a space exactly when no door is open |
| Doors.UpperFirst | CarDash/CarDoors.swift:145 | only the first character is upper-cased, and the length is kept |
| Doors.TrunkOnly | CarDash/CarDoors.swift:113-145 | the trunk alone reads "Coffre ouvert" |
| Doors.FrontDoors | CarDash/CarDoors.swift:84-145 | the two front doors read "Portières ouvertes" |
| Doors.RearRightOnly | CarDash/CarDoors.swift:95-145 | the rear right door alone reads "Portière arrière droite ouverte" |
| Doors.EverythingOpen | CarDash/CarDoors.swift:84-145 | every door open gives the items "portières", "coffre", "capot", "trappe réservoir", joined with commas and a final " et ", and the suffix " ouverts" |
| Doors.NothingOpen | CarDash/CarDoors.swift:125-145 | no door open reads " ouverte" (the dashboard only asks when a door is open) |
| Audio.FromRawValue | CarDash/AudioSettings.swift:13-19 | a preset read from a string has that raw string |
| Audio.RawValueRoundTrip | CarDash/AudioSettings.swift:13-19 | reading a preset back from its raw string gives the preset |
| Audio.RawValuesDistinct | CarDash/AudioSettings.swift:13-19 | no two presets share a raw string |
| Audio.AllSettingsComplete | CarDash/AudioSettings.swift:21 | `allSettings` lists each of the six presets exactly once, in declaration order |
| Audio.Equals | CarDash/AudioSettings.swift:50-60 | the hand-written `==` holds exactly when the two values are equal, field for field |

## Left out

- The Bluetooth transport (BluetoothSerialParser, BLESerialManager, BLESerialDevice) and `CarInfo.init` creating the parser: I/O through foreign Objective-C code. The parser's delegate callback appears as the list `received` of delivered frames, and `CarInfo.DidReceiveFrame` takes one frame as its argument. Nothing connects a `Parser` to a `CarInfo`.
- Notification delivery (`DispatchQueue.main.async` to a weak `NSHashTable` of observers): concurrency and weak references. Only the ordered queue of `Property` values is kept.
- `CarDoors.imageRepresentation`: UIKit image compositing.
- `print` logging of unknown codes, unknown frame ids and short frames: it changes no state.
- `AudioSettings.description`: debugging text only.
- Floating point: the `Double` fuel figures are integer tenths. The `%.2f` frequency text is `FrameDecoding.FormatTenths`, which is exact for every 16-bit value.
- FrameDecoding.AsciiDecode: Foundation's ASCII decoder is a foreign call. The model decodes bytes below 128 one for one and gives no string when any byte is 128 or above. Foundation's actual treatment of such bytes is not modelled.
- CarState.Apply: Swift's `String` `!=` compares by Unicode canonical equivalence, so two texts that differ only in normalisation are equal there. The model compares code points, and would queue a notification in that case where the source does not.
- CarState.IsWhitespace: `CharacterSet.whitespaces` is modelled as tab plus the Unicode space separators, one code point at a time. Grapheme clusters are not modelled.
- The information-message chain is the lookup `InfoMessages.Lookup` over a table of its 92 patterns, in source order, not 91 nested `if` statements. `AtMostOneMatch` shows that the order cannot change which branch is taken.
- Test `testParsingPerformance`: it loads a bundled hex file and measures time.
- The view controllers and views (dashboard, trip info, radio, debug, graph, settings labels and progress views, popups): UI, animation and timers.

## Findings

None: no contract stated here needed a departure from the code as written.
