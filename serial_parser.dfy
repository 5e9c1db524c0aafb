/**
 * The byte-stream de-framer of CarDash/SerialParser.swift.
 *
 * The parser keeps three pieces of state between calls (the buffer, the
 * in-frame flag and the "unescape next byte" flag) and consumes its input one
 * byte at a time. `Step` is the transition for one byte, `Run` folds it over a
 * chunk, and the class `Parser` is the object itself, whose `Parse` method is
 * proved to behave as `Run`.
 */
module SerialParsing {
  import opened Bytes

  // Control characters of the wire protocol (SerialParser.ControlChars).
  const START: byte := 0x12
  const END: byte := 0x13
  const ESCAPE: byte := 0x7E
  const ESCAPE_XOR: byte := 0x20

  /** A frame handed to the delegate: the frame ID and its payload. */
  datatype Frame = Frame(id: byte, data: seq<byte>)

  /** The parser's fields: `dataBuffer`, `isInFrame`, `shouldUnescapeNextByte`. */
  datatype ParserState = ParserState(dataBuffer: seq<byte>, isInFrame: bool, shouldUnescapeNextByte: bool)

  /** The state of a newly created parser. */
  const INITIAL := ParserState([], false, false)

  /** A new state together with the frames emitted on the way to it, in order. */
  datatype Parsed = Parsed(state: ParserState, frames: seq<Frame>)

  predicate IsControl(b: byte) {
    b == START || b == END || b == ESCAPE
  }

  /** The effect of one input byte. At most one frame is emitted, and only by an
      END received inside a frame whose buffer holds at least three bytes; the
      first buffered byte is a header that is not part of the frame. */
  function Step(s: ParserState, b: byte): (r: Parsed)
    ensures |r.frames| <= 1
    ensures |r.frames| == 1 <==> s.isInFrame && b == END && |s.dataBuffer| >= 3
    ensures |r.frames| == 1 ==>
      r.frames[0] == Frame(s.dataBuffer[1], s.dataBuffer[2..]) && |r.frames[0].data| >= 1
  {
    if !s.isInFrame && b != START then
      Parsed(s, [])
    else if b == START then
      Parsed(s.(isInFrame := true, dataBuffer := []), [])
    else if b == END then
      Parsed(s.(isInFrame := false),
             if |s.dataBuffer| >= 3 then [Frame(s.dataBuffer[1], s.dataBuffer[2..])] else [])
    else if b == ESCAPE then
      Parsed(s.(shouldUnescapeNextByte := true), [])
    else if s.shouldUnescapeNextByte then
      Parsed(s.(shouldUnescapeNextByte := false, dataBuffer := s.dataBuffer + [b ^ ESCAPE_XOR]), [])
    else
      Parsed(s.(dataBuffer := s.dataBuffer + [b]), [])
  }

  /** `Step` folded over a chunk of input, collecting the emitted frames. */
  function Run(s: ParserState, bytes: seq<byte>): Parsed
    decreases |bytes|
  {
    if bytes == [] then
      Parsed(s, [])
    else
      var first := Step(s, bytes[0]);
      var rest := Run(first.state, bytes[1..]);
      Parsed(rest.state, first.frames + rest.frames)
  }

  /** Byte stuffing as the sender performs it: every control byte `b` of the
      frame content is sent as `ESCAPE, b ^ ESCAPE_XOR`. The result never
      contains a delimiter. */
  function Escape(content: seq<byte>): (wire: seq<byte>)
    ensures forall i :: 0 <= i < |wire| ==> wire[i] != START && wire[i] != END
    ensures |content| <= |wire| <= 2 * |content|
  {
    if content == [] then []
    else
      (if IsControl(content[0]) then [ESCAPE, content[0] ^ ESCAPE_XOR] else [content[0]])
      + Escape(content[1..])
  }

  /** The object of the source: the three fields, and the frames delivered to
      the delegate so far, in delivery order. */
  class Parser {
    var dataBuffer: seq<byte>
    var isInFrame: bool
    var shouldUnescapeNextByte: bool
    var received: seq<Frame>

    function State(): ParserState
      reads this
    {
      ParserState(dataBuffer, isInFrame, shouldUnescapeNextByte)
    }

    constructor ()
      ensures State() == INITIAL && received == []
    {
      dataBuffer := [];
      isInFrame := false;
      shouldUnescapeNextByte := false;
      received := [];
    }

    /** Consumes one chunk of serial data. It may be called any number of times
        with arbitrary chunk boundaries. */
    method Parse(data: seq<byte>)
      modifies this
      ensures State() == Run(old(State()), data).state
      ensures received == old(received) + Run(old(State()), data).frames
    {
      var i := 0;
      while i < |data|
        invariant i <= |data|
        invariant State() == Run(old(State()), data[..i]).state
        invariant received == old(received) + Run(old(State()), data[..i]).frames
      {
        var byte := data[i];
        RunSnoc(old(State()), data[..i], byte);
        assert data[..i + 1] == data[..i] + [byte];
        i := i + 1;

        if !isInFrame && byte != START {
          continue;
        }

        if byte == START {
          isInFrame := true;
          dataBuffer := [];
        } else if byte == END {
          isInFrame := false;
          if |dataBuffer| >= 3 {
            received := received + [Frame(dataBuffer[1], dataBuffer[2..])];
          }
        } else if byte == ESCAPE {
          shouldUnescapeNextByte := true;
        } else {
          if shouldUnescapeNextByte {
            shouldUnescapeNextByte := false;
            dataBuffer := dataBuffer + [byte ^ ESCAPE_XOR];
          } else {
            dataBuffer := dataBuffer + [byte];
          }
        }
      }
      assert data[..i] == data;
    }
  }

  // ---------------------------------------------------------------------------
  // Chunking

  /** Parsing `a` and then `b` gives the same final state and the same frames,
      in the same order, as parsing `a + b` in one call. */
  lemma {:induction false} RunAppend(s: ParserState, a: seq<byte>, b: seq<byte>)
    decreases |a|
    ensures Run(s, a + b).state == Run(Run(s, a).state, b).state
    ensures Run(s, a + b).frames == Run(s, a).frames + Run(Run(s, a).state, b).frames
  {
    if a == [] {
      assert a + b == b;
    } else {
      var first := Step(s, a[0]);
      assert (a + b)[0] == a[0];
      assert (a + b)[1..] == a[1..] + b;
      RunAppend(first.state, a[1..], b);
    }
  }

  /** `RunAppend` for one input cut in two. */
  lemma RunSplit(s: ParserState, bytes: seq<byte>, cut: nat)
    requires cut <= |bytes|
    ensures Run(s, bytes).frames == Run(s, bytes[..cut]).frames + Run(Run(s, bytes[..cut]).state, bytes[cut..]).frames
  {
    RunAppend(s, bytes[..cut], bytes[cut..]);
    assert bytes[..cut] + bytes[cut..] == bytes;
  }

  /** One byte on its own is one `Step`. */
  lemma RunOne(s: ParserState, b: byte)
    ensures Run(s, [b]) == Step(s, b)
  {
    assert [b][1..] == [];
  }

  /** One more byte after a chunk is one more `Step`. */
  lemma RunSnoc(s: ParserState, a: seq<byte>, b: byte)
    ensures Run(s, a + [b]).state == Step(Run(s, a).state, b).state
    ensures Run(s, a + [b]).frames == Run(s, a).frames + Step(Run(s, a).state, b).frames
  {
    RunAppend(s, a, [b]);
    var mid := Run(s, a).state;
    assert Run(mid, [b]) == Parsed(Step(mid, b).state, Step(mid, b).frames + []);
  }

  /** `RunAppend` for chunks whose effect is already known. */
  lemma Compose(s: ParserState, a: seq<byte>, b: seq<byte>, pa: Parsed, pb: Parsed)
    requires Run(s, a) == pa
    requires Run(pa.state, b) == pb
    ensures Run(s, a + b) == Parsed(pb.state, pa.frames + pb.frames)
  {
    RunAppend(s, a, b);
  }

  // ---------------------------------------------------------------------------
  // Resynchronisation

  /** A START, in any state, clears the buffer and enters a frame; what the
      parser emits afterwards depends on the bytes before it only through the
      escape flag, so the bytes buffered before it are never emitted. */
  lemma StartRestarts(s: ParserState, before: seq<byte>, after: seq<byte>)
    ensures Run(s, before + [START]).state
         == ParserState([], true, Run(s, before).state.shouldUnescapeNextByte)
    ensures Run(s, before + [START] + after).frames
         == Run(s, before).frames
          + Run(ParserState([], true, Run(s, before).state.shouldUnescapeNextByte), after).frames
  {
    RunSnoc(s, before, START);
    RunAppend(s, before + [START], after);
  }

  /** Out of frame, every byte other than START is discarded: the state does
      not change and nothing is emitted. */
  lemma {:induction false} NoiseDiscarded(s: ParserState, noise: seq<byte>)
    requires !s.isInFrame
    requires START !in noise
    ensures Run(s, noise) == Parsed(s, [])
  {
    if noise != [] {
      assert noise[0] in noise;
      assert forall b :: b in noise[1..] ==> b in noise;
      NoiseDiscarded(s, noise[1..]);
    }
  }

  /** The number of END bytes in a chunk. */
  function EndCount(bytes: seq<byte>): nat
  {
    if bytes == [] then 0 else (if bytes[0] == END then 1 else 0) + EndCount(bytes[1..])
  }

  /** A call emits at most as many frames as its input holds END bytes. */
  lemma {:induction false} FramesAtMostEnds(s: ParserState, bytes: seq<byte>)
    ensures |Run(s, bytes).frames| <= EndCount(bytes)
    decreases |bytes|
  {
    if bytes != [] {
      FramesAtMostEnds(Step(s, bytes[0]).state, bytes[1..]);
    }
  }

  /** Every emitted frame has a payload of at least one byte. */
  lemma {:induction false} PayloadsNonEmpty(s: ParserState, bytes: seq<byte>)
    ensures forall f :: f in Run(s, bytes).frames ==> |f.data| >= 1
    decreases |bytes|
  {
    if bytes != [] {
      PayloadsNonEmpty(Step(s, bytes[0]).state, bytes[1..]);
    }
  }

  /** An END with fewer than three buffered bytes emits nothing and leaves the
      parser out of frame, with the escape flag as it was. */
  lemma ShortFrameDropped(s: ParserState)
    requires s.isInFrame && |s.dataBuffer| < 3
    ensures Run(s, [END]) == Parsed(s.(isInFrame := false), [])
  {
  }

  // ---------------------------------------------------------------------------
  // Escaping

  /** ESCAPE buffers nothing and arms the flag; START and END do not disarm it;
      the next ordinary byte in a frame is buffered XOR 0x20 and disarms it. */
  lemma EscapeArms(s: ParserState, b: byte)
    requires s.isInFrame
    ensures Step(s, ESCAPE).state == s.(shouldUnescapeNextByte := true)
    ensures Step(s, START).state.shouldUnescapeNextByte == s.shouldUnescapeNextByte
    ensures Step(s, END).state.shouldUnescapeNextByte == s.shouldUnescapeNextByte
    ensures !IsControl(b) ==>
      Run(s, [ESCAPE, b]) == Parsed(s.(shouldUnescapeNextByte := false, dataBuffer := s.dataBuffer + [b ^ ESCAPE_XOR]), [])
  {
    if !IsControl(b) {
      var armed := Step(s, ESCAPE).state;
      assert Run(s, [ESCAPE, b]) == Parsed(Run(armed, [b]).state, [] + Run(armed, [b]).frames);
    }
  }

  /** Inside a frame, with no escape pending, the escaped form of any content
      appends exactly that content to the buffer and emits nothing. */
  lemma {:induction false} RunEscaped(s: ParserState, content: seq<byte>)
    requires s.isInFrame && !s.shouldUnescapeNextByte
    ensures Run(s, Escape(content)) == Parsed(s.(dataBuffer := s.dataBuffer + content), [])
    decreases |content|
  {
    if content == [] {
      assert s.dataBuffer + content == s.dataBuffer;
    } else {
      var c, rest := content[0], content[1..];
      var s' := s.(dataBuffer := s.dataBuffer + [c]);
      var done := s.(dataBuffer := s.dataBuffer + content);
      assert content == [c] + rest;
      EscapeAppend([c], rest);
      ByteEscaped(s, c);
      RunEscaped(s', rest);
      assert s'.dataBuffer + rest == done.dataBuffer;
      Compose(s, Escape([c]), Escape(rest), Parsed(s', []), Parsed(done, []));
    }
  }

  /** One byte, escaped, is buffered as it was. */
  lemma ByteEscaped(s: ParserState, c: byte)
    requires s.isInFrame && !s.shouldUnescapeNextByte
    ensures Run(s, Escape([c])) == Parsed(s.(dataBuffer := s.dataBuffer + [c]), [])
  {
    EscapeOne(c);
    if IsControl(c) {
      EscapeArms(s, c ^ ESCAPE_XOR);
      assert (c ^ ESCAPE_XOR) ^ ESCAPE_XOR == c;
    } else {
      RunOne(s, c);
    }
  }

  /** Right after START, reading the escaped header byte buffers one byte and
      clears the escape flag. If a stale flag was armed and the header was
      sent unescaped, the buffered header is altered. */
  lemma HeaderRead(armed: bool, header: byte)
    ensures Run(ParserState([], true, armed), Escape([header])).frames == []
    ensures Run(ParserState([], true, armed), Escape([header])).state
         == ParserState([if armed && !IsControl(header) then header ^ ESCAPE_XOR else header], true, false)
  {
    var open := ParserState([], true, armed);
    EscapeOne(header);
    if IsControl(header) {
      var x := header ^ ESCAPE_XOR;
      assert !IsControl(x) && x ^ ESCAPE_XOR == header;
      EscapeArms(open, x);
    } else {
      RunOne(open, header);
    }
  }

  /** One byte escaped. */
  lemma EscapeOne(b: byte)
    ensures Escape([b]) == if IsControl(b) then [ESCAPE, b ^ ESCAPE_XOR] else [b]
  {
    assert [b][1..] == [];
  }

  /** Right after START, the escaped frame content is buffered whole, except
      that a stale escape flag alters an unescaped header byte. */
  lemma ContentRead(armed: bool, header: byte, body: seq<byte>)
    ensures Run(ParserState([], true, armed), Escape([header] + body))
         == Parsed(ParserState([if armed && !IsControl(header) then header ^ ESCAPE_XOR else header] + body, true, false), [])
  {
    var open := ParserState([], true, armed);
    var h' := if armed && !IsControl(header) then header ^ ESCAPE_XOR else header;
    var afterHeader := ParserState([h'], true, false);
    EscapeAppend([header], body);
    var done := ParserState([h'] + body, true, false);
    HeaderRead(armed, header);
    assert Run(open, Escape([header])) == Parsed(afterHeader, []);
    RunEscaped(afterHeader, body);
    assert afterHeader.(dataBuffer := afterHeader.dataBuffer + body) == done;
    Compose(open, Escape([header]), Escape(body), Parsed(afterHeader, []), Parsed(done, []));
  }

  /** Escape round trip: from ANY state, START, the escaped header, id and
      payload, then END deliver exactly (id, payload). A stale escape flag can
      only alter the header byte, which is dropped. */
  lemma EscapedFrameRoundTrip(s: ParserState, header: byte, id: byte, payload: seq<byte>)
    requires |payload| >= 1
    ensures Run(s, [START] + Escape([header, id] + payload) + [END]).frames == [Frame(id, payload)]
    ensures var r := Run(s, [START] + Escape([header, id] + payload) + [END]).state;
      !r.isInFrame && !r.shouldUnescapeNextByte && |r.dataBuffer| >= 1 && r.dataBuffer[1..] == [id] + payload
    ensures !s.shouldUnescapeNextByte ==>
      Run(s, [START] + Escape([header, id] + payload) + [END]).state
        == ParserState([header, id] + payload, false, false)
  {
    var content := [header, id] + payload;
    var wire := [START] + Escape(content);
    var armed := s.shouldUnescapeNextByte;
    var open := ParserState([], true, armed);
    var body := [id] + payload;
    var h' := if armed && !IsControl(header) then header ^ ESCAPE_XOR else header;
    var full := ParserState([h'] + body, true, false);
    RunOne(s, START);
    assert content == [header] + body;
    ContentRead(armed, header, body);
    Compose(s, [START], Escape(content), Parsed(open, []), Parsed(full, []));
    CloseFrame(s, wire, h', id, payload);
  }

  /** The closing END of a frame whose buffer holds a header, the id and the payload. */
  lemma CloseFrame(s: ParserState, wire: seq<byte>, h: byte, id: byte, payload: seq<byte>)
    requires |payload| >= 1
    requires Run(s, wire) == Parsed(ParserState([h] + ([id] + payload), true, false), [])
    ensures Run(s, wire + [END]) == Parsed(ParserState([h, id] + payload, false, false), [Frame(id, payload)])
    ensures ([h, id] + payload)[1..] == [id] + payload
  {
    var full := ParserState([h] + ([id] + payload), true, false);
    assert full.dataBuffer == [h, id] + payload;
    assert full.dataBuffer[1] == id && full.dataBuffer[2..] == payload;
    RunOne(full, END);
    Compose(s, wire, [END], Parsed(full, []), Step(full, END));
  }

  /** Resynchronisation: whatever came before (noise, truncated frames, a
      pending escape), a well-formed frame that follows is delivered, after
      whatever the earlier bytes emitted on their own. */
  lemma Resync(s: ParserState, junk: seq<byte>, header: byte, id: byte, payload: seq<byte>)
    requires |payload| >= 1
    ensures Run(s, junk + ([START] + Escape([header, id] + payload) + [END])).frames
         == Run(s, junk).frames + [Frame(id, payload)]
  {
    RunAppend(s, junk, [START] + Escape([header, id] + payload) + [END]);
    EscapedFrameRoundTrip(Run(s, junk).state, header, id, payload);
  }

  /** A frame with an empty payload is never delivered: the buffer then holds
      only the header and the id, fewer than the three bytes END asks for. */
  lemma EmptyPayloadDropped(s: ParserState, header: byte, id: byte)
    requires !s.shouldUnescapeNextByte
    ensures Run(s, [START] + Escape([header, id]) + [END]).frames == []
  {
    var open := ParserState([], true, false);
    assert Run(s, [START]) == Parsed(open, []);
    RunEscaped(open, [header, id]);
    RunAppend(s, [START], Escape([header, id]));
    RunSnoc(s, [START] + Escape([header, id]), END);
  }

  /** Escaping works byte by byte: the escaped form of a concatenation is
      the concatenation of the escaped forms. */
  lemma {:induction false} EscapeAppend(a: seq<byte>, b: seq<byte>)
    ensures Escape(a + b) == Escape(a) + Escape(b)
    decreases |a|
  {
    if a == [] {
      assert a + b == b;
    } else {
      assert (a + b)[0] == a[0] && (a + b)[1..] == a[1..] + b;
      EscapeAppend(a[1..], b);
    }
  }

  /** Inside a frame, with no escape pending, bytes other than control bytes
      are buffered as they are. */
  lemma RunPlain(s: ParserState, content: seq<byte>)
    requires s.isInFrame && !s.shouldUnescapeNextByte
    requires forall i :: 0 <= i < |content| ==> !IsControl(content[i])
    ensures Run(s, content) == Parsed(s.(dataBuffer := s.dataBuffer + content), [])
  {
    EscapeOfPlain(content);
    RunEscaped(s, content);
  }

  /** Content without control bytes is sent as it is. */
  lemma {:induction false} EscapeOfPlain(content: seq<byte>)
    requires forall i :: 0 <= i < |content| ==> !IsControl(content[i])
    ensures Escape(content) == content
    decreases |content|
  {
    if content != [] {
      EscapeOfPlain(content[1..]);
    }
  }

  // ---------------------------------------------------------------------------
  // The cases of CarDashTests/SerialParserTests.swift

  lemma SimpleFrame()
    ensures Run(INITIAL, [0x12, 0x02, 0x01, 0x42, 0x13]).frames == [Frame(0x01, [0x42])]
  {
    var content: seq<byte> := [0x02, 0x01] + [0x42];
    EscapeOfPlain(content);
    EscapedFrameRoundTrip(INITIAL, 0x02, 0x01, [0x42]);
    assert [0x12, 0x02, 0x01, 0x42, 0x13] == [START] + Escape(content) + [END];
  }

  lemma EscapedFrame()
    ensures Run(INITIAL, [0x12, 0x03, 0x02, 0x7E, 0x33, 0x42, 0x13]).frames == [Frame(0x02, [0x13, 0x42])]
  {
    var content: seq<byte> := [0x03, 0x02] + [0x13, 0x42];
    assert Escape(content) == [0x03] + Escape(content[1..]);
    assert Escape(content[1..]) == [0x02] + Escape(content[2..]);
    assert Escape(content[2..]) == [0x7E, 0x33] + Escape(content[3..]);
    EscapeOfPlain(content[3..]);
    assert [0x12, 0x03, 0x02, 0x7E, 0x33, 0x42, 0x13] == [START] + Escape(content) + [END];
    EscapedFrameRoundTrip(INITIAL, 0x03, 0x02, [0x13, 0x42]);
  }

  /** The bytes 0x01 to 0x11, none of which is a control byte. */
  const RAMP: seq<byte> := [0x01, 0x02, 0x03, 0x04, 0x05, 0x06, 0x07, 0x08, 0x09,
                            0x0A, 0x0B, 0x0C, 0x0D, 0x0E, 0x0F, 0x10, 0x11]

  /** The first five bytes of the stream below: START, then 0x13 and 0x00
      each escaped. */
  lemma ComplexHead(head: seq<byte>)
    requires head == [0x12, 0x7E, 0x33, 0x7E, 0x20]
    ensures Run(INITIAL, head) == Parsed(ParserState([0x13, 0x00], true, false), [])
  {
    var open := ParserState([], true, false);
    var one := ParserState([0x13], true, false);
    var two := ParserState([0x13, 0x00], true, false);
    var first, second := [ESCAPE, 0x33], [ESCAPE, 0x20];
    assert Run(INITIAL, [START]) == Parsed(open, []);
    EscapeArms(open, 0x33);
    assert Run(open, first) == Parsed(one, []);
    EscapeArms(one, 0x20);
    assert Run(one, second) == Parsed(two, []);
    Compose(INITIAL, [START], first, Parsed(open, []), Parsed(one, []));
    Compose(INITIAL, [START] + first, second, Parsed(one, []), Parsed(two, []));
    assert head == [START] + first + second;
  }

  /** An escaped 0x12 and END close a frame whose buffer holds its header and id. */
  lemma EscapedLastByte(s: ParserState, tail: seq<byte>)
    requires s.isInFrame && !s.shouldUnescapeNextByte && |s.dataBuffer| >= 2
    requires tail == [0x7E, 0x32, 0x13]
    ensures Run(s, tail).frames == [Frame(s.dataBuffer[1], s.dataBuffer[2..] + [0x12])]
  {
    var full := s.(dataBuffer := s.dataBuffer + [0x12]);
    var escaped := [ESCAPE, 0x32];
    EscapeArms(s, 0x32);
    assert Run(s, escaped) == Parsed(full, []);
    assert tail == escaped + [END];
    RunSnoc(s, escaped, END);
    assert full.dataBuffer[2..] == s.dataBuffer[2..] + [0x12];
  }

  /** None of 0x01 to 0x11 is a control byte. */
  lemma RampPlain()
    ensures forall i :: 0 <= i < |RAMP| ==> !IsControl(RAMP[i])
  {
  }

  /** Header 0x13 and id 0x00 both sent escaped (0x00 needlessly so), then
      0x01 to 0x11, then 0x12 escaped and END. */
  lemma ComplexEscapedFrame(head: seq<byte>, ramp: seq<byte>, tail: seq<byte>)
    requires head == [0x12, 0x7E, 0x33, 0x7E, 0x20] && ramp == RAMP && tail == [0x7E, 0x32, 0x13]
    ensures Run(INITIAL, head + ramp + tail).frames == [Frame(0x00, RAMP + [0x12])]
  {
    var s2 := ParserState([0x13, 0x00], true, false);
    var s3 := s2.(dataBuffer := s2.dataBuffer + ramp);
    ComplexHead(head);
    RampPlain();
    RunPlain(s2, ramp);
    EscapedLastByte(s3, tail);
    assert s3.dataBuffer[2..] == ramp;
    RunAppend(INITIAL, head, ramp);
    RunAppend(INITIAL, head + ramp, tail);
  }

  /** The same stream cut into two chunks at any position delivers the same
      single frame. */
  lemma ComplexEscapedFrameChunked(head: seq<byte>, ramp: seq<byte>, tail: seq<byte>, cut: nat)
    requires head == [0x12, 0x7E, 0x33, 0x7E, 0x20] && ramp == RAMP && tail == [0x7E, 0x32, 0x13]
    requires cut <= |head + ramp + tail|
    ensures var wire := head + ramp + tail;
            var first := Run(INITIAL, wire[..cut]);
            first.frames + Run(first.state, wire[cut..]).frames == [Frame(0x00, RAMP + [0x12])]
  {
    var wire := head + ramp + tail;
    ComplexEscapedFrame(head, ramp, tail);
    RunSplit(INITIAL, wire, cut);
  }

  /** The malformed part of the stream below leaves a frame open with an
      escape pending. */
  lemma MalformedPrefix()
    ensures Run(INITIAL, [0x12, 0x13, 0x20, 0x12, 0x7E, 0x12]) == Parsed(ParserState([], true, true), [])
  {
  }

  /** The well-formed frame of the malformed-data test, whose content has no
      control byte and so is sent as it is. */
  lemma PlainTestFrame(frame: seq<byte>)
    requires frame == [0x12, 0x03, 0x01, 0x02, 0x03, 0x13]
    ensures frame == [START] + Escape([0x03, 0x01] + [0x02, 0x03]) + [END]
  {
    EscapeOfPlain([0x03, 0x01] + [0x02, 0x03]);
  }

  /** A truncated frame, noise, and a START cut short by another START (with
      an ESCAPE armed in between) are skipped; the frame after them is
      delivered, although the stale escape flag alters its header byte. */
  lemma FrameAfterMalformedData(junk: seq<byte>, frame: seq<byte>)
    requires junk == [0x12, 0x13, 0x20, 0x12, 0x7E, 0x12]
    requires frame == [0x12, 0x03, 0x01, 0x02, 0x03, 0x13]
    ensures Run(INITIAL, junk + frame).frames == [Frame(0x01, [0x02, 0x03])]
  {
    MalformedPrefix();
    PlainTestFrame(frame);
    Resync(INITIAL, junk, 0x03, 0x01, [0x02, 0x03]);
  }
}
