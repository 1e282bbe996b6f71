/**
 The byte format of the message framework: a header of two 32-bit words, the id and the size of the body, low byte
 first, followed by the body.  `Decode` is the reference reader of such a stream.
 */
module Framing {
  import opened Base

  type Word = x: nat | x < TWO_32

  datatype Message = Message(id: Word, size: Word, body: seq<Byte>)

  const HEADER_SIZE := 8

  /** The header announces the body that is there. */
  predicate WellFormed(m: Message) { m.size == |m.body| }

  function WordBytes(w: Word): (b: seq<Byte>)
    ensures |b| == 4
  {
    [(w % 256) as Byte, (w / 256 % 256) as Byte, (w / 256 / 256 % 256) as Byte, (w / 256 / 256 / 256) as Byte]
  }

  function WordOf(b: seq<Byte>): Word
    requires |b| == 4
  {
    b[0] as nat + 256 * (b[1] as nat + 256 * (b[2] as nat + 256 * (b[3] as nat)))
  }

  lemma WordRoundTrip(w: Word)
    ensures WordOf(WordBytes(w)) == w
  {
  }

  function HeaderBytes(m: Message): (b: seq<Byte>)
    ensures |b| == HEADER_SIZE
  {
    WordBytes(m.id) + WordBytes(m.size)
  }

  /** The header on the wire: the id and then the size, each with its lowest byte first. */
  lemma HeaderLayout(m: Message)
    requires m.id < 256 && m.size < 256
    ensures HeaderBytes(m) == [m.id as Byte, 0, 0, 0, m.size as Byte, 0, 0, 0]
  {
  }

  lemma LowByte(x: nat, y: nat)
    requires x < 256
    ensures (x + 256 * y) % 256 == x && (x + 256 * y) / 256 == y
  {
  }

  lemma BytesRoundTrip(b: seq<Byte>)
    requires |b| == 4
    ensures WordBytes(WordOf(b)) == b
  {
    var y2 := b[2] as nat + 256 * (b[3] as nat);
    var y1 := b[1] as nat + 256 * y2;
    LowByte(b[0] as nat, y1);
    LowByte(b[1] as nat, y2);
    LowByte(b[2] as nat, b[3] as nat);
  }

  lemma HeaderRoundTrip(m: Message)
    ensures WordOf(HeaderBytes(m)[..4]) == m.id && WordOf(HeaderBytes(m)[4..]) == m.size
  {
    assert HeaderBytes(m)[..4] == WordBytes(m.id) && HeaderBytes(m)[4..] == WordBytes(m.size);
    WordRoundTrip(m.id);
    WordRoundTrip(m.size);
  }

  /** What the writer puts on the wire for a message: the header as it stands, then the body as it stands. */
  function Encode(m: Message): seq<Byte> { HeaderBytes(m) + m.body }

  function EncodeAll(ms: seq<Message>): seq<Byte> {
    if ms == [] then [] else Encode(ms[0]) + EncodeAll(ms[1..])
  }

  /** The complete frames at the front of a stream, and the bytes after them. */
  datatype Parsed = Parsed(frames: seq<Message>, rest: seq<Byte>)

  /** The stream starts with a complete frame. */
  predicate Ready(bytes: seq<Byte>) {
    |bytes| >= HEADER_SIZE && |bytes| >= HEADER_SIZE + WordOf(bytes[4..8])
  }

  function FirstFrame(bytes: seq<Byte>): (m: Message)
    requires Ready(bytes)
    ensures WellFormed(m)
  {
    var size := WordOf(bytes[4..8]);
    Message(WordOf(bytes[..4]), size, bytes[HEADER_SIZE..HEADER_SIZE + size])
  }

  function AfterFirst(bytes: seq<Byte>): (rest: seq<Byte>)
    requires Ready(bytes)
    ensures |rest| < |bytes|
  {
    bytes[HEADER_SIZE + WordOf(bytes[4..8])..]
  }

  function Decode(bytes: seq<Byte>): Parsed
    decreases |bytes|
  {
    if Ready(bytes) then
      var m := FirstFrame(bytes);
      var tail := Decode(AfterFirst(bytes));
      Parsed([m] + tail.frames, tail.rest)
    else
      Parsed([], bytes)
  }

  lemma {:induction false} EncodeAllAppend(ms: seq<Message>, ns: seq<Message>)
    ensures EncodeAll(ms + ns) == EncodeAll(ms) + EncodeAll(ns)
  {
    if ms == [] {
      assert ms + ns == ns;
    } else {
      assert (ms + ns)[0] == ms[0] && (ms + ns)[1..] == ms[1..] + ns;
      EncodeAllAppend(ms[1..], ns);
    }
  }

  lemma FirstInverts(bytes: seq<Byte>)
    requires Ready(bytes)
    ensures Encode(FirstFrame(bytes)) + AfterFirst(bytes) == bytes
  {
    BytesRoundTrip(bytes[..4]);
    BytesRoundTrip(bytes[4..8]);
    assert bytes[..4] + bytes[4..8] == bytes[..HEADER_SIZE];
  }

  lemma EncodeSplit(ms: seq<Message>, rest: seq<Byte>)
    requires ms != []
    ensures EncodeAll(ms) + rest == Encode(ms[0]) + (EncodeAll(ms[1..]) + rest)
  {
  }

  lemma DecodeCons(bytes: seq<Byte>, frames: seq<Message>, rest: seq<Byte>)
    requires Ready(bytes) && Decode(AfterFirst(bytes)) == Parsed(frames, rest)
    ensures Decode(bytes) == Parsed([FirstFrame(bytes)] + frames, rest)
  {
  }

  /** Whatever the bytes are: encoding the decoded frames gives back the stream up to the rest, no frame is complete in
      the rest, and every frame is well formed. */
  lemma {:induction false} DecodeInverts(bytes: seq<Byte>)
    ensures EncodeAll(Decode(bytes).frames) + Decode(bytes).rest == bytes
    ensures !Ready(Decode(bytes).rest)
    ensures forall i | 0 <= i < |Decode(bytes).frames| :: WellFormed(Decode(bytes).frames[i])
    decreases |bytes|
  {
    if Ready(bytes) {
      var m, tail := FirstFrame(bytes), AfterFirst(bytes);
      var Parsed(frames, rest) := Decode(tail);
      DecodeInverts(tail);
      FirstInverts(bytes);
      DecodeCons(bytes, frames, rest);
      EncodeSplit([m] + frames, rest);
      assert ([m] + frames)[1..] == frames;
    } else {
      assert EncodeAll([]) + bytes == bytes;
    }
  }

  /** A well-formed message at the front of a stream is the first frame. */
  lemma FirstOfEncode(m: Message, rest: seq<Byte>)
    requires WellFormed(m)
    ensures Ready(Encode(m) + rest) && FirstFrame(Encode(m) + rest) == m && AfterFirst(Encode(m) + rest) == rest
  {
    var bytes := Encode(m) + rest;
    HeaderRoundTrip(m);
    assert bytes[..4] == HeaderBytes(m)[..4] && bytes[4..8] == HeaderBytes(m)[4..];
  }

  /** Decoding undoes encoding, in front of any incomplete frame. */
  lemma {:induction false} DecodeEncode(ms: seq<Message>, rest: seq<Byte>)
    requires forall i | 0 <= i < |ms| :: WellFormed(ms[i])
    requires !Ready(rest)
    ensures Decode(EncodeAll(ms) + rest) == Parsed(ms, rest)
  {
    if ms == [] {
      assert EncodeAll(ms) + rest == rest;
    } else {
      DecodeEncode(ms[1..], rest);
      EncodeSplit(ms, rest);
      var tail := EncodeAll(ms[1..]) + rest;
      FirstOfEncode(ms[0], tail);
      DecodeCons(Encode(ms[0]) + tail, ms[1..], rest);
      assert ms == [ms[0]] + ms[1..];
    }
  }

  lemma Glue(x: seq<Byte>, y: seq<Byte>, rest: seq<Byte>, left: seq<Byte>, a: seq<Byte>, b: seq<Byte>)
    requires x + rest == a && y + left == rest + b
    ensures (x + y) + left == a + b
  {
    assert (x + y) + left == x + (y + left);
    assert x + (rest + b) == (x + rest) + b;
  }

  /** Feeding more bytes keeps the frames found so far and goes on from the rest. */
  lemma DecodeAppend(a: seq<Byte>, b: seq<Byte>, frames: seq<Message>, rest: seq<Byte>,
                     more: seq<Message>, left: seq<Byte>)
    requires Decode(a) == Parsed(frames, rest) && Decode(rest + b) == Parsed(more, left)
    ensures Decode(a + b) == Parsed(frames + more, left)
  {
    DecodeInverts(a);
    DecodeInverts(rest + b);
    EncodeAllAppend(frames, more);
    Glue(EncodeAll(frames), EncodeAll(more), rest, left, a, b);
    DecodeEncode(frames + more, left);
  }

  /** A stream of messages can be told apart again exactly when every header announces its body. */
  lemma DecodableIffWellFormed(ms: seq<Message>)
    ensures Decode(EncodeAll(ms)) == Parsed(ms, []) <==> forall i | 0 <= i < |ms| :: WellFormed(ms[i])
  {
    DecodeInverts(EncodeAll(ms));
    if forall i | 0 <= i < |ms| :: WellFormed(ms[i]) {
      DecodeEncode(ms, []);
      assert EncodeAll(ms) + [] == EncodeAll(ms);
    }
  }

  /** The frames in a prefix of a stream of well-formed messages are the first of these messages. */
  lemma DecodePrefix(ms: seq<Message>, bytes: seq<Byte>)
    requires forall i | 0 <= i < |ms| :: WellFormed(ms[i])
    requires bytes <= EncodeAll(ms)
    ensures Decode(bytes).frames <= ms
  {
    var more := EncodeAll(ms)[|bytes|..];
    assert bytes + more == EncodeAll(ms);
    var Parsed(frames, rest) := Decode(bytes);
    var Parsed(others, left) := Decode(rest + more);
    DecodeAppend(bytes, more, frames, rest, others, left);
    DecodableIffWellFormed(ms);
  }
}
