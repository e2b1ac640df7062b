/**
 Packets of the GDB Remote Serial Protocol over a byte stream: framing with
 escapes and a checksum, the receiver that hunts for a good frame, and the
 removal of escapes in place.
 */
module Rsp {
  import opened Wrappers

  type Byte = x: int | 0 <= x < 256

  const DOLLAR: Byte := 0x24
  const HASH: Byte := 0x23
  const STAR: Byte := 0x2A
  const BRACE: Byte := 0x7D
  const PLUS: Byte := 0x2B
  const MINUS: Byte := 0x2D

  // ---------------------------------------------------------------- characters

  /** The value of a hex digit, 255 for any other character. */
  function Char2Hex(c: Byte): Byte
  {
    if 0x61 <= c <= 0x66 then c - 0x61 + 10
    else if 0x30 <= c <= 0x39 then c - 0x30
    else if 0x41 <= c <= 0x46 then c - 0x41 + 10
    else 255
  }

  /** The lower-case digit of a value below 16, else the null character. */
  function Hex2Char(d: Byte): Byte
  {
    if d < 10 then 0x30 + d else if d < 16 then 0x61 + d - 10 else 0
  }

  /** Digits survive the round trip, and no other character is read as a digit. */
  lemma DigitRoundTrip(d: Byte, c: Byte)
    ensures d < 16 ==> Char2Hex(Hex2Char(d)) == d
    ensures Char2Hex(c) < 16 || Char2Hex(c) == 255
    ensures d < 16 && Hex2Char(d) == c ==> c != DOLLAR && c != HASH
  {
  }

  /** Exclusive or with 0x20. */
  function Flip(b: Byte): Byte { if b / 32 % 2 == 1 then b - 32 else b + 32 }

  lemma FlipTwice(b: Byte)
    ensures Flip(Flip(b)) == b && Flip(b) != b
  {
  }

  /** The byte with the given bits, the highest first. */
  function Octet(b7: bool, b6: bool, b5: bool, b4: bool, b3: bool, b2: bool, b1: bool, b0: bool): Byte
  {
    128 * One(b7) + 64 * One(b6) + 32 * One(b5) + 16 * One(b4) + 8 * One(b3) + 4 * One(b2) + 2 * One(b1) + One(b0)
  }

  /** Escaping turns bit 5 over and leaves every other bit. */
  lemma FlipsOneBit(b7: bool, b6: bool, b5: bool, b4: bool, b3: bool, b2: bool, b1: bool, b0: bool)
    ensures Flip(Octet(b7, b6, b5, b4, b3, b2, b1, b0)) == Octet(b7, b6, !b5, b4, b3, b2, b1, b0)
  {
    var low := 16 * One(b4) + 8 * One(b3) + 4 * One(b2) + 2 * One(b1) + One(b0);
    assert low < 32;
    var high := 2 * One(b7) + One(b6);
    var b := Octet(b7, b6, b5, b4, b3, b2, b1, b0);
    assert b == 32 * (2 * high + One(b5)) + low;
    MiddleBit(2 * high + One(b5), low);
    assert (2 * high + One(b5)) % 2 == One(b5);
  }

  lemma MiddleBit(q: nat, low: nat)
    requires low < 32
    ensures (32 * q + low) / 32 == q
  {
  }

  // ---------------------------------------------------------------- sending

  predicate Special(b: Byte) { b == DOLLAR || b == HASH || b == STAR || b == BRACE }

  function EscapedByte(b: Byte): seq<Byte> { if Special(b) then [BRACE, Flip(b)] else [b] }

  function Escaped(data: seq<Byte>): seq<Byte>
  {
    if data == [] then [] else Escaped(data[..|data| - 1]) + EscapedByte(data[|data| - 1])
  }

  function Checksum(s: seq<Byte>): Byte
  {
    if s == [] then 0 else (Checksum(s[..|s| - 1]) + s[|s| - 1]) % 256
  }

  function Trailer(sum: Byte): seq<Byte> { [HASH, Hex2Char(sum / 16), Hex2Char(sum % 16)] }

  function Frame(data: seq<Byte>): seq<Byte>
  {
    [DOLLAR] + Escaped(data) + Trailer(Checksum(Escaped(data)))
  }

  /** No byte of the body starts or ends a frame. */
  predicate Plain(s: seq<Byte>) { DOLLAR !in s && HASH !in s }

  lemma {:induction false} EscapedPlain(data: seq<Byte>)
    ensures Plain(Escaped(data)) && |data| <= |Escaped(data)| <= 2 * |data|
  {
    if data != [] { EscapedPlain(data[..|data| - 1]); }
  }

  /** The four characters that are escaped, as they go over the wire. */
  lemma EscapesOnTheWire()
    ensures Escaped([0x7D]) == [0x7D, 0x5D] && Escaped([0x24]) == [0x7D, 0x04]
    ensures Escaped([0x23]) == [0x7D, 0x03] && Escaped([0x2A]) == [0x7D, 0x0A]
  {
  }

  lemma TwoPlain(a: Byte, b: Byte)
    requires !Special(a) && !Special(b)
    ensures Escaped([a, b]) == [a, b] && Checksum([a, b]) == (a + b) % 256
  {
    var one: seq<Byte>, two: seq<Byte> := [a], [a, b];
    assert two[..1] == one && one[..0] == [];
    assert Escaped(one) == [a] && Checksum(one) == a;
  }

  /** The reply "OK" and its checksum on the wire. */
  lemma OkOnTheWire()
    ensures Frame([0x4F, 0x4B]) == [0x24, 0x4F, 0x4B, 0x23, 0x39, 0x61]
  {
    TwoPlain(0x4F, 0x4B);
    hide Escaped, Checksum;
    assert Trailer(0x9A) == [0x23, 0x39, 0x61];
  }

  // ---------------------------------------------------------------- removing escapes

  /** What follows an escape loses it; an escape in last position takes the byte after the text. */
  function Unescaped(s: seq<Byte>, after: Byte): seq<Byte>
    decreases |s|
  {
    if s == [] then []
    else if s[0] != BRACE then [s[0]] + Unescaped(s[1..], after)
    else if |s| == 1 then [Flip(after)]
    else [Flip(s[1])] + Unescaped(s[2..], after)
  }

  lemma UnescapeByte(b: Byte, tail: seq<Byte>, after: Byte)
    ensures Unescaped(EscapedByte(b) + tail, after) == [b] + Unescaped(tail, after)
  {
    FlipTwice(b);
    var e := EscapedByte(b);
    if Special(b) { assert (e + tail)[2..] == tail; } else { assert (e + tail)[1..] == tail; }
  }

  lemma {:induction false} UnescapeAppend(data: seq<Byte>, tail: seq<Byte>, after: Byte)
    ensures Unescaped(Escaped(data) + tail, after) == data + Unescaped(tail, after)
    decreases |data|
  {
    if data == [] {
      assert Escaped(data) + tail == tail;
    } else {
      var init, b := data[..|data| - 1], data[|data| - 1];
      assert Escaped(data) + tail == Escaped(init) + (EscapedByte(b) + tail);
      hide Escaped, Unescaped, EscapedByte;
      UnescapeAppend(init, EscapedByte(b) + tail, after);
      UnescapeByte(b, tail, after);
      assert data == init + [b];
    }
  }

  /** Removing the escapes recovers the bytes that were sent. */
  lemma RoundTrip(data: seq<Byte>, after: Byte)
    ensures Unescaped(Escaped(data), after) == data
  {
    UnescapeAppend(data, [], after);
    assert Escaped(data) + [] == Escaped(data);
  }

  // ---------------------------------------------------------------- receiving

  datatype Body = End(payload: seq<Byte>, rest: seq<Byte>) | Overrun(rest: seq<Byte>) | Cut

  /** Reads a body after '$' until '#' or until the buffer is full; another '$' starts again. */
  function ReadBody(s: seq<Byte>, got: seq<Byte>, bufSize: nat): Body
    decreases |s|
  {
    if |got| + 1 >= bufSize then Overrun(s)
    else if s == [] then Cut
    else if s[0] == DOLLAR then ReadBody(s[1..], [], bufSize)
    else if s[0] == HASH then End(got, s[1..])
    else ReadBody(s[1..], got + [s[0]], bufSize)
  }

  /**
   An accepted payload with what is left of the stream, or the end of the stream; and how many frames
   were refused.
   */
  datatype Reception = Got(payload: seq<Byte>, rest: seq<Byte>, refused: nat) | Closed(refused: nat)

  function Refuse(r: Reception): Reception
  {
    match r
    case Got(p, rest, n) => Got(p, rest, n + 1)
    case Closed(n) => Closed(n + 1)
  }

  function Sent(hi: Byte, lo: Byte): Byte { (Char2Hex(hi) * 16 % 256 + Char2Hex(lo)) % 256 }

  function Rest(b: Body): seq<Byte>
  {
    match b
    case End(_, rest) => rest
    case Overrun(rest) => rest
    case Cut => []
  }

  lemma {:induction false} ReadBodyShrinks(s: seq<Byte>, got: seq<Byte>, bufSize: nat)
    ensures |Rest(ReadBody(s, got, bufSize))| <= |s|
    decreases |s|
  {
    if |got| + 1 < bufSize && s != [] {
      ReadBodyShrinks(s[1..], [], bufSize);
      ReadBodyShrinks(s[1..], got + [s[0]], bufSize);
    }
  }

  function Receive(s: seq<Byte>, bufSize: nat): Reception
    decreases |s|
  {
    if s == [] then Closed(0)
    else if s[0] != DOLLAR then Receive(s[1..], bufSize)
    else
      ReadBodyShrinks(s[1..], [], bufSize);
      match ReadBody(s[1..], [], bufSize)
      case Cut => Closed(0)
      case Overrun(rest) => Receive(rest, bufSize)
      case End(p, rest) =>
        if |rest| < 2 then Closed(0)
        else if Checksum(p) == Sent(rest[0], rest[1]) then Got(p, rest[2..], 0)
        else Refuse(Receive(rest[2..], bufSize))
  }

  // ---------------------------------------------------------------- what may precede a frame

  /** Noise on the line: bytes outside any frame, a frame broken off, a frame with a wrong checksum. */
  datatype Noise =
    | Junk(bytes: seq<Byte>)
    | Broken(body: seq<Byte>)
    | Wrong(body: seq<Byte>, hi: Byte, lo: Byte)

  function Bytes(n: Noise): seq<Byte>
  {
    match n
    case Junk(b) => b
    case Broken(body) => [DOLLAR] + body
    case Wrong(body, hi, lo) => [DOLLAR] + body + [HASH, hi, lo]
  }

  predicate NoiseOk(n: Noise, bufSize: nat)
  {
    match n
    case Junk(b) => DOLLAR !in b
    case Broken(body) => Plain(body)
    case Wrong(body, hi, lo) => Plain(body) && |body| + 2 <= bufSize && Checksum(body) != Sent(hi, lo)
  }

  /** Junk right after a broken frame that still fits the buffer would belong to the frame. */
  predicate Separate(ns: seq<Noise>, bufSize: nat)
  {
    forall i :: 0 <= i && i + 1 < |ns| ==>
      ns[i].Broken? && |ns[i].body| + 1 < bufSize ==> !ns[i + 1].Junk?
  }

  predicate LineOk(ns: seq<Noise>, bufSize: nat)
  {
    (forall i :: 0 <= i < |ns| ==> NoiseOk(ns[i], bufSize)) && Separate(ns, bufSize)
  }

  function Line(ns: seq<Noise>): seq<Byte>
  {
    if ns == [] then [] else Bytes(ns[0]) + Line(ns[1..])
  }

  function Wrongs(ns: seq<Noise>): nat
  {
    if ns == [] then 0 else (if ns[0].Wrong? then 1 else 0) + Wrongs(ns[1..])
  }

  function RefuseMany(r: Reception, n: nat): Reception
  {
    match r
    case Got(p, rest, k) => Got(p, rest, n + k)
    case Closed(k) => Closed(n + k)
  }

  lemma {:induction false} SkipJunk(b: seq<Byte>, s: seq<Byte>, bufSize: nat)
    requires DOLLAR !in b
    ensures Receive(b + s, bufSize) == Receive(s, bufSize)
  {
    if b == [] { assert b + s == s; }
    else {
      assert (b + s)[1..] == b[1..] + s;
      SkipJunk(b[1..], s, bufSize);
    }
  }

  /** A plain body is collected byte by byte until the buffer is full. */
  lemma {:induction false} Collect(body: seq<Byte>, s: seq<Byte>, got: seq<Byte>, bufSize: nat)
    requires Plain(body)
    ensures if |got| + |body| + 1 < bufSize then ReadBody(body + s, got, bufSize) == ReadBody(s, got + body, bufSize)
            else ReadBody(body + s, got, bufSize).Overrun?
                 && exists k :: 0 <= k <= |body| && ReadBody(body + s, got, bufSize).rest == body[k..] + s
    decreases |body|
  {
    if |got| + 1 >= bufSize {
      assert body[0..] == body;
    } else if body == [] {
      assert body + s == s && got + body == got;
    } else {
      assert (body + s)[1..] == body[1..] + s && got + body == (got + [body[0]]) + body[1..];
      assert body[0] in body && Plain(body[1..]);
      Collect(body[1..], s, got + [body[0]], bufSize);
      if |got| + |body| + 1 >= bufSize {
        var k :| 0 <= k <= |body[1..]| && ReadBody(body + s, got, bufSize).rest == body[1..][k..] + s;
        assert body[1..][k..] == body[k + 1..];
      }
    }
  }

  /** A frame that fits is read up to its checksum. */
  lemma ReadFrame(body: seq<Byte>, hi: Byte, lo: Byte, s: seq<Byte>, bufSize: nat)
    requires Plain(body) && |body| + 2 <= bufSize
    ensures ReadBody(body + [HASH, hi, lo] + s, [], bufSize) == End(body, [hi, lo] + s)
  {
    Collect(body, [HASH, hi, lo] + s, [], bufSize);
    assert body + [HASH, hi, lo] + s == body + ([HASH, hi, lo] + s);
    assert ([HASH, hi, lo] + s)[1..] == [hi, lo] + s && [] + body == body;
  }

  lemma SkipWrong(body: seq<Byte>, hi: Byte, lo: Byte, s: seq<Byte>, bufSize: nat)
    requires NoiseOk(Wrong(body, hi, lo), bufSize)
    ensures Receive(Bytes(Wrong(body, hi, lo)) + s, bufSize) == Refuse(Receive(s, bufSize))
  {
    ReadFrame(body, hi, lo, s, bufSize);
    assert (Bytes(Wrong(body, hi, lo)) + s)[1..] == body + [HASH, hi, lo] + s;
    assert ([hi, lo] + s)[2..] == s;
  }

  /** A broken frame is dropped when the next byte starts a frame, or when it has filled the buffer. */
  lemma SkipBroken(body: seq<Byte>, s: seq<Byte>, bufSize: nat)
    requires Plain(body) && (|body| + 1 >= bufSize || (s != [] && s[0] == DOLLAR))
    ensures Receive(Bytes(Broken(body)) + s, bufSize) == Receive(s, bufSize)
  {
    assert (Bytes(Broken(body)) + s)[1..] == body + s;
    Collect(body, s, [], bufSize);
    if |body| + 1 >= bufSize {
      var k :| 0 <= k <= |body| && ReadBody(body + s, [], bufSize).rest == body[k..] + s;
      SkipJunk(body[k..], s, bufSize);
    }
  }

  lemma SkipOne(n: Noise, s: seq<Byte>, bufSize: nat)
    requires NoiseOk(n, bufSize) && (n.Broken? && |n.body| + 1 < bufSize ==> s != [] && s[0] == DOLLAR)
    ensures Receive(Bytes(n) + s, bufSize) == RefuseMany(Receive(s, bufSize), if n.Wrong? then 1 else 0)
  {
    match n
    case Junk(b) => SkipJunk(b, s, bufSize);
    case Wrong(body, hi, lo) => SkipWrong(body, hi, lo, s, bufSize);
    case Broken(body) => SkipBroken(body, s, bufSize);
  }

  /** After a broken frame that fits, the rest of the line starts with '$'. */
  lemma NextDollar(ns: seq<Noise>, s: seq<Byte>, bufSize: nat)
    requires LineOk(ns, bufSize) && ns != [] && s != [] && s[0] == DOLLAR
    requires ns[0].Broken? && |ns[0].body| + 1 < bufSize
    ensures Line(ns[1..]) + s != [] && (Line(ns[1..]) + s)[0] == DOLLAR
  {
    if |ns| > 1 { assert !ns[1].Junk? && ns[1..][0] == ns[1]; }
  }

  lemma LineParts(ns: seq<Noise>, s: seq<Byte>, bufSize: nat)
    requires LineOk(ns, bufSize) && ns != []
    ensures NoiseOk(ns[0], bufSize) && LineOk(ns[1..], bufSize)
    ensures Line(ns) + s == Bytes(ns[0]) + (Line(ns[1..]) + s)
  {
    hide Bytes, NoiseOk;
  }

  /** Any line noise is skipped; each frame with a wrong checksum is refused once. */
  lemma {:induction false} SkipNoise(ns: seq<Noise>, s: seq<Byte>, bufSize: nat)
    requires LineOk(ns, bufSize) && s != [] && s[0] == DOLLAR
    ensures Receive(Line(ns) + s, bufSize) == RefuseMany(Receive(s, bufSize), Wrongs(ns))
  {
    if ns == [] {
      assert Line(ns) + s == s;
    } else {
      LineParts(ns, s, bufSize);
      if ns[0].Broken? && |ns[0].body| + 1 < bufSize { NextDollar(ns, s, bufSize); }
      hide Receive, Bytes, NoiseOk, Separate, LineOk, Line;
      SkipNoise(ns[1..], s, bufSize);
      SkipOne(ns[0], Line(ns[1..]) + s, bufSize);
    }
  }

  lemma ChecksumDigits(sum: Byte)
    ensures Sent(Hex2Char(sum / 16), Hex2Char(sum % 16)) == sum
  {
    DigitRoundTrip(sum / 16, 0);
    DigitRoundTrip(sum % 16, 0);
  }

  /**
   The round trip on a noisy line: the first good frame is the one accepted, and
   removing its escapes gives the bytes put in.
   */
  lemma Delivered(ns: seq<Noise>, data: seq<Byte>, rest: seq<Byte>, bufSize: nat, after: Byte)
    requires LineOk(ns, bufSize) && |Escaped(data)| + 2 <= bufSize
    ensures Receive(Line(ns) + (Frame(data) + rest), bufSize) == Got(Escaped(data), rest, Wrongs(ns))
    ensures Unescaped(Receive(Line(ns) + (Frame(data) + rest), bufSize).payload, after) == data
  {
    SkipNoise(ns, Frame(data) + rest, bufSize);
    FrameAccepted(data, rest, bufSize);
    RoundTrip(data, after);
  }

  lemma FrameAccepted(data: seq<Byte>, rest: seq<Byte>, bufSize: nat)
    requires |Escaped(data)| + 2 <= bufSize
    ensures Receive(Frame(data) + rest, bufSize) == Got(Escaped(data), rest, 0)
  {
    var body, sum := Escaped(data), Checksum(Escaped(data));
    EscapedPlain(data);
    ChecksumDigits(sum);
    ReadFrame(body, Hex2Char(sum / 16), Hex2Char(sum % 16), rest, bufSize);
    assert (Frame(data) + rest)[1..] == body + Trailer(sum) + rest;
    assert ([Hex2Char(sum / 16), Hex2Char(sum % 16)] + rest)[2..] == rest;
  }

  /** A frame is accepted exactly when its escaped form leaves two bytes of the buffer free. */
  lemma AcceptedExactly(data: seq<Byte>, bufSize: nat)
    ensures Receive(Frame(data), bufSize) == if |Escaped(data)| + 2 <= bufSize then Got(Escaped(data), [], 0) else Closed(0)
  {
    assert Frame(data) + [] == Frame(data);
    if |Escaped(data)| + 2 <= bufSize {
      FrameAccepted(data, [], bufSize);
    } else {
      var body, t := Escaped(data), Trailer(Checksum(Escaped(data)));
      EscapedPlain(data);
      assert Frame(data) == Bytes(Broken(body)) + t;
      SkipBroken(body, t, bufSize);
      DigitRoundTrip(Checksum(body) / 16, t[1]);
      DigitRoundTrip(Checksum(body) % 16, t[2]);
      SkipJunk(t, [], bufSize);
      assert t + [] == t;
    }
  }

  /** A body read stands in the stream after some '$', followed by '#'. */
  lemma {:induction false} BodyIs(s: seq<Byte>, got: seq<Byte>, bufSize: nat) returns (pre: seq<Byte>)
    requires Plain(got) && !ReadBody(s, got, bufSize).Cut?
    ensures match ReadBody(s, got, bufSize)
            case End(p, rest) =>
              [DOLLAR] + got + s == pre + ([DOLLAR] + p + [HASH]) + rest && Plain(p) && |p| + 2 <= bufSize
            case Overrun(rest) => [DOLLAR] + got + s == pre + rest
    decreases |s|
  {
    if |got| + 1 >= bufSize {
      pre := [DOLLAR] + got;
    } else {
      assert s == [s[0]] + s[1..];
      if s[0] == DOLLAR {
        pre := BodyIs(s[1..], [], bufSize);
        pre := [DOLLAR] + got + pre;
        assert [DOLLAR] + [] + s[1..] == s;
      } else if s[0] == HASH {
        pre := [];
      } else {
        pre := BodyIs(s[1..], got + [s[0]], bufSize);
        assert [DOLLAR] + (got + [s[0]]) + s[1..] == [DOLLAR] + got + s;
      }
    }
  }

  /** Whatever is accepted stands in the stream as a frame with the right checksum, and fits the buffer. */
  lemma {:induction false} AcceptedIsFrame(s: seq<Byte>, bufSize: nat) returns (pre: seq<Byte>, hi: Byte, lo: Byte)
    requires Receive(s, bufSize).Got?
    ensures var r := Receive(s, bufSize);
            && s == pre + ([DOLLAR] + r.payload + [HASH]) + ([hi, lo] + r.rest)
            && Plain(r.payload) && |r.payload| + 2 <= bufSize && Checksum(r.payload) == Sent(hi, lo)
    decreases |s|
  {
    hide Checksum, Sent, Plain;
    var before, rest := Received(s, bufSize);
    if rest.Some? {
      pre, hi, lo := AcceptedIsFrame(rest.value, bufSize);
      pre := before + pre;
    } else {
      pre := before;
      var b := ReadBody(s[1..], [], bufSize);
      hi, lo := b.rest[0], b.rest[1];
      assert b.rest == [hi, lo] + b.rest[2..];
    }
  }

  /**
   One round of the receiver: either it goes on with a later part of the stream, or the frame just read
   is accepted.
   */
  lemma Received(s: seq<Byte>, bufSize: nat) returns (before: seq<Byte>, rest: Option<seq<Byte>>)
    requires Receive(s, bufSize).Got?
    ensures match rest
            case Some(u) =>
              && s == before + u && |u| < |s| && Receive(u, bufSize).Got?
              && Receive(u, bufSize).payload == Receive(s, bufSize).payload
              && Receive(u, bufSize).rest == Receive(s, bufSize).rest
            case None =>
              && s != [] && ReadBody(s[1..], [], bufSize).End?
              && var b := ReadBody(s[1..], [], bufSize);
                 && |b.rest| >= 2 && Receive(s, bufSize) == Got(b.payload, b.rest[2..], 0)
                 && Checksum(b.payload) == Sent(b.rest[0], b.rest[1])
                 && s == before + ([DOLLAR] + b.payload + [HASH]) + b.rest && Plain(b.payload) && |b.payload| + 2 <= bufSize
  {
    hide Checksum, Sent, Plain;
    assert s == [s[0]] + s[1..];
    if s[0] != DOLLAR {
      return [s[0]], Some(s[1..]);
    }
    ReadBodyShrinks(s[1..], [], bufSize);
    var b := ReadBody(s[1..], [], bufSize);
    before := BodyIs(s[1..], [], bufSize);
    assert [DOLLAR] + [] + s[1..] == s;
    hide ReadBody;
    if b.Overrun? {
      rest := Some(b.rest);
    } else if Checksum(b.payload) == Sent(b.rest[0], b.rest[1]) {
      rest := None;
    } else {
      before := before + ([DOLLAR] + b.payload + [HASH]) + b.rest[..2];
      rest := Some(b.rest[2..]);
      assert b.rest == b.rest[..2] + b.rest[2..];
    }
  }

  // ---------------------------------------------------------------- the connection in place

  class Packet {
    const bufSize: nat
    const data: array<Byte>
    var len: nat

    ghost predicate Valid()
      reads this
    {
      data.Length == bufSize && len <= bufSize
    }

    constructor (bufSize: nat)
      ensures Valid() && this.bufSize == bufSize && fresh(data)
    {
      this.bufSize, data, len := bufSize, new Byte[bufSize](_ => 0), 0;
    }
  }

  class Connection {
    var input: seq<Byte>
    var output: seq<Byte>

    constructor (input: seq<Byte>)
      ensures this.input == input && output == []
    {
      this.input, output := input, [];
    }

    /** The next byte, or -1 at the end of the stream. */
    method GetRspChar() returns (ch: int)
      modifies `input
      ensures old(input) == [] ==> ch == -1 && input == []
      ensures old(input) != [] ==> ch == old(input)[0] && input == old(input)[1..]
    {
      if input == [] {
        return -1;
      }
      ch := input[0];
      input := input[1..];
    }

    /** Reads a packet body into the buffer; `ch` is the last character read, -1 at the end of the stream. */
    method ReadData(pkt: Packet) returns (ch: int, checksum: Byte, count: nat)
      requires pkt.Valid()
      modifies `input, pkt.data
      ensures match ReadBody(old(input), [], pkt.bufSize)
              case Cut => ch == -1
              case Overrun(rest) =>
                ch != -1 && ch != HASH as int && input == rest && (pkt.bufSize > 0 ==> count < pkt.bufSize)
              case End(p, rest) =>
                && ch == HASH as int && input == rest && count == |p| < pkt.bufSize
                && pkt.data[..count] == p && checksum == Checksum(p)
    {
      ch, checksum, count := DOLLAR as int, 0, 0;
      ghost var got: seq<Byte> := [];
      assert Checksum(got) == 0;
      hide Checksum;
      while count + 1 < pkt.bufSize
        invariant count == |got| && (pkt.bufSize > 0 ==> count < pkt.bufSize) && (pkt.bufSize == 0 ==> count == 0)
        invariant pkt.data[..count] == got && checksum == Checksum(got)
        invariant ReadBody(old(input), [], pkt.bufSize) == ReadBody(input, got, pkt.bufSize)
        invariant ch != -1 && ch != HASH as int
        decreases |input|
      {
        ch := GetRspChar();
        if ch == -1 {
          return;
        }
        if ch == DOLLAR as int {
          checksum, count, got := 0, 0, [];
          ChecksumNone();
          continue;
        }
        if ch == HASH as int {
          break;
        }
        ghost var longer := got + [ch as Byte];
        ChecksumNext(got, ch as Byte);
        checksum := (checksum + ch as Byte) % 256;
        pkt.data[count] := ch as Byte;
        count := count + 1;
        got := longer;
      }
    }

    /** Skips everything up to the next '$'. */
    method SkipToDollar(ghost bufSize: nat) returns (found: bool)
      modifies `input
      ensures found ==> |input| < |old(input)| && Receive(old(input), bufSize) == Receive([DOLLAR] + input, bufSize)
      ensures !found ==> Receive(old(input), bufSize) == Closed(0)
    {
      var ch := GetRspChar();
      while ch != DOLLAR as int
        invariant ch == -1 || (0 <= ch < 256 && |input| < |old(input)|)
        invariant Receive(old(input), bufSize) ==
          if ch == -1 then Closed(0) else Receive([ch as Byte] + input, bufSize)
        decreases ch != -1, |input|
      {
        if ch == -1 {
          return false;
        }
        assert ([ch as Byte] + input)[1..] == input;
        ghost var rest := input;
        ch := GetRspChar();
        assert ch != -1 ==> rest == [ch as Byte] + input;
      }
      return true;
    }

    /** What follows a body: refuse or accept. */
    method CheckTrailer(checksum: Byte) returns (verdict: Verdict)
      modifies `input, `output
      ensures |old(input)| < 2 ==> verdict == Ended && output == old(output)
      ensures |old(input)| >= 2 ==> input == old(input)[2..]
      ensures |old(input)| >= 2 ==>
                (if checksum == Sent(old(input)[0], old(input)[1]) then verdict == Accepted && output == old(output) + [PLUS]
                 else verdict == Refused && output == old(output) + [MINUS])
    {
      var hi := GetRspChar();
      if hi == -1 {
        return Ended;
      }
      var lo := GetRspChar();
      if lo == -1 {
        return Ended;
      }
      if checksum != Sent(hi as Byte, lo as Byte) {
        output := output + [MINUS];
        return Refused;
      }
      output := output + [PLUS];
      return Accepted;
    }

    /** Hunts for a good frame; answers '-' to a frame with a wrong checksum and '+' to the one accepted. */
    method GetPkt(pkt: Packet) returns (ok: bool)
      requires pkt.Valid() && pkt.bufSize > 0
      modifies `input, `output, pkt`len, pkt.data
      ensures pkt.Valid()
      ensures match Receive(old(input), pkt.bufSize)
              case Got(p, rest, n) =>
                ok && input == rest && pkt.len < pkt.bufSize && pkt.data[..pkt.len] == p && pkt.data[pkt.len] == 0
                && output == old(output) + Repeat([MINUS], n) + [PLUS]
              case Closed(n) => !ok && output == old(output) + Repeat([MINUS], n)
    {
      hide ReadBody, Checksum, Sent;
      ghost var refused: nat := 0;
      while true
        invariant pkt.Valid()
        invariant output == old(output) + Repeat([MINUS], refused)
        invariant Receive(old(input), pkt.bufSize) == RefuseMany(Receive(input, pkt.bufSize), refused)
        decreases |input|
      {
        var found := SkipToDollar(pkt.bufSize);
        if !found {
          return false;
        }
        assert ([DOLLAR] + input)[1..] == input;
        ReadBodyShrinks(input, [], pkt.bufSize);
        var ch, checksum, count := ReadData(pkt);
        if ch == -1 {
          return false;
        }
        pkt.data[count] := 0;
        pkt.len := count;
        if ch == HASH as int {
          var verdict := CheckTrailer(checksum);
          if verdict != Refused {
            return verdict == Accepted;
          }
          refused := refused + 1;
        }
      }
    }

    /** Sends the frame until it is acknowledged with '+'. */
    method PutPkt(pkt: Packet) returns (ok: bool)
      requires pkt.Valid()
      modifies `input, `output
      ensures ok <==> PLUS in old(input)
      ensures ok ==> exists k :: 0 <= k < |old(input)| && old(input)[k] == PLUS && PLUS !in old(input)[..k]
                                 && input == old(input)[k + 1..]
                                 && output == old(output) + Repeat(Frame(pkt.data[..pkt.len]), k + 1)
    {
      hide Frame;
      ghost var frame := Frame(pkt.data[..pkt.len]);
      ghost var k: nat := 0;
      while true
        invariant k <= |old(input)| && input == old(input)[k..]
        invariant forall j :: 0 <= j < k ==> old(input)[j] != PLUS
        invariant output == old(output) + Repeat(frame, k)
        decreases |input|
      {
        SendFrame(pkt);
        assert output == old(output) + Repeat(frame, k + 1);
        var ch := GetRspChar();
        if ch == -1 {
          return false;
        }
        if ch == PLUS as int {
          assert old(input)[k] == PLUS;
          return true;
        }
        k := k + 1;
      }
    }

    /** One byte of the body, escaped if need be, added to the checksum as it goes out. */
    method SendByte(b: Byte, checksum: Byte, ghost body: seq<Byte>) returns (sum: Byte)
      requires checksum == Checksum(body)
      modifies `output
      ensures output == old(output) + EscapedByte(b) && sum == Checksum(body + EscapedByte(b))
    {
      hide Checksum, Flip, Special;
      var ch := b;
      sum := checksum;
      if Special(ch) {
        ch := Flip(ch);
        ChecksumNext(body, BRACE);
        ChecksumNext(body + [BRACE], ch);
        assert body + [BRACE] + [ch] == body + [BRACE, ch];
        sum := (sum + BRACE) % 256;
        output := output + [BRACE];
      } else {
        ChecksumNext(body, ch);
      }
      sum := (sum + ch) % 256;
      output := output + [ch];
    }

    /** The body byte by byte, then the trailer. */
    method SendFrame(pkt: Packet)
      requires pkt.Valid()
      modifies `output
      ensures output == old(output) + Frame(pkt.data[..pkt.len])
    {
      hide EscapedByte, Checksum;
      output := output + [DOLLAR];
      var checksum: Byte := Checksum([]);
      for count := 0 to pkt.len
        invariant output == old(output) + [DOLLAR] + Escaped(pkt.data[..count])
        invariant checksum == Checksum(Escaped(pkt.data[..count]))
      {
        assert pkt.data[..count + 1][..count] == pkt.data[..count];
        checksum := SendByte(pkt.data[count], checksum, Escaped(pkt.data[..count]));
      }
      output := output + [HASH];
      output := output + [Hex2Char(checksum / 16)];
      output := output + [Hex2Char(checksum % 16)];
    }
  }

  datatype Verdict = Accepted | Refused | Ended

  lemma ChecksumNone()
    ensures Checksum([]) == 0
  {
  }

  lemma ChecksumNext(s: seq<Byte>, b: Byte)
    ensures Checksum(s + [b]) == (Checksum(s) + b) % 256
  {
    assert (s + [b])[..|s|] == s;
  }

  function Repeat(s: seq<Byte>, n: nat): seq<Byte>
  {
    if n == 0 then [] else Repeat(s, n - 1) + s
  }

  /** Removes the escapes of the first `len` bytes in place; the byte after them must exist. */
  method RspUnescape(buf: array<Byte>, len: nat) returns (n: nat)
    requires len <= buf.Length && (len == buf.Length ==> !Dangles(buf[..]))
    modifies buf
    ensures n <= len && buf[..n] == Unescaped(old(buf[..len]), if len < buf.Length then old(buf[len]) else 0)
  {
    hide Unescaped, Flip, Tail, Dangles, Completed;
    var from, to := 0, 0;
    ghost var all, text, full := buf[..], buf[..len], len == buf.Length;
    ghost var after: Byte := if full then 0 else buf[len];
    assert full ==> text == all;
    TailStart(text, after);
    CompletedStart(text, full);
    while from < len
      invariant to <= from <= len + 1 && (from == len + 1 ==> to < from)
      invariant forall k :: from <= k < buf.Length ==> buf[k] == all[k]
      invariant buf[..to] + Tail(text, from, after) == Unescaped(text, after)
      invariant Completed(text, from, full)
    {
      ghost var done := buf[..to];
      TailStep(text, from, after);
      CompletedStep(text, from, full);
      assert buf[from] == all[from] == text[from];
      if buf[from] == BRACE {
        assert buf[from + 1] == all[from + 1] == if from + 1 < len then text[from + 1] else after;
        from := from + 1;
        buf[to] := Flip(buf[from]);
      } else {
        buf[to] := buf[from];
      }
      from := from + 1;
      to := to + 1;
      assert buf[..to] == done + [buf[to - 1]];
    }
    n := to;
    TailStart(text, after);
  }

  /** The text ends in an escape mark that escapes nothing of the text. */
  predicate Dangles(s: seq<Byte>)
  {
    if s == [] then false
    else if s[0] != BRACE then Dangles(s[1..])
    else |s| == 1 || Dangles(s[2..])
  }

  /** Where no byte may be read after the text, no escape is cut off from position i on. */
  predicate Completed(text: seq<Byte>, i: nat, full: bool)
  {
    full ==> i <= |text| && !Dangles(text[i..])
  }

  lemma CompletedStart(text: seq<Byte>, full: bool)
    ensures Completed(text, 0, full) <==> (full ==> !Dangles(text))
  {
    assert text[0..] == text;
  }

  lemma CompletedStep(text: seq<Byte>, i: nat, full: bool)
    requires i < |text| && Completed(text, i, full)
    ensures text[i] != BRACE ==> Completed(text, i + 1, full)
    ensures text[i] == BRACE ==> Completed(text, i + 2, full) && (full ==> i + 1 < |text|)
  {
    var s := text[i..];
    assert s[1..] == text[i + 1..];
    if |s| > 1 { assert s[2..] == text[i + 2..]; }
  }

  /** What is still to be written when the bytes before position i have been dealt with. */
  function Tail(text: seq<Byte>, i: nat, after: Byte): seq<Byte>
  {
    if i <= |text| then Unescaped(text[i..], after) else []
  }

  lemma TailStart(text: seq<Byte>, after: Byte)
    ensures Tail(text, 0, after) == Unescaped(text, after)
    ensures forall i: nat :: i >= |text| ==> Tail(text, i, after) == []
  {
    assert text[0..] == text;
  }

  lemma TailStep(text: seq<Byte>, i: nat, after: Byte)
    requires i < |text|
    ensures Tail(text, i, after) ==
              if text[i] != BRACE then [text[i]] + Tail(text, i + 1, after)
              else [Flip(if i + 1 < |text| then text[i + 1] else after)] + Tail(text, i + 2, after)
  {
    var s := text[i..];
    assert s[1..] == text[i + 1..];
    if |s| > 1 { assert s[2..] == text[i + 2..]; }
  }
}
