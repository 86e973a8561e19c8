/**
 The wire format: a 24-byte header holding the C struct comm_msg_header_t as it lies in memory on
 a little-endian LP64 machine, followed by the payload.
 */
module Framing {
  import opened Sequences

  const U32_LIMIT := 0x1_0000_0000
  const U64_LIMIT := 0x1_0000_0000_0000_0000
  const SSIZE_LIMIT := 0x8000_0000_0000_0000
  const HEADER_SIZE := 24

  type byte = x: int | 0 <= x < 256
  type u32 = x: int | 0 <= x < U32_LIMIT
  type u64 = x: int | 0 <= x < U64_LIMIT
  type padding = s: seq<byte> | |s| == 4 witness [0, 0, 0, 0]

  /** The four padding bytes after the enum travel with the struct, so they are part of the value. */
  datatype Header = Header(msgType: u32, pad: padding, msgLen: u64, msgWriteLen: u64)

  datatype Message = Message(header: Header, payload: seq<byte>)

  /** Assigning a uint64_t to the ssize_t tot_len. */
  function ToSsize(x: u64): int {
    if x < SSIZE_LIMIT then x else x - U64_LIMIT
  }

  /** tot_len on the sending side: msg_write_len unless that is zero. */
  function SendTotal(h: Header): int {
    if h.msgWriteLen == 0 then ToSsize(h.msgLen) else ToSsize(h.msgWriteLen)
  }

  function AtLeastZero(x: int): nat {
    if x < 0 then 0 else x
  }

  /** How many payload bytes the sender's loop asks to write. */
  function SendLen(h: Header): nat {
    AtLeastZero(SendTotal(h))
  }

  /** How many payload bytes the receiver's loop asks to read. */
  function PayloadLen(h: Header): nat {
    AtLeastZero(ToSsize(h.msgLen))
  }

  /** A sender writes msg_write_len bytes, or msg_len if that is 0; a receiver reads msg_len. From 2^63 on that is none. */
  lemma LengthRules(h: Header)
    ensures PayloadLen(h) == if h.msgLen < 0x8000_0000_0000_0000 then h.msgLen else 0
    ensures h.msgWriteLen != 0 ==> SendLen(h) == if h.msgWriteLen < 0x8000_0000_0000_0000 then h.msgWriteLen else 0
    ensures h.msgWriteLen == 0 ==> SendLen(h) == PayloadLen(h)
  {
  }

  // ---------------------------------------------------------------- little-endian integers

  function Pow256(n: nat): (p: nat)
    ensures p > 0
  {
    if n == 0 then 1 else 256 * Pow256(n - 1)
  }

  function LittleEndian(v: nat, n: nat): (b: seq<byte>)
    ensures |b| == n
  {
    if n == 0 then [] else [v % 256] + LittleEndian(v / 256, n - 1)
  }

  function LittleEndianValue(b: seq<byte>): (v: nat)
    ensures v < Pow256(|b|)
  {
    if b == [] then 0 else
      b[0] + 256 * LittleEndianValue(b[1..])
  }

  lemma {:induction false} ValueOfLittleEndian(v: nat, n: nat)
    requires v < Pow256(n)
    ensures LittleEndianValue(LittleEndian(v, n)) == v
  {
    if n != 0 {
      ValueOfLittleEndian(v / 256, n - 1);
      assert LittleEndian(v, n)[1..] == LittleEndian(v / 256, n - 1);
    }
  }

  lemma {:induction false} LittleEndianOfValue(b: seq<byte>)
    ensures LittleEndian(LittleEndianValue(b), |b|) == b
  {
    if b != [] {
      LittleEndianOfValue(b[1..]);
      var rest := LittleEndianValue(b[1..]);
      assert (b[0] + 256 * rest) % 256 == b[0] && (b[0] + 256 * rest) / 256 == rest;
    }
  }

  lemma WordSizes()
    ensures Pow256(4) == U32_LIMIT && Pow256(8) == U64_LIMIT
  {
    assert Pow256(2) == 0x1_0000;
    assert Pow256(4) == 256 * (256 * Pow256(2));
    assert Pow256(6) == 256 * (256 * Pow256(4));
    assert Pow256(8) == 256 * (256 * Pow256(6));
  }

  // ---------------------------------------------------------------- the header

  function EncodeHeader(h: Header): (b: seq<byte>)
    ensures |b| == HEADER_SIZE
  {
    LittleEndian(h.msgType, 4) + h.pad + LittleEndian(h.msgLen, 8) + LittleEndian(h.msgWriteLen, 8)
  }

  function DecodeHeader(b: seq<byte>): Header
    requires |b| == HEADER_SIZE
  {
    WordSizes();
    Header(LittleEndianValue(b[..4]), b[4..8], LittleEndianValue(b[8..16]), LittleEndianValue(b[16..24]))
  }

  lemma FourParts(t: seq<byte>, p: seq<byte>, l: seq<byte>, w: seq<byte>)
    requires |t| == 4 && |p| == 4 && |l| == 8 && |w| == 8
    ensures var b := t + p + l + w;
            b[..4] == t && b[4..8] == p && b[8..16] == l && b[16..24] == w
  {
  }

  lemma DecodeOfEncode(h: Header)
    ensures DecodeHeader(EncodeHeader(h)) == h
  {
    WordSizes();
    FourParts(LittleEndian(h.msgType, 4), h.pad, LittleEndian(h.msgLen, 8), LittleEndian(h.msgWriteLen, 8));
    ValueOfLittleEndian(h.msgType, 4);
    ValueOfLittleEndian(h.msgLen, 8);
    ValueOfLittleEndian(h.msgWriteLen, 8);
  }

  lemma EncodeOfDecode(b: seq<byte>)
    requires |b| == HEADER_SIZE
    ensures EncodeHeader(DecodeHeader(b)) == b
  {
    LittleEndianOfValue(b[..4]);
    LittleEndianOfValue(b[8..16]);
    LittleEndianOfValue(b[16..24]);
    assert b == b[..4] + b[4..8] + b[8..16] + b[16..24];
  }

  /** Four bytes of memory read as a number on a little-endian machine. */
  function Word(a: int, b: int, c: int, d: int): int {
    a + 0x100 * b + 0x1_0000 * c + 0x100_0000 * d
  }

  lemma ValueOfFour(b: seq<byte>)
    requires |b| >= 4
    ensures LittleEndianValue(b) == Word(b[0], b[1], b[2], b[3]) + 0x1_0000_0000 * LittleEndianValue(b[4..])
  {
    assert b[1..][1..] == b[2..] && b[2..][1..] == b[3..] && b[3..][1..] == b[4..];
    assert LittleEndianValue(b[2..]) == b[2] + 256 * LittleEndianValue(b[3..]);
    assert LittleEndianValue(b[3..]) == b[3] + 256 * LittleEndianValue(b[4..]);
  }

  lemma ValueOfEight(b: seq<byte>)
    requires |b| == 8
    ensures LittleEndianValue(b) == Word(b[0], b[1], b[2], b[3]) + 0x1_0000_0000 * Word(b[4], b[5], b[6], b[7])
  {
    ValueOfFour(b);
    ValueOfFour(b[4..]);
    assert b[4..][4..] == [];
  }

  /** Where the members of the struct lie, byte by byte. */
  lemma HeaderLayout(h: Header)
    ensures var b := EncodeHeader(h);
            && |b| == 24
            && h.msgType == Word(b[0], b[1], b[2], b[3])
            && h.pad == b[4..8]
            && h.msgLen == Word(b[8], b[9], b[10], b[11]) + 0x1_0000_0000 * Word(b[12], b[13], b[14], b[15])
            && h.msgWriteLen == Word(b[16], b[17], b[18], b[19]) + 0x1_0000_0000 * Word(b[20], b[21], b[22], b[23])
  {
    var b := EncodeHeader(h);
    DecodeOfEncode(h);
    ValueOfFour(b[..4]);
    assert b[..4][4..] == [];
    ValueOfEight(b[8..16]);
    ValueOfEight(b[16..24]);
  }

  // ---------------------------------------------------------------- frames

  /** A message whose payload has the length its own header announces. */
  predicate WellFormed(m: Message) {
    |m.payload| == PayloadLen(m.header)
  }

  predicate AllWellFormed(ms: seq<Message>) {
    forall m :: m in ms ==> WellFormed(m)
  }

  function Frame(m: Message): seq<byte> {
    EncodeHeader(m.header) + m.payload
  }

  function Frames(ms: seq<Message>): seq<byte> {
    if ms == [] then [] else Frame(ms[0]) + Frames(ms[1..])
  }

  lemma {:induction false} FramesAppend(ms: seq<Message>, ns: seq<Message>)
    ensures Frames(ms + ns) == Frames(ms) + Frames(ns)
  {
    if ms == [] {
      assert ms + ns == ns;
    } else {
      assert (ms + ns)[1..] == ms[1..] + ns;
      FramesAppend(ms[1..], ns);
    }
  }

  lemma FramesSnoc(ms: seq<Message>, m: Message)
    ensures Frames(ms + [m]) == Frames(ms) + Frame(m)
  {
    FramesAppend(ms, [m]);
    assert [m][1..] == [];
  }

  /** The length of the frame a stream starts with, once its header is there. */
  function FrameLen(s: seq<byte>): nat
    requires HEADER_SIZE <= |s|
  {
    HEADER_SIZE + PayloadLen(DecodeHeader(s[..HEADER_SIZE]))
  }

  /** The stream s starts with a complete frame. */
  predicate HasFrame(s: seq<byte>) {
    HEADER_SIZE <= |s| && FrameLen(s) <= |s|
  }

  function FirstMessage(s: seq<byte>): Message
    requires HasFrame(s)
  {
    Message(DecodeHeader(s[..HEADER_SIZE]), s[HEADER_SIZE..FrameLen(s)])
  }

  lemma FirstMessageOfFrame(m: Message, tail: seq<byte>)
    requires WellFormed(m)
    ensures HasFrame(Frame(m) + tail) && FrameLen(Frame(m) + tail) == |Frame(m)|
    ensures FirstMessage(Frame(m) + tail) == m
  {
    var s := Frame(m) + tail;
    assert s[..HEADER_SIZE] == EncodeHeader(m.header);
    DecodeOfEncode(m.header);
    assert s[HEADER_SIZE..HEADER_SIZE + |m.payload|] == m.payload;
  }

  /** What a byte stream holds: its complete frames, and the bytes of an unfinished one. */
  datatype Parse = Parse(messages: seq<Message>, rest: seq<byte>)

  function ParseStream(s: seq<byte>): Parse {
    if !HasFrame(s) then Parse([], s) else
    var later := ParseStream(s[FrameLen(s)..]);
    Parse([FirstMessage(s)] + later.messages, later.rest)
  }

  lemma ParseOneFrame(m: Message, tail: seq<byte>)
    requires WellFormed(m)
    ensures ParseStream(Frame(m) + tail) == Parse([m] + ParseStream(tail).messages, ParseStream(tail).rest)
  {
    FirstMessageOfFrame(m, tail);
    assert (Frame(m) + tail)[|Frame(m)|..] == tail;
  }

  /** Concatenated frames decode to exactly the messages they were built from, whatever follows. */
  lemma {:induction false} ParseOfFrames(ms: seq<Message>, tail: seq<byte>)
    requires AllWellFormed(ms)
    ensures ParseStream(Frames(ms) + tail) == Parse(ms + ParseStream(tail).messages, ParseStream(tail).rest)
  {
    if ms == [] {
      assert Frames(ms) + tail == tail;
      assert ms + ParseStream(tail).messages == ParseStream(tail).messages;
    } else {
      var later := Frames(ms[1..]) + tail;
      assert AllWellFormed(ms[1..]) && WellFormed(ms[0]);
      assert Frames(ms) + tail == Frame(ms[0]) + later;
      ParseOneFrame(ms[0], later);
      ParseOfFrames(ms[1..], tail);
      HeadFirst(ms, ParseStream(tail).messages);
    }
  }

  lemma FirstFrame(s: seq<byte>)
    requires HasFrame(s)
    ensures WellFormed(FirstMessage(s)) && s == Frame(FirstMessage(s)) + s[FrameLen(s)..]
  {
    EncodeOfDecode(s[..HEADER_SIZE]);
  }

  /** Parsing loses nothing: re-framing the messages and appending the rest gives the stream back. */
  lemma {:induction false} FramesOfParse(s: seq<byte>)
    ensures AllWellFormed(ParseStream(s).messages)
    ensures Frames(ParseStream(s).messages) + ParseStream(s).rest == s
    decreases |s|
  {
    var ms, rest := ParseStream(s).messages, ParseStream(s).rest;
    if ms == [] {
      assert Frames([]) + s == s;
    } else {
      var tail := s[FrameLen(s)..];
      FirstFrame(s);
      FramesOfParse(tail);
      var later := ParseStream(tail).messages;
      assert ms[1..] == later;
      assert Frame(ms[0]) + (Frames(later) + rest) == (Frame(ms[0]) + Frames(later)) + rest;
    }
  }

  /** A stream cut anywhere yields a prefix of the messages. */
  lemma {:induction false} ParseOfPrefix(p: seq<byte>, ms: seq<Message>)
    requires AllWellFormed(ms)
    requires p <= Frames(ms)
    ensures ParseStream(p).messages <= ms
  {
    var ds := ParseStream(p).messages;
    FramesOfParse(p);
    assert Frames(ds) <= p;
    var all := Frames(ms);
    var tail := all[|Frames(ds)|..];
    assert Frames(ds) == all[..|Frames(ds)|];
    assert all == Frames(ds) + tail;
    ParseOfFrames(ds, tail);
    ParseOfFrames(ms, []);
    assert all + [] == all;
    assert ms + ParseStream([]).messages == ms;
  }

  /** Frames are a prefix code on message lists. */
  lemma FramesPrefix(ds: seq<Message>, ms: seq<Message>)
    requires AllWellFormed(ds) && AllWellFormed(ms)
    requires Frames(ds) <= Frames(ms)
    ensures ds <= ms
  {
    ParseOfPrefix(Frames(ds), ms);
    ParseOfFrames(ds, []);
    assert Frames(ds) + [] == Frames(ds);
    assert ds + ParseStream([]).messages == ds;
  }
}
