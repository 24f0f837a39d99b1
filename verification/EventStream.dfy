/** Event stream framing: the frame codec and the incremental decoder. */
module EventStream {
  import opened Wrappers
  import opened BigEndian
  import opened Headers

  type u32 = n: int | 0 <= n < 0x1_0000_0000

  /** CRC-32, of which only that it is a function matters here. */
  type Crc = seq<byte> -> u32

  const MAX_FRAME_BYTES := 4 * 1024 * 1024
  const MAX_HEADERS_BYTES := 128 * 1024
  const PRELUDE_LEN := 12
  const MIN_FRAME_LEN := 16

  datatype Frame = Frame(headers: seq<Header>, payload: seq<byte>)

  datatype FrameError =
    | PreludeCrc(computed: nat, expected: nat)
    | MessageCrc(computed: nat, expected: nat)
    | TooLarge(total: nat, max: nat)
    | TooSmall(total: nat)
    | HeadersOverrun(headers: nat)
    | BadHeader(offset: nat)
    | Truncated(pending: nat)

  // ---- encoding -----------------------------------------------------------------------

  /** The first 8 bytes: the two lengths, as `as u32` leaves them. */
  function Lengths(headers: nat, payload: nat): (s: seq<byte>)
    ensures |s| == 8
  {
    ToBE((PRELUDE_LEN + headers + payload + 4) % 0x1_0000_0000, 4) + ToBE(headers % 0x1_0000_0000, 4)
  }

  /** A block followed by its checksum. */
  function Sealed(crc: Crc, block: seq<byte>): (s: seq<byte>)
    ensures |s| == |block| + 4
  {
    block + ToBE(crc(block), 4)
  }

  function EncodeFrame(crc: Crc, headers: seq<byte>, payload: seq<byte>): (s: seq<byte>)
    ensures |s| == MIN_FRAME_LEN + |headers| + |payload|
  {
    Sealed(crc, Sealed(crc, Lengths(|headers|, |payload|)) + headers + payload)
  }

  /** `encode_frame`: append the parts to one buffer. */
  method BuildFrame(crc: Crc, headers: seq<byte>, payload: seq<byte>) returns (frame: seq<byte>)
    ensures frame == EncodeFrame(crc, headers, payload)
  {
    var total := (PRELUDE_LEN + |headers| + |payload| + 4) % 0x1_0000_0000;
    frame := ToBE(total, 4);
    frame := frame + ToBE(|headers| % 0x1_0000_0000, 4);
    assert frame == Lengths(|headers|, |payload|);
    frame := frame + ToBE(crc(frame), 4);
    frame := frame + headers;
    frame := frame + payload;
    frame := frame + ToBE(crc(frame), 4);
  }

  /** What the decoder lets through: the header block and the frame within their limits. */
  predicate FitsFrame(f: Frame) {
    && FitsAll(f.headers)
    && |EncodeHeaders(f.headers)| <= MAX_HEADERS_BYTES
    && MIN_FRAME_LEN + |EncodeHeaders(f.headers)| + |f.payload| <= MAX_FRAME_BYTES
  }

  function Encode(crc: Crc, f: Frame): seq<byte>
    requires FitsFrame(f)
  {
    EncodeFrame(crc, EncodeHeaders(f.headers), f.payload)
  }

  // ---- decoding -------------------------------------------------------------------------

  datatype Sizes = Sizes(total: nat, headers: nat)

  /** The prelude: its checksum first, then the lengths it announces. */
  function ReadPrelude(crc: Crc, p: seq<byte>): (r: Result<Sizes, FrameError>)
    requires |p| == PRELUDE_LEN
    ensures r.Ok? ==> MIN_FRAME_LEN + r.value.headers <= r.value.total <= MAX_FRAME_BYTES
  {
    var total, headers := FromBE(p[..4]), FromBE(p[4..8]);
    var expected, computed := FromBE(p[8..]), crc(p[..8]);
    if computed != expected then Err(PreludeCrc(computed, expected))
    else if total < MIN_FRAME_LEN then Err(TooSmall(total))
    else if total > MAX_FRAME_BYTES then Err(TooLarge(total, MAX_FRAME_BYTES))
    else if headers > total - PRELUDE_LEN - 4 then Err(HeadersOverrun(headers))
    else if headers > MAX_HEADERS_BYTES then Err(HeadersOverrun(headers))
    else Ok(Sizes(total, headers))
  }

  /** All the bytes of one frame, whose prelude was read. */
  function ReadFrame(crc: Crc, s: seq<byte>, headers: nat): Result<Frame, FrameError>
    requires MIN_FRAME_LEN + headers <= |s|
  {
    var expected, computed := FromBE(s[|s| - 4..]), crc(s[..|s| - 4]);
    if computed != expected then Err(MessageCrc(computed, expected)) else
    match ParseAll(s[PRELUDE_LEN..PRELUDE_LEN + headers], 0)
    case Err(offset) => Err(BadHeader(offset))
    case Ok(hs) => Ok(Frame(hs, s[PRELUDE_LEN + headers..|s| - 4]))
  }

  /** What the bytes received so far start with: a frame of `n` bytes, an error, or too little. */
  datatype Decoded = NeedMore | Got(frame: Frame, n: nat) | Bad(error: FrameError)

  function Decode(crc: Crc, data: seq<byte>): (r: Decoded)
    ensures r.Got? ==> MIN_FRAME_LEN <= r.n <= |data|
  {
    if |data| < PRELUDE_LEN then NeedMore else
    match ReadPrelude(crc, data[..PRELUDE_LEN])
    case Err(e) => Bad(e)
    case Ok(sizes) =>
      if |data| < sizes.total then NeedMore else
      match ReadFrame(crc, data[..sizes.total], sizes.headers)
      case Err(e) => Bad(e)
      case Ok(f) => Got(f, sizes.total)
  }

  // ---- bytes that arrive later change nothing that was decided ------------------------------

  /** A frame or an error stays what it is, whatever bytes follow. */
  lemma PrefixStable(crc: Crc, data: seq<byte>, more: seq<byte>)
    requires Decode(crc, data) != NeedMore
    ensures Decode(crc, data + more) == Decode(crc, data)
  {
    hide ReadPrelude;
    hide ReadFrame;
    assert (data + more)[..PRELUDE_LEN] == data[..PRELUDE_LEN];
    match ReadPrelude(crc, data[..PRELUDE_LEN])
    case Err(_) =>
    case Ok(sizes) => assert (data + more)[..sizes.total] == data[..sizes.total];
  }

  // ---- the codec inverts both ways ------------------------------------------------------------

  lemma Unseal(crc: Crc, block: seq<byte>)
    ensures var s := Sealed(crc, block);
            s[..|block|] == block && FromBE(s[|block|..]) == crc(block)
  {
    Pow256Values();
    FromTo(crc(block), 4);
  }

  /** Bytes whose last four are the checksum of the others are a sealed block. */
  lemma Reseal(crc: Crc, s: seq<byte>)
    requires 4 <= |s| && FromBE(s[|s| - 4..]) == crc(s[..|s| - 4])
    ensures s == Sealed(crc, s[..|s| - 4])
  {
    ToFrom(s[|s| - 4..]);
  }

  lemma LengthsRead(headers: nat, payload: nat)
    requires MIN_FRAME_LEN + headers + payload <= MAX_FRAME_BYTES
    ensures var s := Lengths(headers, payload);
            FromBE(s[..4]) == MIN_FRAME_LEN + headers + payload && FromBE(s[4..]) == headers
  {
    hide ToBE;
    hide FromBE;
    Pow256Values();
    FromTo(MIN_FRAME_LEN + headers + payload, 4);
    FromTo(headers, 4);
    var s := Lengths(headers, payload);
    assert s[..4] == ToBE(MIN_FRAME_LEN + headers + payload, 4) && s[4..] == ToBE(headers, 4);
  }

  lemma PreludeReads(crc: Crc, headers: nat, payload: nat)
    requires headers <= MAX_HEADERS_BYTES && MIN_FRAME_LEN + headers + payload <= MAX_FRAME_BYTES
    ensures ReadPrelude(crc, Sealed(crc, Lengths(headers, payload)))
            == Ok(Sizes(MIN_FRAME_LEN + headers + payload, headers))
  {
    hide Lengths;
    hide FromBE;
    var l := Lengths(headers, payload);
    var p := Sealed(crc, l);
    Unseal(crc, l);
    LengthsRead(headers, payload);
    assert p[..4] == l[..4] && p[4..8] == l[4..];
  }

  lemma FrameReads(crc: Crc, prelude: seq<byte>, f: Frame)
    requires |prelude| == PRELUDE_LEN && FitsFrame(f)
    ensures var hs := EncodeHeaders(f.headers);
            ReadFrame(crc, Sealed(crc, prelude + hs + f.payload), |hs|) == Ok(f)
  {
    hide FromBE;
    hide ParseAll;
    hide EncodeHeaders;
    hide FitsAll;
    var hs := EncodeHeaders(f.headers);
    var block := prelude + hs + f.payload;
    var s := Sealed(crc, block);
    Unseal(crc, block);
    Parts(prelude, hs, f.payload, ToBE(crc(block), 4));
    ParseEncoded(f.headers, 0);
  }

  lemma Parts(prelude: seq<byte>, headers: seq<byte>, payload: seq<byte>, tail: seq<byte>)
    ensures var s := prelude + headers + payload + tail;
            && s[|prelude|..|prelude| + |headers|] == headers
            && s[|prelude| + |headers|..|s| - |tail|] == payload
  {
  }

  /** An encoded frame decodes to itself and takes exactly its own bytes, whatever follows. */
  lemma DecodeEncode(crc: Crc, f: Frame, rest: seq<byte>)
    requires FitsFrame(f)
    ensures Decode(crc, Encode(crc, f) + rest) == Got(f, |Encode(crc, f)|)
  {
    hide ReadPrelude;
    hide ReadFrame;
    hide Sealed;
    hide Lengths;
    hide EncodeHeaders;
    hide FitsAll;
    var hs := EncodeHeaders(f.headers);
    var prelude := Sealed(crc, Lengths(|hs|, |f.payload|));
    var e := Encode(crc, f);
    PreludeReads(crc, |hs|, |f.payload|);
    FrameReads(crc, prelude, f);
    SealedStarts(crc, prelude, hs + f.payload);
    assert prelude + hs + f.payload == prelude + (hs + f.payload);
    assert (e + rest)[..PRELUDE_LEN] == e[..PRELUDE_LEN];
    assert (e + rest)[..|e|] == e;
  }

  lemma SealedStarts(crc: Crc, a: seq<byte>, b: seq<byte>)
    ensures Sealed(crc, a + b)[..|a|] == a
  {
  }

  /** A prelude that is accepted is the sealed lengths. */
  lemma PreludeWasSealed(crc: Crc, p: seq<byte>)
    requires |p| == PRELUDE_LEN && ReadPrelude(crc, p).Ok?
    ensures var z := ReadPrelude(crc, p).value;
            p == Sealed(crc, Lengths(z.headers, z.total - MIN_FRAME_LEN - z.headers)) && z.headers <= MAX_HEADERS_BYTES
  {
    hide FromBE;
    hide ToBE;
    Reseal(crc, p);
    ToFrom(p[..4]);
    ToFrom(p[4..8]);
    assert p[..8] == p[..4] + p[4..8];
  }

  /** The bytes of a frame that is accepted are its encoding. */
  lemma FrameWasSealed(crc: Crc, s: seq<byte>, headers: nat)
    requires MIN_FRAME_LEN + headers <= |s| && ReadFrame(crc, s, headers).Ok?
    ensures var f := ReadFrame(crc, s, headers).value;
            && FitsAll(f.headers) && |EncodeHeaders(f.headers)| == headers
            && |f.payload| == |s| - MIN_FRAME_LEN - headers
            && s == Sealed(crc, s[..PRELUDE_LEN] + EncodeHeaders(f.headers) + f.payload)
  {
    hide FromBE;
    hide ParseAll;
    hide EncodeHeaders;
    hide FitsAll;
    Reseal(crc, s);
    EncodeParsed(s[PRELUDE_LEN..PRELUDE_LEN + headers], 0);
    var b := s[..|s| - 4];
    Rejoin(b, PRELUDE_LEN, PRELUDE_LEN + headers);
    assert b[..PRELUDE_LEN] == s[..PRELUDE_LEN];
    assert b[PRELUDE_LEN..PRELUDE_LEN + headers] == s[PRELUDE_LEN..PRELUDE_LEN + headers];
    assert b[PRELUDE_LEN + headers..] == s[PRELUDE_LEN + headers..|s| - 4];
  }

  lemma Rejoin(s: seq<byte>, i: nat, j: nat)
    requires i <= j <= |s|
    ensures s == s[..i] + s[i..j] + s[j..]
  {
  }

  /** Encoding a frame that was decoded gives back exactly the bytes it was decoded from. */
  lemma EncodeDecode(crc: Crc, data: seq<byte>)
    requires Decode(crc, data).Got?
    ensures var r := Decode(crc, data);
            FitsFrame(r.frame) && Encode(crc, r.frame) == data[..r.n]
  {
    hide ReadPrelude;
    hide ReadFrame;
    hide Sealed;
    hide Lengths;
    hide EncodeHeaders;
    hide FitsAll;
    var r := Decode(crc, data);
    var z := ReadPrelude(crc, data[..PRELUDE_LEN]).value;
    PreludeWasSealed(crc, data[..PRELUDE_LEN]);
    FrameWasSealed(crc, data[..r.n], z.headers);
    assert r.n == z.total;
    assert data[..r.n][..PRELUDE_LEN] == data[..PRELUDE_LEN];
  }

  /** A frame is accepted exactly when the bytes start with the encoding of a frame within the limits. */
  lemma AcceptedIff(crc: Crc, data: seq<byte>)
    ensures Decode(crc, data).Got? <==> exists f | FitsFrame(f) :: Encode(crc, f) <= data
  {
    hide FitsFrame;
    hide Encode;
    hide Decode;
    if Decode(crc, data).Got? {
      EncodeDecode(crc, data);
      assert Encode(crc, Decode(crc, data).frame) <= data;
    }
    forall f | FitsFrame(f) && Encode(crc, f) <= data ensures Decode(crc, data).Got? {
      var e := Encode(crc, f);
      DecodeEncode(crc, f, data[|e|..]);
      assert e + data[|e|..] == data;
    }
  }

  /** A frame that has not arrived completely is waited for, never misread. */
  lemma PartialWaits(crc: Crc, f: Frame, k: nat)
    requires FitsFrame(f) && k < |Encode(crc, f)|
    ensures Decode(crc, Encode(crc, f)[..k]) == NeedMore
  {
    hide Encode;
    hide FitsFrame;
    var e := Encode(crc, f);
    DecodeEncode(crc, f, []);
    assert e + [] == e;
    assert e[..k] + e[k..] == e;
    if Decode(crc, e[..k]) != NeedMore {
      PrefixStable(crc, e[..k], e[k..]);
    }
  }

  // ---- whole streams ------------------------------------------------------------------------------

  /** The frames at the start of the bytes, the bytes left over, and what stopped the decoder. */
  datatype Framing = Framing(frames: seq<Frame>, rest: seq<byte>, error: Option<FrameError>)

  function Frames(crc: Crc, data: seq<byte>): Framing
    decreases |data|
  {
    match Decode(crc, data)
    case NeedMore => Framing([], data, None)
    case Bad(e) => Framing([], data, Some(e))
    case Got(f, n) =>
      var r := Frames(crc, data[n..]);
      Framing([f] + r.frames, r.rest, r.error)
  }

  predicate FitsFrames(fs: seq<Frame>) {
    fs == [] || (FitsFrame(fs[0]) && FitsFrames(fs[1..]))
  }

  function EncodeAll(crc: Crc, fs: seq<Frame>): seq<byte>
    requires FitsFrames(fs)
  {
    if fs == [] then [] else Encode(crc, fs[0]) + EncodeAll(crc, fs[1..])
  }

  /** Frames sent back to back are recovered, and nothing is left over. */
  lemma {:induction false} FramesOfEncoded(crc: Crc, fs: seq<Frame>)
    requires FitsFrames(fs)
    ensures Frames(crc, EncodeAll(crc, fs)) == Framing(fs, [], None)
    decreases |fs|
  {
    hide FitsFrame;
    hide Encode;
    if fs != [] {
      hide Decode;
      var e, rest := Encode(crc, fs[0]), EncodeAll(crc, fs[1..]);
      DecodeEncode(crc, fs[0], rest);
      assert (e + rest)[|e|..] == rest;
      FramesOfEncoded(crc, fs[1..]);
      assert fs == [fs[0]] + fs[1..];
    }
  }

  /** Whatever was received: the frames' encodings and the bytes left over are all of it. */
  lemma {:induction false} EncodedFrames(crc: Crc, data: seq<byte>)
    ensures var r := Frames(crc, data);
            FitsFrames(r.frames) && EncodeAll(crc, r.frames) + r.rest == data
    decreases |data|
  {
    hide FitsFrame;
    hide Encode;
    hide Decode;
    match Decode(crc, data)
    case NeedMore =>
    case Bad(_) =>
    case Got(f, n) =>
      var r := Frames(crc, data[n..]);
      EncodedFrames(crc, data[n..]);
      EncodeDecode(crc, data);
      assert ([f] + r.frames)[1..] == r.frames;
      Rejoined(data, n, EncodeAll(crc, r.frames), r.rest);
  }

  lemma Rejoined(data: seq<byte>, n: nat, a: seq<byte>, b: seq<byte>)
    requires n <= |data| && data[n..] == a + b
    ensures data[..n] + a + b == data
  {
    assert data == data[..n] + data[n..];
  }
}
