/** The header block of an event stream frame. */
module Headers {
  import opened Wrappers
  import opened BigEndian
  import opened Utf8

  datatype HeaderValue =
    | Bool(flag: bool)
    | Byte(v: int)
    | Short(v: int)
    | Int(v: int)
    | Long(v: int)
    | Bytes(bytes: seq<byte>)
    | Str(bytes: seq<byte>)
    | Timestamp(v: int)
    | Uuid(bytes: seq<byte>)

  /** A header; the name is the UTF-8 encoding of a string. */
  datatype Header = Header(name: seq<byte>, value: HeaderValue)

  // ---- encoding ------------------------------------------------------------------------

  function KindOf(value: HeaderValue): byte {
    match value
    case Bool(flag) => if flag then 0 else 1
    case Byte(_) => 2
    case Short(_) => 3
    case Int(_) => 4
    case Long(_) => 5
    case Bytes(_) => 6
    case Str(_) => 7
    case Timestamp(_) => 8
    case Uuid(_) => 9
  }

  /** The width of the kinds that are integers. */
  function Width(kind: byte): nat {
    if kind == 2 then 1 else if kind == 3 then 2 else if kind == 4 then 4 else if kind == 5 || kind == 8 then 8 else 0
  }

  /** What the types of the program admit: integers of their width, strings in UTF-8. */
  predicate TypedValue(value: HeaderValue) {
    match value
    case Bool(_) => true
    case Bytes(_) => true
    case Str(b) => ValidUtf8(b)
    case Uuid(b) => |b| == 16
    case _ => FitsSigned(value.v, Width(KindOf(value)))
  }

  predicate TypedHeader(h: Header) {
    ValidUtf8(h.name) && TypedValue(h.value)
  }

  /** What can be sent: the lengths fit their fields too. */
  predicate FitsValue(value: HeaderValue) {
    TypedValue(value) && (value.Bytes? || value.Str? ==> |value.bytes| < 0x1_0000)
  }

  predicate FitsHeader(h: Header) {
    TypedHeader(h) && |h.name| < 0x100 && FitsValue(h.value)
  }

  /** Lengths are truncated to their fields. */
  function EncodeBody(value: HeaderValue): seq<byte>
    requires TypedValue(value)
  {
    match value
    case Bool(_) => []
    case Bytes(b) => ToBE(|b|, 2) + b
    case Str(b) => ToBE(|b|, 2) + b
    case Uuid(b) => b
    case _ => ToBE(Unsigned(value.v, Width(KindOf(value))), Width(KindOf(value)))
  }

  function EncodeHeader(h: Header): seq<byte>
    requires TypedHeader(h)
  {
    [(|h.name| % 0x100) as byte] + h.name + [KindOf(h.value)] + EncodeBody(h.value)
  }

  predicate FitsAll(hs: seq<Header>) {
    hs == [] || (FitsHeader(hs[0]) && FitsAll(hs[1..]))
  }

  function EncodeHeaders(hs: seq<Header>): seq<byte>
    requires FitsAll(hs)
  {
    if hs == [] then [] else EncodeHeader(hs[0]) + EncodeHeaders(hs[1..])
  }

  /** `push_header`: append one header to a buffer, field by field. */
  method PushHeader(buf: seq<byte>, h: Header) returns (out: seq<byte>)
    requires TypedHeader(h)
    ensures out == buf + EncodeHeader(h)
  {
    out := buf + [(|h.name| % 0x100) as byte];
    out := out + h.name;
    out := PushValue(out, h.value);
    Regroup(buf, [(|h.name| % 0x100) as byte], h.name, [KindOf(h.value)], EncodeBody(h.value));
  }

  method PushValue(buf: seq<byte>, value: HeaderValue) returns (out: seq<byte>)
    requires TypedValue(value)
    ensures out == buf + ([KindOf(value)] + EncodeBody(value))
  {
    match value {
      case Bool(true) => out := buf + [0];
      case Bool(false) => out := buf + [1];
      case Byte(v) => out := PushInteger(buf, 2, v, 1);
      case Short(v) => out := PushInteger(buf, 3, v, 2);
      case Int(v) => out := PushInteger(buf, 4, v, 4);
      case Long(v) => out := PushInteger(buf, 5, v, 8);
      case Bytes(b) => out := PushSized(buf, 6, b);
      case Str(b) => out := PushSized(buf, 7, b);
      case Timestamp(v) => out := PushInteger(buf, 8, v, 8);
      case Uuid(b) =>
        out := buf + [9];
        out := out + b;
    }
  }

  method PushInteger(buf: seq<byte>, kind: byte, v: int, w: nat) returns (out: seq<byte>)
    requires FitsSigned(v, w)
    ensures out == buf + ([kind] + ToBE(Unsigned(v, w), w))
  {
    out := buf + [kind];
    out := out + ToBE(Unsigned(v, w), w);
  }

  method PushSized(buf: seq<byte>, kind: byte, b: seq<byte>) returns (out: seq<byte>)
    ensures out == buf + ([kind] + (ToBE(|b|, 2) + b))
  {
    out := buf + [kind];
    out := out + ToBE(|b|, 2);
    out := out + b;
  }

  lemma Regroup(buf: seq<byte>, a: seq<byte>, b: seq<byte>, c: seq<byte>, d: seq<byte>)
    ensures buf + a + b + (c + d) == buf + (a + b + c + d)
  {
  }

  // ---- decoding --------------------------------------------------------------------------

  /** A value and the number of bytes it took. */
  datatype Value = Value(value: HeaderValue, n: nat)

  function IntegerOf(kind: byte, v: int): HeaderValue {
    match kind
    case 2 => Byte(v)
    case 3 => Short(v)
    case 4 => Int(v)
    case 5 => Long(v)
    case _ => Timestamp(v)
  }

  /** The value of the given kind at the start of `rest`, if it is all there and well-formed. */
  function ParseValue(kind: byte, rest: seq<byte>): (r: Option<Value>)
    ensures r.Some? ==> r.value.n <= |rest|
  {
    if kind == 0 then Some(Value(Bool(true), 0))
    else if kind == 1 then Some(Value(Bool(false), 0))
    else if Width(kind) > 0 then
      var w := Width(kind);
      if |rest| < w then None else Some(Value(IntegerOf(kind, Signed(FromBE(rest[..w]), w)), w))
    else if kind == 6 || kind == 7 then
      if |rest| < 2 then None else
      var len := FromBE(rest[..2]);
      if |rest| < 2 + len then None
      else if kind == 6 then Some(Value(Bytes(rest[2..2 + len]), 2 + len))
      else if ValidUtf8(rest[2..2 + len]) then Some(Value(Str(rest[2..2 + len]), 2 + len))
      else None
    else if kind == 9 then
      if |rest| < 16 then None else Some(Value(Uuid(rest[..16]), 16))
    else None
  }

  datatype Parsed = Parsed(header: Header, n: nat)

  function ParseHeader(data: seq<byte>): (r: Option<Parsed>)
    requires data != []
    ensures r.Some? ==> 2 <= r.value.n <= |data|
  {
    var len := data[0];
    if |data| < 1 + len + 1 then None else
    var name := data[1..1 + len];
    if !ValidUtf8(name) then None else
    match ParseValue(data[1 + len], data[2 + len..])
    case None => None
    case Some(v) => Some(Parsed(Header(name, v.value), 2 + len + v.n))
  }

  /** The headers, or the offset of the first malformed one. */
  function ParseAll(data: seq<byte>, offset: nat): Result<seq<Header>, nat>
    decreases |data|
  {
    if data == [] then Ok([]) else
    match ParseHeader(data)
    case None => Err(offset)
    case Some(p) =>
      match ParseAll(data[p.n..], offset + p.n)
      case Err(o) => Err(o)
      case Ok(hs) => Ok([p.header] + hs)
  }

  /** `parse_headers`: the loop over a shrinking slice. */
  method ParseHeaders(data0: seq<byte>) returns (r: Result<seq<Header>, nat>)
    ensures r == ParseAll(data0, 0)
  {
    hide ParseHeader;
    var data, offset: nat := data0, 0;
    var out: seq<Header> := [];
    PutNothing(ParseAll(data0, 0));
    while data != []
      invariant ParseAll(data0, 0) == Put(out, ParseAll(data, offset))
      decreases |data|
    {
      var p := ParseHeader(data);
      if p.None? {
        return Err(offset);
      }
      PutTwice(out, p.value.header, ParseAll(data[p.value.n..], offset + p.value.n));
      offset := offset + p.value.n;
      data := data[p.value.n..];
      out := out + [p.value.header];
    }
    assert out + [] == out;
    r := Ok(out);
  }

  /** Headers put in front of what was parsed. */
  ghost function Put(hs: seq<Header>, r: Result<seq<Header>, nat>): Result<seq<Header>, nat> {
    match r
    case Err(o) => Err(o)
    case Ok(rest) => Ok(hs + rest)
  }

  lemma PutNothing(r: Result<seq<Header>, nat>)
    ensures Put([], r) == r
  {
    assert r.Ok? ==> [] + r.value == r.value;
  }

  lemma PutTwice(hs: seq<Header>, h: Header, r: Result<seq<Header>, nat>)
    ensures Put(hs, Put([h], r)) == Put(hs + [h], r)
  {
    assert r.Ok? ==> hs + ([h] + r.value) == (hs + [h]) + r.value;
  }

  // ---- the two are inverse ---------------------------------------------------------------------

  lemma ParseEncodedValue(value: HeaderValue, rest: seq<byte>)
    requires FitsValue(value)
    ensures ParseValue(KindOf(value), EncodeBody(value) + rest) == Some(Value(value, |EncodeBody(value)|))
  {
    var body := EncodeBody(value);
    var data := body + rest;
    var w := Width(KindOf(value));
    match value {
      case Bool(_) =>
      case Bytes(b) => ParseEncodedBytes(b, rest);
      case Str(b) => ParseEncodedBytes(b, rest);
      case Uuid(b) => assert data[..16] == b;
      case _ =>
        assert data[..w] == body;
        SignedUnsigned(value.v, w);
        FromTo(Unsigned(value.v, w), w);
    }
  }

  lemma ParseEncodedBytes(b: seq<byte>, rest: seq<byte>)
    requires |b| < 0x1_0000
    ensures var data := ToBE(|b|, 2) + b + rest;
            FromBE(data[..2]) == |b| && data[2..2 + |b|] == b
  {
    hide ToBE;
    hide FromBE;
    var data := ToBE(|b|, 2) + b + rest;
    assert data[..2] == ToBE(|b|, 2);
    Pow256Values();
    FromTo(|b|, 2);
  }

  lemma ParseEncodedHeader(h: Header, rest: seq<byte>)
    requires FitsHeader(h)
    ensures ParseHeader(EncodeHeader(h) + rest) == Some(Parsed(h, |EncodeHeader(h)|))
  {
    hide EncodeBody;
    hide ParseValue;
    hide KindOf;
    hide FitsValue;
    hide TypedValue;
    var kind, body := KindOf(h.value), EncodeBody(h.value);
    assert (|h.name| % 0x100) as byte == |h.name| as byte;
    ParseEncodedValue(h.value, rest);
    Layout(|h.name| as byte, h.name, kind, body, rest);
  }

  /** Where the parts of an encoded header are. */
  lemma Layout(len: byte, name: seq<byte>, kind: byte, body: seq<byte>, rest: seq<byte>)
    requires len == |name|
    ensures var data := [len] + name + [kind] + body + rest;
            data[0] == len && data[1..1 + len] == name && data[1 + len] == kind && data[2 + len..] == body + rest
  {
  }

  /** Every header list that can be sent parses back from its encoding to itself. */
  lemma {:induction false} ParseEncoded(hs: seq<Header>, offset: nat)
    requires FitsAll(hs)
    ensures ParseAll(EncodeHeaders(hs), offset) == Ok(hs)
    decreases |hs|
  {
    hide EncodeHeader;
    hide ParseHeader;
    if hs != [] {
      var n := |EncodeHeader(hs[0])|;
      ParseEncoded(hs[1..], offset + n);
      ParseEncodedFirst(hs[0], EncodeHeaders(hs[1..]), hs[1..], offset);
      assert [hs[0]] + hs[1..] == hs;
    }
  }

  lemma ParseEncodedFirst(h: Header, rest: seq<byte>, hs: seq<Header>, offset: nat)
    requires FitsHeader(h) && ParseAll(rest, offset + |EncodeHeader(h)|) == Ok(hs)
    ensures ParseAll(EncodeHeader(h) + rest, offset) == Ok([h] + hs)
  {
    hide ParseHeader;
    hide EncodeHeader;
    ParseEncodedHeader(h, rest);
    ParseStep(EncodeHeader(h), rest, offset, h, hs);
  }

  lemma ParseStep(first: seq<byte>, rest: seq<byte>, offset: nat, h: Header, hs: seq<Header>)
    requires first != [] && ParseHeader(first + rest) == Some(Parsed(h, |first|))
    requires ParseAll(rest, offset + |first|) == Ok(hs)
    ensures ParseAll(first + rest, offset) == Ok([h] + hs)
  {
    hide ParseHeader;
    assert (first + rest)[|first|..] == rest;
  }

  lemma EncodeParsedValue(kind: byte, rest: seq<byte>)
    requires ParseValue(kind, rest).Some?
    ensures var v := ParseValue(kind, rest).value;
            FitsValue(v.value) && KindOf(v.value) == kind && EncodeBody(v.value) == rest[..v.n]
  {
    var v := ParseValue(kind, rest).value;
    var w := Width(kind);
    if w > 0 {
      ToFrom(rest[..w]);
      UnsignedSigned(FromBE(rest[..w]), w);
    } else if kind == 6 || kind == 7 {
      var len := FromBE(rest[..2]);
      ToFrom(rest[..2]);
      Pow256Values();
      assert rest[..2 + len] == rest[..2] + rest[2..2 + len];
    }
  }

  lemma EncodeParsedHeader(data: seq<byte>)
    requires data != [] && ParseHeader(data).Some?
    ensures var p := ParseHeader(data).value;
            FitsHeader(p.header) && EncodeHeader(p.header) == data[..p.n]
  {
    var p := ParseHeader(data).value;
    var len := data[0];
    EncodeParsedValue(data[1 + len], data[2 + len..]);
    assert data[..p.n] == [data[0]] + data[1..1 + len] + [data[1 + len]] + data[2 + len..][..p.n - 2 - len];
  }

  /** Every header block that parses is the encoding of what was parsed. */
  lemma {:induction false} EncodeParsed(data: seq<byte>, offset: nat)
    requires ParseAll(data, offset).Ok?
    ensures var hs := ParseAll(data, offset).value;
            FitsAll(hs) && EncodeHeaders(hs) == data
    decreases |data|
  {
    hide ParseHeader;
    hide EncodeHeader;
    if data != [] {
      var p := ParseHeader(data).value;
      EncodeParsed(data[p.n..], offset + p.n);
      EncodeParsedFirst(data, p, ParseAll(data[p.n..], offset + p.n).value);
    }
  }

  lemma EncodeParsedFirst(data: seq<byte>, p: Parsed, hs: seq<Header>)
    requires data != [] && ParseHeader(data) == Some(p)
    requires FitsAll(hs) && EncodeHeaders(hs) == data[p.n..]
    ensures FitsAll([p.header] + hs) && EncodeHeaders([p.header] + hs) == data
  {
    hide EncodeHeader;
    EncodeParsedHeader(data);
    EncodeCons(p.header, hs);
    assert data == data[..p.n] + data[p.n..];
  }

  lemma EncodeCons(h: Header, hs: seq<Header>)
    requires FitsHeader(h) && FitsAll(hs)
    ensures FitsAll([h] + hs) && EncodeHeaders([h] + hs) == EncodeHeader(h) + EncodeHeaders(hs)
  {
    hide EncodeHeader;
    assert ([h] + hs)[1..] == hs;
  }
}
