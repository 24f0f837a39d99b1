/** Event and exception frames as they are made for sending, and what the parser makes of them. */
module EventFrames {
  import opened Wrappers
  import opened Kiro
  import opened BigEndian
  import opened Events
  import opened Headers
  import opened EventStream
  import opened EventCodec
  import opened Unicode
  import Json
  import Utf8

  function TextHeader(name: string, value: seq<byte>): Header {
    Header(Ascii(name), HeaderValue.Str(value))
  }

  /** The three headers of an event or an exception, whose type is `value`. */
  function HeadersFor(messageType: string, typeName: string, value: seq<byte>): seq<Header> {
    [TextHeader(":message-type", Ascii(messageType)),
     TextHeader(typeName, value),
     TextHeader(":content-type", Ascii("application/json"))]
  }

  function EventFrame(eventType: seq<byte>, payload: seq<byte>): Frame {
    Frame(HeadersFor("event", ":event-type", eventType), payload)
  }

  function ExceptionFrame(exceptionType: seq<byte>, payload: seq<byte>): Frame {
    Frame(HeadersFor("exception", ":exception-type", exceptionType), payload)
  }

  lemma {:induction false} AsciiValid(b: seq<byte>)
    requires forall i :: 0 <= i < |b| ==> b[i] < 128
    ensures Utf8.ValidUtf8(b)
    decreases |b|
  {
    if b != [] {
      AsciiValid(b[1..]);
    }
  }

  lemma AsciiText(s: string)
    ensures |Ascii(s)| == |s| && Utf8.ValidUtf8(Ascii(s))
  {
    AsciiValid(Ascii(s));
  }

  lemma TextHeaderFits(name: string, value: seq<byte>)
    requires |name| < 0x100 && Utf8.ValidUtf8(value)
    ensures TypedHeader(TextHeader(name, value))
    ensures |value| < 0x1_0000 ==> FitsHeader(TextHeader(name, value))
    ensures |EncodeHeader(TextHeader(name, value))| == 4 + |name| + |value|
  {
    AsciiText(name);
  }

  lemma Three(a: Header, b: Header, c: Header)
    requires FitsHeader(a) && FitsHeader(b) && FitsHeader(c)
    ensures FitsAll([a, b, c]) && EncodeHeaders([a, b, c]) == EncodeHeader(a) + EncodeHeader(b) + EncodeHeader(c)
  {
    hide EncodeHeader;
    hide FitsHeader;
    EncodeCons(c, []);
    EncodeCons(b, [c]);
    EncodeCons(a, [b, c]);
    assert [c] + [] == [c] && [b] + [c] == [b, c] && [a] + [b, c] == [a, b, c];
  }

  /** A frame with one more string header between the two that all have. */
  predicate Sendable(messageType: string, typeName: string, value: seq<byte>, payload: seq<byte>) {
    && |value| <= 65535
    && 54 + |messageType| + |typeName| + |value| <= 131072
    && 70 + |messageType| + |typeName| + |value| + |payload| <= 4194304
  }

  lemma ThreeFit(names: (string, string, string), values: (seq<byte>, seq<byte>, seq<byte>))
    requires |names.0| < 0x100 && |names.1| < 0x100 && |names.2| < 0x100
    requires Utf8.ValidUtf8(values.0) && Utf8.ValidUtf8(values.1) && Utf8.ValidUtf8(values.2)
    requires |values.0| < 0x1_0000 && |values.1| < 0x1_0000 && |values.2| < 0x1_0000
    ensures var hs := [TextHeader(names.0, values.0), TextHeader(names.1, values.1), TextHeader(names.2, values.2)];
            && FitsAll(hs)
            && |EncodeHeaders(hs)| == 12 + |names.0| + |names.1| + |names.2| + |values.0| + |values.1| + |values.2|
  {
    hide EncodeHeader;
    hide FitsHeader;
    hide TextHeader;
    TextHeaderFits(names.0, values.0);
    TextHeaderFits(names.1, values.1);
    TextHeaderFits(names.2, values.2);
    Three(TextHeader(names.0, values.0), TextHeader(names.1, values.1), TextHeader(names.2, values.2));
  }

  lemma HeadersFit(messageType: string, typeName: string, value: seq<byte>)
    requires |messageType| < 100 && |typeName| < 100 && |value| < 0x1_0000 && Utf8.ValidUtf8(value)
    ensures var hs := HeadersFor(messageType, typeName, value);
            FitsAll(hs) && |EncodeHeaders(hs)| == 54 + |messageType| + |typeName| + |value|
  {
    hide EncodeHeaders;
    hide FitsAll;
    hide Ascii;
    AsciiText(messageType);
    AsciiText("application/json");
    ThreeFit((":message-type", typeName, ":content-type"), (Ascii(messageType), value, Ascii("application/json")));
  }

  /** `encode_event_frame`. */
  method EncodeEventFrame(crc: Crc, eventType: seq<byte>, payload: seq<byte>) returns (frame: seq<byte>)
    requires Utf8.ValidUtf8(eventType)
    ensures Sendable("event", ":event-type", eventType, payload) ==>
              FitsFrame(EventFrame(eventType, payload)) && frame == Encode(crc, EventFrame(eventType, payload))
  {
    frame := EncodeTyped(crc, "event", ":event-type", eventType, payload);
  }

  /** `encode_exception_frame`. */
  method EncodeExceptionFrame(crc: Crc, exceptionType: seq<byte>, payload: seq<byte>) returns (frame: seq<byte>)
    requires Utf8.ValidUtf8(exceptionType)
    ensures Sendable("exception", ":exception-type", exceptionType, payload) ==>
              FitsFrame(ExceptionFrame(exceptionType, payload)) && frame == Encode(crc, ExceptionFrame(exceptionType, payload))
  {
    frame := EncodeTyped(crc, "exception", ":exception-type", exceptionType, payload);
  }

  /** The three headers are pushed one after the other. */
  method EncodeTyped(crc: Crc, messageType: string, typeName: string, value: seq<byte>, payload: seq<byte>) returns (frame: seq<byte>)
    requires |messageType| < 100 && |typeName| < 100 && Utf8.ValidUtf8(value)
    ensures Sendable(messageType, typeName, value, payload) ==>
              var f := Frame(HeadersFor(messageType, typeName, value), payload);
              FitsFrame(f) && frame == Encode(crc, f)
  {
    hide Ascii;
    hide TextHeader;
    hide FitsHeader;
    hide EncodeHeader;
    hide EncodeHeaders;
    hide FitsAll;
    hide EncodeFrame;
    AsciiText(messageType);
    AsciiText("application/json");
    TextHeaderFits(":message-type", Ascii(messageType));
    TextHeaderFits(typeName, value);
    TextHeaderFits(":content-type", Ascii("application/json"));
    var headers := PushThree(TextHeader(":message-type", Ascii(messageType)), TextHeader(typeName, value),
                             TextHeader(":content-type", Ascii("application/json")));
    frame := BuildFrame(crc, headers, payload);
    if Sendable(messageType, typeName, value, payload) {
      HeadersFit(messageType, typeName, value);
    }
  }

  method PushThree(a: Header, b: Header, c: Header) returns (headers: seq<byte>)
    requires TypedHeader(a) && TypedHeader(b) && TypedHeader(c)
    ensures FitsHeader(a) && FitsHeader(b) && FitsHeader(c) ==>
              FitsAll([a, b, c]) && headers == EncodeHeaders([a, b, c])
  {
    hide EncodeHeader;
    hide FitsHeader;
    headers := PushHeader([], a);
    headers := PushHeader(headers, b);
    headers := PushHeader(headers, c);
    if FitsHeader(a) && FitsHeader(b) && FitsHeader(c) {
      Three(a, b, c);
    }
  }

  // ---- what is sent is what is read ---------------------------------------------------------------------

  lemma AsciiSpells(s: string)
    requires forall i :: 0 <= i < |s| ==> s[i] as int < 128
    ensures Spells(Ascii(s), s)
  {
    SpellsAscii(Ascii(s), s);
  }

  lemma TypedHeaders(f: Frame, messageType: string, typeName: string, value: seq<byte>, payload: seq<byte>)
    requires f == Frame(HeadersFor(messageType, typeName, value), payload)
    requires forall i :: 0 <= i < |messageType| ==> messageType[i] as int < 128
    requires forall i :: 0 <= i < |typeName| ==> typeName[i] as int < 128
    requires |typeName| != 13
    ensures First(f.headers, ":message-type", Ascii(messageType)) && First(f.headers, typeName, value)
    ensures forall b :: First(f.headers, ":message-type", b) ==> b == Ascii(messageType)
    ensures forall b :: First(f.headers, typeName, b) ==> b == value
  {
    hide Ascii;
    AsciiSpells(":message-type");
    AsciiSpells(typeName);
    assert |":message-type"| == 13;
    assert NamedAt(f.headers, 0, ":message-type") && NamedAt(f.headers, 1, typeName) && !NamedAt(f.headers, 0, typeName);
  }

  /** Whatever event a payload carries, the bytes of its frame are read back as that event. */
  lemma EventArrives(crc: Crc, env: Env, p: Parser, b: seq<byte>, eventType: string, payload: seq<byte>,
                     v: Json.Value, ev: Event, rest: seq<byte>)
    requires Utf8.ValidUtf8(b) && Spells(b, eventType) && Sendable("event", ":event-type", b, payload)
    requires env.json(payload) == Some(v) && Carries(eventType, v, ev)
    ensures FitsFrame(EventFrame(b, payload))
    ensures var bytes := Encode(crc, EventFrame(b, payload));
            var d := Decode(crc, bytes + rest);
            d.Got? && d.n == |bytes| && Events.Parse(env, p, d.frame) == Outcome(p, Ok([ev]))
  {
    hide Carries;
    hide Events.Parse;
    hide Decode;
    hide Encode;
    hide Spells;
    var f := EventFrame(b, payload);
    HeadersFit("event", ":event-type", b);
    DecodeEncode(crc, f, rest);
    EventTyped(b, payload);
    CarriesKnown(b, eventType, v, ev);
    ParseCarries(env, p, f, b, eventType, v, ev);
  }

  lemma CarriesKnown(b: seq<byte>, eventType: string, v: Json.Value, ev: Event)
    requires Spells(b, eventType) && Carries(eventType, v, ev)
    ensures !Unknown(b) && eventType != "toolUseEvent"
  {
    hide Spells;
    hide Words;
    hide Maybe;
    hide CountsAre;
    hide Count;
    assert |"toolUseEvent"| == 12 && |"metadataEvent"| == 13 && |"meteringEvent"| == 13;
  }

  lemma EventTyped(b: seq<byte>, payload: seq<byte>)
    ensures HasType(EventFrame(b, payload), b)
  {
    hide Ascii;
    hide First;
    TypedHeaders(EventFrame(b, payload), "event", ":event-type", b, payload);
    AsciiSpells("event");
  }

  lemma ExceptionTyped(t: seq<byte>, payload: seq<byte>)
    ensures Excepts(ExceptionFrame(t, payload))
    ensures First(ExceptionFrame(t, payload).headers, ":exception-type", t)
  {
    hide Ascii;
    hide First;
    TypedHeaders(ExceptionFrame(t, payload), "exception", ":exception-type", t, payload);
    AsciiSpells("exception");
  }

  /** An exception frame is read back with its type and the message of its payload. */
  lemma ExceptionArrives(crc: Crc, env: Env, p: Parser, t: seq<byte>, payload: seq<byte>, message: string, rest: seq<byte>)
    requires Utf8.ValidUtf8(t) && Sendable("exception", ":exception-type", t, payload)
    requires Words(if env.json(payload).Some? then env.json(payload).value else Json.Value.Null, "message", message)
    ensures FitsFrame(ExceptionFrame(t, payload))
    ensures var bytes := Encode(crc, ExceptionFrame(t, payload));
            var d := Decode(crc, bytes + rest);
            && d.Got? && d.n == |bytes|
            && Events.Parse(env, p, d.frame) == Outcome(p, Ok([Exception(env.text(t), message)]))
  {
    hide Events.Parse;
    hide Decode;
    hide Encode;
    hide Words;
    hide First;
    hide Excepts;
    var f := ExceptionFrame(t, payload);
    HeadersFit("exception", ":exception-type", t);
    DecodeEncode(crc, f, rest);
    ExceptionTyped(t, payload);
    FirstOnce(f.headers, ":exception-type", t);
    ParseException(env, p, f, Exception(env.text(t), message));
  }

  lemma FirstOnce(hs: seq<Header>, name: string, b: seq<byte>)
    requires First(hs, name, b)
    ensures forall x :: First(hs, name, x) ==> x == b
    ensures !NoHeader(hs, name)
  {
  }
}
