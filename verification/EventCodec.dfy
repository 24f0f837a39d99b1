/** What a frame says, read off the names on the wire: the headers, the event types and the
    JSON keys are written out here, and the parser is shown to mean exactly that. */
module EventCodec {
  import opened Wrappers
  import opened Json
  import opened Kiro
  import opened BigEndian
  import opened Events
  import opened Headers
  import opened EventStream
  import opened Unicode

  // ---- headers and keys ----------------------------------------------------------------------

  /** Header `k` is a string header of that name. */
  ghost predicate NamedAt(hs: seq<Header>, k: nat, name: string)
    requires k < |hs|
  {
    Spells(hs[k].name, name) && hs[k].value.Str?
  }

  /** The first string header of that name holds `b`. */
  ghost predicate First(hs: seq<Header>, name: string, b: seq<byte>) {
    exists k: nat | k < |hs| ::
      NamedAt(hs, k, name) && hs[k].value == HeaderValue.Str(b) && forall j: nat | j < k :: !NamedAt(hs, j, name)
  }

  ghost predicate NoHeader(hs: seq<Header>, name: string) {
    forall k: nat | k < |hs| :: !NamedAt(hs, k, name)
  }

  /** An object holds `x` under `key`; of several fields of one name the first counts. */
  ghost predicate Has(v: Json.Value, key: string, x: Json.Value) {
    v.Object? && exists k: nat | k < |v.fields| ::
      v.fields[k] == Field(key, x) && forall j: nat | j < k :: v.fields[j].key != key
  }

  /** What is under `key`, or null. */
  ghost predicate Under(v: Json.Value, key: string, x: Json.Value) {
    Has(v, key, x) || (x.Null? && forall y :: !Has(v, key, y))
  }

  /** The string under `key`, or nothing: an empty string is none. */
  ghost predicate Maybe(v: Json.Value, key: string, s: Option<string>) {
    match s
    case Some(t) => t != "" && Has(v, key, Json.Value.Str(t))
    case None => forall t | t != "" :: !Has(v, key, Json.Value.Str(t))
  }

  /** The same, with the empty string for nothing. */
  ghost predicate Words(v: Json.Value, key: string, s: string) {
    Maybe(v, key, if s == "" then None else Some(s))
  }

  /** The unsigned 64-bit integer under `key`; anything else counts as 0. */
  ghost predicate Count(v: Json.Value, key: string, n: int) {
    if n == 0 then forall m: int | 1 <= m <= 18446744073709551615 :: !Has(v, key, Json.Value.Int(m))
    else 1 <= n <= 18446744073709551615 && Has(v, key, Json.Value.Int(n))
  }

  // ---- events --------------------------------------------------------------------------------------

  /** The event that a payload of the given type carries. */
  ghost predicate Carries(eventType: string, v: Json.Value, ev: Event) {
    match ev
    case AssistantResponse(content) => eventType == "assistantResponseEvent" && Words(v, "content", content)
    case ReasoningContent(text, signature, redacted) =>
      eventType == "reasoningContentEvent"
      && Words(v, "text", text) && Maybe(v, "signature", signature) && Maybe(v, "redactedContent", redacted)
    case Metadata(uncached, output, total, read, write) =>
      eventType == "metadataEvent" && CountsAre(v, uncached, output, total, read, write)
    case Metering(input, output) =>
      eventType == "meteringEvent" && Count(v, "inputTokens", input) && Count(v, "outputTokens", output)
    case InvalidState(reason, message) =>
      eventType == "invalidStateEvent" && Words(v, "reason", reason) && Words(v, "message", message)
    case _ => false
  }

  /** The five counts under `tokenUsage`; where that is missing they are all 0. */
  ghost predicate CountsAre(v: Json.Value, uncached: int, output: int, total: int, read: int, write: int) {
    exists u :: Under(v, "tokenUsage", u) && UsageIs(u, uncached, output, total, read, write)
  }

  ghost predicate UsageIs(u: Json.Value, uncached: int, output: int, total: int, read: int, write: int) {
    && Count(u, "uncachedInputTokens", uncached)
    && Count(u, "outputTokens", output)
    && Count(u, "totalTokens", total)
    && Count(u, "cacheReadInputTokens", read)
    && Count(u, "cacheWriteInputTokens", write)
  }

  /** What a fragment says about the input. */
  ghost predicate IsPiece(env: Env, v: Json.Value, piece: Piece) {
    match piece
    case More(s) => Has(v, "input", Json.Value.Str(s))
    case Nothing => Has(v, "input", Json.Value.Null) || forall x :: !Has(v, "input", x)
    case All(s) => exists x :: Has(v, "input", x) && !x.Str? && !x.Null? && s == env.show(x)
  }

  /** What a tool use payload says: the input is text to append, nothing, or a value shown whole. */
  ghost predicate IsFragment(env: Env, v: Json.Value, f: Fragment) {
    && Words(v, "toolUseId", f.id)
    && (f.named <==> exists x :: Has(v, "name", x))
    && Words(v, "name", f.name)
    && (f.stop <==> Has(v, "stop", Json.Value.Bool(true)))
    && IsPiece(env, v, f.piece)
  }

  /** Exceptions: the type from the header, the message from a payload that need not be JSON. */
  ghost predicate IsExceptionEvent(env: Env, f: Frame, ev: Event) {
    && ev.Exception?
    && (forall t :: First(f.headers, ":exception-type", t) ==> ev.exceptionType == env.text(t))
    && (NoHeader(f.headers, ":exception-type") ==> ev.exceptionType == "")
    && Words(if env.json(f.payload).Some? then env.json(f.payload).value else Json.Value.Null, "message", ev.message)
  }

  ghost predicate Excepts(f: Frame) {
    exists b :: First(f.headers, ":message-type", b) && Spells(b, "exception")
  }

  /** The frame is an event of the type that `b` names. */
  ghost predicate HasType(f: Frame, b: seq<byte>) {
    !Excepts(f) && First(f.headers, ":event-type", b)
  }

  /** An event type that is not one of the six. */
  ghost predicate Unknown(b: seq<byte>) {
    && !Spells(b, "assistantResponseEvent") && !Spells(b, "reasoningContentEvent") && !Spells(b, "toolUseEvent")
    && !Spells(b, "metadataEvent") && !Spells(b, "meteringEvent") && !Spells(b, "invalidStateEvent")
  }

  // ---- what the functions of the parser find -------------------------------------------------------

  lemma SpellsAscii(b: seq<byte>, s: string)
    requires forall i :: 0 <= i < |s| ==> s[i] as int < 128
    ensures b == Ascii(s) <==> Spells(b, s)
  {
    assert Spells(b, s) ==> forall i :: 0 <= i < |b| ==> b[i] == Ascii(s)[i];
  }

  lemma {:induction false} HeaderFound(hs: seq<Header>, name: string, n: seq<byte>)
    requires forall b: seq<byte> :: b == n <==> Spells(b, name)
    ensures forall b :: HeaderStr(hs, n) == Some(b) <==> First(hs, name, b)
    ensures HeaderStr(hs, n) == None <==> NoHeader(hs, name)
  {
    if hs != [] {
      HeaderFound(hs[1..], name, n);
      forall b ensures HeaderStr(hs, n) == Some(b) <==> First(hs, name, b) {
        if NamedAt(hs, 0, name) {
          assert First(hs, name, b) ==> hs[0].value == HeaderValue.Str(b);
        } else {
          FirstOfRest(hs, name, b);
        }
      }
      assert NoHeader(hs, name) <==> !NamedAt(hs, 0, name) && NoHeader(hs[1..], name) by {
        assert forall k: nat | k < |hs[1..]| :: NamedAt(hs[1..], k, name) == NamedAt(hs, k + 1, name);
        assert forall k: nat | 0 < k < |hs| :: NamedAt(hs, k, name) == NamedAt(hs[1..], k - 1, name);
      }
    }
  }

  lemma FirstOfRest(hs: seq<Header>, name: string, b: seq<byte>)
    requires hs != [] && !NamedAt(hs, 0, name)
    ensures First(hs, name, b) <==> First(hs[1..], name, b)
  {
    var rest := hs[1..];
    assert forall k: nat | k < |rest| :: NamedAt(rest, k, name) == NamedAt(hs, k + 1, name);
    if First(hs, name, b) {
      var k: nat :| k < |hs| && NamedAt(hs, k, name) && hs[k].value == HeaderValue.Str(b)
                    && forall j: nat | j < k :: !NamedAt(hs, j, name);
      assert NamedAt(rest, k - 1, name) && rest[k - 1].value == HeaderValue.Str(b);
    }
    if First(rest, name, b) {
      var k: nat :| k < |rest| && NamedAt(rest, k, name) && rest[k].value == HeaderValue.Str(b)
                    && forall j: nat | j < k :: !NamedAt(rest, j, name);
      assert forall j: nat | j < k + 1 :: !NamedAt(hs, j, name) by {
        assert forall j: nat | 0 < j < k + 1 :: NamedAt(hs, j, name) == NamedAt(rest, j - 1, name);
      }
      assert NamedAt(hs, k + 1, name) && hs[k + 1].value == HeaderValue.Str(b);
    }
  }

  lemma {:induction false} LookupFound(fields: seq<Field>, key: string, x: Json.Value)
    ensures Lookup(fields, key) == Some(x) <==> Has(Object(fields), key, x)
  {
    if fields != [] {
      LookupFound(fields[1..], key, x);
      if fields[0].key == key {
        assert Has(Object(fields), key, x) ==> fields[0] == Field(key, x);
      } else {
        FieldOfRest(fields, key, x);
      }
    }
  }

  lemma FieldOfRest(fields: seq<Field>, key: string, x: Json.Value)
    requires fields != [] && fields[0].key != key
    ensures Has(Object(fields), key, x) <==> Has(Object(fields[1..]), key, x)
  {
    var rest := fields[1..];
    if Has(Object(fields), key, x) {
      var k: nat :| k < |fields| && fields[k] == Field(key, x) && forall j: nat | j < k :: fields[j].key != key;
      assert rest[k - 1] == Field(key, x) && forall j: nat | j < k - 1 :: rest[j] == fields[j + 1];
    }
    if Has(Object(rest), key, x) {
      var k: nat :| k < |rest| && rest[k] == Field(key, x) && forall j: nat | j < k :: rest[j].key != key;
      assert forall j: nat | 0 < j < k + 1 :: fields[j] == rest[j - 1];
      assert fields[k + 1] == Field(key, x);
    }
  }

  /** `Get` finds the first field of that name. */
  lemma GetFinds(v: Json.Value, key: string)
    ensures forall x :: Get(v, key) == Some(x) <==> Has(v, key, x)
  {
    if v.Object? {
      forall x ensures Get(v, key) == Some(x) <==> Has(v, key, x) {
        LookupFound(v.fields, key, x);
      }
    }
  }

  lemma WordsFound(v: Json.Value, key: string)
    ensures forall s :: StrField(v, key) == s <==> Maybe(v, key, s)
    ensures forall s :: OrEmpty(StrField(v, key)) == s <==> Words(v, key, s)
  {
    hide Has;
    hide Get;
    GetFinds(v, key);
    forall s ensures StrField(v, key) == s <==> Maybe(v, key, s) {
      if s.Some? {
        assert Get(v, key) == Some(Json.Value.Str(s.value)) <==> Has(v, key, Json.Value.Str(s.value));
      } else {
        assert forall t :: Get(v, key) == Some(Json.Value.Str(t)) <==> Has(v, key, Json.Value.Str(t));
      }
    }
  }

  lemma CountFound(v: Json.Value, key: string)
    ensures forall n: int :: U64Field(v, key) == n <==> Count(v, key, n)
  {
    hide Has;
    hide Get;
    GetFinds(v, key);
    assert forall m :: Get(v, key) == Some(Json.Value.Int(m)) <==> Has(v, key, Json.Value.Int(m));
  }

  lemma UnderFound(v: Json.Value, key: string)
    ensures var u := if Get(v, key).Some? then Get(v, key).value else Null;
            forall x :: u == x <==> Under(v, key, x)
  {
    hide Has;
    hide Get;
    GetFinds(v, key);
    var g := Get(v, key);
    if g.Some? {
      assert Has(v, key, g.value);
    }
  }

  // ---- the six event types -----------------------------------------------------------------------------

  lemma KindSpells(b: seq<byte>)
    ensures Events.KindOf(b) == AssistantKind <==> Spells(b, "assistantResponseEvent")
    ensures Events.KindOf(b) == ReasoningKind <==> Spells(b, "reasoningContentEvent")
    ensures Events.KindOf(b) == ToolKind <==> Spells(b, "toolUseEvent")
    ensures Events.KindOf(b) == MetadataKind <==> Spells(b, "metadataEvent")
    ensures Events.KindOf(b) == MeteringKind <==> Spells(b, "meteringEvent")
    ensures Events.KindOf(b) == InvalidKind <==> Spells(b, "invalidStateEvent")
    ensures Events.KindOf(b) == OtherKind <==> Unknown(b)
  {
    hide Ascii;
    SpellsAscii(b, "assistantResponseEvent");
    SpellsAscii(b, "reasoningContentEvent");
    SpellsAscii(b, "toolUseEvent");
    SpellsAscii(b, "metadataEvent");
    SpellsAscii(b, "meteringEvent");
    SpellsAscii(b, "invalidStateEvent");
    assert "metadataEvent"[3] != "meteringEvent"[3];
  }

  lemma TypeFound(f: Frame, b: seq<byte>)
    ensures IsException(f) <==> Excepts(f)
    ensures HasType(f, b) <==> !IsException(f) && EventType(f) == Some(b)
  {
    hide Ascii;
    hide HeaderStr;
    hide First;
    hide Spells;
    HeaderNamed(f.headers, ":message-type");
    HeaderNamed(f.headers, ":event-type");
    forall x ensures x == Ascii("exception") <==> Spells(x, "exception") {
      SpellsAscii(x, "exception");
    }
  }

  lemma HeaderNamed(hs: seq<Header>, name: string)
    requires forall i :: 0 <= i < |name| ==> name[i] as int < 128
    ensures forall b :: HeaderStr(hs, Ascii(name)) == Some(b) <==> First(hs, name, b)
    ensures HeaderStr(hs, Ascii(name)) == None <==> NoHeader(hs, name)
  {
    hide Ascii;
    hide Spells;
    forall b ensures b == Ascii(name) <==> Spells(b, name) {
      SpellsAscii(b, name);
    }
    HeaderFound(hs, name, Ascii(name));
  }

  lemma AssistantCarries(v: Json.Value, ev: Event)
    ensures ev == AssistantOf(v) <==> Carries("assistantResponseEvent", v, ev)
  {
    hide StrField;
    hide OrEmpty;
    hide Words;
    WordsFound(v, "content");
  }

  lemma ReasoningCarries(v: Json.Value, ev: Event)
    ensures ev == ReasoningOf(v) <==> Carries("reasoningContentEvent", v, ev)
  {
    hide StrField;
    hide OrEmpty;
    hide Words;
    hide Maybe;
    WordsFound(v, "text");
    WordsFound(v, "signature");
    WordsFound(v, "redactedContent");
  }

  lemma InvalidCarries(v: Json.Value, ev: Event)
    ensures ev == InvalidStateOf(v) <==> Carries("invalidStateEvent", v, ev)
  {
    hide StrField;
    hide OrEmpty;
    hide Words;
    WordsFound(v, "reason");
    WordsFound(v, "message");
  }

  lemma MeteringCarries(v: Json.Value, ev: Event)
    ensures ev == MeteringOf(v) <==> Carries("meteringEvent", v, ev)
  {
    hide U64Field;
    hide Count;
    CountFound(v, "inputTokens");
    CountFound(v, "outputTokens");
  }

  lemma MetadataCarries(v: Json.Value, ev: Event)
    ensures ev == MetadataOf(v) <==> Carries("metadataEvent", v, ev)
  {
    hide U64Field;
    hide Count;
    hide Get;
    hide Under;
    UnderFound(v, "tokenUsage");
    var u := if Get(v, "tokenUsage").Some? then Get(v, "tokenUsage").value else Null;
    assert forall x :: Under(v, "tokenUsage", x) ==> x == u;
    CountFound(u, "uncachedInputTokens");
    CountFound(u, "outputTokens");
    CountFound(u, "totalTokens");
    CountFound(u, "cacheReadInputTokens");
    CountFound(u, "cacheWriteInputTokens");
    if ev.Metadata? {
      assert CountsAre(v, ev.uncachedInput, ev.output, ev.total, ev.cacheRead, ev.cacheWrite)
        <==> UsageIs(u, ev.uncachedInput, ev.output, ev.total, ev.cacheRead, ev.cacheWrite);
    }
  }

  // ---- the parser means just that -----------------------------------------------------------------

  /** An event frame whose payload is JSON gives exactly the event it carries. */
  lemma ParseCarries(env: Env, p: Parser, f: Frame, b: seq<byte>, eventType: string, v: Json.Value, ev: Event)
    requires HasType(f, b) && Spells(b, eventType) && env.json(f.payload) == Some(v)
    requires !Unknown(b) && eventType != "toolUseEvent"
    ensures Events.Parse(env, p, f) == Outcome(p, Ok([ev])) <==> Carries(eventType, v, ev)
  {
    hide Events.KindOf;
    hide Carries;
    hide HasType;
    hide AssistantOf;
    hide ReasoningOf;
    hide MetadataOf;
    hide MeteringOf;
    hide InvalidStateOf;
    hide IsException;
    hide EventType;
    TypeFound(f, b);
    KindSpells(b);
    SpelledTypes(b, eventType);
    AssistantCarries(v, ev);
    ReasoningCarries(v, ev);
    MetadataCarries(v, ev);
    MeteringCarries(v, ev);
    InvalidCarries(v, ev);
  }

  lemma SpelledTypes(b: seq<byte>, eventType: string)
    requires Spells(b, eventType)
    ensures Spells(b, "assistantResponseEvent") <==> eventType == "assistantResponseEvent"
    ensures Spells(b, "reasoningContentEvent") <==> eventType == "reasoningContentEvent"
    ensures Spells(b, "toolUseEvent") <==> eventType == "toolUseEvent"
    ensures Spells(b, "metadataEvent") <==> eventType == "metadataEvent"
    ensures Spells(b, "meteringEvent") <==> eventType == "meteringEvent"
    ensures Spells(b, "invalidStateEvent") <==> eventType == "invalidStateEvent"
  {
    SpelledOnce(b, eventType, "assistantResponseEvent");
    SpelledOnce(b, eventType, "reasoningContentEvent");
    SpelledOnce(b, eventType, "toolUseEvent");
    SpelledOnce(b, eventType, "metadataEvent");
    SpelledOnce(b, eventType, "meteringEvent");
    SpelledOnce(b, eventType, "invalidStateEvent");
  }

  lemma SpelledOnce(b: seq<byte>, s: string, t: string)
    requires Spells(b, s)
    ensures Spells(b, t) <==> s == t
  {
  }

  /** A tool use frame is one more fragment of a call, and only the fragment it says. */
  lemma ParseFragment(env: Env, p: Parser, f: Frame, b: seq<byte>, v: Json.Value, fragment: Fragment)
    requires HasType(f, b) && Spells(b, "toolUseEvent") && env.json(f.payload) == Some(v)
    requires IsFragment(env, v, fragment)
    ensures Events.Parse(env, p, f) == OnFragment(env, p, fragment)
  {
    hide Events.KindOf;
    hide HasType;
    hide FragmentOf;
    hide IsFragment;
    hide IsException;
    hide EventType;
    hide OnFragment;
    TypeFound(f, b);
    KindSpells(b);
    FragmentFound(env, v, fragment);
  }

  lemma FragmentFound(env: Env, v: Json.Value, f: Fragment)
    ensures IsFragment(env, v, f) <==> f == FragmentOf(env, v)
  {
    hide Has;
    hide Get;
    hide StrField;
    hide OrEmpty;
    hide Words;
    WordsFound(v, "toolUseId");
    WordsFound(v, "name");
    GetFinds(v, "name");
    GetFinds(v, "stop");
    InputFound(env, v, f.piece);
    if Get(v, "name").Some? {
      assert Has(v, "name", Get(v, "name").value);
    }
  }

  lemma InputFound(env: Env, v: Json.Value, piece: Piece)
    ensures IsPiece(env, v, piece) <==> piece == PieceOf(env, InputOf(v))
  {
    hide Has;
    hide Get;
    GetFinds(v, "input");
    var g := Get(v, "input");
    if g.Some? {
      assert Has(v, "input", g.value);
      assert forall x :: Has(v, "input", x) ==> x == g.value;
    }
  }

  /** An exception frame gives one exception whatever its payload is. */
  lemma ParseException(env: Env, p: Parser, f: Frame, ev: Event)
    requires Excepts(f)
    ensures Events.Parse(env, p, f) == Outcome(p, Ok([ev])) <==> IsExceptionEvent(env, f, ev)
  {
    hide Excepts;
    hide HasType;
    hide IsException;
    hide ExceptionOf;
    hide IsExceptionEvent;
    TypeFound(f, []);
    ExceptionFound(env, f, ev);
  }

  lemma ExceptionFound(env: Env, f: Frame, ev: Event)
    ensures ev == ExceptionOf(env, f) <==> IsExceptionEvent(env, f, ev)
  {
    hide Ascii;
    hide HeaderStr;
    hide First;
    hide NoHeader;
    hide Words;
    hide StrField;
    hide OrEmpty;
    HeaderNamed(f.headers, ":exception-type");
    WordsFound(if env.json(f.payload).Some? then env.json(f.payload).value else Json.Value.Null, "message");
  }

  /** What the other frames give: nothing without a type, the type itself when it is not known,
      and for a payload that is no JSON an error, except that three types are skipped. */
  lemma ParseOthers(env: Env, p: Parser, f: Frame, b: seq<byte>)
    requires !Excepts(f)
    ensures NoHeader(f.headers, ":event-type") ==> Events.Parse(env, p, f) == Outcome(p, Ok([]))
    ensures HasType(f, b) && Unknown(b) ==> Events.Parse(env, p, f) == Outcome(p, Ok([Ignored(env.text(b))]))
    ensures HasType(f, b) && !Unknown(b) && env.json(f.payload) == None ==>
              Events.Parse(env, p, f)
              == if Spells(b, "toolUseEvent") || Spells(b, "metadataEvent") || Spells(b, "meteringEvent")
                 then Outcome(p, Ok([]))
                 else Outcome(p, Err(BadJson(env.text(b))))
  {
    hide Events.KindOf;
    hide HasType;
    hide Spells;
    hide Unknown;
    hide IsException;
    hide HeaderStr;
    hide NoHeader;
    hide First;
    TypeFound(f, b);
    KindSpells(b);
    HeaderNamed(f.headers, ":event-type");
  }
}
