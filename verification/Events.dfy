/** From frames to events: payload decoding and the reassembly of tool calls. */
module Events {
  import opened Wrappers
  import opened Json
  import opened Kiro
  import opened BigEndian
  import Headers
  import EventStream
  import Text

  const MAX_TOOL_INPUT_BYTES := 16 * 1024 * 1024
  const U64_MAX := 0xFFFF_FFFF_FFFF_FFFF

  /** The libraries: JSON in and out, UTF-8, and the ids drawn one after the other. */
  datatype Env = Env(json: seq<byte> -> Option<Value>, show: Value -> string, text: seq<byte> -> string, draw: nat -> string)

  /** A drawn id is never empty. */
  ghost predicate Sound(env: Env) {
    forall k :: env.draw(k) != ""
  }

  datatype EventError =
    | BadJson(eventType: string)
    | ToolInputTooLarge(id: string, max: nat)

  /** The call in flight; with an empty id there is none. */
  datatype Tool = Tool(id: string, name: string, input: string)

  const IDLE := Tool("", "", "")

  /** The parser's fields, and how many ids were drawn. */
  datatype Parser = Parser(tool: Tool, drawn: nat)

  datatype Outcome = Outcome(parser: Parser, result: Result<seq<Event>, EventError>)

  // ---- fields -----------------------------------------------------------------------------

  function U64Field(v: Value, key: string): nat {
    match Get(v, key)
    case Some(Int(n)) => if 0 <= n <= U64_MAX then n else 0
    case _ => 0
  }

  /** A string field; an empty string counts as absent. */
  function StrField(v: Value, key: string): (r: Option<string>)
    ensures r.Some? ==> r.value != ""
  {
    match Get(v, key)
    case Some(Str(s)) => if s == "" then None else Some(s)
    case _ => None
  }

  function OrEmpty(s: Option<string>): string {
    if s.Some? then s.value else ""
  }

  // ---- tool calls ---------------------------------------------------------------------------

  /** What a fragment says about the input: nothing, more text, or all of it. */
  datatype Piece = Nothing | More(text: string) | All(text: string)

  /** A tool use event; an empty id or name is none. */
  datatype Fragment = Fragment(id: string, named: bool, name: string, piece: Piece, stop: bool)

  function ToolUseId(v: Value): string { OrEmpty(StrField(v, "toolUseId")) }
  predicate HasName(v: Value) { Get(v, "name").Some? }

  function NameOf(v: Value): (r: Option<string>)
    ensures r.Some? ==> r.value != ""
  {
    StrField(v, "name")
  }

  function InputOf(v: Value): Option<Value> { Get(v, "input") }
  predicate Stops(v: Value) { Get(v, "stop") == Some(Value.Bool(true)) }

  function PieceOf(env: Env, input: Option<Value>): Piece {
    match input
    case None => Nothing
    case Some(Str(s)) => More(s)
    case Some(Null) => Nothing
    case Some(other) => All(env.show(other))
  }

  function FragmentOf(env: Env, v: Value): Fragment {
    Fragment(ToolUseId(v), HasName(v), OrEmpty(NameOf(v)), PieceOf(env, InputOf(v)), Stops(v))
  }

  /** The fragment starts a call: another id, or no id at all but a name while nothing is in flight. */
  predicate Opens(current: string, f: Fragment) {
    (f.id != "" && f.id != current) || (f.id == "" && current == "" && f.named)
  }

  function Taken(t: Tool): Event {
    Event.ToolUse(t.id, t.name, t.input)
  }

  /** The input after one more piece, and whether it is over the cap. */
  function Grow(input: string, piece: Piece): string {
    match piece
    case Nothing => input
    case More(s) => input + s
    case All(s) => s
  }

  predicate OverCap(input: string, piece: Piece) {
    match piece
    case Nothing => false
    case More(s) => Text.Bytes(input) + Text.Bytes(s) > MAX_TOOL_INPUT_BYTES
    case All(s) => Text.Bytes(s) > MAX_TOOL_INPUT_BYTES
  }

  function Started(env: Env, p: Parser, f: Fragment): Parser {
    if !Opens(p.tool.id, f) then p
    else if f.id != "" then Parser(Tool(f.id, "", ""), p.drawn)
    else Parser(Tool(env.draw(p.drawn), "", ""), p.drawn + 1)
  }

  /** The call that another one supersedes. */
  function Superseded(p: Parser, f: Fragment): seq<Event> {
    if Opens(p.tool.id, f) && p.tool.id != "" then [Taken(p.tool)] else []
  }

  function Named(t: Tool, f: Fragment): Tool {
    t.(name := if f.name != "" then f.name else t.name)
  }

  /** `EventParser::tool_use`. */
  function OnFragment(env: Env, p: Parser, f: Fragment): Outcome {
    var before := Superseded(p, f);
    var s := Started(env, p, f);
    var named := Named(s.tool, f);
    if OverCap(named.input, f.piece) then
      Outcome(Parser(IDLE, s.drawn), Err(ToolInputTooLarge(named.id, MAX_TOOL_INPUT_BYTES)))
    else
      var grown := named.(input := Grow(named.input, f.piece));
      if f.stop then Outcome(Parser(IDLE, s.drawn), Ok(before + [Taken(grown)]))
      else Outcome(Parser(grown, s.drawn), Ok(before))
  }

  /** `EventParser::finish`. */
  function Flush(p: Parser): (r: (Parser, Option<Event>)) {
    if p.tool.id == "" then (p, None) else (p.(tool := IDLE), Some(Taken(p.tool)))
  }

  // ---- frames ------------------------------------------------------------------------------------

  datatype Kind = AssistantKind | ReasoningKind | ToolKind | MetadataKind | MeteringKind | InvalidKind | OtherKind

  /** The bytes of a string of ASCII characters. */
  function Ascii(s: string): seq<byte> {
    seq(|s|, i requires 0 <= i < |s| => s[i] as int % 128)
  }

  function KindOf(eventType: seq<byte>): Kind {
    if eventType == Ascii("assistantResponseEvent") then AssistantKind
    else if eventType == Ascii("reasoningContentEvent") then ReasoningKind
    else if eventType == Ascii("toolUseEvent") then ToolKind
    else if eventType == Ascii("metadataEvent") then MetadataKind
    else if eventType == Ascii("meteringEvent") then MeteringKind
    else if eventType == Ascii("invalidStateEvent") then InvalidKind
    else OtherKind
  }

  /** `header_str`: the first string header of that name. */
  function HeaderStr(hs: seq<Headers.Header>, name: seq<byte>): Option<seq<byte>> {
    if hs == [] then None
    else if hs[0].name == name && hs[0].value.Str? then Some(hs[0].value.bytes)
    else HeaderStr(hs[1..], name)
  }

  function AssistantOf(v: Value): Event {
    AssistantResponse(OrEmpty(StrField(v, "content")))
  }

  function ReasoningOf(v: Value): Event {
    ReasoningContent(OrEmpty(StrField(v, "text")), StrField(v, "signature"), StrField(v, "redactedContent"))
  }

  function MeteringOf(v: Value): Event {
    Metering(U64Field(v, "inputTokens"), U64Field(v, "outputTokens"))
  }

  function InvalidStateOf(v: Value): Event {
    InvalidState(OrEmpty(StrField(v, "reason")), OrEmpty(StrField(v, "message")))
  }

  function MetadataOf(v: Value): Event {
    var tu := match Get(v, "tokenUsage") case Some(u) => u case None => Null;
    Metadata(U64Field(tu, "uncachedInputTokens"), U64Field(tu, "outputTokens"), U64Field(tu, "totalTokens"),
             U64Field(tu, "cacheReadInputTokens"), U64Field(tu, "cacheWriteInputTokens"))
  }

  function ExceptionOf(env: Env, f: EventStream.Frame): Event {
    var v := match env.json(f.payload) case Some(v) => v case None => Null;
    var kind := match HeaderStr(f.headers, Ascii(":exception-type")) case Some(t) => env.text(t) case None => "";
    Exception(kind, OrEmpty(StrField(v, "message")))
  }

  /** An event whose payload was read. Payloads of tool, metadata and metering events that
      are no JSON are skipped, those of the other events are errors. */
  function OnEvent(env: Env, p: Parser, eventType: seq<byte>, payload: seq<byte>): Outcome {
    var kind := KindOf(eventType);
    if kind == OtherKind then Outcome(p, Ok([Ignored(env.text(eventType))])) else
    match env.json(payload)
    case None =>
      if kind == ToolKind || kind == MetadataKind || kind == MeteringKind then Outcome(p, Ok([]))
      else Outcome(p, Err(BadJson(env.text(eventType))))
    case Some(v) =>
      match kind
      case ToolKind => OnFragment(env, p, FragmentOf(env, v))
      case AssistantKind => Outcome(p, Ok([AssistantOf(v)]))
      case ReasoningKind => Outcome(p, Ok([ReasoningOf(v)]))
      case MetadataKind => Outcome(p, Ok([MetadataOf(v)]))
      case MeteringKind => Outcome(p, Ok([MeteringOf(v)]))
      case _ => Outcome(p, Ok([InvalidStateOf(v)]))
  }

  predicate IsException(f: EventStream.Frame) {
    HeaderStr(f.headers, Ascii(":message-type")) == Some(Ascii("exception"))
  }

  function EventType(f: EventStream.Frame): Option<seq<byte>> {
    HeaderStr(f.headers, Ascii(":event-type"))
  }

  /** `EventParser::parse`. */
  function Parse(env: Env, p: Parser, f: EventStream.Frame): Outcome {
    if IsException(f) then Outcome(p, Ok([ExceptionOf(env, f)])) else
      match EventType(f)
      case None => Outcome(p, Ok([]))
      case Some(eventType) => OnEvent(env, p, eventType, f.payload)
  }
}
