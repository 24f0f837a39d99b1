/** JSON values as `serde_json` keeps them: object fields stay in insertion order. */
module Json {
  import opened Wrappers

  datatype Value =
    | Null
    | Bool(b: bool)
    | Int(n: int)
    | Real(r: real)
    | Str(s: string)
    | Array(items: seq<Value>)
    | Object(fields: seq<Field>)

  datatype Field = Field(key: string, value: Value)

  function Lookup(fields: seq<Field>, key: string): Option<Value> {
    if fields == [] then None
    else if fields[0].key == key then Some(fields[0].value)
    else Lookup(fields[1..], key)
  }

  /** `Value::get`: a field of an object, nothing of any other value. */
  function Get(v: Value, key: string): Option<Value> {
    match v
    case Object(fields) => Lookup(fields, key)
    case _ => None
  }

  /** JSON text in and out, as the library does it. */
  datatype Serde = Serde(parse: string -> Option<Value>, show: Value -> string)
}

/** The events that reach the client (anthropic.rs). */
module Anthropic {
  import opened Wrappers
  import Json

  datatype StopReason = EndTurn | ToolUseStop | MaxTokens | StopSequence

  datatype Usage = Usage(input: nat, output: nat, cacheRead: nat, cacheWrite: nat)

  datatype OutBlock =
    | OutThinking(thinking: string, signature: Option<string>)
    | OutText(text: string)
    | OutToolUse(id: string, name: string, input: Json.Value)
    | OutRedacted(data: string)

  datatype OutMessage = OutMessage(
    id: string, content: seq<OutBlock>, model: string,
    stopReason: Option<StopReason>, stopSequence: Option<string>, usage: Usage)

  datatype Block =
    | TextBlock
    | ThinkingBlock
    | RedactedBlock(data: string)
    | ToolBlock(id: string, name: string)

  datatype Delta =
    | TextDelta(text: string)
    | ThinkingDelta(thinking: string)
    | SignatureDelta(signature: string)
    | InputJsonDelta(json: string)

  datatype StreamEvent =
    | MessageStart(message: OutMessage)
    | BlockStart(index: nat, block: Block)
    | BlockDelta(index: nat, delta: Delta)
    | BlockStop(index: nat)
    | MessageDelta(stopReason: StopReason, stopSequence: Option<string>, usage: Usage)
    | MessageStop
    | Error(kind: string, reason: string)
}

/** The events decoded from upstream (kiro.rs). */
module Kiro {
  import opened Wrappers

  datatype Event =
    | AssistantResponse(content: string)
    | ReasoningContent(text: string, signature: Option<string>, redacted: Option<string>)
    | ToolUse(id: string, name: string, input: string)
    | Metadata(uncachedInput: nat, output: nat, total: nat, cacheRead: nat, cacheWrite: nat)
    | Metering(meterInput: nat, meterOutput: nat)
    | InvalidState(reason: string, message: string)
    | Exception(exceptionType: string, message: string)
    | Ignored(eventType: string)
}
