/** Messages of a request and what is taken out of them: text, tool calls, tool results, images. */
module Content {
  import opened Wrappers
  import opened Json

  datatype Role = User | Assistant | Other

  datatype Source = Source(kind: string, mediaType: string, data: string)

  /** A content block; its kind is open. */
  datatype Block = Block(
    kind: string, text: Option<string>, id: Option<string>, name: Option<string>, input: Option<Value>,
    toolUseId: Option<string>, result: ResultContent, isError: bool, source: Option<Source>)

  datatype ResultContent = NoResult | ResultText(text: string) | ResultBlocks(blocks: seq<Block>)

  datatype MessageContent = Text(text: string) | Blocks(blocks: seq<Block>)

  datatype Message = Message(role: Role, content: MessageContent)

  /** The libraries: JSON text, the length that base64 data decodes to, and shortened tool names. */
  datatype Env = Env(show: Value -> string, decode: string -> Option<nat>, shorten: string -> string)

  predicate IsToolUse(b: Block) {
    b.kind == "tool_use" || b.kind == "server_tool_use"
  }

  predicate IsToolResult(b: Block) {
    b.kind == "tool_result" || b.kind == "tool_search_tool_result"
  }

  predicate IsText(b: Block) {
    b.kind == "text"
  }

  function TextBlock(text: string): Block {
    Block("text", Some(text), None, None, None, None, NoResult, false, None)
  }

  lemma TextIsNoTool(b: Block)
    requires IsText(b)
    ensures !IsToolUse(b) && !IsToolResult(b)
  {
  }

  lemma ResultIsNoUse(b: Block)
    requires IsToolResult(b)
    ensures !IsToolUse(b) && !IsText(b)
  {
    assert "tool_result"[0] != "server_tool_use"[0] && |"tool_result"| != |"tool_use"|;
    assert |"tool_search_tool_result"| != |"tool_use"| && |"tool_search_tool_result"| != |"server_tool_use"|;
  }

  function OrEmpty(s: Option<string>): string {
    if s.Some? then s.value else ""
  }

  // ---- text ----------------------------------------------------------------------------

  function Join(parts: seq<string>, sep: string): string {
    if parts == [] then "" else if |parts| == 1 then parts[0] else parts[0] + sep + Join(parts[1..], sep)
  }

  /** Kinds that leave no trace in the text of a message. */
  predicate IsSkipped(kind: string) {
    kind in ["thinking", "redacted_thinking", "tool_use", "tool_result", "image", "tool_reference",
             "server_tool_use", "tool_search_tool_result"]
  }

  function Ident(b: Block): string {
    if b.name.Some? then b.name.value else OrEmpty(b.id)
  }

  function TextParts(blocks: seq<Block>): seq<string> {
    if blocks == [] then [] else
    var b := blocks[0];
    (if IsText(b) then [OrEmpty(b.text)]
     else if IsSkipped(b.kind) then []
     else if Ident(b) == "" then ["[" + b.kind + "]"]
     else ["[" + b.kind + ": " + Ident(b) + "]"]) + TextParts(blocks[1..])
  }

  /** `extract_text`. */
  function ExtractText(c: MessageContent): string {
    match c
    case Text(t) => t
    case Blocks(blocks) => Join(TextParts(blocks), " ")
  }

  function PlainParts(blocks: seq<Block>): seq<string> {
    if blocks == [] then []
    else (if IsText(blocks[0]) then [OrEmpty(blocks[0].text)] else []) + PlainParts(blocks[1..])
  }

  function ResultTextOf(b: Block): string {
    match b.result
    case NoResult => ""
    case ResultText(t) => t
    case ResultBlocks(blocks) => Join(PlainParts(blocks), "\n")
  }

  // ---- tool calls -------------------------------------------------------------------------

  datatype ToolUse = ToolUse(id: string, name: string, input: Value)

  function ToolUses(env: Env, blocks: seq<Block>): seq<ToolUse> {
    if blocks == [] then []
    else (if IsToolUse(blocks[0])
          then [ToolUse(OrEmpty(blocks[0].id), env.shorten(OrEmpty(blocks[0].name)),
                        if blocks[0].input.Some? then blocks[0].input.value else Object([]))]
          else []) + ToolUses(env, blocks[1..])
  }

  function UseIds(blocks: seq<Block>): seq<string> {
    if blocks == [] then []
    else (if IsToolUse(blocks[0]) then [OrEmpty(blocks[0].id)] else []) + UseIds(blocks[1..])
  }

  function ResultIds(blocks: seq<Block>): seq<string> {
    if blocks == [] then []
    else (if IsToolResult(blocks[0]) then [OrEmpty(blocks[0].toolUseId)] else []) + ResultIds(blocks[1..])
  }

  function BlocksOf(c: MessageContent): seq<Block> {
    if c.Blocks? then c.blocks else []
  }

  // ---- images -----------------------------------------------------------------------------

  const MAX_IMAGES := 10
  const MAX_IMAGE_BYTES := 10 * 1024 * 1024

  datatype ImageError =
    | UnsupportedMediaType(mediaType: string)
    | InvalidBase64
    | TooLargeImage(decoded: nat)
    | TooMany(count: nat)

  datatype Image = Image(format: string, bytes: string)

  /** What comes after the last slash. */
  function AfterSlash(s: string): string {
    if s == "" then "" else if s[|s| - 1] == '/' then "" else AfterSlash(s[..|s| - 1]) + [s[|s| - 1]]
  }

  predicate IsFormat(f: string) {
    f == "gif" || f == "jpeg" || f == "png" || f == "webp"
  }

  /** Images found so far, and the count of the whole request. */
  datatype Images = Images(images: seq<Image>, count: nat)

  /** `convert_image`: only base64 data is looked at, and only what passes every check is counted. */
  function ConvertImage(env: Env, b: Block, count: nat): (r: Result<Images, ImageError>)
    ensures r.Ok? ==> r.value.count == count + |r.value.images|
    ensures r.Ok? && r.value.images != [] ==> r.value.count <= MAX_IMAGES
  {
    if b.source.None? || b.source.value.kind != "base64" then Ok(Images([], count)) else
    var src := b.source.value;
    var format := AfterSlash(src.mediaType);
    if !IsFormat(format) then Err(UnsupportedMediaType(src.mediaType)) else
    match env.decode(src.data)
    case None => Err(InvalidBase64)
    case Some(n) =>
      if n > MAX_IMAGE_BYTES then Err(TooLargeImage(n))
      else if count + 1 > MAX_IMAGES then Err(TooMany(count + 1))
      else Ok(Images([Image(format, src.data)], count + 1))
  }

  function Promote(env: Env, inner: seq<Block>, count: nat): (r: Result<Images, ImageError>)
    ensures r.Ok? ==> r.value.count == count + |r.value.images|
    ensures r.Ok? && r.value.images != [] ==> r.value.count <= MAX_IMAGES
  {
    if inner == [] then Ok(Images([], count))
    else if inner[0].kind != "image" then Promote(env, inner[1..], count)
    else
      match ConvertImage(env, inner[0], count)
      case Err(e) => Err(e)
      case Ok(i) =>
        match Promote(env, inner[1..], i.count)
        case Err(e) => Err(e)
        case Ok(rest) => Ok(Images(i.images + rest.images, rest.count))
  }

  // ---- tool results --------------------------------------------------------------------------

  datatype ToolResult = ToolResult(id: string, isError: bool, text: string)

  function Decimal(n: nat): string {
    if n < 10 then [('0' as int + n) as char] else Decimal(n / 10) + [('0' as int + n % 10) as char]
  }

  /** The text of a result, with a notice when images were moved out of it; never empty. */
  function Noted(text: string, promoted: nat): string {
    var notice := "[" + Decimal(promoted) + " image(s) from this tool result attached to the message]";
    var t := if promoted == 0 then text else if text == "" then notice else text + "\n" + notice;
    if t == "" then "(empty result)" else t
  }

  datatype Scanned = Scanned(results: seq<ToolResult>, images: seq<Image>, count: nat)

  function ScanToolResult(env: Env, b: Block, count: nat): (r: Result<Scanned, ImageError>)
    ensures r.Ok? ==> r.value.count == count + |r.value.images|
    ensures r.Ok? ==> |r.value.results| == 1 && r.value.results[0].id == OrEmpty(b.toolUseId)
    ensures r.Ok? && r.value.images != [] ==> r.value.count <= MAX_IMAGES
  {
    match Promote(env, if b.result.ResultBlocks? then b.result.blocks else [], count)
    case Err(e) => Err(e)
    case Ok(p) => Ok(Scanned([ToolResult(OrEmpty(b.toolUseId), b.isError, Noted(ResultTextOf(b), |p.images|))], p.images, p.count))
  }

  /** One block: a tool result, an image of the message itself when `own`, anything else is passed over. */
  function ScanBlock(env: Env, b: Block, count: nat, own: bool): (r: Result<Scanned, ImageError>)
    ensures r.Ok? ==> r.value.count == count + |r.value.images|
    ensures r.Ok? && r.value.images != [] ==> r.value.count <= MAX_IMAGES
  {
    if IsToolResult(b) then ScanToolResult(env, b, count)
    else if own && b.kind == "image" then
      match ConvertImage(env, b, count)
      case Err(e) => Err(e)
      case Ok(i) => Ok(Scanned([], i.images, i.count))
    else Ok(Scanned([], [], count))
  }

  /** `scan_current_message` when `own`, `scan_tool_results` otherwise. */
  function Scan(env: Env, blocks: seq<Block>, count: nat, own: bool): (r: Result<Scanned, ImageError>)
    ensures r.Ok? ==> r.value.count == count + |r.value.images|
    ensures r.Ok? && r.value.images != [] ==> r.value.count <= MAX_IMAGES
  {
    if blocks == [] then Ok(Scanned([], [], count)) else
    match ScanBlock(env, blocks[0], count, own)
    case Err(e) => Err(e)
    case Ok(a) =>
      match Scan(env, blocks[1..], a.count, own)
      case Err(e) => Err(e)
      case Ok(rest) => Ok(Scanned(a.results + rest.results, a.images + rest.images, rest.count))
  }

  function IdsOf(results: seq<ToolResult>): seq<string> {
    if results == [] then [] else [results[0].id] + IdsOf(results[1..])
  }

  lemma {:induction false} IdsAppend(a: seq<ToolResult>, b: seq<ToolResult>)
    ensures IdsOf(a + b) == IdsOf(a) + IdsOf(b)
    decreases |a|
  {
    if a == [] {
      assert a + b == b;
    } else {
      assert (a + b)[1..] == a[1..] + b;
      IdsAppend(a[1..], b);
    }
  }

  /** A scan finds exactly the tool results, in order. */
  lemma {:induction false} ScanFindsResults(env: Env, blocks: seq<Block>, count: nat, own: bool)
    requires Scan(env, blocks, count, own).Ok?
    ensures IdsOf(Scan(env, blocks, count, own).value.results) == ResultIds(blocks)
    decreases |blocks|
  {
    hide Promote;
    hide ConvertImage;
    hide IsToolResult;
    hide Noted;
    if blocks != [] {
      var a := ScanBlock(env, blocks[0], count, own).value;
      ScanFindsResults(env, blocks[1..], a.count, own);
      IdsAppend(a.results, Scan(env, blocks[1..], a.count, own).value.results);
      if IsToolResult(blocks[0]) {
        assert a.results[1..] == [];
        assert IdsOf(a.results) == [OrEmpty(blocks[0].toolUseId)];
      }
    }
  }

  /** What was scanned before, in front of the rest. */
  ghost function Onto(a: Scanned, r: Result<Scanned, ImageError>): Result<Scanned, ImageError> {
    match r
    case Err(e) => Err(e)
    case Ok(s) => Ok(Scanned(a.results + s.results, a.images + s.images, s.count))
  }

  lemma OntoNothing(count: nat, r: Result<Scanned, ImageError>)
    ensures Onto(Scanned([], [], count), r) == r
  {
    assert r.Ok? ==> [] + r.value.results == r.value.results && [] + r.value.images == r.value.images;
  }

  lemma OntoTwice(a: Scanned, b: Scanned, r: Result<Scanned, ImageError>)
    ensures Onto(a, Onto(b, r)) == Onto(Scanned(a.results + b.results, a.images + b.images, b.count), r)
  {
    if r.Ok? {
      assert a.results + (b.results + r.value.results) == a.results + b.results + r.value.results;
      assert a.images + (b.images + r.value.images) == a.images + b.images + r.value.images;
    }
  }

  /** The loop of `scan_current_message` and `scan_tool_results`, with the image count of the request. */
  method ScanMessage(env: Env, content: MessageContent, counter: nat, own: bool) returns (r: Result<Scanned, ImageError>)
    ensures r == Scan(env, BlocksOf(content), counter, own)
  {
    hide ScanBlock;
    if content.Text? {
      return Ok(Scanned([], [], counter));
    }
    var blocks := content.blocks;
    var results: seq<ToolResult>, images: seq<Image>, count := [], [], counter;
    OntoNothing(counter, Scan(env, blocks, counter, own));
    assert blocks[0..] == blocks;
    for i := 0 to |blocks|
      invariant Scan(env, blocks, counter, own) == Onto(Scanned(results, images, count), Scan(env, blocks[i..], count, own))
    {
      assert blocks[i..][1..] == blocks[i + 1..];
      var one := ScanBlock(env, blocks[i], count, own);
      if one.Err? {
        return Err(one.error);
      }
      OntoTwice(Scanned(results, images, count), one.value, Scan(env, blocks[i + 1..], one.value.count, own));
      results, images, count := results + one.value.results, images + one.value.images, one.value.count;
    }
    assert results + [] == results && images + [] == images;
    r := Ok(Scanned(results, images, count));
  }
}
