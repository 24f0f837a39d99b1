/**
 What a message says, block by block and with the kinds of blocks written out, and that every
 piece of a request, text, mark or tool content shown as text, reaches upstream in its order.
 */
module Spoken {
  import opened Wrappers
  import opened Json
  import opened Content
  import opened Normalize
  import opened History
  import Reorder
  import Wording

  // ---- one message ---------------------------------------------------------------------------

  /** The parts one after the other with a separator between each two. */
  function Joined(parts: seq<string>, sep: string): string {
    if parts == [] then ""
    else if |parts| == 1 then parts[0]
    else Joined(parts[..|parts| - 1], sep) + sep + parts[|parts| - 1]
  }

  lemma {:induction false} JoinIsJoined(parts: seq<string>, sep: string)
    ensures Join(parts, sep) == Joined(parts, sep)
  {
    if |parts| > 1 {
      var front, last := parts[..|parts| - 1], parts[|parts| - 1];
      JoinIsJoined(front, sep);
      assert front + [last] == parts;
      Wording.JoinAppend(front, [last], sep);
      assert Join([last], sep) == last;
    }
  }

  /** What is given, the empty string for nothing. */
  function Given(s: Option<string>): string {
    match s
    case Some(t) => t
    case None => ""
  }

  /** The kinds of blocks that say nothing in words. */
  predicate Silent(kind: string) {
    || kind == "thinking" || kind == "redacted_thinking" || kind == "image" || kind == "tool_reference"
    || kind == "tool_use" || kind == "tool_result" || kind == "server_tool_use" || kind == "tool_search_tool_result"
  }

  predicate IsCall(kind: string) {
    kind == "tool_use" || kind == "server_tool_use"
  }

  predicate IsAnswer(kind: string) {
    kind == "tool_result" || kind == "tool_search_tool_result"
  }

  /** A block of no known kind is marked with its kind and its name, or its id when it has no name. */
  function Mark(b: Block): string {
    var called := if b.name.Some? then b.name.value else Given(b.id);
    if called == "" then "[" + b.kind + "]" else "[" + b.kind + ": " + called + "]"
  }

  function BlockWords(b: Block): seq<string> {
    if b.kind == "text" then [Given(b.text)] else if Silent(b.kind) then [] else [Mark(b)]
  }

  function Words(blocks: seq<Block>): seq<string> {
    if blocks == [] then [] else BlockWords(blocks[0]) + Words(blocks[1..])
  }

  /** What a message says: its text, or the words of its blocks with a space between each two. */
  function Says(c: MessageContent): string {
    match c
    case Text(t) => t
    case Blocks(blocks) => Joined(Words(blocks), " ")
  }

  lemma {:induction false} WordsAreParts(blocks: seq<Block>)
    ensures TextParts(blocks) == Words(blocks)
    decreases |blocks|
  {
    hide Mark;
    if blocks != [] {
      MarkIs(blocks[0]);
      WordsAreParts(blocks[1..]);
    }
  }

  lemma MarkIs(b: Block)
    ensures Mark(b) == if Ident(b) == "" then "[" + b.kind + "]" else "[" + b.kind + ": " + Ident(b) + "]"
  {
  }

  lemma SaysIt(c: MessageContent)
    ensures ExtractText(c) == Says(c)
  {
    if c.Blocks? {
      WordsAreParts(c.blocks);
      JoinIsJoined(Words(c.blocks), " ");
    }
  }

  // ---- tool results ---------------------------------------------------------------------------------

  function Lines(blocks: seq<Block>): seq<string> {
    if blocks == [] then [] else (if blocks[0].kind == "text" then [Given(blocks[0].text)] else []) + Lines(blocks[1..])
  }

  /** What a tool result says: its text, or its text blocks line by line. */
  function ResultSays(b: Block): string {
    match b.result
    case NoResult => ""
    case ResultText(t) => t
    case ResultBlocks(blocks) => Joined(Lines(blocks), "\n")
  }

  lemma {:induction false} LinesAreParts(blocks: seq<Block>)
    ensures PlainParts(blocks) == Lines(blocks)
    decreases |blocks|
  {
    if blocks != [] {
      LinesAreParts(blocks[1..]);
    }
  }

  lemma ResultSaysIt(b: Block)
    ensures ResultTextOf(b) == ResultSays(b)
  {
    if b.result.ResultBlocks? {
      LinesAreParts(b.result.blocks);
      JoinIsJoined(Lines(b.result.blocks), "\n");
    }
  }

  /** The number that decimal digits stand for. */
  function NumberOf(digits: string): int {
    if digits == "" then 0 else 10 * NumberOf(digits[..|digits| - 1]) + (digits[|digits| - 1] as int - 48)
  }

  /** `digits` is how `n` is written: without leading zeros. */
  predicate Writes(digits: string, n: nat) {
    && digits != "" && (forall i | 0 <= i < |digits| :: '0' <= digits[i] <= '9')
    && (|digits| > 1 ==> digits[0] != '0')
    && NumberOf(digits) == n
  }

  lemma {:induction false} DecimalWrites(n: nat)
    ensures Writes(Decimal(n), n) && (n > 0 ==> Decimal(n)[0] != '0')
  {
    var d := Decimal(n);
    if n < 10 {
      assert d[..0] == "";
    } else {
      DecimalWrites(n / 10);
      assert d[..|d| - 1] == Decimal(n / 10);
    }
  }

  /** What is said of `n` images that were moved out of a result. */
  ghost predicate IsNotice(s: string, n: nat) {
    exists digits :: Writes(digits, n) && s == "[" + digits + " image(s) from this tool result attached to the message]"
  }

  /** The text of a result that says `t` and had `n` images. */
  ghost predicate IsNoted(text: string, t: string, n: nat) {
    if n == 0 then text == if t == "" then "(empty result)" else t
    else if t == "" then IsNotice(text, n)
    else exists notice :: IsNotice(notice, n) && text == t + "\n" + notice
  }

  lemma NoticeAdded(t: string, notice: string, n: nat)
    requires n > 0 && t != "" && IsNotice(notice, n)
    ensures IsNoted(t + "\n" + notice, t, n)
  {
    hide IsNotice;
  }

  lemma NoticeIs(n: nat)
    ensures IsNotice("[" + Decimal(n) + " image(s) from this tool result attached to the message]", n)
  {
    hide Decimal;
    DecimalWrites(n);
  }

  lemma NotedIs(t: string, n: nat)
    ensures IsNoted(Noted(t, n), t, n)
  {
    hide Decimal;
    hide IsNotice;
    NoticeIs(n);
    var notice := "[" + Decimal(n) + " image(s) from this tool result attached to the message]";
    assert notice[0] == '[';
    if n == 0 {
      assert Noted(t, n) == if t == "" then "(empty result)" else t;
    } else if t == "" {
      assert Noted(t, n) == notice;
    } else {
      NoticeAdded(t, notice, n);
      assert Noted(t, n) == t + "\n" + notice;
    }
  }

  /** The result that is sent for the block: its id, its error flag and what it says. */
  ghost predicate Answers(b: Block, r: ToolResult) {
    && r.id == Given(b.toolUseId) && r.isError == b.isError
    && IsNoted(r.text, ResultSays(b), |Wording.InnerImages(Wording.Inner(b))|)
  }

  /** The results are those of the result blocks, one for each and in their order. */
  ghost predicate AnswersAre(blocks: seq<Block>, results: seq<ToolResult>)
    decreases |blocks|
  {
    if blocks == [] then results == []
    else if IsAnswer(blocks[0].kind) then results != [] && Answers(blocks[0], results[0]) && AnswersAre(blocks[1..], results[1..])
    else AnswersAre(blocks[1..], results)
  }

  lemma {:induction false} ScanAnswers(env: Env, blocks: seq<Block>, count: nat, own: bool)
    requires Scan(env, blocks, count, own).Ok?
    ensures AnswersAre(blocks, Scan(env, blocks, count, own).value.results)
    decreases |blocks|
  {
    hide Promote;
    hide ConvertImage;
    hide Noted;
    hide Answers;
    hide ResultTextOf;
    if blocks != [] {
      var a := ScanBlock(env, blocks[0], count, own).value;
      ScanAnswers(env, blocks[1..], a.count, own);
      var rest := Scan(env, blocks[1..], a.count, own).value.results;
      if IsAnswer(blocks[0].kind) {
        BlockAnswers(env, blocks[0], count);
        assert (a.results + rest)[1..] == rest;
      } else {
        assert a.results + rest == rest;
      }
    }
  }

  lemma BlockAnswers(env: Env, b: Block, count: nat)
    requires ScanToolResult(env, b, count).Ok?
    ensures |ScanToolResult(env, b, count).value.results| == 1 && Answers(b, ScanToolResult(env, b, count).value.results[0])
  {
    hide Promote;
    hide Noted;
    hide IsNoted;
    hide ResultSays;
    hide ResultTextOf;
    Wording.PromoteIff(env, Wording.Inner(b), count);
    ResultSaysIt(b);
    NotedIs(ResultTextOf(b), |Wording.InnerImages(Wording.Inner(b))|);
  }

  // ---- tool calls -----------------------------------------------------------------------------------------

  /** The calls that are sent are those of the call blocks, one for each and in their order. */
  ghost predicate CallsAre(env: Env, blocks: seq<Block>, uses: seq<ToolUse>)
    decreases |blocks|
  {
    if blocks == [] then uses == []
    else if IsCall(blocks[0].kind) then
      && uses != [] && uses[0].id == Given(blocks[0].id) && uses[0].name == env.shorten(Given(blocks[0].name))
      && uses[0].input == (match blocks[0].input case Some(v) => v case None => Object([]))
      && CallsAre(env, blocks[1..], uses[1..])
    else CallsAre(env, blocks[1..], uses)
  }

  lemma {:induction false} UsesAreCalls(env: Env, blocks: seq<Block>)
    ensures CallsAre(env, blocks, ToolUses(env, blocks))
    decreases |blocks|
  {
    if blocks != [] {
      UsesAreCalls(env, blocks[1..]);
      var rest := ToolUses(env, blocks[1..]);
      if IsCall(blocks[0].kind) {
        assert ToolUses(env, blocks)[1..] == rest;
      } else {
        assert ToolUses(env, blocks) == rest;
      }
    }
  }
}
