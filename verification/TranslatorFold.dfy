/** The stream a client reads and the message that is folded at the end say the same. */
module TranslatorFold {
  import opened Wrappers
  import opened Anthropic
  import opened Kiro
  import opened Emitter
  import opened Translator
  import opened Views
  import opened Json
  import opened Dedupe
  import TranslatorGrammar

  function CallPairs(calls: seq<ToolCall>): seq<(string, string)> {
    seq(|calls|, i requires 0 <= i < |calls| => (calls[i].id, calls[i].name))
  }

  function CallInputs(calls: seq<ToolCall>): seq<string> {
    seq(|calls|, i requires 0 <= i < |calls| => calls[i].input)
  }

  /** What has been accumulated, as a client would have collected it. */
  function Collected(a: Accumulated): View {
    View(a.text, a.thinking, a.redacted, CallPairs(a.calls), CallInputs(a.calls))
  }

  /** The events of a step show exactly what the step accumulates. */
  ghost predicate Shows(t: State, s: Step) {
    Collected(s.t.acc) == Join(Collected(t.acc), ViewOf(s.events))
  }

  lemma ThenShows(t: State, a: Step, b: Step)
    requires Shows(t, a) && Shows(a.t, b)
    ensures Shows(t, Then(a, b))
  {
    ViewAppend(a.events, b.events);
    JoinAssoc(Collected(t.acc), ViewOf(a.events), ViewOf(b.events));
  }

  /** A step that accumulates nothing and shows nothing. */
  lemma QuietShows(t: State, s: Step)
    requires Collected(s.t.acc) == Collected(t.acc) && ViewOf(s.events) == NOTHING
    ensures Shows(t, s)
  {
    JoinNothing(Collected(t.acc));
  }

  lemma JoinThinking(a: Accumulated, piece: string)
    ensures Collected(a.(thinking := a.thinking + piece)) == Join(Collected(a), Piece(ActiveThinking, piece))
  {
    JoinNothing(Collected(a));
  }

  lemma JoinText(a: Accumulated, piece: string)
    ensures Collected(a.(text := a.text + piece)) == Join(Collected(a), Piece(ActiveText, piece))
  {
    JoinNothing(Collected(a));
  }

  lemma JoinRedacted(a: Accumulated, data: string)
    ensures Collected(a.(redacted := a.redacted + [data])) == Join(Collected(a), NOTHING.(redacted := [data]))
  {
    JoinNothing(Collected(a));
  }

  lemma JoinCall(a: Accumulated, c: ToolCall)
    ensures Collected(a.(calls := a.calls + [c])) == Join(Collected(a), NOTHING.(calls := [(c.id, c.name)], inputs := [c.input]))
  {
    JoinNothing(Collected(a));
    assert CallPairs(a.calls + [c]) == CallPairs(a.calls) + [(c.id, c.name)];
    assert CallInputs(a.calls + [c]) == CallInputs(a.calls) + [c.input];
  }

  lemma ThinkingShows(t: State, thought: string)
    ensures Shows(t, ShowThinking(t, thought))
  {
    var k := TakeThinking(Budget(t.opts), t.lim, thought);
    DeltaShows(t.emit, Head(t.opts), ActiveThinking, k.out);
    JoinThinking(t.acc, k.out);
  }

  lemma TakenShows(t: State, k: Taken)
    ensures Shows(t, ShowTaken(t, k))
  {
    DeltaShows(t.emit, Head(t.opts), ActiveText, k.out);
    JoinText(t.acc, k.out);
  }

  lemma TextShows(t: State, text: string)
    ensures Shows(t, ShowText(t, text))
  {
    TakenShows(t, TakeText(Budget(t.opts), t.stops, t.lim, text));
  }

  lemma AssistantShows(t: State, content: string)
    ensures Shows(t, PushAssistant(t, content))
  {
    var split := TagSplitter.Feed(TagSplitter.THINKING, t.tag, content);
    var t1 := t.(tag := split.st);
    var a := ShowThinking(t1, split.think);
    ThinkingShows(t1, split.think);
    TextShows(a.t, split.text);
    assert Shows(t, a);
    ThenShows(t, a, ShowText(a.t, split.text));
  }

  lemma ReasoningShows(t: State, text: string, signature: Option<string>)
    ensures Shows(t, PushReasoning(t, text, signature))
  {
    var a := ShowThinking(t, text);
    ThinkingShows(t, text);
    var tail := PushReasoning(t, text, signature).events[|a.events|..];
    if tail != [] {
      assert tail == [tail[0]];
      ViewSingle(tail[0]);
    }
    QuietShows(a.t, Step(a.t, tail));
    ThenShows(t, a, Step(a.t, tail));
    assert PushReasoning(t, text, signature) == Then(a, Step(a.t, tail));
  }

  lemma RedactedPushShows(t: State, data: string)
    ensures Shows(t, PushRedacted(t, data))
  {
    RedactedShows(t.emit, Head(t.opts), data);
    JoinRedacted(t.acc, data);
  }

  lemma ToolPushShows(t: State, id: string, name: string, input: string)
    ensures Shows(t, PushTool(t, id, name, input))
  {
    var original := OriginalName(t.opts, name);
    ToolShows(t.emit, Head(t.opts), id, original, input);
    JoinCall(t.acc, ToolCall(id, original, input));
  }

  // ---- the end of the message ----------------------------------------------------------

  lemma FlushShows(t: State)
    ensures Shows(t, FlushTag(t)) && Shows(t, FlushPending(t))
  {
    var t1 := t.(tag := t.tag.(buf := ""));
    ThinkingShows(t1, t.tag.buf);
    TextShows(t1, if t.lim.stop.None? then t.tag.buf else "");
    TakenShows(t, TakeThinking(Budget(t.opts), t.lim.(pending := ""), if t.lim.stop.None? then t.lim.pending else ""));
  }

  lemma EndShows(t: State)
    ensures Shows(t, FinishEnd(t))
  {
    var c := CloseActive(t.emit);
    var delta := MessageDelta(StopOf(t).reason, StopOf(t).sequence, UsageOf(t));
    CloseShows(t.emit);
    ViewSingle(delta);
    ViewSingle(MessageStop);
    QuietAppend([delta], [MessageStop]);
    assert [delta, MessageStop] == [delta] + [MessageStop];
    QuietAppend(c.events, [delta, MessageStop]);
    QuietShows(t, FinishEnd(t));
  }

  lemma FinishShows(t: State)
    ensures Shows(t, Finish(t))
  {
    if t.finished {
      QuietShows(t, Step(t, []));
    } else {
      var a := FinishStart(t);
      StartShows(t.emit, Head(t.opts));
      QuietShows(t, a);
      var b := FlushTag(a.t);
      FlushShows(a.t);
      ThenShows(t, a, b);
      var c := FlushPending(b.t);
      FlushShows(b.t);
      ThenShows(t, Then(a, b), c);
      EndShows(c.t);
      ThenShows(t, Then(Then(a, b), c), FinishEnd(c.t));
    }
  }

  lemma ConcludeShows(t: State, s: Step)
    requires Shows(t, s)
    ensures Shows(t, Conclude(s))
  {
    if s.t.lim.stop.Some? {
      FinishShows(s.t);
      ThenShows(t, s, Finish(s.t));
    }
  }

  lemma OnReasoningShows(t: State, text: string, signature: Option<string>, redacted: Option<string>)
    ensures Shows(t, OnReasoning(t, text, signature, redacted))
  {
    var t1 := Signed(t, signature);
    if redacted.Some? {
      RedactedPushShows(t1, redacted.value);
      assert Shows(t, PushRedacted(t1, redacted.value));
      ConcludeShows(t, PushRedacted(t1, redacted.value));
    } else if t.tag.suppress {
      QuietShows(t, Step(t1, []));
    } else {
      var shown := if t.lim.stop.None? then text else "";
      ReasoningShows(t1, shown, signature);
      assert Shows(t, PushReasoning(t1, shown, signature));
      ConcludeShows(t, PushReasoning(t1, shown, signature));
    }
  }

  lemma PushShows(t: State, ev: Event)
    ensures Shows(t, Push(t, ev))
  {
    QuietShows(t, Step(t, []));
    if !t.finished && t.failure.None? {
      match ev
      case AssistantResponse(content) =>
        AssistantShows(t, content);
        ConcludeShows(t, PushAssistant(t, content));
      case ReasoningContent(text, signature, redacted) => OnReasoningShows(t, text, signature, redacted);
      case ToolUse(id, name, input) =>
        ToolPushShows(t, id, name, input);
        ConcludeShows(t, PushTool(t, id, name, input));
      case _ =>
    }
  }

  lemma {:induction false} PushAllShows(t: State, evs: seq<Event>)
    ensures Shows(t, PushAll(t, evs))
    decreases |evs|
  {
    if evs == [] {
      QuietShows(t, Step(t, []));
    } else {
      var a := Push(t, evs[0]);
      PushShows(t, evs[0]);
      PushAllShows(a.t, evs[1..]);
      ThenShows(t, a, PushAll(a.t, evs[1..]));
    }
  }

  // ---- the folded message ---------------------------------------------------------------

  /** The input of a folded call: its JSON, or an empty object when it is none. */
  function ParsedInput(serde: Serde, input: string): Value {
    match serde.parse(input)
    case Some(v) => v
    case None => Object([])
  }

  function ToolBlocks(serde: Serde, calls: seq<ToolCall>): seq<OutBlock> {
    seq(|calls|, i requires 0 <= i < |calls| => OutToolUse(calls[i].id, calls[i].name, ParsedInput(serde, calls[i].input)))
  }

  function RedactedBlocks(redacted: seq<string>): seq<OutBlock> {
    seq(|redacted|, i requires 0 <= i < |redacted| => OutRedacted(redacted[i]))
  }

  function Content(serde: Serde, a: Accumulated): seq<OutBlock> {
    (if a.thinking == "" then [] else [OutThinking(a.thinking, a.signature)])
    + (if a.text == "" then [] else [OutText(a.text)])
    + ToolBlocks(serde, DedupeCalls(serde, a.calls))
    + RedactedBlocks(a.redacted)
  }

  /** Everything accumulated, as one non-streaming message. */
  function Fold(serde: Serde, t: State): OutMessage {
    OutMessage(t.opts.messageId, Content(serde, t.acc), t.opts.model,
               Some(StopOf(t).reason), StopOf(t).sequence, UsageOf(t))
  }

  /** What a client reads out of a folded message. */
  datatype Reading = Reading(text: string, thinking: string, redacted: seq<string>, tools: seq<OutBlock>)

  const UNREAD := Reading("", "", [], [])

  function ReadOne(b: OutBlock): Reading {
    match b
    case OutText(s) => UNREAD.(text := s)
    case OutThinking(s, _) => UNREAD.(thinking := s)
    case OutRedacted(s) => UNREAD.(redacted := [s])
    case OutToolUse(_, _, _) => UNREAD.(tools := [b])
  }

  function Both(a: Reading, b: Reading): Reading {
    Reading(a.text + b.text, a.thinking + b.thinking, a.redacted + b.redacted, a.tools + b.tools)
  }

  function Read(content: seq<OutBlock>): Reading {
    if content == [] then UNREAD else Both(ReadOne(content[0]), Read(content[1..]))
  }

  lemma BothAssoc(a: Reading, b: Reading, c: Reading)
    ensures Both(Both(a, b), c) == Both(a, Both(b, c))
  {
    assert (a.text + b.text) + c.text == a.text + (b.text + c.text);
    assert (a.thinking + b.thinking) + c.thinking == a.thinking + (b.thinking + c.thinking);
    assert (a.redacted + b.redacted) + c.redacted == a.redacted + (b.redacted + c.redacted);
    assert (a.tools + b.tools) + c.tools == a.tools + (b.tools + c.tools);
  }

  lemma BothNothing(a: Reading)
    ensures Both(a, UNREAD) == a && Both(UNREAD, a) == a
  {
    assert a.text + "" == a.text && "" + a.text == a.text;
    assert a.thinking + "" == a.thinking && "" + a.thinking == a.thinking;
    assert a.redacted + [] == a.redacted && [] + a.redacted == a.redacted;
    assert a.tools + [] == a.tools && [] + a.tools == a.tools;
  }

  lemma {:induction false} ReadAppend(a: seq<OutBlock>, b: seq<OutBlock>)
    ensures Read(a + b) == Both(Read(a), Read(b))
  {
    if a == [] {
      assert a + b == b;
      BothNothing(Read(b));
    } else {
      assert (a + b)[1..] == a[1..] + b;
      ReadAppend(a[1..], b);
      BothAssoc(ReadOne(a[0]), Read(a[1..]), Read(b));
    }
  }

  lemma {:induction false} ReadTools(blocks: seq<OutBlock>)
    requires forall i | 0 <= i < |blocks| :: blocks[i].OutToolUse?
    ensures Read(blocks) == UNREAD.(tools := blocks)
  {
    if blocks != [] {
      ReadTools(blocks[1..]);
      assert [blocks[0]] + blocks[1..] == blocks;
    }
  }

  lemma {:induction false} ReadRedacted(redacted: seq<string>)
    ensures Read(RedactedBlocks(redacted)) == UNREAD.(redacted := redacted)
  {
    if redacted != [] {
      var first, rest := OutRedacted(redacted[0]), RedactedBlocks(redacted[1..]);
      ReadRedacted(redacted[1..]);
      assert RedactedBlocks(redacted) == [first] + rest;
      ReadSingle(first);
      ReadAppend([first], rest);
      assert [redacted[0]] + redacted[1..] == redacted;
    }
  }

  lemma ReadSingle(b: OutBlock)
    ensures Read([b]) == ReadOne(b)
  {
    assert [b][1..] == [];
    BothNothing(ReadOne(b));
  }

  /** Reading a folded message gives back what was accumulated, the calls deduplicated. */
  lemma ReadContent(serde: Serde, a: Accumulated)
    ensures Read(Content(serde, a)) == Reading(a.text, a.thinking, a.redacted, ToolBlocks(serde, DedupeCalls(serde, a.calls)))
  {
    var thinking := if a.thinking == "" then [] else [OutThinking(a.thinking, a.signature)];
    var text := if a.text == "" then [] else [OutText(a.text)];
    var tools, redacted := ToolBlocks(serde, DedupeCalls(serde, a.calls)), RedactedBlocks(a.redacted);
    ReadSingle(OutThinking(a.thinking, a.signature));
    ReadSingle(OutText(a.text));
    ReadTools(tools);
    ReadRedacted(a.redacted);
    ReadAppend(thinking, text);
    ReadAppend(thinking + text, tools);
    ReadAppend(thinking + text + tools, redacted);
    FourParts(a.text, a.thinking, a.redacted, tools);
  }

  lemma FourParts(text: string, thinking: string, redacted: seq<string>, tools: seq<OutBlock>)
    ensures Both(Both(Both(UNREAD.(thinking := thinking), UNREAD.(text := text)), UNREAD.(tools := tools)), UNREAD.(redacted := redacted))
            == Reading(text, thinking, redacted, tools)
  {
    BothNothing(Reading(text, thinking, redacted, tools));
  }

  /** Tool calls put together again from what a client collected. */
  function Recalled(v: View): seq<ToolCall>
    requires |v.calls| == |v.inputs|
  {
    seq(|v.calls|, i requires 0 <= i < |v.calls| => ToolCall(v.calls[i].0, v.calls[i].1, v.inputs[i]))
  }

  /** The events end with the stop reason and the usage that the fold of `t` has. */
  ghost predicate EndsLikeFold(serde: Serde, t: State, events: seq<StreamEvent>) {
    var m := Fold(serde, t);
    && m.stopReason.Some? && |events| >= 2
    && events[|events| - 2..] == [MessageDelta(m.stopReason.value, m.stopSequence, m.usage), MessageStop]
  }

  lemma EndsAppend(serde: Serde, t: State, a: seq<StreamEvent>, b: seq<StreamEvent>)
    requires EndsLikeFold(serde, t, b)
    ensures EndsLikeFold(serde, t, a + b)
  {
    assert (a + b)[|a + b| - 2..] == b[|b| - 2..];
  }

  lemma FinishEnds(serde: Serde, t: State)
    requires !t.finished
    ensures EndsLikeFold(serde, Finish(t).t, Finish(t).events)
  {
    var a := FinishStart(t);
    var b := FlushTag(a.t);
    var c := FlushPending(b.t);
    var end := FinishEnd(c.t);
    assert EndsLikeFold(serde, end.t, end.events);
    EndsAppend(serde, end.t, Then(Then(a, b), c).events, end.events);
  }

  lemma ConcludeEnds(serde: Serde, s: Step)
    requires !s.t.finished
    ensures Conclude(s).t.finished ==> EndsLikeFold(serde, Conclude(s).t, Conclude(s).events)
  {
    if s.t.lim.stop.Some? {
      FinishEnds(serde, s.t);
      EndsAppend(serde, Finish(s.t).t, s.events, Finish(s.t).events);
    }
  }

  lemma PushEnds(serde: Serde, t: State, ev: Event)
    requires !t.finished
    ensures Push(t, ev).t.finished ==> EndsLikeFold(serde, Push(t, ev).t, Push(t, ev).events)
  {
    match ev
    case AssistantResponse(content) => ConcludeEnds(serde, PushAssistant(t, content));
    case ReasoningContent(text, signature, redacted) =>
      var t1 := Signed(t, signature);
      if redacted.Some? {
        ConcludeEnds(serde, PushRedacted(t1, redacted.value));
      } else {
        ConcludeEnds(serde, PushReasoning(t1, if t.lim.stop.None? then text else "", signature));
      }
    case ToolUse(id, name, input) => ConcludeEnds(serde, PushTool(t, id, name, input));
    case _ =>
  }

  lemma {:induction false} PushAllEnds(serde: Serde, t: State, evs: seq<Event>)
    requires !t.finished
    ensures PushAll(t, evs).t.finished ==> EndsLikeFold(serde, PushAll(t, evs).t, PushAll(t, evs).events)
    decreases |evs|
  {
    if evs != [] {
      var a := Push(t, evs[0]);
      PushEnds(serde, t, evs[0]);
      if a.t.finished {
        TranslatorGrammar.NothingAfterTheEnd(a.t, evs[1..]);
        assert a.events + [] == a.events;
      } else {
        PushAllEnds(serde, a.t, evs[1..]);
        if PushAll(a.t, evs[1..]).t.finished {
          EndsAppend(serde, PushAll(a.t, evs[1..]).t, a.events, PushAll(a.t, evs[1..]).events);
        }
      }
    }
  }

  /** For every run: the stream ends with the stop reason and the usage of the folded message. */
  lemma StreamEndsLikeFold(serde: Serde, opts: Options, evs: seq<Event>)
    ensures var s := Whole(New(opts), evs);
            EndsLikeFold(serde, s.t, s.events)
  {
    var a := PushAll(New(opts), evs);
    PushAllEnds(serde, New(opts), evs);
    if a.t.finished {
      assert a.events + [] == a.events;
    } else {
      FinishEnds(serde, a.t);
      EndsAppend(serde, Finish(a.t).t, a.events, Finish(a.t).events);
    }
  }

  /**
   For every run: what a client collects from the stream is what it reads in the folded
   message, where the collected tool calls appear deduplicated.
   */
  lemma StreamAgreesWithFold(serde: Serde, opts: Options, evs: seq<Event>)
    ensures var s := Whole(New(opts), evs);
            var v := ViewOf(s.events);
            && |v.calls| == |v.inputs|
            && Read(Fold(serde, s.t).content)
               == Reading(v.text, v.think, v.redacted, ToolBlocks(serde, DedupeCalls(serde, Recalled(v))))
  {
    var a := PushAll(New(opts), evs);
    PushAllShows(New(opts), evs);
    FinishShows(a.t);
    ThenShows(New(opts), a, Finish(a.t));
    var s := Whole(New(opts), evs);
    assert Collected(New(opts).acc) == NOTHING;
    JoinNothing(ViewOf(s.events));
    assert Collected(s.t.acc) == ViewOf(s.events);
    ReadContent(serde, s.t.acc);
    assert Recalled(Collected(s.t.acc)) == s.t.acc.calls;
  }
}
