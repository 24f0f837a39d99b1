/**
 The response translator as a function of its state: upstream events in, client events out.
 The class in ResponseTranslator.dfy computes it; the theorems about it follow.
 */
module Translator {
  import opened Wrappers
  import opened Anthropic
  import opened Kiro
  import opened TagSplitter
  import opened Emitter
  import StopFilter

  const ABSOLUTE_MAX_TOKENS := 2_000_000
  const U64_MAX := 0xFFFF_FFFF_FFFF_FFFF

  datatype Options = Options(
    model: string, messageId: string, stops: seq<string>, maxTokens: nat,
    toolNames: map<string, string>, estimatedInput: nat)

  datatype Failure =
    | InvalidStateFailure(reason: string, message: string)
    | ExceptionFailure(exceptionType: string, message: string)

  datatype ToolCall = ToolCall(id: string, name: string, input: string)

  /** Token counts reported by upstream. */
  datatype Meter = Meter(hasMetadata: bool, input: nat, output: nat, cacheRead: nat, cacheWrite: nat)

  datatype Stop = Stop(reason: StopReason, sequence: Option<string>)

  /** What the fold at the end of a non-streaming response is made of. */
  datatype Accumulated = Accumulated(
    text: string, thinking: string, calls: seq<ToolCall>, redacted: seq<string>, signature: Option<string>)

  /** The stop that was latched, the text held back by the stop filter, the characters spent. */
  datatype Limits = Limits(stop: Option<Stop>, pending: string, chars: nat)

  datatype State = State(
    opts: Options, stops: seq<string>,
    acc: Accumulated, meter: Meter, lim: Limits, tag: TagState, emit: Emit,
    finished: bool, failure: Option<Failure>)

  datatype Step = Step(t: State, events: seq<StreamEvent>)

  function Then(a: Step, b: Step): Step {
    Step(b.t, a.events + b.events)
  }

  function New(opts: Options): State {
    State(opts, StopFilter.Usable(opts.stops),
          Accumulated("", "", [], [], None), Meter(false, 0, 0, 0, 0), Limits(None, "", 0),
          TagState(false, "", false), INIT, false, None)
  }

  /** The message as it stands when it starts. */
  function Head(opts: Options): OutMessage {
    OutMessage(opts.messageId, [], opts.model, None, None, Usage(0, 0, 0, 0))
  }

  // ---- limits ---------------------------------------------------------------------

  /** The client's budget, bounded by the absolute ceiling; 0 means the ceiling. */
  function EffectiveMaxTokens(opts: Options): nat {
    if opts.maxTokens == 0 || ABSOLUTE_MAX_TOKENS < opts.maxTokens then ABSOLUTE_MAX_TOKENS else opts.maxTokens
  }

  /** The budget in characters, four to a token. */
  function Budget(opts: Options): (b: nat)
    ensures 0 < b
  {
    4 * EffectiveMaxTokens(opts)
  }

  /** The first reason to stop is the one that is kept. */
  function Latch(stop: Option<Stop>, reason: StopReason, sequence: Option<string>): Option<Stop> {
    if stop.Some? then stop else Some(Stop(reason, sequence))
  }

  /** The limits after a piece of output, and what of the piece is let through. */
  datatype Taken = Taken(lim: Limits, out: string)

  /** Spends the budget on a delta; what does not fit is cut, and reaching the budget stops. */
  function Spend(budget: nat, l: Limits, delta: string): Taken {
    var room := if budget <= l.chars then 0 else budget - l.chars;
    var out := if |delta| <= room then delta else delta[..room];
    var stop := if budget <= l.chars + |delta| then Latch(l.stop, MaxTokens, None) else l.stop;
    Taken(Limits(stop, l.pending, l.chars + |out|), out)
  }

  /** Redacted content and tool input count against the budget but are never cut. */
  function AccountOpaque(budget: nat, l: Limits, content: string): Limits {
    var chars := l.chars + |content|;
    Limits(if budget <= chars then Latch(l.stop, MaxTokens, None) else l.stop, l.pending, chars)
  }

  function FilterStops(stops: seq<string>, l: Limits, delta: string): Taken {
    var a := StopFilter.Apply(stops, l.pending, delta);
    Taken(Limits(if a.hit.Some? then Latch(l.stop, StopSequence, a.hit) else l.stop, a.pending, l.chars), a.emit)
  }

  /** A piece of thinking; an empty one is never offered. */
  function TakeThinking(budget: nat, l: Limits, thought: string): Taken {
    if thought == "" then Taken(l, "") else Spend(budget, l, thought)
  }

  /** A piece of text: first the stop filter, then the budget unless the filter stopped. */
  function TakeText(budget: nat, stops: seq<string>, l: Limits, text: string): Taken {
    if text == "" then Taken(l, "") else
    var f := if stops == [] then Taken(l, text) else FilterStops(stops, l, text);
    if f.out != "" && f.lim.stop.None? then Spend(budget, f.lim, f.out) else f
  }

  // ---- showing content to the client --------------------------------------------------

  function ShowThinking(t: State, thought: string): Step {
    var k := TakeThinking(Budget(t.opts), t.lim, thought);
    var o := EmitDelta(t.emit, Head(t.opts), ActiveThinking, k.out);
    Step(t.(lim := k.lim, acc := t.acc.(thinking := t.acc.thinking + k.out), emit := o.e), o.events)
  }

  function ShowTaken(t: State, k: Taken): Step {
    var o := EmitDelta(t.emit, Head(t.opts), ActiveText, k.out);
    Step(t.(lim := k.lim, acc := t.acc.(text := t.acc.text + k.out), emit := o.e), o.events)
  }

  function ShowText(t: State, text: string): Step {
    ShowTaken(t, TakeText(Budget(t.opts), t.stops, t.lim, text))
  }

  // ---- the end of the message ----------------------------------------------------------

  function StopOf(t: State): Stop {
    if t.lim.stop.Some? then t.lim.stop.value
    else if t.acc.calls != [] then Stop(ToolUseStop, None)
    else Stop(EndTurn, None)
  }

  function EstimatedOutput(chars: nat): nat {
    if chars == 0 then 0 else if chars / 4 < 1 then 1 else chars / 4
  }

  function UsageOf(t: State): Usage {
    if 0 < t.meter.input || 0 < t.meter.output
    then Usage(t.meter.input, t.meter.output, t.meter.cacheRead, t.meter.cacheWrite)
    else Usage(t.opts.estimatedInput, EstimatedOutput(t.lim.chars), t.meter.cacheRead, t.meter.cacheWrite)
  }

  function FinishStart(t: State): Step {
    var o := EnsureStarted(t.emit, Head(t.opts));
    Step(t.(finished := true, emit := o.e), o.events)
  }

  /** What the tag splitter still holds is thinking or text; text only when nothing stopped. */
  function FlushTag(t: State): Step {
    var t1 := t.(tag := t.tag.(buf := ""));
    if t.tag.inside then ShowThinking(t1, t.tag.buf)
    else ShowText(t1, if t.lim.stop.None? then t.tag.buf else "")
  }

  /** What the stop filter still holds is text when nothing stopped. */
  function FlushPending(t: State): Step {
    var rest := if t.lim.stop.None? then t.lim.pending else "";
    ShowTaken(t, TakeThinking(Budget(t.opts), t.lim.(pending := ""), rest))
  }

  function FinishEnd(t: State): Step {
    var c := CloseActive(t.emit);
    Step(t.(emit := c.e), c.events + [MessageDelta(StopOf(t).reason, StopOf(t).sequence, UsageOf(t)), MessageStop])
  }

  /** Everything held back, then the end of the message. */
  function Finish(t: State): Step {
    if t.finished then Step(t, []) else
    var a := FinishStart(t);
    var b := FlushTag(a.t);
    var c := FlushPending(b.t);
    Then(Then(Then(a, b), c), FinishEnd(c.t))
  }

  // ---- one upstream event --------------------------------------------------------------

  /** A step that latched a stop ends the message. */
  function Conclude(s: Step): Step {
    if s.t.lim.stop.Some? then Then(s, Finish(s.t)) else s
  }

  /** One push shows its thinking before its text. */
  function PushAssistant(t: State, content: string): Step {
    var split := Feed(THINKING, t.tag, content);
    var a := ShowThinking(t.(tag := split.st), split.think);
    Then(a, ShowText(a.t, split.text))
  }

  /** A complete block is put into the stream. */
  function Placed(t: State, visible: bool, block: Block, delta: Option<Delta>): Step {
    var o := EmitWhole(t.emit, Head(t.opts), visible, block, delta);
    Step(t.(emit := o.e), o.events)
  }

  function PushRedacted(t: State, data: string): Step {
    Placed(t.(acc := t.acc.(redacted := t.acc.redacted + [data]), lim := AccountOpaque(Budget(t.opts), t.lim, data)),
           false, RedactedBlock(data), None)
  }

  function PushReasoning(t: State, text: string, signature: Option<string>): Step {
    var a := ShowThinking(t, text);
    Step(a.t, a.events + if signature.Some? && a.t.emit.active == Some(ActiveThinking)
                         then [BlockDelta(Wire(a.t.emit.index), SignatureDelta(signature.value))] else [])
  }

  function OriginalName(opts: Options, name: string): string {
    if name in opts.toolNames then opts.toolNames[name] else name
  }

  function PushTool(t: State, id: string, name: string, input: string): Step {
    var original := OriginalName(t.opts, name);
    Placed(t.(acc := t.acc.(calls := t.acc.calls + [ToolCall(id, original, input)]),
              lim := AccountOpaque(Budget(t.opts), t.lim, input)),
           true, ToolBlock(id, original), Some(InputJsonDelta(input)))
  }

  function Saturate(n: nat): nat {
    if U64_MAX < n then U64_MAX else n
  }

  function Max(a: nat, b: nat): nat {
    if a < b then b else a
  }

  function Metered(m: Meter, uncached: nat, output: nat, cacheRead: nat, cacheWrite: nat): Meter {
    var input := Saturate(uncached + cacheRead);
    if 0 < input || 0 < output then Meter(true, input, output, cacheRead, cacheWrite)
    else m.(cacheRead := Max(m.cacheRead, cacheRead), cacheWrite := Max(m.cacheWrite, cacheWrite))
  }

  function Remetered(m: Meter, input: nat, output: nat): Meter {
    if !m.hasMetadata && (0 < input || 0 < output) then m.(input := input, output := output) else m
  }

  function Signed(t: State, signature: Option<string>): State {
    t.(acc := t.acc.(signature := if signature.Some? then signature else t.acc.signature))
  }

  /** Redacted content, or plain reasoning unless a thinking tag was seen in the text. */
  function OnReasoning(t: State, text: string, signature: Option<string>, redacted: Option<string>): Step {
    if redacted.Some? then Conclude(PushRedacted(Signed(t, signature), redacted.value))
    else if t.tag.suppress then Step(Signed(t, signature), [])
    else Conclude(PushReasoning(Signed(t, signature), if t.lim.stop.None? then text else "", signature))
  }

  /** One upstream event; nothing is taken after the end or a failure. */
  function Push(t: State, ev: Event): Step {
    if t.finished || t.failure.Some? then Step(t, []) else
    match ev
    case AssistantResponse(content) =>
      if content == "" || t.lim.stop.Some? then Step(t, []) else Conclude(PushAssistant(t, content))
    case ReasoningContent(text, signature, redacted) => OnReasoning(t, text, signature, redacted)
    case ToolUse(id, name, input) =>
      if t.lim.stop.Some? then Step(t, []) else Conclude(PushTool(t, id, name, input))
    case Metadata(uncached, output, _, cacheRead, cacheWrite) =>
      Step(t.(meter := Metered(t.meter, uncached, output, cacheRead, cacheWrite)), [])
    case Metering(input, output) => Step(t.(meter := Remetered(t.meter, input, output)), [])
    case InvalidState(reason, message) => Step(t.(failure := Some(InvalidStateFailure(reason, message))), [])
    case Exception(exceptionType, message) => Step(t.(failure := Some(ExceptionFailure(exceptionType, message))), [])
    case Ignored(_) => Step(t, [])
  }

  /** A run of upstream events. */
  function PushAll(t: State, evs: seq<Event>): Step
    decreases |evs|
  {
    if evs == [] then Step(t, []) else
    var a := Push(t, evs[0]);
    Then(a, PushAll(a.t, evs[1..]))
  }

  /** A run of upstream events and the end of the message. */
  function Whole(t: State, evs: seq<Event>): Step {
    var a := PushAll(t, evs);
    Then(a, Finish(a.t))
  }
}
