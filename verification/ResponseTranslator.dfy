/** The response translator as the object it is: fields that `Push` and `Finish` update. */
module ResponseTranslatorClass {
  import opened Wrappers
  import opened Anthropic
  import opened Kiro
  import opened Text
  import opened TagSplitter
  import opened Emitter
  import StopFilter
  import T = Translator

  class ResponseTranslator {
    const opts: T.Options
    var text: string
    var thinking: string
    var toolCalls: seq<T.ToolCall>
    var redacted: seq<string>
    var signature: Option<string>
    var meter: T.Meter
    var localStop: Option<T.Stop>
    const stopSequences: seq<string>
    const stopMaxKeep: nat
    var stopPending: string
    var outputChars: nat
    var tagInside: bool
    var tagBuf: string
    var suppressReasoning: bool
    var started: bool
    var blockIndex: int
    var active: Option<Active>
    var visible: bool
    var finished: bool
    var failure: Option<T.Failure>

    ghost predicate Valid() {
      stopMaxKeep == StopFilter.MaxKeep(stopSequences)
    }

    ghost function Tags(): TagState
      reads this
    {
      TagState(tagInside, tagBuf, suppressReasoning)
    }

    ghost function Emits(): Emit
      reads this
    {
      Emit(started, blockIndex, active, visible)
    }

    ghost function Limit(): T.Limits
      reads this
    {
      T.Limits(localStop, stopPending, outputChars)
    }

    /** The state as a value. */
    ghost function State(): T.State
      reads this
    {
      T.State(opts, stopSequences, T.Accumulated(text, thinking, toolCalls, redacted, signature), meter, Limit(),
              Tags(), Emits(), finished, failure)
    }

    constructor (options: T.Options)
      ensures Valid() && State() == T.New(options)
    {
      opts := options;
      text, thinking, toolCalls, redacted, signature := "", "", [], [], None;
      meter := T.Meter(false, 0, 0, 0, 0);
      localStop := None;
      var usable := StopFilter.Usable(options.stops);
      stopSequences := usable;
      stopMaxKeep := StopFilter.MaxKeep(usable);
      stopPending, outputChars := "", 0;
      tagInside, tagBuf, suppressReasoning := false, "", false;
      started, blockIndex, active, visible := false, -1, None, false;
      finished, failure := false, None;
    }

    method Stopped() returns (b: bool)
      ensures b == State().lim.stop.Some?
    {
      b := localStop.Some?;
    }

    // ---- accumulation ---------------------------------------------------------------

    method Latch(reason: StopReason, sequence: Option<string>)
      modifies this`localStop
      ensures localStop == T.Latch(old(localStop), reason, sequence)
    {
      if localStop.None? {
        localStop := Some(T.Stop(reason, sequence));
      }
    }

    method EffectiveMaxTokens() returns (n: nat)
      ensures n == T.EffectiveMaxTokens(opts) && 0 < n
    {
      if opts.maxTokens == 0 {
        n := T.ABSOLUTE_MAX_TOKENS;
      } else {
        n := if opts.maxTokens < T.ABSOLUTE_MAX_TOKENS then opts.maxTokens else T.ABSOLUTE_MAX_TOKENS;
      }
    }

    method ApplyMaxTokens(delta: string) returns (out: string)
      modifies this`outputChars, this`localStop
      ensures T.Taken(Limit(), out) == T.Spend(T.Budget(opts), old(Limit()), delta)
    {
      var budget := EffectiveMaxTokens();
      var n := |delta|;
      if (outputChars + n) / 4 < budget {
        outputChars := outputChars + n;
        return delta;
      }
      var remaining := if budget * 4 < outputChars then 0 else budget * 4 - outputChars;
      if remaining == 0 {
        Latch(MaxTokens, None);
        return "";
      }
      if n > remaining {
        outputChars := outputChars + remaining;
        Latch(MaxTokens, None);
        return delta[..remaining];
      }
      outputChars := outputChars + n;
      if outputChars / 4 >= budget {
        Latch(MaxTokens, None);
      }
      out := delta;
    }

    method AccountOpaque(content: string)
      modifies this`outputChars, this`localStop
      ensures Limit() == T.AccountOpaque(T.Budget(opts), old(Limit()), content)
    {
      outputChars := outputChars + |content|;
      var budget := EffectiveMaxTokens();
      if localStop.None? && outputChars / 4 >= budget {
        Latch(MaxTokens, None);
      }
    }

    /** The first stop sequence in list order that the held-back text contains. */
    method FindStop() returns (hit: Option<string>)
      ensures hit == StopFilter.FirstListed(stopSequences, stopPending)
    {
      var i := 0;
      while i < |stopSequences|
        invariant i <= |stopSequences|
        invariant StopFilter.FirstListed(stopSequences, stopPending) == StopFilter.FirstListed(stopSequences[i..], stopPending)
      {
        StopFilter.ListedStep(stopSequences, i, stopPending);
        if Find(stopPending, stopSequences[i]).Some? {
          return Some(stopSequences[i]);
        }
        i := i + 1;
      }
      hit := None;
    }

    method ApplyStopFilter(delta: string) returns (emit: string)
      requires Valid()
      modifies this`stopPending, this`localStop
      ensures T.Taken(Limit(), emit) == T.FilterStops(stopSequences, old(Limit()), delta)
    {
      stopPending := stopPending + delta;
      var hit := FindStop();
      if hit.Some? {
        emit := stopPending[..Find(stopPending, hit.value).value];
        stopPending := "";
        Latch(StopSequence, hit);
        return;
      }
      var count := |stopPending|;
      if count <= stopMaxKeep {
        return "";
      }
      var splitAt := count - stopMaxKeep;
      emit := stopPending[..splitAt];
      stopPending := stopPending[splitAt..];
    }

    method ParseTags(delta: string) returns (textOut: string, think: string)
      modifies this`tagBuf, this`tagInside, this`suppressReasoning
      ensures Split(textOut, think, Tags()) == Feed(THINKING, old(Tags()), delta)
    {
      if tagBuf == "" && !tagInside && '<' !in delta {
        FastFeed(THINKING, Tags(), delta);
        return delta, "";
      }
      tagBuf := tagBuf + delta;
      textOut, think := "", "";
      ghost var r := Feed(THINKING, old(Tags()), delta);
      AfterNothing(r);
      while tagBuf != ""
        invariant r == After(textOut, think, Scan(THINKING, tagInside, suppressReasoning, tagBuf))
        decreases |tagBuf|
      {
        var tag := if tagInside then CLOSE_TAG else OPEN_TAG;
        var idx := Find(tagBuf, tag);
        if idx.None? {
          break;
        }
        textOut, think := CutTag(idx.value, |tag|, textOut, think);
      }
      textOut, think := HoldBackEnd(textOut, think);
    }

    /** Cut the buffer at a tag of length `n` that starts at `i`. */
    method CutTag(i: nat, n: nat, text0: string, think0: string) returns (textOut: string, think: string)
      requires Find(tagBuf, Tag(THINKING, tagInside)) == Some(i) && n == |Tag(THINKING, tagInside)|
      modifies this`tagBuf, this`tagInside, this`suppressReasoning
      ensures |tagBuf| < old(|tagBuf|)
      ensures After(textOut, think, Scan(THINKING, tagInside, suppressReasoning, tagBuf))
              == After(text0, think0, old(Scan(THINKING, tagInside, suppressReasoning, tagBuf)))
    {
      TurnAtTag(THINKING, tagInside, suppressReasoning, tagBuf, i, text0, think0);
      textOut, think := text0, think0;
      if tagInside {
        think := think + tagBuf[..i];
      } else {
        textOut := textOut + tagBuf[..i];
        suppressReasoning := true;
      }
      tagBuf := tagBuf[i + n..];
      tagInside := !tagInside;
    }

    /** No tag is left in the buffer: keep only what may still become one. */
    method HoldBackEnd(text0: string, think0: string) returns (textOut: string, think: string)
      requires Find(tagBuf, Tag(THINKING, tagInside)).None?
      modifies this`tagBuf
      ensures Split(textOut, think, Tags()) == After(text0, think0, old(Scan(THINKING, tagInside, suppressReasoning, tagBuf)))
    {
      TurnAtEnd(THINKING, tagInside, suppressReasoning, tagBuf, text0, think0);
      textOut, think := text0, think0;
      var keep := PartialTagSuffix(tagBuf, if tagInside then CLOSE_TAG else OPEN_TAG);
      var cut := |tagBuf| - keep;
      if tagInside {
        think := think + tagBuf[..cut];
      } else {
        textOut := textOut + tagBuf[..cut];
      }
      tagBuf := tagBuf[cut..];
    }

    method TakeThinking(thought: string) returns (out: string)
      requires thought != ""
      modifies this`outputChars, this`localStop, this`thinking
      ensures T.Taken(Limit(), out) == T.TakeThinking(T.Budget(opts), old(Limit()), thought)
      ensures thinking == old(thinking) + out
    {
      out := ApplyMaxTokens(thought);
      thinking := thinking + out;
    }

    method TakeText(textOut: string) returns (out: string)
      requires Valid() && textOut != ""
      modifies this`outputChars, this`localStop, this`stopPending, this`text
      ensures T.Taken(Limit(), out) == T.TakeText(T.Budget(opts), stopSequences, old(Limit()), textOut)
      ensures text == old(text) + out
    {
      out := textOut;
      if stopSequences != [] {
        out := ApplyStopFilter(out);
      }
      if out != "" && localStop.None? {
        out := ApplyMaxTokens(out);
      }
      text := text + out;
    }

    // ---- emission: each method returns the events it adds -------------------------------

    method EnsureStarted() returns (out: seq<StreamEvent>)
      modifies this`started
      ensures Out(Emits(), out) == Emitter.EnsureStarted(old(Emits()), T.Head(opts))
    {
      if started {
        return [];
      }
      started := true;
      out := [MessageStart(OutMessage(opts.messageId, [], opts.model, None, None, Usage(0, 0, 0, 0)))];
    }

    method CloseActive() returns (out: seq<StreamEvent>)
      modifies this`active
      ensures Out(Emits(), out) == Emitter.CloseActive(old(Emits()))
    {
      out := [];
      if active.Some? {
        active := None;
        out := [BlockStop(Wire(blockIndex))];
      }
    }

    method SwitchBlock(kind: Active) returns (out: seq<StreamEvent>)
      modifies this`active, this`blockIndex
      ensures Out(Emits(), out) == Emitter.SwitchBlock(old(Emits()), kind)
    {
      if active == Some(kind) {
        return [];
      }
      out := CloseActive();
      blockIndex := blockIndex + 1;
      active := Some(kind);
      var block := match kind case ActiveText => TextBlock case ActiveThinking => ThinkingBlock;
      out := out + [BlockStart(Wire(blockIndex), block)];
    }

    method EmitText(piece: string) returns (out: seq<StreamEvent>)
      modifies this`started, this`visible, this`active, this`blockIndex
      ensures Out(Emits(), out) == EmitDelta(old(Emits()), T.Head(opts), ActiveText, piece)
    {
      if piece == "" {
        return [];
      }
      var start := EnsureStarted();
      visible := true;
      var switch := SwitchBlock(ActiveText);
      out := start + switch + [BlockDelta(Wire(blockIndex), TextDelta(piece))];
    }

    method EmitThinking(piece: string) returns (out: seq<StreamEvent>)
      modifies this`started, this`active, this`blockIndex
      ensures Out(Emits(), out) == EmitDelta(old(Emits()), T.Head(opts), ActiveThinking, piece)
    {
      if piece == "" {
        return [];
      }
      var start := EnsureStarted();
      var switch := SwitchBlock(ActiveThinking);
      out := start + switch + [BlockDelta(Wire(blockIndex), ThinkingDelta(piece))];
    }

    method Clear(shown: bool) returns (out: seq<StreamEvent>)
      modifies this`started, this`visible, this`active
      ensures Out(Emits(), out) == Emitter.Clear(old(Emits()), T.Head(opts), shown)
    {
      var start := EnsureStarted();
      if shown {
        visible := true;
      }
      var close := CloseActive();
      out := start + close;
    }

    method EmitWhole(shown: bool, block: Block, delta: Option<Delta>) returns (out: seq<StreamEvent>)
      modifies this`started, this`visible, this`active, this`blockIndex
      ensures T.Step(State(), out) == T.Placed(old(State()), shown, block, delta)
    {
      var clear := Clear(shown);
      blockIndex := blockIndex + 1;
      var whole := [BlockStart(Wire(blockIndex), block)]
                   + (if delta.Some? then [BlockDelta(Wire(blockIndex), delta.value)] else [])
                   + [BlockStop(Wire(blockIndex))];
      out := clear + whole;
    }

    /** Take a piece of thinking and emit what the limits let through. */
    method TakeAndEmitThinking(thought: string) returns (out: seq<StreamEvent>)
      modifies this`outputChars, this`localStop, this`thinking
      modifies this`started, this`active, this`blockIndex
      ensures var k := T.TakeThinking(T.Budget(opts), old(Limit()), thought);
              && Limit() == k.lim && thinking == old(thinking) + k.out
              && Out(Emits(), out) == EmitDelta(old(Emits()), T.Head(opts), ActiveThinking, k.out)
    {
      out := [];
      if thought != "" {
        var t := TakeThinking(thought);
        out := EmitThinking(t);
      }
    }

    /** Take a piece of text and emit what the limits let through. */
    method TakeAndEmitText(piece: string) returns (out: seq<StreamEvent>)
      requires Valid()
      modifies this`outputChars, this`localStop, this`stopPending, this`text
      modifies this`started, this`visible, this`active, this`blockIndex
      ensures var k := T.TakeText(T.Budget(opts), stopSequences, old(Limit()), piece);
              && Limit() == k.lim && text == old(text) + k.out
              && Out(Emits(), out) == EmitDelta(old(Emits()), T.Head(opts), ActiveText, k.out)
    {
      out := [];
      if piece != "" {
        var t := TakeText(piece);
        out := EmitText(t);
      }
    }

    method ShowThinking(thought: string) returns (out: seq<StreamEvent>)
      modifies this
      ensures T.Step(State(), out) == T.ShowThinking(old(State()), thought)
    {
      out := TakeAndEmitThinking(thought);
    }

    method ShowText(piece: string) returns (out: seq<StreamEvent>)
      requires Valid()
      modifies this
      ensures T.Step(State(), out) == T.ShowText(old(State()), piece)
    {
      hide Emitter.EmitDelta;
      hide T.TakeText;
      out := TakeAndEmitText(piece);
    }

    // ---- the two entry points -----------------------------------------------------------

    method PushAssistant(content: string) returns (out: seq<StreamEvent>)
      requires Valid()
      modifies this
      ensures T.Step(State(), out) == T.PushAssistant(old(State()), content)
    {
      var textOut, think := ParseTags(content);
      assert State() == old(State()).(tag := Feed(THINKING, old(Tags()), content).st);
      var first := ShowThinking(think);
      var second := ShowText(textOut);
      out := first + second;
    }

    method PushRedacted(data: string) returns (out: seq<StreamEvent>)
      modifies this
      ensures T.Step(State(), out) == T.PushRedacted(old(State()), data)
    {
      hide Emitter.EmitWhole;
      hide T.AccountOpaque;
      redacted := redacted + [data];
      AccountOpaque(data);
      out := EmitWhole(false, RedactedBlock(data), None);
    }

    method PushReasoning(piece: string, sig: Option<string>) returns (out: seq<StreamEvent>)
      modifies this
      ensures T.Step(State(), out) == T.PushReasoning(old(State()), piece, sig)
    {
      out := ShowThinking(piece);
      out := out + if sig.Some? && active == Some(ActiveThinking)
                   then [BlockDelta(Wire(blockIndex), SignatureDelta(sig.value))] else [];
    }

    method PushTool(id: string, shortName: string, input: string) returns (out: seq<StreamEvent>)
      modifies this
      ensures T.Step(State(), out) == T.PushTool(old(State()), id, shortName, input)
    {
      hide Emitter.EmitWhole;
      hide T.AccountOpaque;
      var name := if shortName in opts.toolNames then opts.toolNames[shortName] else shortName;
      AccountOpaque(input);
      toolCalls := toolCalls + [T.ToolCall(id, name, input)];
      out := EmitWhole(true, ToolBlock(id, name), Some(InputJsonDelta(input)));
    }

    method Conclude(events: seq<StreamEvent>) returns (out: seq<StreamEvent>)
      requires Valid()
      modifies this
      ensures T.Step(State(), out) == T.Conclude(T.Step(old(State()), events))
    {
      out := events;
      if localStop.Some? {
        var tail := Finish();
        out := out + tail;
      }
    }

    method OnReasoning(piece: string, sig: Option<string>, redactedContent: Option<string>) returns (out: seq<StreamEvent>)
      requires Valid()
      modifies this
      ensures T.Step(State(), out) == T.OnReasoning(old(State()), piece, sig, redactedContent)
    {
      hide T.Conclude;
      hide T.PushRedacted;
      hide T.PushReasoning;
      hide T.Finish;
      if sig.Some? {
        signature := sig;
      }
      if redactedContent.Some? {
        out := PushRedacted(redactedContent.value);
        out := Conclude(out);
        return;
      }
      if suppressReasoning {
        return [];
      }
      out := PushReasoning(if localStop.None? then piece else "", sig);
      out := Conclude(out);
    }

    /** Consume one upstream event. */
    method Push(ev: Event) returns (out: seq<StreamEvent>)
      requires Valid()
      modifies this
      ensures T.Step(State(), out) == T.Push(old(State()), ev)
    {
      hide T.Conclude;
      hide T.PushAssistant;
      hide T.OnReasoning;
      hide T.PushTool;
      hide T.Finish;
      out := [];
      if finished || failure.Some? {
        return;
      }
      match ev {
        case AssistantResponse(content) =>
          if content == "" || localStop.Some? {
            return;
          }
          out := PushAssistant(content);
          out := Conclude(out);
        case ReasoningContent(piece, sig, redactedContent) =>
          out := OnReasoning(piece, sig, redactedContent);
        case ToolUse(id, name, input) =>
          if localStop.Some? {
            return;
          }
          out := PushTool(id, name, input);
          out := Conclude(out);
        case Metadata(uncached, output, _, cacheRead, cacheWrite) =>
          var input := T.Saturate(uncached + cacheRead);
          if input > 0 || output > 0 {
            meter := T.Meter(true, input, output, cacheRead, cacheWrite);
          } else {
            meter := meter.(cacheRead := T.Max(meter.cacheRead, cacheRead), cacheWrite := T.Max(meter.cacheWrite, cacheWrite));
          }
        case Metering(input, output) =>
          if !meter.hasMetadata && (input > 0 || output > 0) {
            meter := meter.(input := input, output := output);
          }
        case InvalidState(reason, message) =>
          failure := Some(T.InvalidStateFailure(reason, message));
        case Exception(exceptionType, message) =>
          failure := Some(T.ExceptionFailure(exceptionType, message));
        case Ignored(_) =>
      }
    }

    method FlushTag() returns (out: seq<StreamEvent>)
      requires Valid()
      modifies this
      ensures T.Step(State(), out) == T.FlushTag(old(State()))
    {
      var remaining := tagBuf;
      tagBuf := "";
      if tagInside {
        out := ShowThinking(remaining);
      } else {
        out := ShowText(if localStop.None? then remaining else "");
      }
    }

    method FlushPending() returns (out: seq<StreamEvent>)
      modifies this
      ensures T.Step(State(), out) == T.FlushPending(old(State()))
    {
      hide T.Spend;
      var pending := if localStop.None? then stopPending else "";
      stopPending := "";
      ghost var t1 := State();
      ghost var k := T.TakeThinking(T.Budget(opts), Limit(), pending);
      out := [];
      if pending != "" {
        var t := ApplyMaxTokens(pending);
        text := text + t;
        out := EmitText(t);
      }
      assert T.Step(State(), out) == T.ShowTaken(t1, k);
    }

    method FinishEnd() returns (out: seq<StreamEvent>)
      modifies this
      ensures T.Step(State(), out) == T.FinishEnd(old(State()))
    {
      out := CloseActive();
      var stop := if localStop.Some? then localStop.value
                  else if toolCalls != [] then T.Stop(ToolUseStop, None) else T.Stop(EndTurn, None);
      var usage := UsageNow();
      out := out + [MessageDelta(stop.reason, stop.sequence, usage), MessageStop];
    }

    /** Flush what is held back and end the message; a second call does nothing. */
    method Finish() returns (out: seq<StreamEvent>)
      requires Valid()
      modifies this
      ensures T.Step(State(), out) == T.Finish(old(State()))
    {
      if finished {
        return [];
      }
      finished := true;
      var start := EnsureStarted();
      ghost var a := T.FinishStart(old(State()));
      assert T.Step(State(), start) == a;
      var tags := FlushTag();
      ghost var b := T.FlushTag(a.t);
      assert T.Step(State(), tags) == b;
      var pending := FlushPending();
      ghost var c := T.FlushPending(b.t);
      assert T.Step(State(), pending) == c;
      var end := FinishEnd();
      assert T.Step(State(), end) == T.FinishEnd(c.t);
      out := start + tags + pending + end;
    }

    method UsageNow() returns (u: Usage)
      ensures u == T.UsageOf(State())
    {
      var input, output;
      if meter.input > 0 || meter.output > 0 {
        input, output := meter.input, meter.output;
      } else {
        input := opts.estimatedInput;
        output := if outputChars == 0 then 0 else if outputChars / 4 > 1 then outputChars / 4 else 1;
      }
      u := Usage(input, output, meter.cacheRead, meter.cacheWrite);
    }
  }

  /** What was split off before, then the rest. */
  ghost function After(text: string, think: string, r: Split): Split {
    Split(text + r.text, think + r.think, r.st)
  }

  lemma AfterNothing(r: Split)
    ensures After("", "", r) == r
  {
    assert "" + r.text == r.text && "" + r.think == r.think;
  }

  /** One turn of the splitting loop that finds the tag at `i`. */
  lemma TurnAtTag(g: Tags, inside: bool, suppress: bool, buf: string, i: nat, text: string, think: string)
    requires Find(buf, Tag(g, inside)) == Some(i)
    ensures After(text, think, Scan(g, inside, suppress, buf))
            == After(if inside then text else text + buf[..i], if inside then think + buf[..i] else think,
                     Scan(g, !inside, suppress || !inside, buf[i + |Tag(g, inside)|..]))
  {
    var rest := buf[i + |Tag(g, inside)|..];
    ScanAtTag(g, inside, suppress, buf, i, rest);
    AfterPrepend(inside, text, think, buf[..i], Scan(g, !inside, suppress || !inside, rest));
  }

  lemma AfterPrepend(inside: bool, text: string, think: string, head: string, r: Split)
    ensures After(text, think, Prepend(inside, head, r))
            == After(if inside then text else text + head, if inside then think + head else think, r)
  {
    assert text + (head + r.text) == (text + head) + r.text;
    assert think + (head + r.think) == (think + head) + r.think;
  }

  /** The last turn of the splitting loop. */
  lemma TurnAtEnd(g: Tags, inside: bool, suppress: bool, buf: string, text: string, think: string)
    requires Find(buf, Tag(g, inside)).None?
    ensures var cut := |buf| - Part(buf, Tag(g, inside));
            After(text, think, Scan(g, inside, suppress, buf))
            == Split(if inside then text else text + buf[..cut], if inside then think + buf[..cut] else think,
                     TagState(inside, buf[cut..], suppress))
  {
    var cut := |buf| - Part(buf, Tag(g, inside));
    assert text + (buf[..cut] + "") == text + buf[..cut] && text + "" == text;
    assert think + (buf[..cut] + "") == think + buf[..cut] && think + "" == think;
  }
}
