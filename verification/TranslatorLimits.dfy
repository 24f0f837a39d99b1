/** The token budget of the translator, and when it stops. */
module TranslatorLimits {
  import opened Wrappers
  import opened Anthropic
  import opened Kiro
  import opened Text
  import opened Emitter
  import opened TagSplitter
  import opened Translator
  import StopFilter

  /** Characters that are counted but never cut: redacted data and tool input. */
  function Opaque(a: Accumulated): nat {
    Sizes(a.redacted) + InputSizes(a.calls)
  }

  function Sizes(ss: seq<string>): nat {
    if ss == [] then 0 else Sizes(ss[..|ss| - 1]) + |ss[|ss| - 1]|
  }

  function InputSizes(calls: seq<ToolCall>): nat {
    if calls == [] then 0 else InputSizes(calls[..|calls| - 1]) + |calls[|calls| - 1].input|
  }

  /** Everything that was accumulated, in characters. */
  function Size(a: Accumulated): nat {
    |a.text| + |a.thinking| + Opaque(a)
  }

  /** The counter is what has been accumulated, and the budget has room. */
  ghost predicate Within(t: State) {
    t.lim.stop.None? && Size(t.acc) == t.lim.chars < Budget(t.opts)
  }

  /** While nothing has stopped the counter is exact and below the budget. */
  ghost predicate Counted(t: State) {
    t.lim.stop.None? ==> Within(t)
  }

  lemma SpendCounts(budget: nat, l: Limits, delta: string)
    requires l.stop.None?
    ensures var k := Spend(budget, l, delta);
            && k.lim.chars == l.chars + |k.out|
            && (k.lim.stop.None? <==> l.chars + |delta| < budget)
            && (k.lim.stop.None? ==> k.out == delta)
            && (l.chars <= budget ==> k.lim.chars <= budget && (k.lim.stop.Some? ==> k.lim.chars == budget))
            && (k.lim.stop.Some? ==> k.lim.stop == Some(Stop(MaxTokens, None)))
  {
  }

  lemma ThinkingCounts(t: State, thought: string)
    requires Within(t)
    ensures var s := ShowThinking(t, thought);
            && Size(s.t.acc) == s.t.lim.chars <= Budget(t.opts) && Counted(s.t)
            && (s.t.lim.stop.Some? ==> s.t.lim.chars == Budget(t.opts))
  {
    if thought != "" {
      SpendCounts(Budget(t.opts), t.lim, thought);
    }
  }

  /** Text keeps the counter exact unless the stop filter stopped. */
  lemma TextCounts(t: State, text: string)
    requires Within(t)
    ensures Counted(ShowText(t, text).t)
    ensures t.stops == [] ==> var s := ShowText(t, text); Size(s.t.acc) == s.t.lim.chars <= Budget(t.opts)
  {
    if text != "" {
      var f := if t.stops == [] then Taken(t.lim, text) else FilterStops(t.stops, t.lim, text);
      if f.out != "" && f.lim.stop.None? {
        SpendCounts(Budget(t.opts), f.lim, f.out);
      }
    }
  }

  lemma AssistantCounts(t: State, content: string)
    requires Within(t)
    ensures Counted(PushAssistant(t, content).t)
  {
    var split := Feed(THINKING, t.tag, content);
    var a := ShowThinking(t.(tag := split.st), split.think);
    ThinkingCounts(t.(tag := split.st), split.think);
    if a.t.lim.stop.None? {
      TextCounts(a.t, split.text);
    }
  }

  lemma OpaqueGrows(a: Accumulated, data: string, c: ToolCall)
    ensures Size(a.(redacted := a.redacted + [data])) == Size(a) + |data|
    ensures Size(a.(calls := a.calls + [c])) == Size(a) + |c.input|
  {
    assert (a.redacted + [data])[..|a.redacted|] == a.redacted;
    assert (a.calls + [c])[..|a.calls|] == a.calls;
  }

  /** A stop ends the message; until then the counter is exact and below the budget. */
  ghost predicate Inv(t: State) {
    !t.finished ==> Within(t)
  }

  lemma ConcludeCounts(s: Step)
    requires Counted(s.t) && !s.t.finished
    ensures Inv(Conclude(s).t)
  {
    if s.t.lim.stop.Some? {
      assert Finish(s.t).t.finished;
    }
  }

  lemma PushCounts(t: State, ev: Event)
    requires Inv(t)
    ensures Inv(Push(t, ev).t)
  {
    hide Finish;
    hide EmitDelta;
    hide EmitWhole;
    hide Feed;
    if !t.finished && t.failure.None? {
      match ev
      case AssistantResponse(content) =>
        AssistantCounts(t, content);
        ConcludeCounts(PushAssistant(t, content));
      case ReasoningContent(text, signature, redacted) =>
        var t1 := Signed(t, signature);
        if redacted.Some? {
          OpaqueGrows(t1.acc, redacted.value, ToolCall("", "", ""));
          ConcludeCounts(PushRedacted(t1, redacted.value));
        } else {
          ThinkingCounts(t1, text);
          ConcludeCounts(PushReasoning(t1, text, signature));
        }
      case ToolUse(id, name, input) =>
        OpaqueGrows(t.acc, "", ToolCall(id, OriginalName(t.opts, name), input));
        ConcludeCounts(PushTool(t, id, name, input));
      case _ =>
    }
  }

  lemma {:induction false} PushAllCounts(t: State, evs: seq<Event>)
    requires Inv(t)
    ensures Inv(PushAll(t, evs).t)
    decreases |evs|
  {
    if evs != [] {
      PushCounts(t, evs[0]);
      PushAllCounts(Push(t, evs[0]).t, evs[1..]);
    }
  }

  /** So many characters use up the budget: four for each token asked for, and eight million in any case. */
  predicate UsedUp(opts: Options, chars: nat) {
    8_000_000 <= chars || (opts.maxTokens != 0 && 4 * opts.maxTokens <= chars)
  }

  lemma UsedUpIff(opts: Options, chars: nat)
    ensures UsedUp(opts, chars) <==> Budget(opts) <= chars
  {
  }

  /** In every run: while the message has not ended, everything accumulated is counted and does not use up the budget. */
  lemma RunWithinBudget(opts: Options, evs: seq<Event>)
    ensures var t := PushAll(New(opts), evs).t;
            !t.finished ==> t.lim.stop.None? && Size(t.acc) == t.lim.chars < Budget(opts) && !UsedUp(opts, Size(t.acc))
  {
    UsedUpIff(opts, Size(PushAll(New(opts), evs).t.acc));
    PushAllCounts(New(opts), evs);
    PushAllOpts(New(opts), evs);
  }

  lemma {:induction false} PushAllOpts(t: State, evs: seq<Event>)
    ensures PushAll(t, evs).t.opts == t.opts && PushAll(t, evs).t.stops == t.stops
    decreases |evs|
  {
    if evs != [] {
      PushOpts(t, evs[0]);
      PushAllOpts(Push(t, evs[0]).t, evs[1..]);
    }
  }

  lemma FinishOpts(t: State)
    ensures Finish(t).t.opts == t.opts && Finish(t).t.stops == t.stops
  {
  }

  lemma PushOpts(t: State, ev: Event)
    ensures Push(t, ev).t.opts == t.opts && Push(t, ev).t.stops == t.stops
  {
    hide Finish;
    hide EmitDelta;
    hide EmitWhole;
    hide Feed;
    match ev
    case AssistantResponse(content) => FinishOpts(PushAssistant(t, content).t);
    case ReasoningContent(text, signature, redacted) =>
      var t1 := Signed(t, signature);
      if redacted.Some? {
        FinishOpts(PushRedacted(t1, redacted.value).t);
      } else {
        FinishOpts(PushReasoning(t1, if t.lim.stop.None? then text else "", signature).t);
      }
    case ToolUse(id, name, input) => FinishOpts(PushTool(t, id, name, input).t);
    case _ =>
  }

  // ---- without stop sequences ------------------------------------------------------------

  /** The budget is reached exactly when the counter says so. */
  ghost predicate StopsAtBudget(t: State) {
    && (t.lim.stop.None? <==> t.lim.chars < Budget(t.opts))
    && (t.lim.stop.Some? ==> t.lim.stop == Some(Stop(MaxTokens, None)))
  }

  lemma SpendStops(t: State, l: Limits, delta: string)
    requires StopsAtBudget(t.(lim := l))
    ensures StopsAtBudget(t.(lim := Spend(Budget(t.opts), l, delta).lim))
  {
  }

  lemma PiecesStop(t: State, s: string)
    requires t.stops == [] && StopsAtBudget(t)
    ensures StopsAtBudget(ShowThinking(t, s).t) && StopsAtBudget(ShowText(t, s).t)
    ensures StopsAtBudget(FlushTag(t).t) && StopsAtBudget(FlushPending(t).t)
  {
    hide EmitDelta;
    SpendStops(t, t.lim, s);
    SpendStops(t, t.lim, t.tag.buf);
    SpendStops(t, t.lim.(pending := ""), t.lim.pending);
  }

  lemma FinishStops(t: State)
    requires t.stops == [] && StopsAtBudget(t)
    ensures StopsAtBudget(Finish(t).t)
  {
    if !t.finished {
      var a := FinishStart(t);
      PiecesStop(a.t, "");
      PiecesStop(FlushTag(a.t).t, "");
    }
  }

  lemma PushStops(t: State, ev: Event)
    requires t.stops == [] && StopsAtBudget(t)
    ensures StopsAtBudget(Push(t, ev).t)
  {
    hide Finish;
    hide EmitDelta;
    hide EmitWhole;
    hide Feed;
    if !t.finished && t.failure.None? {
      match ev
      case AssistantResponse(content) =>
        var split := Feed(THINKING, t.tag, content);
        var a := ShowThinking(t.(tag := split.st), split.think);
        PiecesStop(t.(tag := split.st), split.think);
        PiecesStop(a.t, split.text);
        FinishStops(PushAssistant(t, content).t);
      case ReasoningContent(text, signature, redacted) =>
        var t1 := Signed(t, signature);
        if redacted.Some? {
          FinishStops(PushRedacted(t1, redacted.value).t);
        } else {
          PiecesStop(t1, text);
          PiecesStop(t1, "");
          FinishStops(PushReasoning(t1, if t.lim.stop.None? then text else "", signature).t);
        }
      case ToolUse(id, name, input) => FinishStops(PushTool(t, id, name, input).t);
      case _ =>
    }
  }

  lemma {:induction false} PushAllStops(t: State, evs: seq<Event>)
    requires t.stops == [] && StopsAtBudget(t)
    ensures StopsAtBudget(PushAll(t, evs).t)
    decreases |evs|
  {
    if evs != [] {
      PushStops(t, evs[0]);
      PushOpts(t, evs[0]);
      PushAllStops(Push(t, evs[0]).t, evs[1..]);
    }
  }

  /** Without stop sequences every run stops exactly when the counter reaches the budget, and says `max_tokens`. */
  lemma StopsExactlyAtBudget(opts: Options, evs: seq<Event>)
    requires StopFilter.Usable(opts.stops) == []
    ensures var t := Whole(New(opts), evs).t;
            && (t.lim.stop.Some? <==> UsedUp(opts, t.lim.chars))
            && (t.lim.stop.Some? ==> t.lim.stop == Some(Stop(MaxTokens, None)))
  {
    var a := PushAll(New(opts), evs);
    PushAllStops(New(opts), evs);
    PushAllOpts(New(opts), evs);
    FinishStops(a.t);
    FinishOpts(a.t);
    UsedUpIff(opts, Whole(New(opts), evs).t.lim.chars);
  }

  // ---- when the budget is exceeded -------------------------------------------------------

  /** What the stop filter makes of a piece of text; without sequences all of it is let through. */
  function Filter(t: State, text: string): StopFilter.Filtered {
    if t.stops == [] || text == "" then StopFilter.Filtered(text, t.lim.pending, None)
    else StopFilter.Apply(t.stops, t.lim.pending, text)
  }

  function Min(a: int, b: int): int {
    if a < b then a else b
  }

  /**
   What one delta of assistant text shows. The budget cuts thinking, and it cuts text only when
   nothing has stopped: text is not cut when the thinking of the same delta used the budget
   up, and not when a stop sequence was found in it.
   */
  lemma AssistantShows(t: State, content: string)
    requires Within(t)
    ensures var split := Feed(THINKING, t.tag, content);
            var f, room := Filter(t, split.text), Budget(t.opts) - t.lim.chars;
            var p := PushAssistant(t, content).t;
            && p.acc.thinking == t.acc.thinking + Take(split.think, room)
            && p.acc.text == t.acc.text + (if room <= |split.think| || f.hit.Some? then f.emit else Take(f.emit, room - |split.think|))
            && p.acc.calls == t.acc.calls && p.acc.redacted == t.acc.redacted
  {
    hide EmitDelta;
    hide Feed;
    hide StopFilter.Apply;
    var split := Feed(THINKING, t.tag, content);
    var a := ShowThinking(t.(tag := split.st), split.think);
    if split.think != "" {
      SpendCounts(Budget(t.opts), t.lim, split.think);
    }
    var f := Filter(t, split.text);
    if f.emit != "" && f.hit.None? && a.t.lim.stop.None? {
      SpendCounts(Budget(t.opts), a.t.lim.(pending := f.pending), f.emit);
    }
  }

  /** How much one delta of assistant text adds. */
  lemma AssistantAdds(t: State, content: string)
    requires Within(t)
    ensures var split := Feed(THINKING, t.tag, content);
            var think, f, room := |split.think|, Filter(t, split.text), Budget(t.opts) - t.lim.chars;
            Size(PushAssistant(t, content).t.acc)
            == if room <= think then Budget(t.opts) + |f.emit|
               else if f.hit.Some? then t.lim.chars + think + |f.emit|
               else t.lim.chars + Min(think + |f.emit|, room)
  {
    hide PushAssistant;
    AssistantShows(t, content);
  }

  /** What a delta of assistant text leaves behind, and when it stops. */
  lemma AssistantLeaves(t: State, content: string)
    requires Within(t)
    ensures var split := Feed(THINKING, t.tag, content);
            var think, f, room := |split.think|, Filter(t, split.text), Budget(t.opts) - t.lim.chars;
            var p := PushAssistant(t, content).t;
            && p.tag == split.st && p.opts == t.opts && p.stops == t.stops && p.finished == t.finished && p.failure == t.failure
            && p.lim.pending == f.pending
            && (p.lim.stop.None? <==> think < room && f.hit.None? && think + |f.emit| < room)
            && (p.lim.stop.Some? ==>
                  && p.lim.chars == (if room <= think || f.hit.None? then Budget(t.opts) else t.lim.chars + think)
                  && p.lim.stop.value == if room <= think || f.hit.None? then Stop(MaxTokens, None) else Stop(StopSequence, f.hit))
  {
    hide EmitDelta;
    hide Feed;
    hide StopFilter.Apply;
    var split := Feed(THINKING, t.tag, content);
    var a := ShowThinking(t.(tag := split.st), split.think);
    if split.think != "" {
      SpendCounts(Budget(t.opts), t.lim, split.think);
    }
    var f := Filter(t, split.text);
    if f.emit != "" && f.hit.None? && a.t.lim.stop.None? {
      SpendCounts(Budget(t.opts), a.t.lim.(pending := f.pending), f.emit);
    }
  }

  /**
   A delta exceeds the budget in two ways: its thinking uses the budget up and it shows text
   as well, or the text before a stop sequence in it does not fit.
   */
  lemma ExceedsIff(t: State, content: string)
    requires Within(t)
    ensures var split := Feed(THINKING, t.tag, content);
            var think, f, room := |split.think|, Filter(t, split.text), Budget(t.opts) - t.lim.chars;
            Size(PushAssistant(t, content).t.acc) > Budget(t.opts)
            <==> f.emit != "" && (room <= think || (f.hit.Some? && room < think + |f.emit|))
  {
    AssistantAdds(t, content);
  }
}
