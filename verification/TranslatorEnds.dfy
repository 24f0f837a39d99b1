/** How a run ends: in which call, how far past the budget, and with which text behind a stop sequence. */
module TranslatorEnds {
  import opened Wrappers
  import opened Anthropic
  import opened Kiro
  import opened Text
  import opened TagSplitter
  import opened Translator
  import opened TranslatorLimits
  import opened TranslatorText
  import Emitter
  import StopFilter
  import TranslatorGrammar

  // ---- the call that ends the message ------------------------------------------------------

  /** The index of the event whose push ends the message, or their number when none does. */
  function EndsAt(t: State, evs: seq<Event>): (k: nat)
    ensures k <= |evs|
    decreases |evs|
  {
    if evs == [] || Push(t, evs[0]).t.finished then 0 else 1 + EndsAt(Push(t, evs[0]).t, evs[1..])
  }

  lemma PushAllStep(t: State, evs: seq<Event>, k: nat)
    requires 0 < k <= |evs|
    ensures PushAll(t, evs[..k]).t == PushAll(Push(t, evs[0]).t, evs[1..][..k - 1]).t
  {
    assert evs[..k][1..] == evs[1..][..k - 1];
  }

  /** One call ends the message, and it is the last that changes anything. */
  lemma {:induction false} LastCall(t: State, evs: seq<Event>)
    requires !t.finished
    ensures var k := EndsAt(t, evs);
            var s := PushAll(t, evs[..k]).t;
            && !s.finished
            && (k < |evs| ==> Push(s, evs[k]).t.finished && s.failure.None?)
            && PushAll(t, evs).t == (if k < |evs| then Push(s, evs[k]).t else s)
            && Whole(t, evs).t == (if k < |evs| then Push(s, evs[k]).t else Finish(s).t)
    decreases |evs|
  {
    hide Push;
    hide Finish;
    var k := EndsAt(t, evs);
    if evs == [] {
      assert evs[..k] == [];
    } else {
      var a := Push(t, evs[0]).t;
      if a.finished {
        assert evs[..0] == [];
        TranslatorGrammar.NothingAfterTheEnd(a, evs[1..]);
        EndsInRun(t, evs[0]);
      } else {
        LastCall(a, evs[1..]);
        PushAllStep(t, evs, k);
      }
    }
  }

  lemma EndsInRun(t: State, ev: Event)
    requires !t.finished && Push(t, ev).t.finished
    ensures t.failure.None?
  {
  }

  // ---- how far past the budget ----------------------------------------------------------------

  /** The thinking held back that ending a message stopped by a sequence still shows. */
  function HeldThinking(t: State, room: nat): nat {
    if t.tag.inside then Min(|t.tag.buf|, room) else 0
  }

  lemma FinishKeepsOpaque(t: State)
    ensures Finish(t).t.acc.calls == t.acc.calls && Finish(t).t.acc.redacted == t.acc.redacted
  {
    hide Emitter.EmitDelta;
    hide StopFilter.Apply;
  }

  /** Ending a stopped message adds the thinking held back, as far as the counter leaves room. */
  lemma StoppedSize(t: State)
    requires t.lim.stop.Some? && !t.finished
    ensures Size(Finish(t).t.acc)
            == Size(t.acc) + HeldThinking(t, if Budget(t.opts) <= t.lim.chars then 0 else Budget(t.opts) - t.lim.chars)
  {
    hide Finish;
    FinishAfterStop(t);
    FinishKeepsOpaque(t);
  }

  /** A delta shows more than the budget. */
  ghost predicate DeltaOvershoots(t: State, content: string) {
    var split := Feed(THINKING, t.tag, content);
    var think, f, room := |split.think|, Filter(t, split.text), Budget(t.opts) - t.lim.chars;
    && f.emit != ""
    && (room <= think
        || (f.hit.Some? && room < think + |f.emit| + HeldThinking(t.(tag := split.st), room - think)))
  }

  lemma DeltaExceedsIff(t: State, content: string)
    requires Within(t) && !t.finished && t.failure.None? && content != ""
    ensures Size(Push(t, AssistantResponse(content)).t.acc) > Budget(t.opts) <==> DeltaOvershoots(t, content)
  {
    hide Finish;
    hide PushAssistant;
    hide Feed;
    hide Size;
    hide StopFilter.Apply;
    var p := PushAssistant(t, content).t;
    AssistantAdds(t, content);
    AssistantLeaves(t, content);
    if p.lim.stop.Some? {
      StoppedSize(p);
    } else {
      AssistantCounts(t, content);
    }
  }

  /** Content that is never cut does not fit. */
  lemma OpaqueExceedsIff(t: State, ev: Event)
    requires Within(t) && !t.finished && t.failure.None?
    requires ev.ToolUse? || (ev.ReasoningContent? && ev.redacted.Some?)
    ensures var s := Push(t, ev).t;
            && (Size(s.acc) > Budget(t.opts)
                <==> Budget(t.opts) - t.lim.chars < if ev.ToolUse? then |ev.input| else |ev.redacted.value|)
            && s.acc.text == t.acc.text && s.acc.thinking == t.acc.thinking
  {
    hide Finish;
    hide Emitter.EmitWhole;
    hide Size;
    if ev.ToolUse? {
      var p := PushTool(t, ev.id, ev.name, ev.input).t;
      OpaqueGrows(t.acc, "", ToolCall(ev.id, OriginalName(t.opts, ev.name), ev.input));
      OpaqueEnds(p);
    } else {
      var t1 := Signed(t, ev.signature);
      assert Size(t1.acc) == Size(t.acc) by { SignedSize(t, ev.signature); }
      var p := PushRedacted(t1, ev.redacted.value).t;
      OpaqueGrows(t1.acc, ev.redacted.value, ToolCall("", "", ""));
      OpaqueEnds(p);
    }
  }

  lemma SignedSize(t: State, signature: Option<string>)
    ensures Size(Signed(t, signature).acc) == Size(t.acc)
  {
  }

  lemma OpaqueEnds(t: State)
    requires !t.finished && (t.lim.stop.Some? ==> Budget(t.opts) <= t.lim.chars)
    ensures var s := Conclude(Step(t, [])).t;
            Size(s.acc) == Size(t.acc) && s.acc.text == t.acc.text && s.acc.thinking == t.acc.thinking
  {
    hide Finish;
    if t.lim.stop.Some? {
      StoppedSize(t);
      FinishAfterStop(t);
      assert t.acc.thinking + "" == t.acc.thinking && t.tag.buf[..0] == "";
    }
  }

  /** Reasoning is always cut. */
  lemma ReasoningFits(t: State, ev: Event)
    requires Within(t) && !t.finished && t.failure.None? && ev.ReasoningContent? && ev.redacted.None?
    ensures Size(Push(t, ev).t.acc) <= Budget(t.opts)
  {
    hide Finish;
    hide Emitter.EmitDelta;
    var t1 := Signed(t, ev.signature);
    SignedSize(t, ev.signature);
    ThinkingCounts(t1, ev.text);
    var p := ShowThinking(t1, ev.text).t;
    if !t.tag.suppress && p.lim.stop.Some? {
      StoppedSize(p);
    }
  }

  /** The push shows more than the budget. */
  ghost predicate Overshoots(t: State, ev: Event) {
    match ev
    case AssistantResponse(content) => content != "" && DeltaOvershoots(t, content)
    case ReasoningContent(_, _, redacted) => redacted.Some? && Budget(t.opts) - t.lim.chars < |redacted.value|
    case ToolUse(_, _, input) => Budget(t.opts) - t.lim.chars < |input|
    case _ => false
  }

  /** Any one push exceeds the budget exactly in these cases. */
  lemma PushExceedsIff(t: State, ev: Event)
    requires Within(t) && !t.finished && t.failure.None?
    ensures Size(Push(t, ev).t.acc) > Budget(t.opts) <==> Overshoots(t, ev)
  {
    hide DeltaOvershoots;
    hide Size;
    hide Finish;
    match ev
    case AssistantResponse(content) =>
      if content != "" {
        DeltaExceedsIff(t, content);
      }
    case ReasoningContent(_, _, redacted) =>
      if redacted.Some? {
        OpaqueExceedsIff(t, ev);
      } else {
        ReasoningFits(t, ev);
      }
    case ToolUse(_, _, _) => OpaqueExceedsIff(t, ev);
    case _ =>
  }

  /** The end of the message shows more than the budget: a stop sequence ends in the held-back start of a tag. */
  ghost predicate EndOvershoots(t: State) {
    !t.tag.inside && Filter(t, t.tag.buf).hit.Some? && Budget(t.opts) - t.lim.chars < |Filter(t, t.tag.buf).emit|
  }

  lemma EndExceedsIff(t: State)
    requires Within(t) && !t.finished
    ensures Size(Finish(t).t.acc) > Budget(t.opts) <==> EndOvershoots(t)
  {
    hide Emitter.EmitDelta;
    hide StopFilter.Apply;
    var a := FinishStart(t).t;
    var b := FlushTag(a).t;
    FlushTagSize(a);
    FlushPendingSize(b);
  }

  lemma FlushTagSize(t: State)
    requires Within(t)
    ensures var b := FlushTag(t).t;
            && b.opts == t.opts
            && (b.lim.stop.None? ==> Size(b.acc) == b.lim.chars < Budget(t.opts))
            && (b.lim.stop.Some? ==> (Size(b.acc) > Budget(t.opts) <==> EndOvershoots(t)))
            && (b.lim.stop.None? ==> !EndOvershoots(t))
  {
    hide Emitter.EmitDelta;
    hide StopFilter.Apply;
    var t1 := t.(tag := t.tag.(buf := ""));
    if t.tag.inside {
      ThinkingCounts(t1, t.tag.buf);
    } else {
      var f := Filter(t, t.tag.buf);
      assert Filter(t1, t.tag.buf) == f;
      if f.emit != "" && f.hit.None? {
        SpendCounts(Budget(t.opts), t1.lim.(pending := f.pending), f.emit);
      }
    }
  }

  lemma FlushPendingSize(t: State)
    ensures var c := FlushPending(t).t;
            && (t.lim.stop.Some? ==> Size(c.acc) == Size(t.acc))
            && (t.lim.stop.None? && Size(t.acc) == t.lim.chars < Budget(t.opts) ==> Size(c.acc) <= Budget(t.opts))
  {
    hide Emitter.EmitDelta;
    if t.lim.stop.None? && t.lim.pending != "" {
      SpendCounts(Budget(t.opts), t.lim.(pending := ""), t.lim.pending);
    }
  }

  /**
   In every run, everything shown is counted and below the budget until the one call that
   ends the message. The whole message is larger than the budget exactly when that call
   overshoots, and its text and thinking are only when it is a text delta or the end.
   */
  lemma RunExceedsIff(opts: Options, evs: seq<Event>)
    ensures var k := EndsAt(New(opts), evs);
            var s, w := PushAll(New(opts), evs[..k]).t, Whole(New(opts), evs).t;
            && Within(s) && s.opts == opts
            && (Size(w.acc) > Budget(opts) <==> if k < |evs| then Overshoots(s, evs[k]) else EndOvershoots(s))
            && (|w.acc.text| + |w.acc.thinking| > Budget(opts) ==> k < |evs| ==> evs[k].AssistantResponse?)
  {
    hide Push;
    hide Finish;
    hide Overshoots;
    hide EndOvershoots;
    hide Within;
    var k := EndsAt(New(opts), evs);
    var s := PushAll(New(opts), evs[..k]).t;
    LastCall(New(opts), evs);
    RunIsWithin(opts, evs[..k]);
    if k < |evs| {
      PushExceedsIff(s, evs[k]);
      OnlyTextExceeds(s, evs[k]);
    } else {
      EndExceedsIff(s);
    }
  }

  lemma RunIsWithin(opts: Options, evs: seq<Event>)
    ensures var s := PushAll(New(opts), evs).t; (!s.finished ==> Within(s)) && s.opts == opts
  {
    hide Push;
    RunWithinBudget(opts, evs);
    PushAllOpts(New(opts), evs);
  }

  lemma OnlyTextExceeds(t: State, ev: Event)
    requires Within(t) && !t.finished && t.failure.None?
    ensures var s := Push(t, ev).t;
            |s.acc.text| + |s.acc.thinking| > Budget(t.opts) ==> ev.AssistantResponse?
  {
    hide Finish;
    match ev
    case ReasoningContent(_, _, redacted) =>
      if redacted.Some? {
        OpaqueExceedsIff(t, ev);
      } else {
        ReasoningFits(t, ev);
      }
    case ToolUse(_, _, _) => OpaqueExceedsIff(t, ev);
    case _ =>
  }

  // ---- what a stop sequence leaves ------------------------------------------------------------

  /**
   A delta that stops the message, and the end that follows: the end adds no text, and it adds
   thinking exactly when a stop sequence stopped, the delta ends in the start of a closing
   tag, and its thinking has left room.
   */
  lemma ThinkingAfterStopIff(t: State, content: string)
    requires Within(t) && !t.finished && PushAssistant(t, content).t.lim.stop.Some?
    ensures var split := Feed(THINKING, t.tag, content);
            var f, room := Filter(t, split.text), Budget(t.opts) - t.lim.chars;
            var p := PushAssistant(t, content).t;
            && Finish(p).t.acc.text == p.acc.text && Finish(p).t.lim.stop == p.lim.stop
            && (Finish(p).t.acc.thinking != p.acc.thinking
                <==> f.hit.Some? && |split.think| < room && split.st.inside && split.st.buf != "")
  {
    hide PushAssistant;
    hide Finish;
    hide Feed;
    hide StopFilter.Apply;
    var p := PushAssistant(t, content).t;
    AssistantLeaves(t, content);
    FinishAfterStop(p);
    assert p.acc.thinking + "" == p.acc.thinking;
  }

  /** Content other than text stops only by budget. */
  lemma OthersStopByBudget(t: State, ev: Event)
    requires Within(t) && !t.finished && t.failure.None? && !ev.AssistantResponse?
    ensures var stop := Push(t, ev).t.lim.stop; stop.Some? ==> stop == Some(Stop(MaxTokens, None))
  {
    hide Finish;
    hide Emitter.EmitDelta;
    hide Emitter.EmitWhole;
    match ev
    case ReasoningContent(text, signature, redacted) =>
      var t1 := Signed(t, signature);
      if redacted.Some? {
        ConcludeKeepsStop(PushRedacted(t1, redacted.value));
      } else {
        ThinkingNeverMatches(t1, text);
        ConcludeKeepsStop(PushReasoning(t1, text, signature));
      }
    case ToolUse(id, name, input) => ConcludeKeepsStop(PushTool(t, id, name, input));
    case _ =>
  }

  lemma ConcludeKeepsStop(s: Step)
    requires !s.t.finished
    ensures Conclude(s).t.lim.stop == s.t.lim.stop
  {
    hide Finish;
    if s.t.lim.stop.Some? {
      FinishAfterStop(s.t);
    }
  }

  lemma {:induction false} SaidSplit(evs: seq<Event>, n: nat)
    requires n <= |evs|
    ensures Said(evs) == Said(evs[..n]) + Said(evs[n..])
  {
    if n == 0 {
      assert evs[0..] == evs;
      assert "" + Said(evs) == Said(evs);
    } else {
      SaidSplit(evs[1..], n - 1);
      assert evs[..n][1..] == evs[1..][..n - 1] && evs[n..] == evs[1..][n - 1..];
      Regroup3(SaidOne(evs[0]), Said(evs[1..][..n - 1]), Said(evs[n..]));
    }
  }

  /** All the text outside thinking that upstream sent. */
  function Outside(evs: seq<Event>): string {
    Kind(false, false, Sections(THINKING, false, Said(evs)))
  }

  /** Text once let through by the splitter is the start of all the text. */
  lemma TextIsPrefix(evs: seq<Event>, n: nat)
    requires n <= |evs|
    ensures SplitOf(Said(evs[..n])).text <= Outside(evs)
  {
    hide Scan;
    hide Feed;
    SaidSplit(evs, n);
    Append1(Said(evs[..n]), Said(evs[n..]));
    ScanIsSections(THINKING, false, false, Said(evs), false);
    SplitIsScan(Said(evs));
    var a, b := SplitOf(Said(evs[..n])).text, Feed(THINKING, SplitOf(Said(evs[..n])).st, Said(evs[n..])).text;
    var c := if SplitOf(Said(evs)).st.inside then "" else SplitOf(Said(evs)).st.buf;
    assert (a + b) + c == a + (b + c);
  }

  lemma SplitIsScan(said: string)
    ensures SplitOf(said) == Scan(THINKING, false, false, said)
  {
    hide Scan;
    assert "" + said == said;
  }

  /** The text that was read when the message ended. */
  function TextRead(opts: Options, evs: seq<Event>): string {
    var k := EndsAt(New(opts), evs);
    if k < |evs| then SplitOf(Said(evs[..k + 1])).text else Outside(evs)
  }

  lemma OthersStopByBudgetAt(t: State, ev: Event)
    requires Within(t) && !t.finished && t.failure.None?
    requires Push(t, ev).t.lim.stop.Some? && Push(t, ev).t.lim.stop.value.reason == StopSequence
    ensures ev.AssistantResponse?
  {
    hide Push;
    if !ev.AssistantResponse? {
      OthersStopByBudget(t, ev);
    }
  }

  /** A delta that ended the message latched the stop itself. */
  lemma DeltaStops(t: State, c: string)
    requires Within(t) && !t.finished && t.failure.None? && Push(t, AssistantResponse(c)).t.finished
    ensures var p := PushAssistant(t, c).t;
            p.lim.stop.Some? && !p.finished && Push(t, AssistantResponse(c)).t == Finish(p).t
    ensures Push(t, AssistantResponse(c)).t.lim.stop == PushAssistant(t, c).t.lim.stop
  {
    hide Finish;
    hide PushAssistant;
    AssistantLeaves(t, c);
    ConcludeKeepsStop(PushAssistant(t, c));
  }

  /** The stop sequence was completed by a delta. */
  lemma DeltaCut(t: State, said: string, ev: Event, x: string)
    requires Follows(t, said) && Runs(t)
    requires Push(t, ev).t.finished && Push(t, ev).t.lim.stop == Some(Stop(StopSequence, Some(x)))
    ensures var read := SplitOf(said + SaidOne(ev)).text;
            && StopFilter.FirstListed(t.stops, read) == Some(x)
            && Push(t, ev).t.acc.text == read[..Find(read, x).value]
  {
    hide Push;
    hide Finish;
    hide PushAssistant;
    hide SplitOf;
    OthersStopByBudgetAt(t, ev);
    DeltaStops(t, ev.content);
    StopCutsAtFirst(t, said, ev.content, x);
    FinishAfterStop(PushAssistant(t, ev.content).t);
  }

  lemma SaidSnoc(evs: seq<Event>, k: nat)
    requires k < |evs|
    ensures Said(evs[..k + 1]) == Said(evs[..k]) + SaidOne(evs[k])
  {
    SaidSplit(evs[..k + 1], k);
    assert evs[..k + 1][..k] == evs[..k] && evs[..k + 1][k..] == [evs[k]];
    assert [evs[k]][1..] == [];
    assert SaidOne(evs[k]) + "" == SaidOne(evs[k]);
  }

  lemma RunFollows(opts: Options, evs: seq<Event>)
    requires Runs(PushAll(New(opts), evs).t)
    ensures Follows(PushAll(New(opts), evs).t, Said(evs))
  {
    hide Follows;
    StartFollows(opts);
    PushAllFollows(New(opts), "", evs);
    assert "" + Said(evs) == Said(evs);
  }

  /** The stop sequence was completed by the end of the stream, which frees the start of a tag. */
  lemma EndCut(t: State, said: string, x: string)
    requires Follows(t, said) && Runs(t) && Finish(t).t.lim.stop == Some(Stop(StopSequence, Some(x)))
    ensures var all := Total(SplitOf(said), false);
            && StopFilter.FirstListed(t.stops, all) == Some(x)
            && Finish(t).t.acc.text == all[..Find(all, x).value]
  {
    hide Emitter.EmitDelta;
    hide SplitOf;
    hide Find;
    hide StopFilter.Apply;
    var a := FinishStart(t).t;
    var b := FlushTag(a).t;
    var a1 := a.(tag := a.tag.(buf := ""));
    assert Within(a1) && Seen(a1, SplitOf(said).text);
    FlushPendingStops(b);
    if t.tag.inside {
      ThinkingNeverMatches(a1, t.tag.buf);
    } else {
      TextStops(a1, SplitOf(said).text, t.tag.buf, x);
    }
  }

  lemma FlushPendingStops(t: State)
    ensures var c := FlushPending(t).t;
            && (t.lim.stop.Some? ==> c.lim.stop == t.lim.stop && c.acc.text == t.acc.text)
            && (t.lim.stop.None? && c.lim.stop.Some? ==> c.lim.stop == Some(Stop(MaxTokens, None)))
  {
    hide Emitter.EmitDelta;
    assert t.acc.text + "" == t.acc.text;
  }

  /**
   In every run that a stop sequence `x` stopped, in a delta or at the end of the stream, the
   text is all the text outside thinking up to where `x` occurs in it first; `x` is the first
   listed of the sequences in the text that was read.
   */
  lemma StopCutsRun(opts: Options, evs: seq<Event>, x: string)
    requires PushAll(New(opts), evs).t.failure.None?
    requires Whole(New(opts), evs).t.lim.stop == Some(Stop(StopSequence, Some(x)))
    ensures var all, read := Outside(evs), TextRead(opts, evs);
            && read <= all && StopFilter.FirstListed(StopFilter.Usable(opts.stops), read) == Some(x)
            && Find(all, x).Some? && Whole(New(opts), evs).t.acc.text == all[..Find(all, x).value]
  {
    hide Push;
    hide Finish;
    hide Follows;
    hide Outside;
    hide SplitOf;
    hide Find;
    var k := EndsAt(New(opts), evs);
    var all, read := Outside(evs), TextRead(opts, evs);
    if k < |evs| {
      LastCall(New(opts), evs);
      RunFollows(opts, evs[..k]);
      SaidSnoc(evs, k);
      DeltaCut(PushAll(New(opts), evs[..k]).t, Said(evs[..k]), evs[k], x);
      PushAllOpts(New(opts), evs[..k]);
      TextIsPrefix(evs, k + 1);
      FindExtend(read, all[|read|..], x);
      assert read + all[|read|..] == all;
      assert all[..Find(all, x).value] == read[..Find(all, x).value];
    } else {
      LastCall(New(opts), evs);
      assert evs[..k] == evs;
      RunFollows(opts, evs);
      EndCut(PushAll(New(opts), evs).t, Said(evs), x);
      PushAllOpts(New(opts), evs);
      OutsideIsTotal(evs);
    }
  }

  lemma OutsideIsTotal(evs: seq<Event>)
    ensures Outside(evs) == Total(SplitOf(Said(evs)), false)
  {
    ScanIsSections(THINKING, false, false, Said(evs), false);
    SplitIsScan(Said(evs));
  }

  // ---- cases ------------------------------------------------------------------------------------

  /** A run of one event. */
  lemma OneEvent(t: State, ev: Event)
    requires !t.finished
    ensures Whole(t, [ev]).t == if Push(t, ev).t.finished then Push(t, ev).t else Finish(Push(t, ev).t).t
  {
    hide Push;
    hide Finish;
    LastCall(t, [ev]);
    assert [ev][..0] == [] && [ev][..1] == [ev] && [ev][1..] == [];
    assert PushAll(Push(t, ev).t, []).t == Push(t, ev).t;
  }

  /** A run of one delta in which the message stops. */
  lemma OneStop(t: State, content: string)
    requires !t.finished && t.failure.None? && t.lim.stop.None? && content != ""
    requires PushAssistant(t, content).t.lim.stop.Some? && !PushAssistant(t, content).t.finished
    ensures Whole(t, [AssistantResponse(content)]).t == Finish(PushAssistant(t, content).t).t
  {
    hide PushAssistant;
    OneEvent(t, AssistantResponse(content));
    TranslatorGrammar.FinishEnds(PushAssistant(t, content).t);
  }

  lemma ThinkingThenTextSplit()
    ensures SplitOf("<thinking>aaaa</thinking>b") == Split("b", "aaaa", TagState(false, "", true))
  {
    hide Feed;
    var rest := "aaaa" + CLOSE_TAG + "b";
    assert rest == "aaaa</thinking>b";
    assert "" + OPEN_TAG + rest == "<thinking>aaaa</thinking>b";
    OneSection("", "aaaa", "b");
    assert "" + "b" == "b";
  }

  lemma OpenAfterStopSplit()
    ensures SplitOf("abSTOP<thinking>foo</thin") == Split("abSTOP", "foo", TagState(true, "</thin", true))
  {
    hide Feed;
    var rest := "foo" + CLOSE_TAG[..6];
    assert CLOSE_TAG[..6] == "</thin" && rest == "foo</thin";
    assert "abSTOP" + OPEN_TAG + rest == "abSTOP<thinking>foo</thin";
    OpenSection("abSTOP", "foo", 6);
  }

  /** Thinking that uses the budget up, and text in the same delta: with one token, five characters. */
  lemma ThinkingThenText(opts: Options)
    requires StopFilter.Usable(opts.stops) == [] && Budget(opts) == 4
    ensures var w := Whole(New(opts), [AssistantResponse("<thinking>aaaa</thinking>b")]).t;
            w.acc.thinking == "aaaa" && w.acc.text == "b"
  {
    hide PushAssistant;
    hide Finish;
    hide Feed;
    var t, c := New(opts), "<thinking>aaaa</thinking>b";
    ThinkingThenTextSplit();
    assert "" + "b" == "b" && "" + "aaaa" == "aaaa";
    StartFollows(opts);
    AssistantShows(t, c);
    AssistantLeaves(t, c);
    OneStop(t, c);
    FinishAfterStop(PushAssistant(t, c).t);
    assert "aaaa" + "" == "aaaa";
  }

  /** Text before a stop sequence is not cut: with one token, five characters. */
  lemma TextBeforeStop(opts: Options)
    requires opts.stops == ["E"] && Budget(opts) == 4
    ensures var w := Whole(New(opts), [AssistantResponse("aaaaaE")]).t;
            w.acc.text == "aaaaa" && w.lim.stop == Some(Stop(StopSequence, Some("E")))
  {
    hide PushAssistant;
    hide Finish;
    hide Feed;
    hide Find;
    var t, c := New(opts), "aaaaaE";
    FastFeed(THINKING, START, c);
    OneListed("E", "aaaaa");
    assert "" + c == c == "aaaaa" + "E";
    assert "" + "aaaaa" == "aaaaa";
    StartFollows(opts);
    AssistantShows(t, c);
    AssistantLeaves(t, c);
    OneStop(t, c);
    FinishAfterStop(PushAssistant(t, c).t);
  }

  /** One stop sequence at the end of a text without its first character. */
  lemma OneListed(x: string, head: string)
    requires x != "" && x[0] !in head
    ensures StopFilter.Usable([x]) == [x]
    ensures StopFilter.Apply([x], "", head + x) == StopFilter.Filtered(head, "", Some(x))
  {
    hide Find;
    StopFilter.OneSequence(x, head);
    assert "" + (head + x) == head + x && (head + x)[..|head|] == head;
  }

  /** Ending a message whose held-back start of a tag completes a stop sequence. */
  lemma EndStops(t: State)
    requires Runs(t) && t.lim.stop.None? && !t.tag.inside && Filter(t, t.tag.buf).hit.Some?
    ensures var f := Filter(t, t.tag.buf);
            Finish(t).t.acc.text == t.acc.text + f.emit && Finish(t).t.lim.stop == Some(Stop(StopSequence, f.hit))
  {
    hide Emitter.EmitDelta;
    hide StopFilter.Apply;
    var a := FinishStart(t).t;
    assert Filter(a, a.tag.buf) == Filter(t, t.tag.buf);
    FlushPendingStops(FlushTag(a).t);
  }

  /** Text shorter than the only stop sequence is all held back. */
  lemma AllHeld(x: string, d: string)
    requires |d| < |x|
    ensures StopFilter.Apply([x], "", d) == StopFilter.Filtered("", d, None)
  {
    FindMeaning(d, x);
    assert !Occurs(d, x);
    assert "" + d == d && [x][1..] == [];
    assert StopFilter.FirstListed([x], d).None?;
    assert StopFilter.MaxKeep([x]) == |x| - 1;
  }

  /** The end of the stream completes a stop sequence that the tag splitter held back. */
  lemma StopAtTheEnd(opts: Options)
    requires opts.stops == ["<th"]
    ensures var w := Whole(New(opts), [AssistantResponse("ab<th")]).t;
            w.acc.text == "ab" && w.lim.stop == Some(Stop(StopSequence, Some("<th")))
  {
    hide PushAssistant;
    hide Finish;
    hide Feed;
    hide Find;
    hide StopFilter.Apply;
    var t, c := New(opts), "ab<th";
    var p := PushAssistant(t, c).t;
    assert OPEN_TAG[..3] == "<th" && c == "ab" + "<th";
    HeldOpening("ab", 3);
    OneListed("<th", "ab");
    AllHeld("<th", "ab");
    StartFollows(opts);
    AssistantShows(t, c);
    AssistantLeaves(t, c);
    OneEvent(t, AssistantResponse(c));
    assert StopFilter.Apply(["<th"], "ab", "<th") == StopFilter.Apply(["<th"], "", "ab<th") by { HeldIsPrefixed(["<th"], "ab", "<th"); }
    EndStops(p);
  }

  lemma HeldIsPrefixed(list: seq<string>, pending: string, d: string)
    ensures StopFilter.Apply(list, pending, d) == StopFilter.Apply(list, "", pending + d)
  {
    assert "" + (pending + d) == pending + d;
  }

  /** One delta with a stop sequence `x` behind `head`, then thinking whose closing tag has only begun. */
  lemma StopThenThinking(opts: Options, c: string, head: string, x: string, inner: string, buf: string)
    requires opts.stops == [x] && x != "" && x[0] !in head && c != ""
    requires SplitOf(c) == Split(head + x, inner, TagState(true, buf, true)) && |inner| + |buf| <= Budget(opts) && buf != ""
    ensures var w := Whole(New(opts), [AssistantResponse(c)]).t;
            w.acc.text == head && w.acc.thinking == inner + buf && w.lim.stop == Some(Stop(StopSequence, Some(x)))
  {
    hide PushAssistant;
    hide Finish;
    hide Feed;
    hide Find;
    hide StopFilter.Apply;
    var t := New(opts);
    OneListed(x, head);
    StartFollows(opts);
    AssistantShows(t, c);
    AssistantLeaves(t, c);
    OneStop(t, c);
    FinishAfterStop(PushAssistant(t, c).t);
    assert "" + head == head && "" + inner == inner;
  }

  /** A stop sequence stops the message, and then ending it still adds the held-back `</thin` as thinking. */
  lemma ThinkingAfterStop(opts: Options)
    requires opts.stops == ["STOP"] && 9 <= Budget(opts)
    ensures var w := Whole(New(opts), [AssistantResponse("abSTOP<thinking>foo</thin")]).t;
            && w.acc.text == "ab" && w.acc.thinking == "foo</thin"
            && w.lim.stop == Some(Stop(StopSequence, Some("STOP")))
  {
    hide Whole;
    hide SplitOf;
    OpenAfterStopSplit();
    assert "abSTOP" == "ab" + "STOP" && "foo" + "</thin" == "foo</thin";
    StopThenThinking(opts, "abSTOP<thinking>foo</thin", "ab", "STOP", "foo", "</thin");
  }
}
