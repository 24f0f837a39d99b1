/** What the text and the thinking of a response are, in terms of the upstream text. */
module TranslatorText {
  import opened Wrappers
  import opened Anthropic
  import opened Kiro
  import opened Text
  import opened TagSplitter
  import opened Translator
  import opened TranslatorLimits
  import Emitter
  import StopFilter
  import TranslatorGrammar

  const START := TagState(false, "", false)

  /** Splitting the whole upstream text at once. */
  function SplitOf(said: string): Split {
    Feed(THINKING, START, said)
  }

  /** The assistant text of a run of events. */
  function Said(evs: seq<Event>): string {
    if evs == [] then "" else SaidOne(evs[0]) + Said(evs[1..])
  }

  /** The text taken so far, shown or held back, and what the stop filter knows of it. */
  ghost predicate Seen(t: State, seen: string) {
    && t.acc.text + t.lim.pending == seen
    && (t.stops == [] ==> t.lim.pending == "")
    && (t.stops != [] ==> StopFilter.Holds(t.stops, seen, t.lim.pending))
  }

  /** While nothing stopped, the translator is where splitting all the text at once would be. */
  ghost predicate Follows(t: State, said: string) {
    && Within(t) && Seen(t, SplitOf(said).text) && t.tag == SplitOf(said).st
  }

  // ---- text through the stop filter and the budget ---------------------------------------

  lemma PlainExtends(t: State, seen: string, d: string)
    requires Within(t) && Seen(t, seen) && t.stops == [] && d != ""
    ensures var s := ShowText(t, d).t;
            s.lim.stop.None? ==> Seen(s, seen + d)
  {
    SpendCounts(Budget(t.opts), t.lim, d);
    assert t.acc.text + "" == t.acc.text && (t.acc.text + d) + "" == t.acc.text + d;
  }

  lemma FilteredExtends(t: State, seen: string, d: string)
    requires Within(t) && Seen(t, seen) && t.stops != [] && d != ""
    ensures var s := ShowText(t, d).t;
            s.lim.stop.None? ==> Seen(s, seen + d)
  {
    var a := StopFilter.Apply(t.stops, t.lim.pending, d);
    StopFilter.ApplyMeaning(t.stops, seen, t.lim.pending, d);
    assert StopFilter.Before(seen, t.lim.pending) == t.acc.text;
    SpendCounts(Budget(t.opts), t.lim.(pending := a.pending), a.emit);
    assert t.acc.text + "" == t.acc.text;
  }

  /** Text that the filter lets through or holds back, and the budget does not cut. */
  lemma TextExtends(t: State, seen: string, d: string)
    requires Within(t) && Seen(t, seen)
    ensures var s := ShowText(t, d).t;
            s.lim.stop.None? ==> Seen(s, seen + d)
  {
    if d == "" {
      assert seen + d == seen && t.acc.text + "" == t.acc.text;
    } else if t.stops == [] {
      PlainExtends(t, seen, d);
    } else {
      FilteredExtends(t, seen, d);
    }
  }

  /** When the filter stops, the text ends where the sequence occurs first in all the text. */
  lemma TextStops(t: State, seen: string, d: string, x: string)
    requires Within(t) && Seen(t, seen)
    requires ShowText(t, d).t.lim.stop == Some(Stop(StopSequence, Some(x)))
    ensures StopFilter.FirstListed(t.stops, seen + d) == Some(x)
    ensures ShowText(t, d).t.acc.text == (seen + d)[..Find(seen + d, x).value]
  {
    var a := StopFilter.Apply(t.stops, t.lim.pending, d);
    StopFilter.ApplyMeaning(t.stops, seen, t.lim.pending, d);
    assert StopFilter.Before(seen, t.lim.pending) == t.acc.text;
    if a.hit.None? {
      SpendCounts(Budget(t.opts), t.lim.(pending := a.pending), a.emit);
    }
  }

  /** Thinking leaves text, held-back text and tags alone. */
  lemma ThinkingApart(t: State, thought: string)
    ensures var s := ShowThinking(t, thought).t;
            && s.acc.text == t.acc.text && s.lim.pending == t.lim.pending && s.tag == t.tag && s.stops == t.stops
            && s.opts == t.opts && s.finished == t.finished && s.acc.calls == t.acc.calls && s.acc.redacted == t.acc.redacted
            && (s.lim.stop.None? ==> s.acc.thinking == t.acc.thinking + thought)
  {
    if thought != "" && t.lim.stop.None? {
      SpendCounts(Budget(t.opts), t.lim, thought);
    }
    assert t.acc.thinking + "" == t.acc.thinking;
  }

  lemma TextApart(t: State, d: string)
    ensures var s := ShowText(t, d).t;
            && s.acc.thinking == t.acc.thinking && s.tag == t.tag && s.stops == t.stops && s.opts == t.opts
            && s.finished == t.finished && s.acc.calls == t.acc.calls && s.acc.redacted == t.acc.redacted
            && (t.lim.stop.Some? ==> s.lim.stop == t.lim.stop)
  {
  }

  lemma Append1(said: string, c: string)
    ensures SplitOf(said + c) == TagSplitter.Then(SplitOf(said), Feed(THINKING, SplitOf(said).st, c))
  {
    FeedAppend(THINKING, START, said, c);
  }

  /** The state between the thinking and the text of one delta. */
  function Between(t: State, c: string): State {
    ShowThinking(t.(tag := Feed(THINKING, t.tag, c).st), Feed(THINKING, t.tag, c).think).t
  }

  lemma BetweenFollows(t: State, said: string, c: string)
    requires Follows(t, said)
    ensures var b := Between(t, c);
            b.lim.stop.None? ==> Within(b) && Seen(b, SplitOf(said).text) && b.tag == SplitOf(said + c).st
  {
    var split := Feed(THINKING, t.tag, c);
    var t1 := t.(tag := split.st);
    assert Within(t1);
    ThinkingCounts(t1, split.think);
    ThinkingApart(t1, split.think);
    Append1(said, c);
  }

  lemma AssistantFollows(t: State, said: string, c: string)
    requires Follows(t, said)
    ensures var s := PushAssistant(t, c).t;
            s.lim.stop.None? ==> Follows(s, said + c)
  {
    var split := Feed(THINKING, t.tag, c);
    var b := Between(t, c);
    var s := PushAssistant(t, c).t;
    TextApart(b, split.text);
    if s.lim.stop.None? {
      BetweenFollows(t, said, c);
      TextCounts(b, split.text);
      TextExtends(b, SplitOf(said).text, split.text);
      Append1(said, c);
    }
  }

  /** A stop sequence ends the text at its first occurrence in all the text outside thinking. */
  lemma StopCutsAtFirst(t: State, said: string, c: string, x: string)
    requires Follows(t, said)
    requires PushAssistant(t, c).t.lim.stop == Some(Stop(StopSequence, Some(x)))
    ensures var all := SplitOf(said + c).text;
            && StopFilter.FirstListed(t.stops, all) == Some(x)
            && PushAssistant(t, c).t.acc.text == all[..Find(all, x).value]
  {
    var split := Feed(THINKING, t.tag, c);
    var b := Between(t, c);
    ThinkingCounts(t.(tag := split.st), split.think);
    TextApart(b, split.text);
    ThinkingNeverMatches(t.(tag := split.st), split.think);
    BetweenFollows(t, said, c);
    TextStops(b, SplitOf(said).text, split.text, x);
    Append1(said, c);
  }

  lemma ThinkingNeverMatches(t: State, thought: string)
    requires t.lim.stop.None?
    ensures var stop := ShowThinking(t, thought).t.lim.stop; stop.Some? ==> stop == Some(Stop(MaxTokens, None))
  {
  }

  // ---- the end after a stop ----------------------------------------------------------------

  /**
   Ending a stopped message adds no text. It adds thinking exactly when the splitter holds
   the start of a closing tag and the budget has room, which a stop sequence may leave.
   */
  lemma FinishAfterStop(t: State)
    requires t.lim.stop.Some? && !t.finished
    ensures var f := Finish(t).t;
            var room := if Budget(t.opts) <= t.lim.chars then 0 else Budget(t.opts) - t.lim.chars;
            && f.acc.text == t.acc.text && f.lim.stop == t.lim.stop
            && f.acc.thinking == t.acc.thinking + if t.tag.inside then Take(t.tag.buf, room) else ""
  {
    var a := FinishStart(t).t;
    var b := FlushTag(a).t;
    assert t.acc.text + "" == t.acc.text && t.acc.thinking + "" == t.acc.thinking;
    assert b.acc.text == t.acc.text;
    assert FlushPending(b).t.acc.text == b.acc.text + "" == b.acc.text;
  }

  // ---- whole runs -----------------------------------------------------------------------------

  /** The assistant text of one event. */
  function SaidOne(ev: Event): string {
    match ev
    case AssistantResponse(c) => c
    case _ => ""
  }

  lemma ReasoningFollows(t: State, said: string, text: string, signature: Option<string>, redacted: Option<string>)
    requires Follows(t, said) && !t.finished && t.failure.None?
    ensures var s := OnReasoning(t, text, signature, redacted).t;
            !s.finished ==> Follows(s, said)
  {
    hide Finish;
    hide Feed;
    hide SplitOf;
    hide Emitter.EmitDelta;
    hide Emitter.EmitWhole;
    hide Size;
    PushCounts(t, ReasoningContent(text, signature, redacted));
    if redacted.Some? {
      TranslatorGrammar.FinishEnds(PushRedacted(Signed(t, signature), redacted.value).t);
    } else {
      TranslatorGrammar.FinishEnds(PushReasoning(Signed(t, signature), text, signature).t);
    }
    ThinkingApart(Signed(t, signature), if t.lim.stop.None? then text else "");
  }

  lemma ToolFollows(t: State, said: string, id: string, name: string, input: string)
    requires Follows(t, said) && !t.finished && t.failure.None?
    ensures var s := Push(t, ToolUse(id, name, input)).t;
            !s.finished ==> Follows(s, said)
  {
    hide Finish;
    hide Feed;
    hide SplitOf;
    hide Emitter.EmitDelta;
    hide Emitter.EmitWhole;
    hide Size;
    PushCounts(t, ToolUse(id, name, input));
    TranslatorGrammar.FinishEnds(PushTool(t, id, name, input).t);
  }

  lemma ContentFollows(t: State, said: string, c: string)
    requires Follows(t, said) && !t.finished && t.failure.None?
    ensures var s := Push(t, AssistantResponse(c)).t;
            !s.finished ==> Follows(s, said + c)
  {
    hide Finish;
    hide Feed;
    hide SplitOf;
    hide PushAssistant;
    assert said + "" == said;
    TranslatorGrammar.FinishEnds(PushAssistant(t, c).t);
    AssistantFollows(t, said, c);
  }

  /** A push that neither ends nor fails keeps following the text. */
  lemma PushFollows(t: State, said: string, ev: Event)
    requires Follows(t, said) && !t.finished && t.failure.None?
    ensures var s := Push(t, ev).t;
            !s.finished && s.failure.None? ==> Follows(s, said + SaidOne(ev))
  {
    assert said + "" == said;
    match ev
    case AssistantResponse(c) => ContentFollows(t, said, c);
    case ReasoningContent(text, signature, redacted) => ReasoningFollows(t, said, text, signature, redacted);
    case ToolUse(id, name, input) => ToolFollows(t, said, id, name, input);
    case _ =>
  }

  ghost predicate Runs(t: State) {
    !t.finished && t.failure.None?
  }

  ghost predicate KeepsUp(t: State, said: string) {
    Runs(t) ==> Follows(t, said)
  }

  lemma PushKeepsUp(t: State, said: string, ev: Event)
    requires KeepsUp(t, said)
    ensures KeepsUp(Push(t, ev).t, said + SaidOne(ev))
  {
    if Runs(t) {
      PushFollows(t, said, ev);
    }
  }

  lemma {:induction false} PushAllFollows(t: State, said: string, evs: seq<Event>)
    requires KeepsUp(t, said)
    ensures KeepsUp(PushAll(t, evs).t, said + Said(evs))
    decreases |evs|
  {
    if evs == [] {
      assert said + "" == said;
    } else {
      PushKeepsUp(t, said, evs[0]);
      PushAllFollows(Push(t, evs[0]).t, said + SaidOne(evs[0]), evs[1..]);
      Regroup3(said, SaidOne(evs[0]), Said(evs[1..]));
    }
  }

  lemma Regroup3(a: string, b: string, c: string)
    ensures (a + b) + c == a + (b + c)
  {
  }

  lemma StartFollows(opts: Options)
    ensures Follows(New(opts), "")
  {
    NothingSaid();
    StopFilter.StartHolds(New(opts).stops);
    SizeOfNothing();
  }

  lemma NothingSaid()
    ensures SplitOf("") == Split("", "", START)
  {
    FastFeed(THINKING, START, "");
  }

  lemma SizeOfNothing()
    ensures Size(Accumulated("", "", [], [], None)) == 0
  {
  }

  /**
   In every run that neither ended nor failed: the text shown, followed by the text held
   back, is the upstream text outside thinking tags, and no stop sequence occurs in it.
   */
  lemma TextOfRun(opts: Options, evs: seq<Event>)
    requires Runs(PushAll(New(opts), evs).t)
    ensures var t := PushAll(New(opts), evs).t;
            && t.acc.text + t.lim.pending == SplitOf(Said(evs)).text && t.tag == SplitOf(Said(evs)).st
            && StopFilter.FirstListed(t.stops, SplitOf(Said(evs)).text).None?
  {
    StartFollows(opts);
    PushAllFollows(New(opts), "", evs);
    assert "" + Said(evs) == Said(evs);
  }

  /** Flushing without a stop adds what was held back, first by the tags, then by the filter. */
  lemma FinishAdds(t: State, said: string)
    requires Follows(t, said) && !t.finished && Finish(t).t.lim.stop.None?
    ensures Finish(t).t.acc.text == Total(SplitOf(said), false)
  {
    var a := FinishStart(t).t;
    var b := FlushTag(a).t;
    var rest := if t.tag.inside then "" else t.tag.buf;
    var seen := SplitOf(said).text;
    var a1 := a.(tag := a.tag.(buf := ""));
    assert Within(a1) && Seen(a1, seen);
    if t.tag.inside {
      ThinkingApart(a1, t.tag.buf);
      assert b.lim.stop.None? by { TextApart(a1, ""); FlushKeepsStop(b); }
      assert seen + "" == seen;
    } else {
      assert b.lim.stop.None? by { FlushKeepsStop(b); }
      TextExtends(a1, seen, rest);
    }
    assert b.acc.text + b.lim.pending == seen + rest;
    FlushPendingAdds(b);
  }

  lemma FlushKeepsStop(t: State)
    ensures t.lim.stop.Some? ==> FlushPending(t).t.lim.stop.Some?
  {
  }

  lemma FlushPendingAdds(t: State)
    requires FlushPending(t).t.lim.stop.None?
    ensures FlushPending(t).t.acc.text == t.acc.text + t.lim.pending
  {
    if t.lim.pending != "" && t.lim.stop.None? {
      SpendCounts(Budget(t.opts), t.lim.(pending := ""), t.lim.pending);
    }
  }

  /**
   A run that ends without any stop or failure: the text is exactly the sections of the
   upstream text outside thinking tags, nothing lost and nothing added.
   */
  lemma UncutText(opts: Options, evs: seq<Event>)
    requires var t := PushAll(New(opts), evs).t; Runs(t) && Finish(t).t.lim.stop.None?
    ensures Whole(New(opts), evs).t.acc.text == Kind(false, false, Sections(THINKING, false, Said(evs)))
  {
    var t := PushAll(New(opts), evs).t;
    StartFollows(opts);
    PushAllFollows(New(opts), "", evs);
    assert "" + Said(evs) == Said(evs);
    FinishAdds(t, Said(evs));
    ScanIsSections(THINKING, false, false, Said(evs), false);
  }

  // ---- the thinking of a run ------------------------------------------------------------------

  /** The splitter after one event. */
  function TagAfter(st: TagState, ev: Event): TagState {
    if ev.AssistantResponse? && ev.content != "" then Feed(THINKING, st, ev.content).st else st
  }

  /** The thinking that one event brings: that inside tags, or reasoning unless a tag was seen before. */
  function ThoughtOne(st: TagState, ev: Event): string {
    match ev
    case AssistantResponse(c) => if c == "" then "" else Feed(THINKING, st, c).think
    case ReasoningContent(text, _, redacted) => if redacted.Some? || st.suppress then "" else text
    case _ => ""
  }

  function Thought(st: TagState, evs: seq<Event>): string
    decreases |evs|
  {
    if evs == [] then "" else ThoughtOne(st, evs[0]) + Thought(TagAfter(st, evs[0]), evs[1..])
  }

  lemma PushThinks(t: State, ev: Event)
    requires Within(t) && Runs(t) && Runs(Push(t, ev).t)
    ensures var s := Push(t, ev).t;
            Within(s) && s.acc.thinking == t.acc.thinking + ThoughtOne(t.tag, ev) && s.tag == TagAfter(t.tag, ev)
  {
    hide Finish;
    hide Feed;
    hide Size;
    hide Emitter.EmitDelta;
    hide Emitter.EmitWhole;
    assert t.acc.thinking + "" == t.acc.thinking;
    PushCounts(t, ev);
    match ev
    case AssistantResponse(c) =>
      if c != "" {
        var split := Feed(THINKING, t.tag, c);
        TranslatorGrammar.FinishEnds(PushAssistant(t, c).t);
        ThinkingApart(t.(tag := split.st), split.think);
        TextApart(Between(t, c), split.text);
      }
    case ReasoningContent(text, signature, redacted) =>
      if redacted.Some? {
        TranslatorGrammar.FinishEnds(PushRedacted(Signed(t, signature), redacted.value).t);
      } else {
        TranslatorGrammar.FinishEnds(PushReasoning(Signed(t, signature), text, signature).t);
        ThinkingApart(Signed(t, signature), text);
      }
    case ToolUse(id, name, input) => TranslatorGrammar.FinishEnds(PushTool(t, id, name, input).t);
    case _ =>
  }

  /** A run that goes on went on all along. */
  lemma WentOn(t: State, evs: seq<Event>)
    requires Runs(PushAll(t, evs).t)
    ensures Runs(t)
    decreases |evs|
  {
    hide Push;
    if evs != [] {
      WentOn(Push(t, evs[0]).t, evs[1..]);
      StaysDone(t, evs[0]);
    }
  }

  lemma StaysDone(t: State, ev: Event)
    ensures !Runs(t) ==> Push(t, ev).t == t
  {
  }

  lemma {:induction false} PushAllThinks(t: State, evs: seq<Event>)
    requires Within(t) && Runs(PushAll(t, evs).t)
    ensures var s := PushAll(t, evs).t;
            Within(s) && s.acc.thinking == t.acc.thinking + Thought(t.tag, evs)
    decreases |evs|
  {
    hide Push;
    hide Within;
    hide ThoughtOne;
    hide TagAfter;
    if evs == [] {
      assert t.acc.thinking + "" == t.acc.thinking;
    } else {
      var a := Push(t, evs[0]).t;
      WentOn(a, evs[1..]);
      WentOn(t, evs);
      PushThinks(t, evs[0]);
      PushAllThinks(a, evs[1..]);
      Regroup3(t.acc.thinking, ThoughtOne(t.tag, evs[0]), Thought(a.tag, evs[1..]));
    }
  }

  /**
   In every run that neither ended nor failed, the thinking is, in the order of the events, the
   text inside thinking tags and the reasoning that came before any such tag, nothing else.
   */
  lemma ThinkingOfRun(opts: Options, evs: seq<Event>)
    requires Runs(PushAll(New(opts), evs).t)
    ensures PushAll(New(opts), evs).t.acc.thinking == Thought(START, evs)
  {
    StartFollows(opts);
    PushAllThinks(New(opts), evs);
    assert "" + Thought(START, evs) == Thought(START, evs);
  }

  /** And a run that ends without any stop or failure shows that and what the splitter held back inside a tag. */
  lemma UncutThinking(opts: Options, evs: seq<Event>)
    requires var t := PushAll(New(opts), evs).t; Runs(t) && Finish(t).t.lim.stop.None?
    ensures var st := SplitOf(Said(evs)).st;
            Whole(New(opts), evs).t.acc.thinking == Thought(START, evs) + if st.inside then st.buf else ""
  {
    hide PushAll;
    hide SplitOf;
    hide Thought;
    var t := PushAll(New(opts), evs).t;
    ThinkingOfRun(opts, evs);
    TextOfRun(opts, evs);
    FinishThinks(t);
  }

  lemma FinishThinks(t: State)
    requires !t.finished && Finish(t).t.lim.stop.None?
    ensures Finish(t).t.acc.thinking == t.acc.thinking + if t.tag.inside then t.tag.buf else ""
  {
    hide Emitter.EmitDelta;
    hide StopFilter.Apply;
    var a := FinishStart(t).t;
    var b := FlushTag(a).t;
    FlushKeepsStop(b);
    assert t.acc.thinking + "" == t.acc.thinking;
    if t.tag.inside {
      ThinkingApart(a.(tag := a.tag.(buf := "")), t.tag.buf);
    }
    PendingKeepsThinking(b);
  }

  lemma PendingKeepsThinking(t: State)
    ensures FlushPending(t).t.acc.thinking == t.acc.thinking
  {
  }
}
