/**
 What every message is, read off its events: how it opens, what of the upstream events it
 carries, and how it ends, with the stop reason and the usage written out.
 */
module TranslatorMessage {
  import opened Wrappers
  import opened Anthropic
  import opened Kiro
  import opened Translator
  import opened Views
  import Dedupe
  import Emitter
  import Json
  import Pipeline
  import TagSplitter
  import StopFilter
  import TranslatorEnds
  import TranslatorFold
  import TranslatorGrammar
  import TranslatorLimits
  import TranslatorUsage

  // ---- the opening ---------------------------------------------------------------------------

  /** No message start among the events but that of this message, which says nothing yet. */
  ghost predicate Greets(opts: Options, events: seq<StreamEvent>) {
    forall i | 0 <= i < |events| && events[i].MessageStart? ::
      events[i].message == OutMessage(opts.messageId, [], opts.model, None, None, Usage(0, 0, 0, 0))
  }

  lemma GreetsBoth(opts: Options, a: seq<StreamEvent>, b: seq<StreamEvent>)
    requires Greets(opts, a) && Greets(opts, b)
    ensures Greets(opts, a + b)
  {
  }

  lemma WholeGreets(opts: Options, e: Emitter.Emit, visible: bool, block: Block, delta: Option<Delta>)
    ensures Greets(opts, Emitter.EmitWhole(e, Head(opts), visible, block, delta).events)
  {
    hide Emitter.Clear;
    hide Emitter.WholeEvents;
    var c := Emitter.Clear(e, Head(opts), visible);
    assert Greets(opts, c.events) by { ClearGreets(opts, e, visible); }
    WholeIsNoStart(opts, c.e.index + 1, block, delta);
    GreetsBoth(opts, c.events, Emitter.WholeEvents(c.e.index + 1, block, delta));
  }

  lemma ClearGreets(opts: Options, e: Emitter.Emit, visible: bool)
    ensures Greets(opts, Emitter.Clear(e, Head(opts), visible).events)
  {
  }

  lemma WholeIsNoStart(opts: Options, index: int, block: Block, delta: Option<Delta>)
    ensures Greets(opts, Emitter.WholeEvents(index, block, delta))
  {
  }

  lemma EmitterGreets(opts: Options, e: Emitter.Emit, kind: Emitter.Active, piece: string, visible: bool, block: Block, delta: Option<Delta>)
    ensures Greets(opts, Emitter.EnsureStarted(e, Head(opts)).events)
    ensures Greets(opts, Emitter.EmitDelta(e, Head(opts), kind, piece).events)
    ensures Greets(opts, Emitter.EmitWhole(e, Head(opts), visible, block, delta).events)
  {
    hide Emitter.EmitWhole;
    WholeGreets(opts, e, visible, block, delta);
  }

  lemma ShowGreets(t: State, s: string, k: Taken)
    ensures Greets(t.opts, ShowThinking(t, s).events)
    ensures Greets(t.opts, ShowText(t, s).events)
    ensures Greets(t.opts, ShowTaken(t, k).events)
  {
    hide Emitter.EmitDelta;
    hide TakeThinking;
    hide TakeText;
    EmitterGreets(t.opts, t.emit, Emitter.ActiveThinking, TakeThinking(Budget(t.opts), t.lim, s).out, false, TextBlock, None);
    EmitterGreets(t.opts, t.emit, Emitter.ActiveText, TakeText(Budget(t.opts), t.stops, t.lim, s).out, false, TextBlock, None);
    EmitterGreets(t.opts, t.emit, Emitter.ActiveText, k.out, false, TextBlock, None);
  }

  lemma FinishGreets(t: State)
    ensures Greets(t.opts, Finish(t).events)
  {
    hide ShowThinking;
    hide ShowText;
    hide ShowTaken;
    hide Emitter.EnsureStarted;
    if !t.finished {
      EmitterGreets(t.opts, t.emit, Emitter.ActiveText, "", false, TextBlock, None);
      var a := FinishStart(t).t;
      var a1 := a.(tag := a.tag.(buf := ""));
      ShowGreets(a1, a.tag.buf, Taken(a.lim, ""));
      ShowGreets(a1, if a.lim.stop.None? then a.tag.buf else "", Taken(a.lim, ""));
      var b := FlushTag(a).t;
      ShowsKeep(a1, a.tag.buf);
      ShowsKeep(a1, if a.lim.stop.None? then a.tag.buf else "");
      ShowGreets(b, "", TakeThinking(Budget(b.opts), b.lim.(pending := ""), if b.lim.stop.None? then b.lim.pending else ""));
    }
  }

  lemma ShowsKeep(t: State, s: string)
    ensures ShowThinking(t, s).t.opts == t.opts && ShowText(t, s).t.opts == t.opts
  {
  }

  lemma ConcludeGreets(opts: Options, s: Step)
    requires s.t.opts == opts && Greets(opts, s.events)
    ensures Greets(opts, Conclude(s).events)
  {
    hide Finish;
    FinishGreets(s.t);
  }

  lemma PushGreets(t: State, ev: Event)
    ensures Greets(t.opts, Push(t, ev).events)
  {
    hide Conclude;
    hide ShowThinking;
    hide ShowText;
    hide Emitter.EmitWhole;
    hide TagSplitter.Feed;
    match ev
    case AssistantResponse(c) =>
      var split := TagSplitter.Feed(TagSplitter.THINKING, t.tag, c);
      var t1 := t.(tag := split.st);
      ShowGreets(t1, split.think, Taken(t.lim, ""));
      ShowsKeep(t1, split.think);
      ShowGreets(ShowThinking(t1, split.think).t, split.text, Taken(t.lim, ""));
      ShowsKeep(ShowThinking(t1, split.think).t, split.text);
      ConcludeGreets(t.opts, PushAssistant(t, c));
    case ReasoningContent(text, signature, redacted) =>
      var t1 := Signed(t, signature);
      if redacted.Some? {
        EmitterGreets(t.opts, t.emit, Emitter.ActiveText, "", false, RedactedBlock(redacted.value), None);
        ConcludeGreets(t.opts, PushRedacted(t1, redacted.value));
      } else {
        var shown := if t.lim.stop.None? then text else "";
        ShowGreets(t1, shown, Taken(t.lim, ""));
        ShowsKeep(t1, shown);
        ConcludeGreets(t.opts, PushReasoning(t1, shown, signature));
      }
    case ToolUse(id, name, input) =>
      EmitterGreets(t.opts, t.emit, Emitter.ActiveText, "", true, ToolBlock(id, OriginalName(t.opts, name)), Some(InputJsonDelta(input)));
      ConcludeGreets(t.opts, PushTool(t, id, name, input));
    case _ =>
  }

  lemma {:induction false} PushAllGreets(t: State, evs: seq<Event>)
    ensures Greets(t.opts, PushAll(t, evs).events)
    decreases |evs|
  {
    hide Push;
    if evs != [] {
      PushGreets(t, evs[0]);
      TranslatorLimits.PushOpts(t, evs[0]);
      PushAllGreets(Push(t, evs[0]).t, evs[1..]);
    }
  }

  /** Every message opens with its id and its model, and with nothing in it. */
  lemma Opening(opts: Options, evs: seq<Event>)
    ensures var events := Whole(New(opts), evs).events;
            && events != []
            && events[0] == MessageStart(OutMessage(opts.messageId, [], opts.model, None, None, Usage(0, 0, 0, 0)))
  {
    hide PushAll;
    hide Finish;
    var a := PushAll(New(opts), evs);
    PushAllGreets(New(opts), evs);
    TranslatorLimits.PushAllOpts(New(opts), evs);
    FinishGreets(a.t);
    TranslatorGrammar.RunIsOneMessage(opts, evs);
    FirstStarts(Whole(New(opts), evs).events);
  }

  lemma FirstStarts(events: seq<StreamEvent>)
    requires Emitter.Accept(Emitter.Fresh, events) == Emitter.Over
    ensures events != [] && events[0].MessageStart?
  {
    if events != [] {
      TranslatorGrammar.BrokenStays(events[1..]);
    }
  }

  // ---- what is carried -----------------------------------------------------------------------------

  /** The tool calls of the events, under the names the client knows the tools by. */
  function HeardCalls(names: map<string, string>, evs: seq<Event>): seq<ToolCall> {
    if evs == [] then [] else
    var e := evs[|evs| - 1];
    HeardCalls(names, evs[..|evs| - 1])
    + if e.ToolUse? then [ToolCall(e.id, if e.name in names then names[e.name] else e.name, e.input)] else []
  }

  function HeardRedacted(evs: seq<Event>): seq<string> {
    if evs == [] then [] else
    var e := evs[|evs| - 1];
    HeardRedacted(evs[..|evs| - 1]) + if e.ReasoningContent? && e.redacted.Some? then [e.redacted.value] else []
  }

  /** The last signature. */
  function HeardSignature(evs: seq<Event>): Option<string> {
    if evs == [] then None else
    var e := evs[|evs| - 1];
    if e.ReasoningContent? && e.signature.Some? then e.signature else HeardSignature(evs[..|evs| - 1])
  }

  ghost predicate Carries(opts: Options, a: Accumulated, evs: seq<Event>) {
    a.calls == HeardCalls(opts.toolNames, evs) && a.redacted == HeardRedacted(evs) && a.signature == HeardSignature(evs)
  }

  ghost predicate Same(a: Accumulated, b: Accumulated) {
    a.calls == b.calls && a.redacted == b.redacted && a.signature == b.signature
  }

  lemma FinishSame(t: State)
    ensures Same(Finish(t).t.acc, t.acc)
  {
    hide Emitter.EmitDelta;
    hide TakeText;
    hide TakeThinking;
  }

  lemma ConcludeSame(s: Step)
    ensures Same(Conclude(s).t.acc, s.t.acc)
  {
    hide Finish;
    FinishSame(s.t);
  }

  lemma PushHears(t: State, ev: Event)
    requires TranslatorUsage.Takes(t) && TranslatorGrammar.Inv(t)
    ensures var a, b, names := t.acc, Push(t, ev).t.acc, t.opts.toolNames;
            && b.calls == a.calls + (if ev.ToolUse? then [ToolCall(ev.id, if ev.name in names then names[ev.name] else ev.name, ev.input)] else [])
            && b.redacted == a.redacted + (if ev.ReasoningContent? && ev.redacted.Some? then [ev.redacted.value] else [])
            && b.signature == if ev.ReasoningContent? && ev.signature.Some? then ev.signature else a.signature
  {
    hide Conclude;
    hide Emitter.EmitDelta;
    hide Emitter.EmitWhole;
    hide TagSplitter.Feed;
    hide TakeText;
    hide TakeThinking;
    match ev
    case AssistantResponse(content) => ConcludeSame(PushAssistant(t, content));
    case ReasoningContent(text, signature, redacted) =>
      var t1 := Signed(t, signature);
      if redacted.Some? {
        ConcludeSame(PushRedacted(t1, redacted.value));
      } else {
        ConcludeSame(PushReasoning(t1, if t1.lim.stop.None? then text else "", signature));
      }
    case ToolUse(id, name, input) => ConcludeSame(PushTool(t, id, name, input));
    case _ =>
  }

  lemma RunKeeps(opts: Options, evs: seq<Event>)
    ensures TranslatorGrammar.Inv(PushAll(New(opts), evs).t) && PushAll(New(opts), evs).t.opts == opts
  {
    hide PushAll;
    TranslatorGrammar.PushAllSteps(New(opts), evs);
    TranslatorLimits.PushAllOpts(New(opts), evs);
  }

  lemma {:induction false} HeardSoFar(opts: Options, evs: seq<Event>)
    requires evs != [] ==> TranslatorUsage.Takes(PushAll(New(opts), evs[..|evs| - 1]).t)
    ensures Carries(opts, PushAll(New(opts), evs).t.acc, evs)
    decreases |evs|
  {
    hide Push;
    if evs != [] {
      hide PushAll;
      hide New;
      var front, last := evs[..|evs| - 1], evs[|evs| - 1];
      assert evs == front + [last];
      Pipeline.PushAllAppend(New(opts), front, [last]);
      var t := PushAll(New(opts), front).t;
      TranslatorUsage.OnePush(t, last);
      if front != [] {
        TranslatorUsage.TookAll(opts, front);
      }
      HeardSoFar(opts, front);
      RunKeeps(opts, front);
      PushHears(t, last);
    }
  }

  /** In every run the message has heard the events up to the one that ended it. */
  lemma WholeHears(opts: Options, evs: seq<Event>)
    ensures Carries(opts, Whole(New(opts), evs).t.acc, evs[..TranslatorUsage.Taken(New(opts), evs)])
  {
    hide Push;
    hide PushAll;
    hide Finish;
    var n := TranslatorUsage.Taken(New(opts), evs);
    TranslatorUsage.TakenIsAll(New(opts), evs);
    FinishSame(PushAll(New(opts), evs).t);
    if n > 0 {
      assert evs[..n][..n - 1] == evs[..n - 1];
    }
    HeardSoFar(opts, evs[..n]);
  }

  lemma WholeShows(opts: Options, evs: seq<Event>)
    ensures ViewOf(Whole(New(opts), evs).events) == TranslatorFold.Collected(Whole(New(opts), evs).t.acc)
  {
    hide PushAll;
    hide Finish;
    var a := PushAll(New(opts), evs);
    TranslatorFold.PushAllShows(New(opts), evs);
    TranslatorFold.FinishShows(a.t);
    TranslatorFold.ThenShows(New(opts), a, Finish(a.t));
    assert TranslatorFold.Collected(New(opts).acc) == NOTHING;
    JoinNothing(ViewOf(Whole(New(opts), evs).events));
  }

  /**
   In every run the client gets each tool call taken from upstream, once and in order, with its
   id, its input and the name the client knows the tool by, and each piece of redacted content.
   */
  lemma CarriesAll(opts: Options, evs: seq<Event>)
    ensures var v, heard := ViewOf(Whole(New(opts), evs).events), evs[..TranslatorUsage.Taken(New(opts), evs)];
            var calls := HeardCalls(opts.toolNames, heard);
            && |v.calls| == |v.inputs| == |calls|
            && (forall i | 0 <= i < |calls| :: v.calls[i] == (calls[i].id, calls[i].name) && v.inputs[i] == calls[i].input)
            && v.redacted == HeardRedacted(heard)
  {
    hide Whole;
    WholeHears(opts, evs);
    WholeShows(opts, evs);
  }

  // ---- what is visible -----------------------------------------------------------------------------------

  /** The message has shown text or a call. */
  ghost predicate SeesTextOrCall(t: State) {
    t.emit.visible <==> t.acc.text != "" || t.acc.calls != []
  }

  lemma DeltaVisible(e: Emitter.Emit, head: OutMessage, kind: Emitter.Active, piece: string)
    ensures Emitter.EmitDelta(e, head, kind, piece).e.visible <==> e.visible || (kind == Emitter.ActiveText && piece != "")
  {
  }

  lemma PiecesVisible(t: State, s: string, k: Taken)
    requires SeesTextOrCall(t)
    ensures SeesTextOrCall(ShowThinking(t, s).t) && SeesTextOrCall(ShowText(t, s).t) && SeesTextOrCall(ShowTaken(t, k).t)
  {
    hide Emitter.EmitDelta;
    hide TakeThinking;
    hide TakeText;
    DeltaVisible(t.emit, Head(t.opts), Emitter.ActiveThinking, TakeThinking(Budget(t.opts), t.lim, s).out);
    DeltaVisible(t.emit, Head(t.opts), Emitter.ActiveText, TakeText(Budget(t.opts), t.stops, t.lim, s).out);
    DeltaVisible(t.emit, Head(t.opts), Emitter.ActiveText, k.out);
  }

  lemma FinishVisible(t: State)
    requires SeesTextOrCall(t)
    ensures SeesTextOrCall(Finish(t).t)
  {
    hide ShowThinking;
    hide ShowText;
    hide ShowTaken;
    if !t.finished {
      var a := FinishStart(t).t;
      var a1 := a.(tag := a.tag.(buf := ""));
      PiecesVisible(a1, a.tag.buf, Taken(a.lim, ""));
      PiecesVisible(a1, if a.lim.stop.None? then a.tag.buf else "", Taken(a.lim, ""));
      var b := FlushTag(a).t;
      PiecesVisible(b, "", TakeThinking(Budget(b.opts), b.lim.(pending := ""), if b.lim.stop.None? then b.lim.pending else ""));
    }
  }

  lemma ConcludeVisible(s: Step)
    requires SeesTextOrCall(s.t)
    ensures SeesTextOrCall(Conclude(s).t)
  {
    hide Finish;
    FinishVisible(s.t);
  }

  lemma PushVisible(t: State, ev: Event)
    requires SeesTextOrCall(t)
    ensures SeesTextOrCall(Push(t, ev).t)
  {
    hide Conclude;
    hide ShowThinking;
    hide ShowText;
    hide TagSplitter.Feed;
    match ev
    case AssistantResponse(c) =>
      var split := TagSplitter.Feed(TagSplitter.THINKING, t.tag, c);
      var t1 := t.(tag := split.st);
      PiecesVisible(t1, split.think, Taken(t.lim, ""));
      PiecesVisible(ShowThinking(t1, split.think).t, split.text, Taken(t.lim, ""));
      ConcludeVisible(PushAssistant(t, c));
    case ReasoningContent(text, signature, redacted) =>
      var t1 := Signed(t, signature);
      if redacted.Some? {
        ConcludeVisible(PushRedacted(t1, redacted.value));
      } else {
        PiecesVisible(t1, if t.lim.stop.None? then text else "", Taken(t.lim, ""));
        ConcludeVisible(PushReasoning(t1, if t.lim.stop.None? then text else "", signature));
      }
    case ToolUse(id, name, input) => ConcludeVisible(PushTool(t, id, name, input));
    case _ =>
  }

  lemma {:induction false} PushAllVisible(t: State, evs: seq<Event>)
    requires SeesTextOrCall(t)
    ensures SeesTextOrCall(PushAll(t, evs).t)
    decreases |evs|
  {
    hide Push;
    hide SeesTextOrCall;
    if evs != [] {
      PushVisible(t, evs[0]);
      PushAllVisible(Push(t, evs[0]).t, evs[1..]);
    }
  }

  /** A message counts as visible exactly when the client got text or a tool call. */
  lemma VisibleIff(opts: Options, evs: seq<Event>)
    ensures var s := Whole(New(opts), evs);
            s.t.emit.visible <==> ViewOf(s.events).text != "" || ViewOf(s.events).calls != []
  {
    hide PushAll;
    hide Finish;
    PushAllVisible(New(opts), evs);
    FinishVisible(PushAll(New(opts), evs).t);
    WholeShows(opts, evs);
  }

  // ---- failures --------------------------------------------------------------------------------------

  /** What an event that reports a failure reports. */
  ghost predicate IsFailure(ev: Event, f: Failure) {
    match ev
    case InvalidState(reason, message) => f == InvalidStateFailure(reason, message)
    case Exception(exceptionType, message) => f == ExceptionFailure(exceptionType, message)
    case _ => false
  }

  lemma FinishFails(t: State)
    ensures Finish(t).t.failure == t.failure
  {
    hide Emitter.EmitDelta;
    hide TakeText;
    hide TakeThinking;
  }

  lemma ConcludeFails(s: Step)
    ensures Conclude(s).t.failure == s.t.failure
  {
    hide Finish;
    FinishFails(s.t);
  }

  lemma PushFails(t: State, ev: Event)
    requires TranslatorUsage.Takes(t)
    ensures forall f :: Push(t, ev).t.failure == Some(f) <==> IsFailure(ev, f)
    ensures ev.InvalidState? || ev.Exception? ==> Push(t, ev).t.failure.Some?
  {
    hide Conclude;
    hide Emitter.EmitDelta;
    hide Emitter.EmitWhole;
    hide TagSplitter.Feed;
    hide TakeText;
    hide TakeThinking;
    match ev
    case AssistantResponse(content) => ConcludeFails(PushAssistant(t, content));
    case ReasoningContent(text, signature, redacted) =>
      var t1 := Signed(t, signature);
      if redacted.Some? {
        ConcludeFails(PushRedacted(t1, redacted.value));
      } else {
        ConcludeFails(PushReasoning(t1, if t1.lim.stop.None? then text else "", signature));
      }
    case ToolUse(id, name, input) => ConcludeFails(PushTool(t, id, name, input));
    case _ =>
  }

  /**
   A run has failed exactly when the last event that was taken reports a failure, and the
   failure is the one it reports; no event before it does.
   */
  lemma FailureIsLast(opts: Options, evs: seq<Event>)
    ensures var t, n := Whole(New(opts), evs).t, TranslatorUsage.Taken(New(opts), evs);
            && (forall f :: t.failure == Some(f) <==> n > 0 && IsFailure(evs[n - 1], f))
            && (forall i | 0 <= i < n - 1 :: !evs[i].InvalidState? && !evs[i].Exception?)
  {
    hide Push;
    hide PushAll;
    hide Finish;
    hide IsFailure;
    var n := TranslatorUsage.Taken(New(opts), evs);
    TranslatorUsage.TakenIsAll(New(opts), evs);
    FinishFails(PushAll(New(opts), evs).t);
    NoneBefore(New(opts), evs);
    if n > 0 {
      var front := evs[..n - 1];
      assert evs[..n] == front + [evs[n - 1]];
      Pipeline.PushAllAppend(New(opts), front, [evs[n - 1]]);
      TranslatorUsage.OnePush(PushAll(New(opts), front).t, evs[n - 1]);
      PushFails(PushAll(New(opts), front).t, evs[n - 1]);
    } else {
      Pipeline.QuietAll(New(opts));
      assert evs[..0] == [];
    }
  }

  lemma {:induction false} NoneBefore(t: State, evs: seq<Event>)
    requires TranslatorUsage.Takes(t)
    ensures var n := TranslatorUsage.Taken(t, evs);
            forall i | 0 <= i < n - 1 :: !evs[i].InvalidState? && !evs[i].Exception?
    decreases |evs|
  {
    hide Push;
    if evs != [] {
      var a := Push(t, evs[0]).t;
      PushFails(t, evs[0]);
      if !a.finished && a.failure.None? {
        NoneBefore(a, evs[1..]);
        assert forall i | 0 < i < |evs| :: evs[i] == evs[1..][i - 1];
      }
    }
  }

  // ---- signatures ------------------------------------------------------------------------------------

  ghost predicate Unsigned(events: seq<StreamEvent>) {
    forall i | 0 <= i < |events| && events[i].BlockDelta? :: !events[i].delta.SignatureDelta?
  }

  lemma EmitterUnsigned(e: Emitter.Emit, head: OutMessage, kind: Emitter.Active, piece: string)
    ensures Unsigned(Emitter.EnsureStarted(e, head).events) && Unsigned(Emitter.EmitDelta(e, head, kind, piece).events)
  {
  }

  lemma WholeUnsigned(e: Emitter.Emit, head: OutMessage, visible: bool, block: Block, delta: Option<Delta>)
    requires delta.Some? ==> !delta.value.SignatureDelta?
    ensures Unsigned(Emitter.EmitWhole(e, head, visible, block, delta).events)
  {
  }

  lemma ShowUnsigned(t: State, s: string, k: Taken)
    ensures Unsigned(ShowThinking(t, s).events) && Unsigned(ShowText(t, s).events) && Unsigned(ShowTaken(t, k).events)
  {
    hide Emitter.EmitDelta;
    hide TakeThinking;
    hide TakeText;
    EmitterUnsigned(t.emit, Head(t.opts), Emitter.ActiveThinking, TakeThinking(Budget(t.opts), t.lim, s).out);
    EmitterUnsigned(t.emit, Head(t.opts), Emitter.ActiveText, TakeText(Budget(t.opts), t.stops, t.lim, s).out);
    EmitterUnsigned(t.emit, Head(t.opts), Emitter.ActiveText, k.out);
  }

  lemma FinishUnsigned(t: State)
    ensures Unsigned(Finish(t).events)
  {
    hide ShowThinking;
    hide ShowText;
    hide ShowTaken;
    hide Emitter.EnsureStarted;
    if !t.finished {
      EmitterUnsigned(t.emit, Head(t.opts), Emitter.ActiveText, "");
      var a := FinishStart(t).t;
      var a1 := a.(tag := a.tag.(buf := ""));
      ShowUnsigned(a1, a.tag.buf, Taken(a.lim, ""));
      ShowUnsigned(a1, if a.lim.stop.None? then a.tag.buf else "", Taken(a.lim, ""));
      var b := FlushTag(a).t;
      ShowUnsigned(b, "", TakeThinking(Budget(b.opts), b.lim.(pending := ""), if b.lim.stop.None? then b.lim.pending else ""));
    }
  }

  /** Just one signature is in the events, and it is this one. */
  ghost predicate SignedOnce(events: seq<StreamEvent>, signature: string) {
    exists k: nat, i :: k < |events| && events[k] == BlockDelta(i, SignatureDelta(signature))
                     && Unsigned(events[..k]) && Unsigned(events[k + 1..])
  }

  /** Reasoning that is shown and comes with a signature, while thinking is shown or is being shown. */
  ghost predicate Signs(t: State, ev: Event) {
    && ev.ReasoningContent? && ev.redacted.None? && ev.signature.Some? && !t.tag.suppress
    && (ev.text != "" || t.emit.active == Some(Emitter.ActiveThinking))
  }

  lemma ConcludeSigns(s: Step, k: nat)
    requires k <= |s.events| && Unsigned(s.events[..k]) && (k < |s.events| ==> Unsigned(s.events[k + 1..]))
    ensures |s.events| <= |Conclude(s).events| && Unsigned(Conclude(s).events[..k])
    ensures k < |s.events| ==> Conclude(s).events[k] == s.events[k] && Unsigned(Conclude(s).events[k + 1..])
    ensures k == |s.events| ==> Unsigned(Conclude(s).events)
  {
    hide Finish;
    FinishUnsigned(s.t);
    assert Conclude(s).events[..k] == s.events[..k];
    if k < |s.events| {
      var tail := Conclude(s).events[k + 1..];
      assert tail == s.events[k + 1..] + (if s.t.lim.stop.Some? then Finish(s.t).events else []);
    } else {
      assert s.events[..k] == s.events;
    }
  }

  /** A piece of thinking that fits is shown in the open thinking block. */
  lemma ThinkingOpens(t: State, thought: string)
    requires TranslatorLimits.Within(t)
    ensures thought != "" || t.emit.active == Some(Emitter.ActiveThinking)
            <==> ShowThinking(t, thought).t.emit.active == Some(Emitter.ActiveThinking)
  {
  }

  lemma ReasoningSigns(t: State, text: string, signature: Option<string>)
    requires TranslatorLimits.Within(t)
    ensures var s := Conclude(PushReasoning(t, text, signature));
            if signature.Some? && (text != "" || t.emit.active == Some(Emitter.ActiveThinking)) then SignedOnce(s.events, signature.value)
            else Unsigned(s.events)
  {
    hide ShowThinking;
    hide Conclude;
    var a, p := ShowThinking(t, text), PushReasoning(t, text, signature);
    ThinkingOpens(t, text);
    ShowUnsigned(t, text, Taken(t.lim, ""));
    var k := |a.events|;
    assert p.events[..k] == a.events;
    if k < |p.events| {
      assert p.events[k] == BlockDelta(Emitter.Wire(a.t.emit.index), SignatureDelta(signature.value));
      assert p.events[k + 1..] == [];
    }
    ConcludeSigns(p, k);
    if k < |p.events| {
      assert Conclude(p).events[k] == BlockDelta(Emitter.Wire(a.t.emit.index), SignatureDelta(signature.value));
    } else {
      assert p.events == a.events;
    }
  }

  lemma PushUnsigned(t: State, ev: Event)
    requires !ev.ReasoningContent? || ev.redacted.Some?
    ensures Unsigned(Push(t, ev).events)
  {
    hide Conclude;
    hide ShowThinking;
    hide ShowText;
    hide Emitter.EmitWhole;
    hide TagSplitter.Feed;
    match ev
    case AssistantResponse(c) =>
      var split := TagSplitter.Feed(TagSplitter.THINKING, t.tag, c);
      var t1 := t.(tag := split.st);
      ShowUnsigned(t1, split.think, Taken(t.lim, ""));
      ShowUnsigned(ShowThinking(t1, split.think).t, split.text, Taken(t.lim, ""));
      ConcludeUnsigned(PushAssistant(t, c));
    case ReasoningContent(text, signature, redacted) =>
      WholeUnsigned(t.emit, Head(t.opts), false, RedactedBlock(redacted.value), None);
      ConcludeUnsigned(PushRedacted(Signed(t, signature), redacted.value));
    case ToolUse(id, name, input) =>
      WholeUnsigned(t.emit, Head(t.opts), true, ToolBlock(id, OriginalName(t.opts, name)), Some(InputJsonDelta(input)));
      ConcludeUnsigned(PushTool(t, id, name, input));
    case _ =>
  }

  lemma ConcludeUnsigned(s: Step)
    requires Unsigned(s.events)
    ensures Unsigned(Conclude(s).events)
  {
    hide Finish;
    FinishUnsigned(s.t);
  }

  /**
   While a message goes on, an event puts a signature into the stream exactly when it is
   reasoning with a signature that is shown, and then only its own, once.
   */
  lemma SignatureShown(opts: Options, evs: seq<Event>, ev: Event)
    requires TranslatorUsage.Takes(PushAll(New(opts), evs).t)
    ensures var t := PushAll(New(opts), evs).t;
            var events := Push(t, ev).events;
            if Signs(t, ev) then SignedOnce(events, ev.signature.value)
            else Unsigned(events)
  {
    hide PushAll;
    var t := PushAll(New(opts), evs).t;
    TranslatorLimits.RunWithinBudget(opts, evs);
    RunKeeps(opts, evs);
    SignatureOnce(t, ev);
  }

  lemma SignatureOnce(t: State, ev: Event)
    requires TranslatorUsage.Takes(t) && TranslatorLimits.Within(t)
    ensures var events := Push(t, ev).events;
            if Signs(t, ev) then SignedOnce(events, ev.signature.value)
            else Unsigned(events)
  {
    hide Conclude;
    hide PushReasoning;
    hide TranslatorLimits.Size;
    if ev.ReasoningContent? && ev.redacted.None? {
      TranslatorEnds.SignedSize(t, ev.signature);
      ReasoningSigns(Signed(t, ev.signature), ev.text, ev.signature);
    } else {
      PushUnsigned(t, ev);
    }
  }

  // ---- how it ends ------------------------------------------------------------------------------------

  /** The client was shown the start of a tool call. */
  ghost predicate ShowsCall(events: seq<StreamEvent>) {
    exists k | 0 <= k < |events| :: events[k].BlockStart? && events[k].block.ToolBlock?
  }

  lemma {:induction false} CallsShown(events: seq<StreamEvent>)
    ensures ViewOf(events).calls != [] <==> ShowsCall(events)
  {
    if events != [] {
      CallsShown(events[1..]);
      assert ViewOf(events).calls == ViewOne(events[0]).calls + ViewOf(events[1..]).calls;
      if ShowsCall(events[1..]) {
        var k :| 0 <= k < |events[1..]| && events[1..][k].BlockStart? && events[1..][k].block.ToolBlock?;
        assert events[k + 1].BlockStart? && events[k + 1].block.ToolBlock?;
      }
      if ShowsCall(events) {
        var k :| 0 <= k < |events| && events[k].BlockStart? && events[k].block.ToolBlock?;
        assert k > 0 ==> events[1..][k - 1] == events[k];
      }
    }
  }

  /** The stop reason: that of the stop that was latched, else by whether the client got a tool call. */
  ghost predicate StopIs(stop: Option<Stop>, events: seq<StreamEvent>, reason: StopReason, sequence: Option<string>) {
    match stop
    case Some(s) => reason == s.reason && sequence == s.sequence
    case None => sequence == None && reason == if ShowsCall(events) then ToolUseStop else EndTurn
  }

  predicate Reports(ev: Event) {
    ev.Metadata? && (ev.uncachedInput > 0 || ev.cacheRead > 0 || ev.output > 0)
  }

  /** The cached tokens read, of the last metadata that reports anything. */
  function CacheRead(evs: seq<Event>): nat {
    if evs == [] then 0
    else if Reports(evs[|evs| - 1]) then evs[|evs| - 1].cacheRead
    else CacheRead(evs[..|evs| - 1])
  }

  /** The cached tokens written: metadata that reports nothing else only ever adds to them. */
  function CacheWritten(evs: seq<Event>): nat {
    if evs == [] then 0 else
    var e, before := evs[|evs| - 1], CacheWritten(evs[..|evs| - 1]);
    if e.Metadata? && (Reports(e) || before < e.cacheWrite) then e.cacheWrite else before
  }

  /** A token for every four characters, and at least one for any. */
  predicate Estimates(chars: nat, tokens: int) {
    if chars == 0 then tokens == 0 else if chars < 8 then tokens == 1 else 4 * tokens <= chars < 4 * tokens + 4
  }

  /** The usage: what upstream reported last, metadata before metering; estimates when it never did. */
  ghost predicate UsageIs(opts: Options, heard: seq<Event>, chars: nat, u: Usage) {
    var metadata, metering := TranslatorUsage.LastMetadata(heard), TranslatorUsage.LastMetering(heard);
    && (if metadata.Some? then u.input == metadata.value.input && u.output == metadata.value.output
        else if metering.Some? then u.input == metering.value.input && u.output == metering.value.output
        else u.input == opts.estimatedInput && Estimates(chars, u.output))
    && u.cacheRead == CacheRead(heard) && u.cacheWrite == CacheWritten(heard)
  }

  /** One delta with the stop reason and the usage, then the stop. */
  ghost predicate Ends(opts: Options, heard: seq<Event>, lim: Limits, events: seq<StreamEvent>) {
    var n := |events|;
    && n >= 2 && events[n - 1] == MessageStop && events[n - 2].MessageDelta?
    && StopIs(lim.stop, events, events[n - 2].stopReason, events[n - 2].stopSequence)
    && UsageIs(opts, heard, lim.chars, events[n - 2].usage)
  }

  lemma {:induction false} CacheSoFar(opts: Options, evs: seq<Event>)
    requires evs != [] ==> TranslatorUsage.Takes(PushAll(New(opts), evs[..|evs| - 1]).t)
    ensures var m := PushAll(New(opts), evs).t.meter; m.cacheRead == CacheRead(evs) && m.cacheWrite == CacheWritten(evs)
    decreases |evs|
  {
    hide Push;
    if evs != [] {
      hide PushAll;
      hide New;
      var front, last := evs[..|evs| - 1], evs[|evs| - 1];
      assert evs == front + [last];
      Pipeline.PushAllAppend(New(opts), front, [last]);
      var t := PushAll(New(opts), front).t;
      TranslatorUsage.OnePush(t, last);
      if front != [] {
        TranslatorUsage.TookAll(opts, front);
      }
      CacheSoFar(opts, front);
      TranslatorUsage.PushCounts(t, last);
    }
  }

  lemma {:induction false} SomeCounts(evs: seq<Event>)
    ensures var m := TranslatorUsage.LastMetadata(evs); m.Some? ==> m.value.input > 0 || m.value.output > 0
    ensures var m := TranslatorUsage.LastMetering(evs); m.Some? ==> m.value.input > 0 || m.value.output > 0
  {
    if evs != [] {
      SomeCounts(evs[..|evs| - 1]);
    }
  }

  lemma WholeMeters(opts: Options, evs: seq<Event>)
    ensures var m, heard := Whole(New(opts), evs).t.meter, evs[..TranslatorUsage.Taken(New(opts), evs)];
            && m.cacheRead == CacheRead(heard) && m.cacheWrite == CacheWritten(heard)
            && TranslatorUsage.Reported(m.input, m.output) == TranslatorUsage.Chosen(heard)
  {
    hide Push;
    hide PushAll;
    hide Finish;
    var n := TranslatorUsage.Taken(New(opts), evs);
    TranslatorUsage.TakenIsAll(New(opts), evs);
    TranslatorUsage.FinishKeepsMeter(PushAll(New(opts), evs).t);
    if n > 0 {
      assert evs[..n][..n - 1] == evs[..n - 1];
    }
    CacheSoFar(opts, evs[..n]);
    TranslatorUsage.CountsSoFar(opts, evs[..n]);
  }

  lemma UsageOfIs(opts: Options, t: State, heard: seq<Event>)
    requires t.opts == opts
    requires t.meter.cacheRead == CacheRead(heard) && t.meter.cacheWrite == CacheWritten(heard)
    requires TranslatorUsage.Reported(t.meter.input, t.meter.output) == TranslatorUsage.Chosen(heard)
    ensures UsageIs(opts, heard, t.lim.chars, UsageOf(t))
  {
    hide CacheRead;
    hide CacheWritten;
    SomeCounts(heard);
    hide TranslatorUsage.LastMetadata;
    hide TranslatorUsage.LastMetering;
  }

  /** The events end as this state says. */
  ghost predicate EndsWith(t: State, events: seq<StreamEvent>) {
    |events| >= 2 && events[|events| - 2..] == [MessageDelta(StopOf(t).reason, StopOf(t).sequence, UsageOf(t)), MessageStop]
  }

  lemma WholeEnds(opts: Options, evs: seq<Event>)
    ensures EndsWith(Whole(New(opts), evs).t, Whole(New(opts), evs).events) && Whole(New(opts), evs).t.opts == opts
  {
    hide PushAll;
    hide Finish;
    TranslatorFold.StreamEndsLikeFold(Json.Serde(_ => None, _ => ""), opts, evs);
    TranslatorLimits.PushAllOpts(New(opts), evs);
    TranslatorLimits.FinishOpts(PushAll(New(opts), evs).t);
  }

  /**
   Every message ends with one delta and the stop. The reason is that of the latched stop;
   without one it is `tool_use` exactly when the client was shown a tool call, and no sequence
   is named. The usage is what upstream reported, or the estimates for want of it, and the
   cached tokens read and written are each in their own field.
   */
  lemma Ending(opts: Options, evs: seq<Event>)
    ensures var s, heard := Whole(New(opts), evs), evs[..TranslatorUsage.Taken(New(opts), evs)];
            Ends(opts, heard, s.t.lim, s.events)
  {
    hide UsageOf;
    hide UsageIs;
    hide CacheRead;
    hide CacheWritten;
    var s, heard := Whole(New(opts), evs), evs[..TranslatorUsage.Taken(New(opts), evs)];
    WholeEnds(opts, evs);
    WholeMeters(opts, evs);
    UsageOfIs(opts, s.t, heard);
    WholeShows(opts, evs);
    CallsShown(s.events);
    hide Whole;
    hide ViewOf;
    hide ShowsCall;
    var n := |s.events|;
    assert s.events[n - 2..][0] == s.events[n - 2] && s.events[n - 2..][1] == s.events[n - 1];
    assert TranslatorFold.Collected(s.t.acc).calls == [] <==> s.t.acc.calls == [];
  }

  // ---- what the estimate counts --------------------------------------------------------------------------

  /** The characters a client was shown. */
  function ShownChars(v: View): nat {
    |v.text| + |v.think| + TranslatorLimits.Sizes(v.redacted) + TranslatorLimits.Sizes(v.inputs)
  }

  lemma {:induction false} InputsCounted(calls: seq<ToolCall>)
    ensures TranslatorLimits.InputSizes(calls) == TranslatorLimits.Sizes(TranslatorFold.CallInputs(calls))
  {
    if calls != [] {
      var n := |calls| - 1;
      InputsCounted(calls[..n]);
      assert TranslatorFold.CallInputs(calls)[..n] == TranslatorFold.CallInputs(calls[..n]);
    }
  }

  lemma FinishCounts(t: State)
    requires TranslatorLimits.Within(t) && !t.finished && Finish(t).t.lim.stop.None?
    ensures TranslatorLimits.Size(Finish(t).t.acc) == Finish(t).t.lim.chars
  {
    hide Emitter.EmitDelta;
    hide StopFilter.Apply;
    var a := FinishStart(t).t;
    TranslatorEnds.FlushTagSize(a);
    FlushPendingCounts(FlushTag(a).t);
    FlushKeepsStop(FlushTag(a).t);
  }

  lemma FlushKeepsStop(t: State)
    ensures t.lim.stop.Some? ==> FlushPending(t).t.lim.stop.Some?
  {
    hide Emitter.EmitDelta;
  }

  lemma FlushPendingCounts(t: State)
    requires t.lim.stop.None? && TranslatorLimits.Size(t.acc) == t.lim.chars
    ensures TranslatorLimits.Size(FlushPending(t).t.acc) == FlushPending(t).t.lim.chars
  {
    hide Emitter.EmitDelta;
  }

  lemma FinishedStays(t: State)
    ensures t.finished ==> Finish(t).t == t
  {
  }

  /** Where nothing stopped the message, the estimate counts exactly the characters the client was shown. */
  lemma EstimateCountsShown(opts: Options, evs: seq<Event>)
    ensures var s := Whole(New(opts), evs);
            s.t.lim.stop.None? ==> s.t.lim.chars == ShownChars(ViewOf(s.events))
  {
    hide PushAll;
    hide Finish;
    hide TranslatorLimits.Size;
    var a, s := PushAll(New(opts), evs).t, Whole(New(opts), evs);
    if s.t.lim.stop.None? {
      TranslatorLimits.RunWithinBudget(opts, evs);
      RunKeeps(opts, evs);
      RunUnfinished(opts, evs);
      FinishedStays(a);
      FinishCounts(a);
      WholeShows(opts, evs);
      SizeShown(s.t.acc);
    }
  }

  /** Only a latched stop ends a message before its end. */
  lemma RunUnfinished(opts: Options, evs: seq<Event>)
    ensures var a := PushAll(New(opts), evs).t; a.finished ==> a.lim.stop.Some?
  {
    PushAllUnfinished(New(opts), evs);
  }

  lemma {:induction false} PushAllUnfinished(t: State, evs: seq<Event>)
    requires t.finished ==> t.lim.stop.Some?
    ensures var a := PushAll(t, evs).t; a.finished ==> a.lim.stop.Some?
    decreases |evs|
  {
    hide Push;
    if evs != [] {
      PushUnfinished(t, evs[0]);
      PushAllUnfinished(Push(t, evs[0]).t, evs[1..]);
    }
  }

  lemma PushUnfinished(t: State, ev: Event)
    requires t.finished ==> t.lim.stop.Some?
    ensures var a := Push(t, ev).t; a.finished ==> a.lim.stop.Some?
  {
    hide Conclude;
    hide Emitter.EmitDelta;
    hide Emitter.EmitWhole;
    hide TagSplitter.Feed;
    hide TakeText;
    hide TakeThinking;
    match ev
    case AssistantResponse(content) => ConcludeStopped(PushAssistant(t, content));
    case ReasoningContent(text, signature, redacted) =>
      var t1 := Signed(t, signature);
      if redacted.Some? {
        ConcludeStopped(PushRedacted(t1, redacted.value));
      } else {
        ConcludeStopped(PushReasoning(t1, if t1.lim.stop.None? then text else "", signature));
      }
    case ToolUse(id, name, input) => ConcludeStopped(PushTool(t, id, name, input));
    case _ =>
  }

  lemma ConcludeStopped(s: Step)
    ensures Conclude(s).t.finished && !s.t.finished ==> Conclude(s).t.lim.stop.Some?
  {
    hide Emitter.EmitDelta;
    hide StopFilter.Apply;
  }

  lemma SizeShown(a: Accumulated)
    ensures TranslatorLimits.Size(a) == ShownChars(TranslatorFold.Collected(a))
  {
    InputsCounted(a.calls);
  }

  // ---- the folded message --------------------------------------------------------------------------------

  function Rank(b: OutBlock): nat {
    match b
    case OutThinking(_, _) => 0
    case OutText(_) => 1
    case OutToolUse(_, _, _) => 2
    case OutRedacted(_) => 3
  }

  /** Thinking, then text, of each one block that is not empty; then tool calls, then redacted content. */
  ghost predicate InOrder(content: seq<OutBlock>) {
    && (forall i, j | 0 <= i < j < |content| :: Rank(content[i]) <= Rank(content[j]))
    && (forall i, j | 0 <= i < j < |content| && Rank(content[i]) < 2 :: Rank(content[i]) < Rank(content[j]))
    && (forall i | 0 <= i < |content| && content[i].OutThinking? :: content[i].thinking != "")
    && (forall i | 0 <= i < |content| && content[i].OutText? :: content[i].text != "")
  }

  /** The input of a call read as JSON; an empty object when it is none. */
  ghost predicate IsInput(serde: Json.Serde, input: string, v: Json.Value) {
    match serde.parse(input)
    case Some(x) => v == x
    case None => v == Json.Object([])
  }

  /** The block is one of these calls. */
  ghost predicate IsCall(serde: Json.Serde, calls: seq<ToolCall>, b: OutBlock) {
    b.OutToolUse? && exists k | 0 <= k < |calls| ::
      calls[k].id == b.id && calls[k].name == b.name && IsInput(serde, calls[k].input, b.input)
  }

  lemma ContentInOrder(thinking: seq<OutBlock>, text: seq<OutBlock>, tools: seq<OutBlock>, redacted: seq<OutBlock>)
    requires |thinking| <= 1 && forall i | 0 <= i < |thinking| :: thinking[i].OutThinking? && thinking[i].thinking != ""
    requires |text| <= 1 && forall i | 0 <= i < |text| :: text[i].OutText? && text[i].text != ""
    requires forall i | 0 <= i < |tools| :: tools[i].OutToolUse?
    requires forall i | 0 <= i < |redacted| :: redacted[i].OutRedacted?
    ensures InOrder(thinking + text + tools + redacted)
  {
    var content := thinking + text + tools + redacted;
    var n, m := |thinking|, |thinking| + |text|;
    assert forall i | 0 <= i < |content| ::
        Rank(content[i]) == if i < n then 0 else if i < m then 1 else if i < m + |tools| then 2 else 3;
  }

  lemma BlockIsCall(serde: Json.Serde, calls: seq<ToolCall>, i: nat)
    requires i < |Dedupe.DedupeCalls(serde, calls)|
    ensures IsCall(serde, calls, TranslatorFold.ToolBlocks(serde, Dedupe.DedupeCalls(serde, calls))[i])
  {
    Dedupe.DedupeSound(serde, calls);
    var kept := Dedupe.DedupeCalls(serde, calls);
    assert Dedupe.IsBest(calls, kept[i]);
  }

  /**
   A message that is not streamed has the id, the model and the parts in their order; its
   thinking is signed with the last signature that came, and each of its tool calls is a call
   taken from upstream with its input read as JSON.
   */
  lemma FoldedMessage(serde: Json.Serde, opts: Options, evs: seq<Event>)
    ensures var m, heard := TranslatorFold.Fold(serde, Whole(New(opts), evs).t), evs[..TranslatorUsage.Taken(New(opts), evs)];
            && m.id == opts.messageId && m.model == opts.model && InOrder(m.content)
            && (forall i | 0 <= i < |m.content| && m.content[i].OutThinking? :: m.content[i].signature == HeardSignature(heard))
            && (forall i | 0 <= i < |m.content| && m.content[i].OutToolUse? ::
                  IsCall(serde, HeardCalls(opts.toolNames, heard), m.content[i]))
  {
    WholeHears(opts, evs);
    WholeEnds(opts, evs);
    ContentParts(serde, Whole(New(opts), evs).t.acc);
    hide InOrder;
    hide IsCall;
    hide Whole;
    hide HeardCalls;
  }

  lemma ContentParts(serde: Json.Serde, a: Accumulated)
    ensures var content := TranslatorFold.Content(serde, a);
            && InOrder(content)
            && (forall i | 0 <= i < |content| && content[i].OutThinking? :: content[i].signature == a.signature)
            && (forall i | 0 <= i < |content| && content[i].OutToolUse? :: IsCall(serde, a.calls, content[i]))
  {
    hide InOrder;
    hide IsCall;
    var thinking := if a.thinking == "" then [] else [OutThinking(a.thinking, a.signature)];
    var text := if a.text == "" then [] else [OutText(a.text)];
    var tools, redacted := TranslatorFold.ToolBlocks(serde, Dedupe.DedupeCalls(serde, a.calls)), TranslatorFold.RedactedBlocks(a.redacted);
    ContentInOrder(thinking, text, tools, redacted);
    var content := TranslatorFold.Content(serde, a);
    var m := |thinking| + |text|;
    forall i | 0 <= i < |content| && content[i].OutToolUse? ensures IsCall(serde, a.calls, content[i]) {
      assert content[i] == tools[i - m];
      BlockIsCall(serde, a.calls, i - m);
    }
  }
}
