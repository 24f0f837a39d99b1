/** In every run the translator's output follows the grammar of Emitter.dfy. */
module TranslatorGrammar {
  import opened Wrappers
  import opened Anthropic
  import opened Kiro
  import opened Emitter
  import opened Translator

  /** A step that takes the client from the phase of `t` to the phase of its result. */
  ghost predicate Goes(t: State, s: Step) {
    && Emitter.Valid(t.emit) && Emitter.Valid(s.t.emit) && s.t.opts == t.opts
    && Accept(PhaseOf(t.emit), s.events) == PhaseOf(s.t.emit)
  }

  lemma ThenGoes(t: State, a: Step, b: Step)
    requires Goes(t, a) && Goes(a.t, b)
    ensures Goes(t, Then(a, b))
  {
    AcceptAppend(PhaseOf(t.emit), a.events, b.events);
  }

  lemma ThinkingGoes(t: State, thought: string)
    requires Emitter.Valid(t.emit)
    ensures Goes(t, ShowThinking(t, thought))
  {
    DeltaFollows(t.emit, Head(t.opts), ActiveThinking, TakeThinking(Budget(t.opts), t.lim, thought).out);
  }

  lemma TakenGoes(t: State, k: Taken)
    requires Emitter.Valid(t.emit)
    ensures Goes(t, ShowTaken(t, k))
  {
    DeltaFollows(t.emit, Head(t.opts), ActiveText, k.out);
  }

  lemma TextGoes(t: State, text: string)
    requires Emitter.Valid(t.emit)
    ensures Goes(t, ShowText(t, text))
  {
    TakenGoes(t, TakeText(Budget(t.opts), t.stops, t.lim, text));
  }

  lemma PlacedGoes(t: State, visible: bool, block: Block, delta: Option<Delta>)
    requires Emitter.Valid(t.emit) && Complete(block, delta)
    ensures Goes(t, Placed(t, visible, block, delta))
  {
    WholeFollows(t.emit, Head(t.opts), visible, block, delta);
  }

  lemma AssistantGoes(t: State, content: string)
    requires Emitter.Valid(t.emit)
    ensures Goes(t, PushAssistant(t, content))
  {
    var split := TagSplitter.Feed(TagSplitter.THINKING, t.tag, content);
    var t1 := t.(tag := split.st);
    var a := ShowThinking(t1, split.think);
    ThinkingGoes(t1, split.think);
    TextGoes(a.t, split.text);
    assert Goes(t, a);
    ThenGoes(t, a, ShowText(a.t, split.text));
  }

  lemma ReasoningGoes(t: State, text: string, signature: Option<string>)
    requires Emitter.Valid(t.emit)
    ensures Goes(t, PushReasoning(t, text, signature))
  {
    var a := ShowThinking(t, text);
    ThinkingGoes(t, text);
    var tail := PushReasoning(t, text, signature).events[|a.events|..];
    var b := Step(a.t, tail);
    if tail != [] {
      AcceptOne(PhaseOf(a.t.emit), tail[0]);
      assert tail == [tail[0]];
    }
    ThenGoes(t, a, b);
    assert PushReasoning(t, text, signature) == Then(a, b);
  }

  // ---- the end of the message ------------------------------------------------------

  /** Flushing goes on inside the message. */
  lemma FlushGoes(t: State)
    requires Emitter.Valid(t.emit)
    ensures Goes(t, FlushTag(t)) && Goes(t, FlushPending(t))
  {
    var t1 := t.(tag := t.tag.(buf := ""));
    ThinkingGoes(t1, t.tag.buf);
    TextGoes(t1, if t.lim.stop.None? then t.tag.buf else "");
    TakenGoes(t, TakeThinking(Budget(t.opts), t.lim.(pending := ""), if t.lim.stop.None? then t.lim.pending else ""));
  }

  lemma EndCloses(t: State)
    requires Emitter.Valid(t.emit) && t.emit.started
    ensures Accept(PhaseOf(t.emit), FinishEnd(t).events) == Over
  {
    var c := CloseActive(t.emit);
    CloseFollows(t.emit);
    var delta := MessageDelta(StopOf(t).reason, StopOf(t).sequence, UsageOf(t));
    AcceptOne(PhaseOf(c.e), delta);
    AcceptOne(Ending, MessageStop);
    assert [delta, MessageStop] == [delta] + [MessageStop];
    AcceptAppend(PhaseOf(c.e), [delta], [MessageStop]);
    AcceptAppend(PhaseOf(t.emit), c.events, [delta, MessageStop]);
  }

  lemma StaysStarted(t: State)
    requires t.emit.started
    ensures FlushTag(t).t.emit.started && FlushPending(t).t.emit.started
  {
  }

  /** Ending a message that was not ended closes its open block and ends it. */
  lemma FinishCloses(t: State)
    requires Emitter.Valid(t.emit) && !t.finished
    ensures Finish(t).t.finished && Accept(PhaseOf(t.emit), Finish(t).events) == Over
  {
    var a := FinishStart(t);
    StartFollows(t.emit, Head(t.opts));
    assert Goes(t, a) && a.t.emit.started;
    var b := FlushTag(a.t);
    FlushGoes(a.t);
    StaysStarted(a.t);
    ThenGoes(t, a, b);
    var c := FlushPending(b.t);
    FlushGoes(b.t);
    StaysStarted(b.t);
    var abc := Then(Then(a, b), c);
    ThenGoes(t, Then(a, b), c);
    EndCloses(c.t);
    AcceptAppend(PhaseOf(t.emit), abc.events, FinishEnd(c.t).events);
  }

  // ---- whole runs --------------------------------------------------------------------

  /** Between two calls: a latched stop has ended the message. */
  ghost predicate Inv(t: State) {
    Emitter.Valid(t.emit) && (t.lim.stop.Some? ==> t.finished)
  }

  /** The phase between two calls. */
  ghost function PhaseNow(t: State): Phase
    requires Inv(t)
  {
    if t.finished then Over else PhaseOf(t.emit)
  }

  ghost predicate Steps(t: State, s: Step) {
    Inv(t) && Inv(s.t) && Accept(PhaseNow(t), s.events) == PhaseNow(s.t)
  }

  lemma FinishKeepsEmit(t: State)
    requires Emitter.Valid(t.emit)
    ensures Emitter.Valid(Finish(t).t.emit)
  {
    if !t.finished {
      var a := FinishStart(t);
      StartFollows(t.emit, Head(t.opts));
      FlushGoes(a.t);
      FlushGoes(FlushTag(a.t).t);
    }
  }

  lemma FinishEnds(t: State)
    ensures Finish(t).t.finished
  {
  }

  lemma FinishSteps(t: State)
    requires Inv(t)
    ensures Steps(t, Finish(t)) && Finish(t).t.finished
  {
    FinishKeepsEmit(t);
    if !t.finished {
      FinishCloses(t);
    }
  }

  /** A step made while nothing was latched, then the end of the message if it latched. */
  lemma ConcludeSteps(t: State, s: Step)
    requires Inv(t) && !t.finished && Goes(t, s) && !s.t.finished
    ensures Steps(t, Conclude(s))
  {
    if s.t.lim.stop.Some? {
      FinishKeepsEmit(s.t);
      FinishCloses(s.t);
      AcceptAppend(PhaseOf(t.emit), s.events, Finish(s.t).events);
    }
  }

  lemma OnReasoningSteps(t: State, text: string, signature: Option<string>, redacted: Option<string>)
    requires Inv(t) && !t.finished
    ensures Steps(t, OnReasoning(t, text, signature, redacted))
  {
    var t1 := Signed(t, signature);
    if redacted.Some? {
      var t2 := t1.(acc := t1.acc.(redacted := t1.acc.redacted + [redacted.value]),
                    lim := AccountOpaque(Budget(t1.opts), t1.lim, redacted.value));
      PlacedGoes(t2, false, RedactedBlock(redacted.value), None);
      assert Goes(t, PushRedacted(t1, redacted.value));
      ConcludeSteps(t, PushRedacted(t1, redacted.value));
    } else if !t.tag.suppress {
      var shown := if t.lim.stop.None? then text else "";
      ReasoningGoes(t1, shown, signature);
      assert Goes(t, PushReasoning(t1, shown, signature));
      ConcludeSteps(t, PushReasoning(t1, shown, signature));
    }
  }

  lemma ToolSteps(t: State, id: string, name: string, input: string)
    requires Inv(t) && !t.finished
    ensures Steps(t, Conclude(PushTool(t, id, name, input)))
  {
    var original := OriginalName(t.opts, name);
    var t1 := t.(acc := t.acc.(calls := t.acc.calls + [ToolCall(id, original, input)]),
                 lim := AccountOpaque(Budget(t.opts), t.lim, input));
    PlacedGoes(t1, true, ToolBlock(id, original), Some(InputJsonDelta(input)));
    assert Goes(t, PushTool(t, id, name, input));
    ConcludeSteps(t, PushTool(t, id, name, input));
  }

  /** Every push keeps to the grammar, and ends the message when it latches a stop. */
  lemma PushSteps(t: State, ev: Event)
    requires Inv(t)
    ensures Steps(t, Push(t, ev))
  {
    if !t.finished && t.failure.None? {
      match ev
      case AssistantResponse(content) =>
        AssistantGoes(t, content);
        ConcludeSteps(t, PushAssistant(t, content));
      case ReasoningContent(text, signature, redacted) => OnReasoningSteps(t, text, signature, redacted);
      case ToolUse(id, name, input) => ToolSteps(t, id, name, input);
      case _ =>
    }
  }

  lemma {:induction false} PushAllSteps(t: State, evs: seq<Event>)
    requires Inv(t)
    ensures Steps(t, PushAll(t, evs))
    decreases |evs|
  {
    if evs != [] {
      var a := Push(t, evs[0]);
      PushSteps(t, evs[0]);
      PushAllSteps(a.t, evs[1..]);
      AcceptAppend(PhaseNow(t), a.events, PushAll(a.t, evs[1..]).events);
    }
  }

  /** Any upstream events and then the end: the client sees one complete message. */
  lemma RunIsOneMessage(opts: Options, evs: seq<Event>)
    ensures Accept(Fresh, PushAll(New(opts), evs).events) != Broken
    ensures Accept(Fresh, Whole(New(opts), evs).events) == Over
  {
    var a := PushAll(New(opts), evs);
    PushAllSteps(New(opts), evs);
    FinishSteps(a.t);
    AcceptAppend(Fresh, a.events, Finish(a.t).events);
  }

  /** Once the message has ended nothing more comes out, whatever is pushed or finished again. */
  lemma {:induction false} NothingAfterTheEnd(t: State, evs: seq<Event>)
    requires t.finished
    ensures PushAll(t, evs) == Step(t, []) && Whole(t, evs) == Step(t, [])
    decreases |evs|
  {
    if evs != [] {
      NothingAfterTheEnd(t, evs[1..]);
    }
  }

  // ---- what the grammar means for a client -----------------------------------------------

  /** The indices that block starts carry, in order. */
  function Indices(events: seq<StreamEvent>): seq<nat> {
    if events == [] then []
    else (if events[0].BlockStart? then [events[0].index] else []) + Indices(events[1..])
  }

  /** The number of blocks a phase has seen opened. */
  function Opened(p: Phase): nat {
    match p
    case Idle(n) => n
    case Open(_, n, _) => n + 1
    case _ => 0
  }

  lemma {:induction false} AcceptedIndices(p: Phase, events: seq<StreamEvent>, k: nat)
    requires Accept(p, events) != Broken && k < |Indices(events)|
    ensures Indices(events)[k] == (Opened(p) + k) % 4294967296
    decreases |events|
  {
    BrokenStays(events[1..]);
    var q := Advance(p, events[0]);
    if events[0].BlockStart? {
      if k > 0 {
        AcceptedIndices(q, events[1..], k - 1);
      }
    } else {
      if q == Ending || q == Over {
        NoBlocksAtTheEnd(q, events[1..]);
      } else {
        AcceptedIndices(q, events[1..], k);
      }
    }
  }

  lemma {:induction false} BrokenStays(events: seq<StreamEvent>)
    ensures Accept(Broken, events) == Broken
    decreases |events|
  {
    if events != [] {
      BrokenStays(events[1..]);
    }
  }

  lemma {:induction false} NoBlocksAtTheEnd(p: Phase, events: seq<StreamEvent>)
    requires p == Ending || p == Over
    requires Accept(p, events) != Broken
    ensures Indices(events) == []
    ensures events == [] || (p == Ending && events == [MessageStop])
    decreases |events|
  {
    if events != [] {
      BrokenStays(events[1..]);
      NoBlocksAtTheEnd(Advance(p, events[0]), events[1..]);
      assert events == [events[0]] + events[1..];
    }
  }
}
