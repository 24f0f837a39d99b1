/** What a client gets for a stream of upstream bytes, however it is cut and however it ends. */
module Pipeline {
  import opened Wrappers
  import opened EventStream
  import opened Pumping
  import Events
  import Kiro
  import Emitter
  import TagSplitter
  import BigEndian
  import T = Translator
  import TG = TranslatorGrammar

  // ---- the bytes as upstream events --------------------------------------------------------

  /** The events of some frames, up to the first frame that is refused. */
  datatype Received = Received(parser: Events.Parser, events: seq<Kiro.Event>, refused: bool)

  function Receive(env: Events.Env, p: Events.Parser, fs: seq<Frame>): Received
    decreases |fs|
  {
    if fs == [] then Received(p, [], false) else
    var o := Events.Parse(env, p, fs[0]);
    match o.result
    case Err(_) => Received(o.parser, [], true)
    case Ok(evs) =>
      var r := Receive(env, o.parser, fs[1..]);
      Received(r.parser, evs + r.events, r.refused)
  }

  /** All the events in the bytes of a stream, the call still in flight at its end included. */
  function Upstream(lib: Lib, bytes: seq<BigEndian.byte>): seq<Kiro.Event> {
    var r := Receive(lib.env, Events.Parser(Events.IDLE, 0), Frames(lib.crc, bytes).frames);
    var last := Events.Flush(r.parser).1;
    r.events + if last.Some? && !r.refused then [last.value] else []
  }

  // ---- the pump is the translator run on those events ----------------------------------------

  lemma {:induction false} PushAllAppend(t: T.State, a: seq<Kiro.Event>, b: seq<Kiro.Event>)
    ensures T.PushAll(t, a + b) == T.Then(T.PushAll(t, a), T.PushAll(T.PushAll(t, a).t, b))
    decreases |a|
  {
    hide T.Push;
    if a == [] {
      assert a + b == b;
    } else {
      var x := T.Push(t, a[0]);
      assert (a + b)[1..] == a[1..] + b;
      PushAllAppend(x.t, a[1..], b);
      var y := T.PushAll(x.t, a[1..]);
      assert x.events + (y.events + T.PushAll(y.t, b).events) == (x.events + y.events) + T.PushAll(y.t, b).events;
    }
  }

  lemma {:induction false} QuietAfter(t: T.State, evs: seq<Kiro.Event>)
    requires t.finished || t.failure.Some?
    ensures T.PushAll(t, evs) == T.Step(t, [])
    decreases |evs|
  {
    if evs != [] {
      QuietAfter(t, evs[1..]);
    }
  }

  /** `d` is what the translator makes of `r`, and the parsers agree unless the reading was ended. */
  ghost predicate Translates(s: State, d: Step, r: Received) {
    var a := T.PushAll(s.t, r.events);
    && d.s.t == a.t && d.events == a.events
    && (!Halted(d.s) ==> d.s.parser == r.parser && !r.refused)
    && d.s.ended == s.ended
  }

  lemma {:induction false} DrainTranslates(lib: Lib, s: State)
    requires TG.Inv(s.t) && !s.ended && s.broken.None?
    ensures Translates(s, Drain(lib, s), Receive(lib.env, s.parser, Frames(lib.crc, s.data).frames))
    decreases |s.data|, 0
  {
    hide Decode;
    hide T.PushAll;
    hide Events.Parse;
    hide TG.Inv;
    var fs := Frames(lib.crc, s.data).frames;
    if Halted(s) {
      assert s.t.finished || s.t.failure.Some? by { InvStops(s.t); }
      QuietAfter(s.t, Receive(lib.env, s.parser, fs).events);
    } else {
      match Decode(lib.crc, s.data)
      case NeedMore => QuietAll(s.t);
      case Bad(_) => QuietAll(s.t);
      case Got(f, n) =>
        FrameTranslates(lib, s, f, s.data[n..]);
    }
  }

  lemma InvStops(t: T.State)
    requires TG.Inv(t)
    ensures t.lim.stop.Some? ==> t.finished
  {
  }

  lemma QuietAll(t: T.State)
    ensures T.PushAll(t, []) == T.Step(t, [])
  {
  }

  /** The step of the induction: one frame, then the others. */
  lemma {:induction false} FrameTranslates(lib: Lib, s: State, f: Frame, rest: seq<BigEndian.byte>)
    requires TG.Inv(s.t) && !Halted(s) && |rest| < |s.data|
    ensures var a := OnFrame(lib, s.(data := rest), f);
            var d := Then(a, Drain(lib, a.s));
            Translates(s, d, Receive(lib.env, s.parser, [f] + Frames(lib.crc, rest).frames))
    decreases |rest|, 1
  {
    hide Decode;
    hide T.PushAll;
    hide Events.Parse;
    hide Frames;
    hide TG.Inv;
    var fs := Frames(lib.crc, rest).frames;
    assert ([f] + fs)[1..] == fs;
    var a := OnFrame(lib, s.(data := rest), f);
    match Events.Parse(lib.env, s.parser, f).result {
      case Err(_) => QuietAll(s.t);
      case Ok(evs) =>
        TG.PushAllSteps(s.t, evs);
        assert TG.Inv(a.s.t) by { StepsInv(s.t, T.PushAll(s.t, evs)); }
        DrainTranslates(lib, a.s);
        PushAllAppend(s.t, evs, Receive(lib.env, a.s.parser, fs).events);
    }
  }

  lemma StepsInv(t: T.State, s: T.Step)
    requires TG.Steps(t, s)
    ensures TG.Inv(s.t)
  {
  }

  // ---- the end ------------------------------------------------------------------------------------

  /** A failed translator was not finished, a finished one has a stop. */
  ghost predicate Tidy(t: T.State) {
    TG.Inv(t) && (t.failure.Some? ==> !t.finished) && (t.finished ==> t.lim.stop.Some?)
  }

  lemma FinishKeepsStop(t: T.State)
    requires t.lim.stop.Some?
    ensures T.Finish(t).t.lim.stop.Some? && T.Finish(t).t.failure == t.failure
  {
    hide Emitter.EmitDelta;
    hide T.Budget;
  }

  lemma ConcludeTidy(t: T.State, s: T.Step)
    requires !t.finished && t.failure.None? && s.t.failure.None? && !s.t.finished && TG.Inv(T.Conclude(s).t)
    ensures Tidy(T.Conclude(s).t)
  {
    hide T.Finish;
    if s.t.lim.stop.Some? {
      FinishKeepsStop(s.t);
    }
  }

  lemma PushTidy(t: T.State, ev: Kiro.Event)
    requires Tidy(t)
    ensures Tidy(T.Push(t, ev).t)
  {
    hide T.Finish;
    hide T.Conclude;
    hide T.ShowThinking;
    hide T.ShowText;
    hide Emitter.EmitWhole;
    TG.PushSteps(t, ev);
    if !t.finished && t.failure.None? {
      match ev
      case AssistantResponse(content) =>
        if content != "" {
          ShowKeeps(t, content);
          ConcludeTidy(t, T.PushAssistant(t, content));
        }
      case ReasoningContent(text, signature, redacted) => ReasoningTidy(t, text, signature, redacted);
      case ToolUse(id, name, input) => ConcludeTidy(t, T.PushTool(t, id, name, input));
      case _ =>
    }
  }

  lemma ShowKeeps(t: T.State, text: string)
    ensures T.PushAssistant(t, text).t.finished == t.finished && T.PushAssistant(t, text).t.failure == t.failure
    ensures T.ShowThinking(t, text).t.finished == t.finished && T.ShowThinking(t, text).t.failure == t.failure
  {
    hide Emitter.EmitDelta;
    hide TagSplitter.Feed;
    hide T.TakeText;
    hide T.TakeThinking;
  }

  lemma ReasoningTidy(t: T.State, text: string, signature: Option<string>, redacted: Option<string>)
    requires Tidy(t) && !t.finished && t.failure.None? && TG.Inv(T.OnReasoning(t, text, signature, redacted).t)
    ensures Tidy(T.OnReasoning(t, text, signature, redacted).t)
  {
    hide T.Finish;
    hide T.Conclude;
    hide T.ShowThinking;
    hide Emitter.EmitWhole;
    var t1 := T.Signed(t, signature);
    var shown := if t1.lim.stop.None? then text else "";
    if redacted.Some? {
      ConcludeTidy(t1, T.PushRedacted(t1, redacted.value));
    } else if !t.tag.suppress {
      ShowKeeps(t1, shown);
      ConcludeTidy(t1, T.PushReasoning(t1, shown, signature));
    }
  }

  lemma {:induction false} PushAllTidy(t: T.State, evs: seq<Kiro.Event>)
    requires Tidy(t)
    ensures Tidy(T.PushAll(t, evs).t)
    decreases |evs|
  {
    hide T.Push;
    hide Tidy;
    if evs != [] {
      PushTidy(t, evs[0]);
      PushAllTidy(T.Push(t, evs[0]).t, evs[1..]);
    }
  }

  /** A flushed call is no failure. */
  lemma PushToolNoFailure(t: T.State, ev: Kiro.Event)
    requires ev.ToolUse? && t.failure.None?
    ensures T.Push(t, ev).t.failure.None?
  {
    hide T.Finish;
    hide Emitter.EmitWhole;
    FinishNoFailure(T.PushTool(t, ev.id, ev.name, ev.input).t);
  }

  lemma FinishNoFailure(t: T.State)
    ensures T.Finish(t).t.failure == t.failure
  {
    hide Emitter.EmitDelta;
    hide T.TakeText;
    hide T.TakeThinking;
  }

  /** A stream breaks only while the message is still going on. */
  lemma {:induction false} DrainBreaks(lib: Lib, s: State)
    requires Tidy(s.t) && s.broken.None? && !s.ended
    ensures var d := Drain(lib, s).s;
            Tidy(d.t) && (d.broken.Some? ==> !d.t.finished && d.t.failure.None?)
    decreases |s.data|
  {
    hide Decode;
    hide Events.Parse;
    hide T.PushAll;
    hide TG.Inv;
    if !Halted(s) {
      match Decode(lib.crc, s.data)
      case NeedMore =>
      case Bad(_) =>
      case Got(f, n) =>
        var a := OnFrame(lib, s.(data := s.data[n..]), f);
        match Events.Parse(lib.env, s.parser, f).result {
          case Err(_) =>
          case Ok(evs) =>
            PushAllTidy(s.t, evs);
            DrainBreaks(lib, a.s);
        }
    }
  }

  // ---- the theorems ----------------------------------------------------------------------------------

  predicate Failed(s: State) {
    s.t.failure.Some? || s.broken.Some?
  }

  /** What was read before the end of the stream. */
  lemma ReadSoFar(lib: Lib, opts: T.Options, chunks: seq<seq<BigEndian.byte>>)
    ensures var d := FeedAll(lib, New(opts), chunks);
            var r := Receive(lib.env, Events.Parser(Events.IDLE, 0), Frames(lib.crc, Joined(chunks)).frames);
            && Translates(New(opts), d, r)
            && Tidy(d.s.t) && (d.s.broken.Some? ==> !d.s.t.finished && d.s.t.failure.None?)
  {
    hide Drain;
    hide Receive;
    hide Frames;
    hide T.PushAll;
    var j := Joined(chunks);
    NewWaits(lib, opts);
    FeedAllIsFeed(lib, New(opts), chunks);
    assert [] + j == j;
    var s := New(opts).(data := j);
    DrainTranslates(lib, s);
    DrainBreaks(lib, s);
    assert Translates(New(opts), Drain(lib, s), Receive(lib.env, s.parser, Frames(lib.crc, j).frames));
  }

  /** The end of a stream that was read to its last frame. */
  lemma CleanEnd(t0: T.State, evs: seq<Kiro.Event>, last: seq<Kiro.Event>)
    ensures var a := T.PushAll(t0, evs);
            var b := T.PushAll(a.t, last);
            T.Whole(t0, evs + last) == T.Then(a, T.Then(b, T.Finish(b.t)))
  {
    hide T.PushAll;
    hide T.Finish;
    PushAllAppend(t0, evs, last);
    var a := T.PushAll(t0, evs);
    var b := T.PushAll(a.t, last);
    assert a.events + b.events + T.Finish(b.t).events == a.events + (b.events + T.Finish(b.t).events);
  }

  lemma QuietWhole(t0: T.State, evs: seq<Kiro.Event>, last: seq<Kiro.Event>)
    requires T.PushAll(t0, evs).t.finished
    ensures T.Whole(t0, evs + last) == T.PushAll(t0, evs)
  {
    hide T.PushAll;
    CleanEnd(t0, evs, last);
    var a := T.PushAll(t0, evs);
    QuietAfter(a.t, last);
    assert T.Finish(a.t) == T.Step(a.t, []);
    assert a.events + ([] + []) == a.events;
  }

  lemma FlushNoFailure(t: T.State, last: seq<Kiro.Event>)
    requires t.failure.None? && (last == [] || (|last| == 1 && last[0].ToolUse?))
    ensures T.PushAll(t, last).t.failure.None?
  {
    hide T.Push;
    if last != [] {
      PushToolNoFailure(t, last[0]);
      QuietAll(T.Push(t, last[0]).t);
      assert last[1..] == [];
    }
  }

  /**
   Any bytes in any chunks and any ending: the message is ended exactly when nothing failed, and then
   the client got what the translator makes of the upstream events followed by the end; when something
   failed it got what the translator made of the events before.
   */
  lemma BytesToMessage(lib: Lib, opts: T.Options, chunks: seq<seq<BigEndian.byte>>, ending: Ending)
    ensures var r := Whole(lib, New(opts), chunks, ending);
            var before := Receive(lib.env, Events.Parser(Events.IDLE, 0), Frames(lib.crc, Joined(chunks)).frames).events;
            && (r.s.t.finished <==> !Failed(r.s))
            && (r.s.t.finished ==> T.Step(r.s.t, r.events) == T.Whole(T.New(opts), Upstream(lib, Joined(chunks))))
            && (!r.s.t.finished ==> T.Step(r.s.t, r.events) == T.PushAll(T.New(opts), before))
  {
    hide FeedAll;
    hide Receive;
    hide Frames;
    hide T.PushAll;
    hide T.Finish;
    hide T.New;
    hide T.Whole;
    hide TG.Inv;
    ReadSoFar(lib, opts, chunks);
    var d := FeedAll(lib, New(opts), chunks);
    var rc := Receive(lib.env, Events.Parser(Events.IDLE, 0), Frames(lib.crc, Joined(chunks)).frames);
    var flushed := Events.Flush(rc.parser).1;
    var last := if flushed.Some? && !rc.refused then [flushed.value] else [];
    assert T.PushAll(T.New(opts), rc.events) == T.Step(d.s.t, d.events);
    assert d.events + [] == d.events;
    assert d.s.t.lim.stop.Some? ==> d.s.t.finished by { InvStops(d.s.t); }
    assert !d.s.ended;
    if d.s.t.finished {
      QuietWhole(T.New(opts), rc.events, last);
    } else if !Halted(d.s) && ending == Clean && d.s.data == [] {
      CleanEnd(T.New(opts), rc.events, last);
      FlushNoFailure(d.s.t, last);
      FinishNoFailure(T.PushAll(d.s.t, last).t);
      TG.FinishEnds(T.PushAll(d.s.t, last).t);
    }
  }

  /** Whatever bytes arrive, the client never sees events out of order, and sees a complete message
      exactly when nothing failed. */
  lemma ClientSeesOneMessage(lib: Lib, opts: T.Options, chunks: seq<seq<BigEndian.byte>>, ending: Ending)
    ensures var r := Whole(lib, New(opts), chunks, ending);
            && Emitter.Accept(Emitter.Fresh, r.events) != Emitter.Broken
            && (Emitter.Accept(Emitter.Fresh, r.events) == Emitter.Over <==> !Failed(r.s))
  {
    hide Whole;
    hide Receive;
    hide Frames;
    hide T.PushAll;
    hide T.Whole;
    hide Emitter.Accept;
    BytesToMessage(lib, opts, chunks, ending);
    var before := Receive(lib.env, Events.Parser(Events.IDLE, 0), Frames(lib.crc, Joined(chunks)).frames).events;
    TG.RunIsOneMessage(opts, Upstream(lib, Joined(chunks)));
    TG.PushAllSteps(T.New(opts), before);
  }
}
