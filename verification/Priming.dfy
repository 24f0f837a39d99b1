/**
 When priming runs into its deadline: exactly when, after as many reads as there is patience,
 output has not started and nothing has halted; otherwise the deadline makes no difference.
 */
module Priming {
  import opened Wrappers
  import opened Anthropic
  import opened Pumping
  import opened Delivery
  import Emitter
  import EventStream
  import Kiro
  import Parser = Events
  import T = Translator
  import TG = TranslatorGrammar
  import TagSplitter
  import Pipeline

  // ---- output starts with the first event ---------------------------------------------------------

  /** A step never takes the start back, and it shows nothing before it. */
  ghost predicate Starts(t: T.State, s: T.Step) {
    (t.emit.started ==> s.t.emit.started) && (s.events != [] ==> s.t.emit.started)
  }

  lemma DeltaStarts(e: Emitter.Emit, head: OutMessage, kind: Emitter.Active, piece: string)
    ensures var o := Emitter.EmitDelta(e, head, kind, piece);
            (e.started ==> o.e.started) && (o.events != [] ==> o.e.started)
  {
  }

  lemma ShowStarts(t: T.State, s: string, k: T.Taken)
    ensures Starts(t, T.ShowThinking(t, s)) && Starts(t, T.ShowText(t, s)) && Starts(t, T.ShowTaken(t, k))
  {
    hide Emitter.EmitDelta;
    hide T.TakeThinking;
    hide T.TakeText;
    DeltaStarts(t.emit, T.Head(t.opts), Emitter.ActiveThinking, T.TakeThinking(T.Budget(t.opts), t.lim, s).out);
    DeltaStarts(t.emit, T.Head(t.opts), Emitter.ActiveText, T.TakeText(T.Budget(t.opts), t.stops, t.lim, s).out);
    DeltaStarts(t.emit, T.Head(t.opts), Emitter.ActiveText, k.out);
  }

  lemma FinishStarts(t: T.State)
    ensures !t.finished ==> T.Finish(t).t.emit.started
    ensures Starts(t, T.Finish(t))
  {
    hide T.ShowThinking;
    hide T.ShowText;
    hide T.ShowTaken;
    if !t.finished {
      var a := T.FinishStart(t).t;
      var a1 := a.(tag := a.tag.(buf := ""));
      ShowStarts(a1, a.tag.buf, T.Taken(a.lim, ""));
      ShowStarts(a1, if a.lim.stop.None? then a.tag.buf else "", T.Taken(a.lim, ""));
      var b := T.FlushTag(a).t;
      ShowStarts(b, "", T.TakeThinking(T.Budget(b.opts), b.lim.(pending := ""), if b.lim.stop.None? then b.lim.pending else ""));
    }
  }

  lemma ConcludeStarts(t: T.State, s: T.Step)
    requires Starts(t, s)
    ensures Starts(t, T.Conclude(s))
  {
    hide T.Finish;
    FinishStarts(s.t);
  }

  lemma PushStarts(t: T.State, ev: Kiro.Event)
    requires TG.Inv(t)
    ensures Starts(t, T.Push(t, ev))
  {
    hide T.Conclude;
    hide T.ShowThinking;
    hide T.ShowText;
    hide Emitter.WholeEvents;
    hide TagSplitter.Feed;
    match ev
    case AssistantResponse(c) =>
      var split := TagSplitter.Feed(TagSplitter.THINKING, t.tag, c);
      ShowStarts(t.(tag := split.st), split.think, T.Taken(t.lim, ""));
      ShowStarts(T.ShowThinking(t.(tag := split.st), split.think).t, split.text, T.Taken(t.lim, ""));
      ConcludeStarts(t, T.PushAssistant(t, c));
    case ReasoningContent(text, signature, redacted) =>
      var t1 := T.Signed(t, signature);
      if redacted.Some? {
        ConcludeStarts(t, T.PushRedacted(t1, redacted.value));
      } else {
        var shown := if t.lim.stop.None? then text else "";
        ShowStarts(t1, shown, T.Taken(t.lim, ""));
        TG.ThinkingGoes(t1, shown);
        ConcludeStarts(t, T.PushReasoning(t1, shown, signature));
      }
    case ToolUse(id, name, input) => ConcludeStarts(t, T.PushTool(t, id, name, input));
    case _ =>
  }

  lemma {:induction false} PushAllStarts(t: T.State, evs: seq<Kiro.Event>)
    requires TG.Inv(t)
    ensures Starts(t, T.PushAll(t, evs))
    decreases |evs|
  {
    hide T.Push;
    hide TG.Inv;
    if evs != [] {
      var a := T.Push(t, evs[0]);
      PushStarts(t, evs[0]);
      TG.PushSteps(t, evs[0]);
      PushAllStarts(a.t, evs[1..]);
    }
  }

  ghost predicate ReadStarts(s: State, st: Step) {
    (s.t.emit.started ==> st.s.t.emit.started) && (st.events != [] ==> st.s.t.emit.started)
  }

  lemma FrameStarts(lib: Lib, s: State, f: EventStream.Frame)
    requires TG.Inv(s.t)
    ensures ReadStarts(s, OnFrame(lib, s, f)) && TG.Inv(OnFrame(lib, s, f).s.t)
  {
    hide Parser.Parse;
    hide T.PushAll;
    hide TG.Inv;
    var o := Parser.Parse(lib.env, s.parser, f);
    if o.result.Ok? {
      PushAllStarts(s.t, o.result.value);
      TG.PushAllSteps(s.t, o.result.value);
    }
  }

  lemma {:induction false} DrainStarts(lib: Lib, s: State)
    requires TG.Inv(s.t)
    ensures ReadStarts(s, Drain(lib, s))
    decreases |s.data|
  {
    hide OnFrame;
    hide EventStream.Decode;
    hide TG.Inv;
    if !Halted(s) {
      match EventStream.Decode(lib.crc, s.data)
      case Got(f, n) =>
        FrameStarts(lib, s.(data := s.data[n..]), f);
        DrainStarts(lib, OnFrame(lib, s.(data := s.data[n..]), f).s);
      case _ =>
    }
  }

  lemma EndStarts(s: State)
    requires TG.Inv(s.t)
    ensures ReadStarts(s, AtEnd(s))
  {
    hide T.PushAll;
    hide T.Finish;
    hide TG.Inv;
    if !Halted(s) {
      var ev := Parser.Flush(s.parser).1;
      var last := if ev.Some? then [ev.value] else [];
      PushAllStarts(s.t, last);
      FinishStarts(T.PushAll(s.t, last).t);
    }
  }

  // ---- reads ------------------------------------------------------------------------------------------

  /** The pump after `n` calls of `next`, and all they showed. */
  function After(lib: Lib, w: World, n: nat): World
    decreases n
  {
    if n == 0 then w else After(lib, Next(lib, w).0, n - 1)
  }

  function Shown(lib: Lib, w: World, n: nat): seq<StreamEvent>
    decreases n
  {
    if n == 0 then [] else EventsOf(Next(lib, w).1) + Shown(lib, Next(lib, w).0, n - 1)
  }

  function EventsOf(c: Chunk): seq<StreamEvent> {
    if c.Done? then [] else c.events
  }

  /** Output has started, or nothing more is read. */
  predicate Settled(s: State) {
    Halted(s) || s.t.emit.started
  }

  lemma NextStarts(lib: Lib, w: World)
    requires Good(w.s)
    ensures var (v, c) := Next(lib, w);
            && Good(v.s)
            && (Settled(w.s) ==> Settled(v.s))
            && (w.s.t.emit.started ==> v.s.t.emit.started)
            && (!c.Done? && c.events != [] ==> v.s.t.emit.started)
  {
    hide Drain;
    hide AtEnd;
    hide Good;
    ReadGood(lib, w);
    if !Halted(w.s) {
      assert TG.Inv(w.s.t) by { GoodInv(w.s); }
      if w.items == [] {
        EndStarts(w.s);
      } else if w.items[0].Data? {
        DrainStarts(lib, w.s.(data := w.s.data + w.items[0].bytes));
      }
    }
  }

  lemma GoodInv(s: State)
    requires Good(s)
    ensures TG.Inv(s.t)
  {
  }

  /** What priming answers at once it answers only when something has started or halted. */
  lemma SettleMeans(lib: Lib, w: World, streaming: bool, buffered: seq<StreamEvent>)
    requires Good(w.s) && (buffered != [] ==> w.s.t.emit.started)
    ensures var (v, c) := Next(lib, w);
            var now := Buffered(c, streaming, buffered);
            && (now != [] ==> v.s.t.emit.started)
            && (Settle(c, v.s, streaming, now).Some? ==> Settled(v.s))
            && (Halted(w.s) ==> Settle(c, v.s, streaming, now).Some?)
  {
    hide Read;
    hide Good;
    NextStarts(lib, w);
  }

  /** Once something has started or halted, patience plays no part any more. */
  lemma {:induction false} NeverLate(lib: Lib, w: World, streaming: bool, patience: nat, other: nat, buffered: seq<StreamEvent>)
    requires Good(w.s) && (buffered != [] ==> w.s.t.emit.started) && Settled(w.s)
    ensures Prime(lib, w, streaming, patience, buffered) == Prime(lib, w, streaming, other, buffered)
    decreases |w.items|
  {
    hide Next;
    hide Good;
    hide Settle;
    var (v, c) := Next(lib, w);
    var now := Buffered(c, streaming, buffered);
    SettleMeans(lib, w, streaming, buffered);
    NextStarts(lib, w);
    if Settle(c, v.s, streaming, now).None? {
      NextShrinks(lib, w, streaming, now);
      NeverLate(lib, v, streaming, if patience == 0 then 0 else patience - 1, if other == 0 then 0 else other - 1, now);
    }
  }

  lemma NextShrinks(lib: Lib, w: World, streaming: bool, now: seq<StreamEvent>)
    requires Settle(Next(lib, w).1, Next(lib, w).0.s, streaming, now).None?
    ensures |Next(lib, w).0.items| < |w.items|
  {
    hide Feed;
    hide AtEnd;
    if w.items == [] {
      EndRead(lib, w);
    }
  }

  /** The deadline strikes: after the reads there was patience for, nothing has started or halted. */
  predicate Strikes(lib: Lib, w: World, patience: nat) {
    !Halted(After(lib, w, patience).s) && !After(lib, w, patience).s.t.emit.started
  }

  lemma {:induction false} PrimeByDeadline(lib: Lib, w: World, streaming: bool, patience: nat, other: nat, buffered: seq<StreamEvent>)
    requires Good(w.s) && (buffered != [] ==> w.s.t.emit.started) && patience <= other
    ensures var r, v := Prime(lib, w, streaming, patience, buffered), After(lib, w, patience);
            if Strikes(lib, w, patience) then r == (World(TimedOut(v.s), v.items), Broken(PRIMING_TIMEOUT)) && Shown(lib, w, patience) == []
            else r == Prime(lib, w, streaming, other, buffered)
    decreases patience
  {
    hide Next;
    hide Good;
    hide Settle;
    if Settled(w.s) {
      NeverLate(lib, w, streaming, patience, other, buffered);
      SettledStays(lib, w, patience);
    } else if patience > 0 {
      var (v, c) := Next(lib, w);
      var now := Buffered(c, streaming, buffered);
      SettleMeans(lib, w, streaming, buffered);
      NextStarts(lib, w);
      if Settle(c, v.s, streaming, now).Some? {
        SettledStays(lib, v, patience - 1);
      } else {
        PrimeByDeadline(lib, v, streaming, patience - 1, other - 1, now);
        if Settled(v.s) {
          SettledStays(lib, v, patience - 1);
        }
      }
    }
  }

  lemma {:induction false} SettledStays(lib: Lib, w: World, n: nat)
    requires Good(w.s) && Settled(w.s)
    ensures Settled(After(lib, w, n).s)
    decreases n
  {
    hide Next;
    hide Good;
    if n > 0 {
      NextStarts(lib, w);
      SettledStays(lib, Next(lib, w).0, n - 1);
    }
  }

  /**
   Streamed or not, priming answers with the timeout exactly when after as many reads as there
   is patience output has not started and nothing was halted, and then no event had been
   translated. Otherwise its answer is that of every greater patience.
   */
  lemma TimesOutIff(lib: Lib, opts: T.Options, items: seq<Item>, streaming: bool, patience: nat, other: nat)
    requires patience <= other
    ensures var w := World(New(opts), items);
            var v := After(lib, w, patience);
            if !Halted(v.s) && !v.s.t.emit.started then
              && Prime(lib, w, streaming, patience, []) == (World(TimedOut(v.s), v.items), Broken(PRIMING_TIMEOUT))
              && Shown(lib, w, patience) == []
            else Prime(lib, w, streaming, patience, []) == Prime(lib, w, streaming, other, [])
  {
    hide Prime;
    hide Good;
    NewGood(opts);
    PrimeByDeadline(lib, World(New(opts), items), streaming, patience, other, []);
  }
}
