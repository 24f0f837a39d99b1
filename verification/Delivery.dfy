/**
 How one response reaches the client: priming, then the body of the stream. Whatever the timing,
 every translated event is delivered once and the body ends with one terminal.
 */
module Delivery {
  import opened Wrappers
  import opened BigEndian
  import opened Pumping
  import opened Anthropic
  import T = Translator
  import Pipeline
  import TG = TranslatorGrammar
  import Parser = Events

  /** What the upstream connection yields; after the last item it is closed. */
  datatype Item = Data(bytes: seq<byte>) | Lost(message: string)

  /** A pump and what upstream will still send it. */
  datatype World = World(s: State, items: seq<Item>)

  datatype Chunk =
    | Events(events: seq<StreamEvent>)
    | ChunkFailed(events: seq<StreamEvent>, failure: T.Failure)
    | ChunkBroken(events: seq<StreamEvent>, error: UpstreamError)
    | Done

  /** What a read that led to `st` reports. */
  function Report(st: Step): Chunk {
    if st.s.t.failure.Some? then ChunkFailed(st.events, st.s.t.failure.value)
    else if st.s.broken.Some? then ChunkBroken(st.events, st.s.broken.value)
    else Events(st.events)
  }

  function Read(lib: Lib, w: World): Step {
    if w.items == [] then AtEnd(w.s) else
    match w.items[0]
    case Lost(message) => AtFault(w.s, message)
    case Data(bytes) => Feed(lib, w.s, bytes)
  }

  function Behind(items: seq<Item>): seq<Item> {
    if items == [] then [] else items[1..]
  }

  /** `Pump::next`: what was recorded earlier first, otherwise one read. */
  function Next(lib: Lib, w: World): (World, Chunk) {
    if w.s.t.failure.Some? then (w, ChunkFailed([], w.s.t.failure.value))
    else if w.s.broken.Some? then (w, ChunkBroken([], w.s.broken.value))
    else if EndedOrStopped(w.s) then (w, Done)
    else (World(Read(lib, w).s, Behind(w.items)), Report(Read(lib, w)))
  }

  // ---- priming ----------------------------------------------------------------------------

  datatype Primed =
    | Ready(events: seq<StreamEvent>)
    | Ended(events: seq<StreamEvent>)
    | Failed(failure: T.Failure)
    | Broken(error: UpstreamError)

  const PRIMING_TIMEOUT := Transport("no output within the priming deadline")

  function TimedOut(s: State): State {
    s.(data := [], broken := Some(PRIMING_TIMEOUT))
  }

  /** The deadline runs out while `next` waits for its read number `patience`, unless output has started. */
  predicate Late(s: State, patience: nat) {
    patience == 0 && !s.t.emit.started && !Halted(s)
  }

  function Buffered(c: Chunk, streaming: bool, buffered: seq<StreamEvent>): seq<StreamEvent> {
    if streaming && !c.Done? then buffered + c.events else buffered
  }

  /** What priming answers after a chunk, unless it goes on reading. */
  function Settle(c: Chunk, s: State, streaming: bool, now: seq<StreamEvent>): Option<Primed> {
    match c
    case Done => Some(Ended(now))
    case Events(_) =>
      if EndedOrStopped(s) then Some(Ended(now)) else if streaming && now != [] then Some(Ready(now)) else None
    case ChunkFailed(_, f) => Some(if !streaming || now == [] then Failed(f) else Ready(now))
    case ChunkBroken(_, e) => Some(if !streaming || now == [] then Broken(e) else Ready(now))
  }

  /** `Pump::prime`, having buffered some events. */
  function Prime(lib: Lib, w: World, streaming: bool, patience: nat, buffered: seq<StreamEvent>): (World, Primed)
    decreases |w.items|
  {
    if Late(w.s, patience) then (World(TimedOut(w.s), w.items), Broken(PRIMING_TIMEOUT)) else
    var (v, c) := Next(lib, w);
    var now := Buffered(c, streaming, buffered);
    match Settle(c, v.s, streaming, now)
    case Some(p) => (v, p)
    case None => Prime(lib, v, streaming, if patience == 0 then 0 else patience - 1, now)
  }

  // ---- the body of a streaming response ------------------------------------------------------

  datatype Cause = UpstreamFailure(failure: T.Failure) | UpstreamBroken(error: UpstreamError)

  /** What is written to the client: an event, an error event, or a comment that keeps the connection alive. */
  datatype Frame = Ev(event: StreamEvent) | ErrorEv(cause: Cause) | KeepAlive

  /** How the request was counted. */
  datatype Mark = Live | Completed | MarkedFailed(cause: Cause)

  datatype Body = Body(initial: Option<seq<StreamEvent>>, w: World, mark: Mark, finished: bool)

  function Framed(events: seq<StreamEvent>): (fs: seq<Frame>)
    ensures |fs| == |events|
  {
    if events == [] then [] else [Ev(events[0])] + Framed(events[1..])
  }

  datatype Polled = Polled(body: Body, out: seq<Frame>)

  /** One poll of the body that was not finished; `late` when the keep-alive timer fires first. */
  function Poll(lib: Lib, b: Body, late: bool): Polled {
    if b.initial.Some? then
      var finished := EndedOrStopped(b.w.s);
      Polled(Body(None, b.w, if finished then Completed else b.mark, finished), Framed(b.initial.value))
    else if late && !Halted(b.w.s) then Polled(b, [KeepAlive])
    else
      var (v, c) := Next(lib, b.w);
      Write(b.(w := v), c)
  }

  /** A chunk goes to the client; a failure and the end finish the body. */
  function Write(b: Body, c: Chunk): Polled {
    match c
    case Events(evs) =>
      var finished := EndedOrStopped(b.w.s);
      Polled(b.(mark := if finished then Completed else b.mark, finished := finished), Framed(evs))
    case ChunkFailed(evs, f) =>
      Polled(b.(mark := MarkedFailed(UpstreamFailure(f)), finished := true), Framed(evs) + [ErrorEv(UpstreamFailure(f))])
    case ChunkBroken(evs, e) =>
      Polled(b.(mark := MarkedFailed(UpstreamBroken(e)), finished := true), Framed(evs) + [ErrorEv(UpstreamBroken(e))])
    case Done => Polled(b.(mark := Completed, finished := true), [])
  }

  /** The body polled again and again; a finished body yields nothing. */
  function Run(lib: Lib, b: Body, polls: seq<bool>): Polled
    decreases |polls|
  {
    if polls == [] || b.finished then Polled(b, []) else
    var p := Poll(lib, b, polls[0]);
    var r := Run(lib, p.body, polls[1..]);
    Polled(r.body, p.out + r.out)
  }

  // ---- everything upstream sends -----------------------------------------------------------------

  /** What the pump makes of all the items. */
  function Play(lib: Lib, w: World): Step
    decreases |w.items|
  {
    if w.items == [] then AtEnd(w.s) else
    var a := Read(lib, w);
    Then(a, Play(lib, World(a.s, w.items[1..])))
  }

  function ChunksOf(items: seq<Item>): seq<seq<byte>> {
    if items == [] || items[0].Lost? then [] else [items[0].bytes] + ChunksOf(items[1..])
  }

  function EndingOf(items: seq<Item>): Ending {
    if items == [] then Clean
    else match items[0]
      case Lost(message) => Fault(message)
      case Data(_) => EndingOf(items[1..])
  }

  lemma {:induction false} PlayHalted(lib: Lib, w: World)
    requires Halted(w.s)
    ensures Play(lib, w) == Step(w.s, [])
    decreases |w.items|
  {
    hide Drain;
    if w.items != [] {
      PlayHalted(lib, World(w.s, w.items[1..]));
    }
  }

  lemma {:induction false} PlayIsWhole(lib: Lib, w: World)
    ensures Play(lib, w) == Whole(lib, w.s, ChunksOf(w.items), EndingOf(w.items))
    decreases |w.items|
  {
    hide Feed;
    hide AtEnd;
    if w.items == [] {
      assert [] + AtEnd(w.s).events == AtEnd(w.s).events;
    } else {
      var a := Read(lib, w);
      var v := World(a.s, w.items[1..]);
      match w.items[0]
      case Lost(message) =>
        PlayHalted(lib, v);
        assert a.events + [] == [] + a.events;
      case Data(bytes) =>
        PlayIsWhole(lib, v);
        var chunks := ChunksOf(w.items[1..]);
        assert ChunksOf(w.items)[1..] == chunks;
        ThenAssoc(a, FeedAll(lib, a.s, chunks), Pumping.Conclude(FeedAll(lib, a.s, chunks).s, EndingOf(w.items)));
    }
  }

  /** One call of `next` takes the pump one read further along everything. */
  lemma NextPlays(lib: Lib, w: World)
    ensures var (v, c) := Next(lib, w);
            var evs := if c.Done? then [] else c.events;
            Play(lib, w) == Step(Play(lib, v).s, evs + Play(lib, v).events)
  {
    hide Feed;
    hide AtEnd;
    if Halted(w.s) {
      PlayHalted(lib, w);
    } else if w.items == [] {
      var a := AtEnd(w.s);
      PlayHalted(lib, World(a.s, []));
    }
  }

  // ---- a pump that can be read ------------------------------------------------------------------

  /** A failed pump has not ended its message, and one that is still read has not either. */
  ghost predicate Good(s: State) {
    && TG.Inv(s.t)
    && (Pipeline.Failed(s) ==> !s.t.finished)
    && (!Halted(s) ==> Pipeline.Tidy(s.t))
  }

  lemma NewGood(opts: T.Options)
    ensures Good(New(opts))
  {
  }

  lemma EndGood(s: State)
    requires Good(s)
    ensures Good(AtEnd(s).s)
    ensures Pipeline.Failed(AtEnd(s).s) && !Halted(s) ==> AtEnd(s).events == []
  {
    hide T.PushAll;
    hide T.Finish;
    hide TG.Inv;
    if !Halted(s) {
      Unstopped(s.t);
      var ev := Parser.Flush(s.parser).1;
      var last := if ev.Some? then [ev.value] else [];
      var a := T.PushAll(s.t, last);
      Pipeline.PushAllTidy(s.t, last);
      Pipeline.FlushNoFailure(s.t, last);
      TG.FinishSteps(a.t);
      Pipeline.StepsInv(a.t, T.Finish(a.t));
      Pipeline.FinishNoFailure(a.t);
    }
  }

  lemma Unstopped(t: T.State)
    requires Pipeline.Tidy(t) && t.lim.stop.None?
    ensures !t.finished && TG.Inv(t)
  {
  }

  lemma FeedGood(lib: Lib, s: State, bytes: seq<byte>)
    requires Good(s)
    ensures Good(Feed(lib, s, bytes).s)
    ensures !Halted(s) ==> !Feed(lib, s, bytes).s.ended
  {
    hide Drain;
    hide TG.Inv;
    if !Halted(s) {
      var s1 := s.(data := s.data + bytes);
      Unstopped(s.t);
      Pipeline.DrainBreaks(lib, s1);
      Pipeline.DrainTranslates(lib, s1);
      TidyInv(Drain(lib, s1).s.t);
    }
  }

  lemma TidyInv(t: T.State)
    requires Pipeline.Tidy(t)
    ensures TG.Inv(t) && (t.failure.Some? ==> !t.finished)
  {
  }

  /** Reading keeps the pump good, and a read that fails at the very end shows nothing. */
  lemma ReadGood(lib: Lib, w: World)
    requires Good(w.s)
    ensures var r := Read(lib, w);
            && Good(r.s)
            && (!Halted(w.s) && Pipeline.Failed(r.s) && r.events != [] ==> !EndedOrStopped(r.s))
  {
    hide Feed;
    hide AtEnd;
    hide TG.Inv;
    if w.items == [] {
      EndGood(w.s);
    } else {
      match w.items[0]
      case Lost(_) => if !Halted(w.s) { Unstopped(w.s.t); }
      case Data(bytes) =>
        FeedGood(lib, w.s, bytes);
        if Pipeline.Failed(Feed(lib, w.s, bytes).s) {
          StopsFinished(Feed(lib, w.s, bytes).s);
        }
    }
  }

  lemma StopsFinished(s: State)
    requires Good(s) && Pipeline.Failed(s)
    ensures s.t.lim.stop.None?
  {
  }

  // ---- the theorems about priming ------------------------------------------------------------------

  /** Nothing is left to read, or something failed. */
  predicate Over(s: State) {
    EndedOrStopped(s) && !Pipeline.Failed(s)
  }

  /**
   Priming a streaming response neither loses nor repeats an event. An error instead of a stream is
   answered only when there was no event at all, or when the deadline passed before any output.
   */
  lemma {:induction false} PrimeStreaming(lib: Lib, w: World, patience: nat)
    requires Good(w.s) && !Halted(w.s)
    ensures var (v, p) := Prime(lib, w, true, patience, []);
            match p
            case Ended(first) => Good(v.s) && Over(v.s) && Play(lib, w) == Step(v.s, first)
            case Ready(first) =>
              && Good(v.s) && !EndedOrStopped(v.s) && first != []
              && Play(lib, w) == Step(Play(lib, v).s, first + Play(lib, v).events)
            case Failed(f) => Play(lib, w).events == [] && Play(lib, w).s.t.failure == Some(f)
            case Broken(e) => e == PRIMING_TIMEOUT || (Play(lib, w).events == [] && Play(lib, w).s.broken == Some(e))
    decreases |w.items|
  {
    hide Read;
    hide Play;
    hide Good;
    if !Late(w.s, patience) {
      var (v, c) := Next(lib, w);
      NextPlays(lib, w);
      ReadGood(lib, w);
      assert c.Done? || [] + c.events == c.events;
      if Halted(v.s) {
        PlayHalted(lib, v);
      } else if c == Events([]) {
        EndRead(lib, w);
        var none: seq<StreamEvent> := [];
        assert none + none == none;
        PrimeStreaming(lib, v, if patience == 0 then 0 else patience - 1);
        assert [] + Play(lib, v).events == Play(lib, v).events;
      }
    }
  }

  lemma EndRead(lib: Lib, w: World)
    ensures w.items == [] ==> Halted(Read(lib, w).s)
  {
  }

  /** Priming a response that is not streamed reads everything: it never hands over early. */
  lemma {:induction false} PrimeFolded(lib: Lib, w: World, patience: nat)
    requires !Halted(w.s)
    ensures var (v, p) := Prime(lib, w, false, patience, []);
            match p
            case Ready(_) => false
            case Ended(first) => first == [] && Over(v.s) && v.s == Play(lib, w).s
            case Failed(f) => v.s == Play(lib, w).s && v.s.t.failure == Some(f)
            case Broken(e) => e == PRIMING_TIMEOUT || (v.s == Play(lib, w).s && v.s.broken == Some(e))
    decreases |w.items|
  {
    hide Read;
    hide Play;
    if !Late(w.s, patience) {
      var (v, c) := Next(lib, w);
      NextPlays(lib, w);
      var none: seq<StreamEvent> := [];
      assert none + none == none;
      if Halted(v.s) {
        PlayHalted(lib, v);
      } else {
        EndRead(lib, w);
        PrimeFolded(lib, v, if patience == 0 then 0 else patience - 1);
      }
    }
  }

  // ---- the theorems about the body ------------------------------------------------------------------

  /** The frames other than keep-alive comments. */
  function Strip(fs: seq<Frame>): seq<Frame> {
    if fs == [] then []
    else (if fs[0].KeepAlive? then [] else [fs[0]]) + Strip(fs[1..])
  }

  lemma {:induction false} StripAppend(a: seq<Frame>, b: seq<Frame>)
    ensures Strip(a + b) == Strip(a) + Strip(b)
    decreases |a|
  {
    if a == [] {
      assert a + b == b;
    } else {
      assert (a + b)[1..] == a[1..] + b;
      StripAppend(a[1..], b);
    }
  }

  lemma {:induction false} StripFramed(events: seq<StreamEvent>)
    ensures Strip(Framed(events)) == Framed(events)
    decreases |events|
  {
    if events != [] {
      assert Framed(events)[1..] == Framed(events[1..]);
      StripFramed(events[1..]);
    }
  }

  lemma StripOne(f: Frame)
    ensures Strip([]) == [] && Strip([f]) == if f.KeepAlive? then [] else [f]
  {
    assert [f][1..] == [];
  }

  lemma {:induction false} FramedAppend(a: seq<StreamEvent>, b: seq<StreamEvent>)
    ensures Framed(a + b) == Framed(a) + Framed(b)
    decreases |a|
  {
    if a == [] {
      assert a + b == b;
    } else {
      assert (a + b)[1..] == a[1..] + b;
      FramedAppend(a[1..], b);
    }
  }

  function CauseOf(s: State): Option<Cause> {
    if s.t.failure.Some? then Some(UpstreamFailure(s.t.failure.value))
    else if s.broken.Some? then Some(UpstreamBroken(s.broken.value))
    else None
  }

  /** The error event that ends a stream that failed. */
  function Terminal(s: State): seq<Frame> {
    if CauseOf(s).Some? then [ErrorEv(CauseOf(s).value)] else []
  }

  function MarkOf(s: State): Mark {
    if CauseOf(s).Some? then MarkedFailed(CauseOf(s).value) else Completed
  }

  /** All that the client will get from here. */
  function Due(lib: Lib, b: Body): seq<Frame> {
    var rest := Play(lib, b.w);
    Framed((if b.initial.Some? then b.initial.value else []) + rest.events) + Terminal(rest.s)
  }

  /** A body that goes on. */
  ghost predicate Going(b: Body) {
    && Good(b.w.s) && !b.finished && b.mark == Live
    && (if b.initial.Some? then EndedOrStopped(b.w.s) ==> !Pipeline.Failed(b.w.s) else !Over(b.w.s))
  }

  /** A poll delivers the front of what is due; the last one settles how the request is counted. */
  ghost predicate Delivers(lib: Lib, b: Body, p: Polled) {
    && Due(lib, b) == Strip(p.out) + (if p.body.finished then [] else Due(lib, p.body))
    && Play(lib, p.body.w).s == Play(lib, b.w).s
    && (if p.body.finished then p.body.mark == MarkOf(Play(lib, b.w).s) else Going(p.body))
  }

  lemma InitialDelivers(lib: Lib, b: Body, late: bool)
    requires Going(b) && b.initial.Some?
    ensures Delivers(lib, b, Poll(lib, b, late))
  {
    hide Play;
    hide Framed;
    hide Strip;
    hide Good;
    var rest := Play(lib, b.w);
    FramedAppend(b.initial.value, rest.events);
    StripFramed(b.initial.value);
    assert [] + rest.events == rest.events;
    if EndedOrStopped(b.w.s) {
      PlayHalted(lib, b.w);
      FramedNothing();
    }
  }

  lemma FramedNothing()
    ensures Framed([]) == []
  {
  }

  lemma ReadDelivers(lib: Lib, b: Body, late: bool)
    requires Going(b) && b.initial.None? && !(late && !Halted(b.w.s))
    ensures Delivers(lib, b, Poll(lib, b, late))
  {
    hide Play;
    hide Framed;
    hide Strip;
    hide Good;
    hide Read;
    var (v, c) := Next(lib, b.w);
    NextPlays(lib, b.w);
    ReadGood(lib, b.w);
    FramedNothing();
    assert [] + Play(lib, b.w).events == Play(lib, b.w).events;
    if Halted(v.s) {
      PlayHalted(lib, v);
    }
    if !c.Done? {
      FramedAppend(c.events, Play(lib, v).events);
      assert [] + Play(lib, v).events == Play(lib, v).events;
      StripFramed(c.events);
      if Pipeline.Failed(v.s) {
        StripAppend(Framed(c.events), Terminal(v.s));
        StripOne(Terminal(v.s)[0]);
      }
    }
  }

  lemma LateDelivers(lib: Lib, b: Body)
    requires Going(b) && b.initial.None? && !Halted(b.w.s)
    ensures Delivers(lib, b, Poll(lib, b, true))
  {
    hide Due;
    hide Play;
    hide Good;
    StripOne(KeepAlive);
    assert [] + Due(lib, b) == Due(lib, b);
  }

  lemma PollDelivers(lib: Lib, b: Body, late: bool)
    requires Going(b)
    ensures Delivers(lib, b, Poll(lib, b, late))
  {
    hide *;
    if b.initial.Some? {
      InitialDelivers(lib, b, late);
    } else if late && !Halted(b.w.s) {
      LateDelivers(lib, b);
    } else {
      ReadDelivers(lib, b, late);
    }
  }

  /** A poll and the polls after it. */
  lemma JoinDelivers(lib: Lib, b: Body, p: Polled, r: Polled)
    requires Delivers(lib, b, p)
    requires if p.body.finished then r == Polled(p.body, []) else Delivers(lib, p.body, r)
    ensures Delivers(lib, b, Polled(r.body, p.out + r.out))
  {
    hide Due;
    hide Going;
    hide Play;
    hide Strip;
    StripNothing();
    StripAppend(p.out, r.out);
    var due := if r.body.finished then [] else Due(lib, r.body);
    assert Strip(p.out) + (Strip(r.out) + due) == Strip(p.out) + Strip(r.out) + due;
  }

  lemma {:induction false} RunDelivers(lib: Lib, b: Body, polls: seq<bool>)
    requires Going(b)
    ensures Delivers(lib, b, Run(lib, b, polls))
    decreases |polls|
  {
    hide Poll;
    hide Due;
    hide Going;
    hide Play;
    assert !b.finished by { GoingOn(b); }
    if polls == [] {
      StripNothing();
      assert [] + Due(lib, b) == Due(lib, b);
    } else {
      hide Strip;
      var p := Poll(lib, b, polls[0]);
      PollDelivers(lib, b, polls[0]);
      if !p.body.finished {
        RunDelivers(lib, p.body, polls[1..]);
      }
      JoinDelivers(lib, b, p, Run(lib, p.body, polls[1..]));
    }
  }

  lemma StripNothing()
    ensures Strip([]) == []
  {
  }

  lemma GoingOn(b: Body)
    requires Going(b)
    ensures !b.finished
  {
  }
}
