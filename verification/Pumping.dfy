/**
 The pipeline from upstream bytes to client events: decode, parse, translate. Its output does not
 depend on how the network cuts the bytes.
 */
module Pumping {
  import opened Wrappers
  import opened BigEndian
  import opened EventStream
  import Anthropic
  import Events
  import T = Translator

  datatype Lib = Lib(crc: Crc, env: Events.Env)

  datatype UpstreamError =
    | BadFrame(frame: FrameError)
    | BadEvent(event: Events.EventError)
    | Transport(message: string)

  /** `data` are the bytes pushed and not yet consumed; once nothing more is read they do not matter. */
  datatype State = State(
    data: seq<byte>, parser: Events.Parser, t: T.State, frames: nat, ended: bool, broken: Option<UpstreamError>)

  datatype Step = Step(s: State, events: seq<Anthropic.StreamEvent>)

  function New(opts: T.Options): State {
    State([], Events.Parser(Events.IDLE, 0), T.New(opts), 0, false, None)
  }

  function Then(a: Step, b: Step): Step {
    Step(b.s, a.events + b.events)
  }

  predicate EndedOrStopped(s: State) {
    s.ended || s.t.lim.stop.Some?
  }

  /** Nothing more will be read. */
  predicate Halted(s: State) {
    EndedOrStopped(s) || s.t.failure.Some? || s.broken.Some?
  }

  /** One complete frame: its events go to the translator one after the other. */
  function OnFrame(lib: Lib, s: State, f: Frame): (r: Step)
    ensures r.s.data == s.data
  {
    var o := Events.Parse(lib.env, s.parser, f);
    match o.result
    case Err(e) => Step(s.(frames := s.frames + 1, parser := o.parser, broken := Some(BadEvent(e))), [])
    case Ok(evs) =>
      var a := T.PushAll(s.t, evs);
      Step(s.(frames := s.frames + 1, parser := o.parser, t := a.t), a.events)
  }

  /** Every complete frame that was received, until something ends the reading. */
  function Drain(lib: Lib, s: State): Step
    decreases |s.data|
  {
    if Halted(s) then Step(s.(data := []), []) else
    match Decode(lib.crc, s.data)
    case NeedMore => Step(s, [])
    case Bad(e) => Step(s.(data := [], broken := Some(BadFrame(e))), [])
    case Got(f, n) =>
      var a := OnFrame(lib, s.(data := s.data[n..]), f);
      Then(a, Drain(lib, a.s))
  }

  function Feed(lib: Lib, s: State, chunk: seq<byte>): Step {
    if Halted(s) then Step(s, []) else Drain(lib, s.(data := s.data + chunk))
  }

  /** The stream ended: clean between two frames, truncated inside one. */
  function AtEnd(s: State): (r: Step)
    ensures Halted(r.s)
  {
    if Halted(s) then Step(s, [])
    else if s.data != [] then Step(s.(data := [], ended := true, broken := Some(BadFrame(Truncated(|s.data|)))), [])
    else
      var (p, ev) := Events.Flush(s.parser);
      var a := T.PushAll(s.t, if ev.Some? then [ev.value] else []);
      var b := T.Finish(a.t);
      Step(s.(parser := p, ended := true, t := b.t), a.events + b.events)
  }

  function AtFault(s: State, message: string): Step {
    if Halted(s) then Step(s, []) else Step(s.(data := [], broken := Some(Transport(message))), [])
  }

  // ---- whole streams -----------------------------------------------------------------------

  datatype Ending = Clean | Fault(message: string)

  function FeedAll(lib: Lib, s: State, chunks: seq<seq<byte>>): Step
    decreases |chunks|
  {
    if chunks == [] then Step(s, []) else
    var a := Feed(lib, s, chunks[0]);
    Then(a, FeedAll(lib, a.s, chunks[1..]))
  }

  function Conclude(s: State, ending: Ending): Step {
    match ending
    case Clean => AtEnd(s)
    case Fault(message) => AtFault(s, message)
  }

  function Whole(lib: Lib, s: State, chunks: seq<seq<byte>>, ending: Ending): Step {
    var a := FeedAll(lib, s, chunks);
    Then(a, Conclude(a.s, ending))
  }

  function Joined(chunks: seq<seq<byte>>): seq<byte> {
    if chunks == [] then [] else chunks[0] + Joined(chunks[1..])
  }

  // ---- chunking does not matter --------------------------------------------------------------

  lemma ThenAssoc(a: Step, b: Step, c: Step)
    ensures Then(Then(a, b), c) == Then(a, Then(b, c))
  {
    assert (a.events + b.events) + c.events == a.events + (b.events + c.events);
  }

  /** A frame is handled in the same way whatever bytes wait behind it. */
  lemma OnFrameIgnoresData(lib: Lib, s: State, f: Frame, d: seq<byte>)
    ensures OnFrame(lib, s.(data := d), f)
            == Step(OnFrame(lib, s, f).s.(data := d), OnFrame(lib, s, f).events)
  {
    hide Events.Parse;
    hide T.PushAll;
  }

  /** Draining more bytes is draining the first ones, then feeding the others. */
  lemma {:induction false} DrainAppend(lib: Lib, s: State, more: seq<byte>)
    ensures Drain(lib, s.(data := s.data + more)) == Then(Drain(lib, s), Feed(lib, Drain(lib, s).s, more))
    decreases |s.data|
  {
    hide Decode;
    hide OnFrame;
    if !Halted(s) {
      match Decode(lib.crc, s.data)
      case NeedMore =>
      case Bad(_) => PrefixStable(lib.crc, s.data, more);
      case Got(f, n) =>
        PrefixStable(lib.crc, s.data, more);
        assert (s.data + more)[n..] == s.data[n..] + more;
        var a := OnFrame(lib, s.(data := s.data[n..]), f);
        OnFrameIgnoresData(lib, s.(data := s.data[n..]), f, s.data[n..] + more);
        DrainAppend(lib, a.s, more);
        ThenAssoc(a, Drain(lib, a.s), Feed(lib, Drain(lib, a.s).s, more));
    }
  }

  /** A pump waits for bytes only when what it has is no complete frame, and keeps none it will not read. */
  ghost predicate Waiting(lib: Lib, s: State) {
    if Halted(s) then s.data == [] else Decode(lib.crc, s.data) == NeedMore
  }

  lemma FeedAppend(lib: Lib, s: State, a: seq<byte>, b: seq<byte>)
    ensures Feed(lib, s, a + b) == Then(Feed(lib, s, a), Feed(lib, Feed(lib, s, a).s, b))
  {
    hide Drain;
    if !Halted(s) {
      DrainAppend(lib, s.(data := s.data + a), b);
      assert s.data + a + b == s.data + (a + b);
    }
  }

  lemma FeedNothing(lib: Lib, s: State)
    requires Waiting(lib, s)
    ensures Feed(lib, s, []) == Step(s, [])
  {
    assert s.data + [] == s.data;
  }

  lemma {:induction false} DrainWaits(lib: Lib, s: State)
    ensures Waiting(lib, Drain(lib, s).s)
    decreases |s.data|
  {
    hide OnFrame;
    if !Halted(s) {
      match Decode(lib.crc, s.data)
      case NeedMore =>
      case Bad(_) =>
      case Got(f, n) => DrainWaits(lib, OnFrame(lib, s.(data := s.data[n..]), f).s);
    }
  }

  lemma {:induction false} FeedAllIsFeed(lib: Lib, s: State, chunks: seq<seq<byte>>)
    requires Waiting(lib, s)
    ensures FeedAll(lib, s, chunks) == Feed(lib, s, Joined(chunks))
    decreases |chunks|
  {
    hide Drain;
    if chunks == [] {
      FeedNothing(lib, s);
    } else {
      var a := Feed(lib, s, chunks[0]);
      if !Halted(s) {
        DrainWaits(lib, s.(data := s.data + chunks[0]));
      }
      FeedAllIsFeed(lib, a.s, chunks[1..]);
      FeedAppend(lib, s, chunks[0], Joined(chunks[1..]));
    }
  }

  /** Any two ways to cut the same bytes give the same events, the same state and so the same outcome. */
  lemma ChunkingIndependent(lib: Lib, opts: T.Options, a: seq<seq<byte>>, b: seq<seq<byte>>, ending: Ending)
    requires Joined(a) == Joined(b)
    ensures Whole(lib, New(opts), a, ending) == Whole(lib, New(opts), b, ending)
  {
    NewWaits(lib, opts);
    FeedAllIsFeed(lib, New(opts), a);
    FeedAllIsFeed(lib, New(opts), b);
  }

  lemma NewWaits(lib: Lib, opts: T.Options)
    ensures Waiting(lib, New(opts))
  {
  }
}
