/** How a stream fails, read off the bytes, their ending and the events in them. */
module Failures {
  import opened Wrappers
  import opened EventStream
  import opened Pumping
  import opened Pipeline
  import Events
  import Kiro
  import BigEndian
  import T = Translator
  import TG = TranslatorGrammar

  /** The error of the first frame whose payload is refused. */
  function Refusal(env: Events.Env, p: Events.Parser, fs: seq<Frame>): Option<Events.EventError>
    decreases |fs|
  {
    if fs == [] then None else
    var o := Events.Parse(env, p, fs[0]);
    match o.result
    case Err(e) => Some(e)
    case Ok(_) => Refusal(env, o.parser, fs[1..])
  }

  /** The message was ended, or upstream reported a failure. */
  predicate Done(t: T.State) {
    t.lim.stop.Some? || t.failure.Some?
  }

  /** How many frames are read: up to the one that is refused or after whose events nothing more is read. */
  function FramesRead(env: Events.Env, t: T.State, p: Events.Parser, fs: seq<Frame>): nat
    decreases |fs|
  {
    if fs == [] then 0 else
    var o := Events.Parse(env, p, fs[0]);
    match o.result
    case Err(_) => 1
    case Ok(evs) =>
      var u := T.PushAll(t, evs).t;
      if Done(u) then 1 else 1 + FramesRead(env, u, o.parser, fs[1..])
  }

  /** What reading bytes leads to: after the events in them `t`, unless it is done then, the first refused
      frame or else the first malformed one breaks the stream, and otherwise it goes on with the rest. */
  ghost predicate Leads(t: T.State, refusal: Option<Events.EventError>, framing: Framing, d: State) {
    && d.t == t && !d.ended
    && if Done(t) then d.broken == None
       else match (refusal, framing.error)
         case (Some(e), _) => d.broken == Some(BadEvent(e))
         case (None, Some(e)) => d.broken == Some(BadFrame(e))
         case (None, None) => d.broken == None && d.data == framing.rest
  }

  function EventsIn(env: Events.Env, p: Events.Parser, fs: seq<Frame>): seq<Kiro.Event> {
    Receive(env, p, fs).events
  }

  lemma {:induction false} DrainLeads(lib: Lib, s: State)
    requires TG.Inv(s.t) && !Halted(s)
    ensures var f := Frames(lib.crc, s.data);
            && Leads(T.PushAll(s.t, EventsIn(lib.env, s.parser, f.frames)).t, Refusal(lib.env, s.parser, f.frames), f, Drain(lib, s).s)
            && Drain(lib, s).s.frames == s.frames + FramesRead(lib.env, s.t, s.parser, f.frames)
    decreases |s.data|, 0
  {
    hide Decode;
    hide T.PushAll;
    hide Events.Parse;
    hide TG.Inv;
    match Decode(lib.crc, s.data)
    case NeedMore => QuietAll(s.t);
    case Bad(_) => QuietAll(s.t);
    case Got(f, n) => FrameLeads(lib, s, f, s.data[n..]);
  }

  lemma {:induction false} FrameLeads(lib: Lib, s: State, f: Frame, rest: seq<BigEndian.byte>)
    requires TG.Inv(s.t) && !Halted(s) && |rest| < |s.data|
    ensures var a := OnFrame(lib, s.(data := rest), f);
            var r := Frames(lib.crc, rest);
            && Leads(T.PushAll(s.t, EventsIn(lib.env, s.parser, [f] + r.frames)).t, Refusal(lib.env, s.parser, [f] + r.frames),
                     Framing([f] + r.frames, r.rest, r.error), Drain(lib, a.s).s)
            && Drain(lib, a.s).s.frames == s.frames + FramesRead(lib.env, s.t, s.parser, [f] + r.frames)
    decreases |rest|, 1
  {
    hide Decode;
    hide T.PushAll;
    hide Events.Parse;
    hide Frames;
    hide TG.Inv;
    var r := Frames(lib.crc, rest);
    assert ([f] + r.frames)[1..] == r.frames;
    var a := OnFrame(lib, s.(data := rest), f);
    var o := Events.Parse(lib.env, s.parser, f);
    match o.result
    case Err(_) => QuietAll(s.t);
    case Ok(evs) =>
      TG.PushAllSteps(s.t, evs);
      StepsInv(s.t, T.PushAll(s.t, evs));
      PushAllAppend(s.t, evs, EventsIn(lib.env, o.parser, r.frames));
      if Done(a.s.t) {
        InvStops(a.s.t);
        QuietAfter(a.s.t, EventsIn(lib.env, o.parser, r.frames));
      } else {
        DrainLeads(lib, a.s);
      }
  }

  /** How the stream with these bytes and this ending fails, if it does, when its events lead to `t`. */
  function WhyBroken(t: T.State, refusal: Option<Events.EventError>, framing: Framing, ending: Ending): Option<UpstreamError> {
    if Done(t) then None
    else if refusal.Some? then Some(BadEvent(refusal.value))
    else if framing.error.Some? then Some(BadFrame(framing.error.value))
    else match ending
      case Fault(message) => Some(Transport(message))
      case Clean => if framing.rest == [] then None else Some(BadFrame(Truncated(|framing.rest|)))
  }

  /**
   For any bytes in any chunks and any ending: a failure is recorded exactly when an event
   reports it, and the stream breaks exactly when neither that nor a stop came first, by the
   first frame that is refused or malformed, else by the fault of the transport, else by bytes
   left over at a clean end, of which it says how many. The frames counted are those read.
   */
  lemma WhyItFails(lib: Lib, opts: T.Options, chunks: seq<seq<BigEndian.byte>>, ending: Ending)
    ensures var r := Whole(lib, New(opts), chunks, ending).s;
            var framing := Frames(lib.crc, Joined(chunks));
            var p := Events.Parser(Events.IDLE, 0);
            var t := T.PushAll(T.New(opts), EventsIn(lib.env, p, framing.frames)).t;
            && r.t.failure == t.failure
            && r.broken == WhyBroken(t, Refusal(lib.env, p, framing.frames), framing, ending)
            && r.frames == FramesRead(lib.env, T.New(opts), p, framing.frames)
  {
    hide FramesRead;
    hide Drain;
    hide Frames;
    hide EventsIn;
    hide Refusal;
    hide T.PushAll;
    hide T.Finish;
    hide T.New;
    var j := Joined(chunks);
    NewWaits(lib, opts);
    FeedAllIsFeed(lib, New(opts), chunks);
    assert [] + j == j;
    var s := New(opts).(data := j);
    NewGoesOn(opts);
    DrainLeads(lib, s);
    var d := FeedAll(lib, New(opts), chunks).s;
    assert d == Drain(lib, s).s;
    ConcludeFails(d, ending);
  }

  lemma NewGoesOn(opts: T.Options)
    ensures TG.Inv(T.New(opts)) && T.New(opts).lim.stop.None? && T.New(opts).failure.None?
  {
  }

  lemma ConcludeFails(d: State, ending: Ending)
    ensures var r := Conclude(d, ending).s;
            && r.t.failure == d.t.failure && r.frames == d.frames
            && r.broken == if Halted(d) then d.broken
                           else match ending
                             case Fault(message) => Some(Transport(message))
                             case Clean => if d.data == [] then None else Some(BadFrame(Truncated(|d.data|)))
  {
    hide T.PushAll;
    hide T.Finish;
    if !Halted(d) && ending == Clean && d.data == [] {
      var flushed := Events.Flush(d.parser).1;
      var last := if flushed.Some? then [flushed.value] else [];
      FlushNoFailure(d.t, last);
      FinishNoFailure(T.PushAll(d.t, last).t);
    }
  }
}
