/** The pump and the streaming body as objects. */
module PumpClass {
  import opened Wrappers
  import opened Anthropic
  import opened Delivery
  import opened Pumping
  import opened FrameDecoderClass
  import opened EventParserClass
  import opened ResponseTranslatorClass
  import ES = EventStream
  import Parser = Events
  import Kiro
  import T = Translator
  import TG = TranslatorGrammar
  import Pipeline

  class Pump {
    var bytes: seq<Item>
    const decoder: FrameDecoder
    const parser: EventParser
    const translator: ResponseTranslator
    var frames: nat
    var ended: bool
    var broken: Option<UpstreamError>

    ghost function Library(): Lib {
      Lib(decoder.crc, parser.env)
    }

    ghost predicate Running()
      reads this, decoder, parser, translator
    {
      !ended && translator.localStop.None? && translator.failure.None? && broken.None?
    }

    ghost predicate Valid()
      reads this, decoder, parser, translator
    {
      decoder.Valid() && translator.Valid() && TG.Inv(translator.State())
    }

    /** The state as a value: bytes that will not be read any more are left out. */
    ghost function Value(): State
      reads this, decoder, parser, translator
      requires Valid()
    {
      State(if Running() then decoder.Pending() else [], parser.State(), translator.State(), frames, ended, broken)
    }

    ghost function World(): World
      reads this, decoder, parser, translator
      requires Valid()
    {
      Delivery.World(Value(), bytes)
    }

    constructor (bytes: seq<Item>, crc: ES.Crc, env: Parser.Env, opts: T.Options)
      ensures Valid() && World() == Delivery.World(New(opts), bytes) && Library() == Lib(crc, env)
      ensures fresh(decoder) && fresh(parser) && fresh(translator)
    {
      this.bytes := bytes;
      decoder := new FrameDecoder(crc);
      parser := new EventParser(env);
      translator := new ResponseTranslator(opts);
      frames, ended, broken := 0, false, None;
      new;
    }

    method EndedOrStopped() returns (r: bool)
      requires Valid()
      ensures r == Pumping.EndedOrStopped(Value())
    {
      var stopped := translator.Stopped();
      r := ended || stopped;
    }

    /** The events of one frame, up to the one that ends the reading. */
    method PushEvents(events: seq<Kiro.Event>) returns (out: seq<StreamEvent>)
      requires Valid() && translator.failure.None? && translator.localStop.None?
      modifies translator
      ensures Valid()
      ensures T.Step(translator.State(), out) == T.PushAll(old(translator.State()), events)
    {
      hide T.Push;
      out := [];
      var i := 0;
      ghost var t0 := translator.State();
      Pipeline.QuietAll(t0);
      assert events[..0] == [];
      while i < |events|
        invariant 0 <= i <= |events|
        invariant translator.Valid() && TG.Inv(translator.State())
        invariant T.Step(translator.State(), out) == T.PushAll(t0, events[..i])
        invariant translator.failure.None? && translator.localStop.None?
      {
        ghost var t := translator.State();
        TG.PushSteps(t, events[i]);
        var more := translator.Push(events[i]);
        out := out + more;
        PushOneMore(t0, events, i);
        i := i + 1;
        if translator.failure.Some? {
          PushStays(t0, events, i);
          return;
        }
        var stopped := translator.Stopped();
        if stopped {
          PushStays(t0, events, i);
          return;
        }
      }
      assert events[..i] == events;
    }

    /** `next`: `ready` is false when the call is cancelled while it waits for upstream. */
    method Next(ready: bool) returns (c: Option<Chunk>)
      requires Valid()
      modifies this`bytes, this`frames, this`ended, this`broken, decoder, parser, translator
      ensures Valid()
      ensures c.None? <==> !ready && old(Running())
      ensures c.None? ==> World() == old(World())
      ensures c.Some? ==> (World(), c.value) == Delivery.Next(Library(), old(World()))
    {
      hide Drain;
      hide Pumping.AtEnd;
      hide TG.Inv;
      if translator.failure.Some? {
        return Some(ChunkFailed([], translator.failure.value));
      }
      if broken.Some? {
        return Some(ChunkBroken([], broken.value));
      }
      var over := EndedOrStopped();
      if over {
        return Some(Done);
      }
      if !ready {
        return None;
      }
      if bytes == [] {
        var r := AtEnd();
        return Some(r);
      }
      var item := bytes[0];
      bytes := bytes[1..];
      match item {
        case Lost(message) =>
          broken := Some(Transport(message));
          return Some(ChunkBroken([], Transport(message)));
        case Data(chunk) =>
          decoder.Push(chunk);
          var r := DrainFrames();
          return Some(r);
      }
    }

    /** `prime`: the deadline runs out during read number `patience`, unless output has started by then. */
    method Prime(streaming: bool, patience: nat) returns (p: Primed)
      requires Valid()
      modifies this`bytes, this`frames, this`ended, this`broken, decoder, parser, translator
      ensures Valid()
      ensures (World(), p) == Delivery.Prime(Library(), old(World()), streaming, patience, [])
    {
      hide Delivery.Next;
      hide TG.Inv;
      hide Delivery.Settle;
      hide Delivery.Prime;
      hide Buffered;
      hide Late;
      ghost var lib, w0 := Library(), World();
      var buffered: seq<StreamEvent> := [];
      var left := patience;
      while true
        invariant Valid()
        invariant Delivery.Prime(lib, w0, streaming, patience, []) == Delivery.Prime(lib, World(), streaming, left, buffered)
        decreases |bytes|
      {
        ghost var w := World();
        PrimeOnce(lib, w, streaming, left, buffered);
        var c := NextInTime(left);
        if c.None? {
          return Broken(PRIMING_TIMEOUT);
        }
        buffered := Buffered(c.value, streaming, buffered);
        var settled := Settled(c.value, streaming, buffered);
        if settled.Some? {
          return settled.value;
        }
        left := if left == 0 then 0 else left - 1;
      }
    }

    /** `next` under the priming deadline, which does not apply once output has started. */
    method NextInTime(left: nat) returns (c: Option<Chunk>)
      requires Valid()
      modifies this`bytes, this`frames, this`ended, this`broken, decoder, parser, translator
      ensures Valid()
      ensures c.None? <==> Late(old(Value()), left)
      ensures c.None? ==> World() == Delivery.World(TimedOut(old(Value())), old(bytes))
      ensures c.Some? ==> (World(), c.value) == Delivery.Next(Library(), old(World()))
    {
      hide Delivery.Next;
      hide TG.Inv;
      c := Next(translator.started || left > 0);
      if c.None? {
        broken := Some(PRIMING_TIMEOUT);
      }
    }

    method Settled(c: Chunk, streaming: bool, buffered: seq<StreamEvent>) returns (r: Option<Primed>)
      requires Valid()
      ensures r == Settle(c, Value(), streaming, buffered)
    {
      match c {
        case Events(evs) =>
          var over := EndedOrStopped();
          if over {
            return Some(Ended(buffered));
          }
          if streaming && buffered != [] {
            return Some(Ready(buffered));
          }
          return None;
        case ChunkFailed(evs, f) =>
          if !streaming || buffered == [] {
            return Some(Failed(f));
          }
          return Some(Ready(buffered));
        case ChunkBroken(evs, e) =>
          if !streaming || buffered == [] {
            return Some(Broken(e));
          }
          return Some(Ready(buffered));
        case Done =>
          return Some(Ended(buffered));
      }
    }

    /** Upstream closed the connection. */
    method AtEnd() returns (c: Chunk)
      requires Valid() && Running()
      modifies this`ended, this`broken, parser, translator
      ensures Valid()
      ensures !c.Done? && Step(Value(), c.events) == Pumping.AtEnd(old(Value())) && c == Report(Pumping.AtEnd(old(Value())))
    {
      hide T.PushAll;
      hide T.Finish;
      var out: seq<StreamEvent> := [];
      ended := true;
      var finished := decoder.Finish();
      if finished.Err? {
        var e := BadFrame(finished.error);
        broken := Some(e);
        return ChunkBroken(out, e);
      }
      ghost var t := translator.State();
      var last := parser.Finish();
      Pipeline.QuietAll(t);
      if last.Some? {
        TG.PushSteps(t, last.value);
        PushSingle(t, last.value);
        Pipeline.PushToolNoFailure(t, last.value);
        out := translator.Push(last.value);
      }
      ghost var a := T.PushAll(t, if last.Some? then [last.value] else []);
      assert T.Step(translator.State(), out) == a;
      TG.FinishSteps(a.t);
      Pipeline.FinishNoFailure(a.t);
      var more := translator.Finish();
      out := out + more;
      c := Events(out);
    }

    /** One complete frame that was taken from the decoder. */
    method TakeFrame(f: ES.Frame) returns (r: Result<seq<StreamEvent>, UpstreamError>)
      requires Valid() && Running()
      modifies this`frames, this`broken, parser, translator
      ensures Valid() && ended == old(ended)
      ensures var a := OnFrame(Library(), old(Value()), f);
              && a == Step(Value().(data := a.s.data), if r.Ok? then r.value else [])
              && a.s.broken == (if r.Ok? then None else Some(r.error)) && (r.Err? ==> translator.failure.None?)
    {
      hide Parser.Parse;
      hide T.PushAll;
      hide TG.Inv;
      frames := frames + 1;
      var events := parser.Parse(f);
      if events.Err? {
        var e := BadEvent(events.error);
        broken := Some(e);
        return Err(e);
      }
      var more := PushEvents(events.value);
      r := Ok(more);
    }

    /** The next frame, if it is complete: its events or what is wrong with it. */
    method OneFrame() returns (r: Option<Result<seq<StreamEvent>, UpstreamError>>)
      requires Valid() && Running()
      modifies this`frames, this`broken, decoder, parser, translator
      ensures Valid()
      ensures match r
              case None => Running() && Drain(Library(), old(Value())) == Step(Value(), [])
              case Some(Err(e)) =>
                broken == Some(e) && translator.failure.None? && Drain(Library(), old(Value())) == Step(Value(), [])
              case Some(Ok(evs)) =>
                && broken.None? && !ended && |decoder.Pending()| < |old(decoder.Pending())|
                && Drain(Library(), old(Value())) == Then(Step(Value(), evs), Drain(Library(), Value()))
    {
      hide ES.Decode;
      hide OnFrame;
      hide Drain;
      hide TG.Inv;
      ghost var lib := Library();
      DrainOnce(lib, Value());
      var frame := decoder.NextFrame();
      if frame.Err? {
        var e := BadFrame(frame.error);
        broken := Some(e);
        return Some(Err(e));
      }
      if frame.value.None? {
        return None;
      }
      ghost var a := OnFrame(lib, Value(), frame.value.value);
      var t := TakeFrame(frame.value.value);
      DrainOnce(lib, a.s);
      DrainOnce(lib, Value());
      if t.Err? {
        NothingLast([]);
        return Some(Err(t.error));
      }
      r := Some(Ok(t.value));
    }

    /** Every complete frame in the decoder, until something ends the reading. */
    method DrainFrames() returns (c: Chunk)
      requires Valid() && Running()
      modifies this`frames, this`broken, decoder, parser, translator
      ensures Valid()
      ensures !c.Done? && Step(Value(), c.events) == Drain(Library(), old(Value())) && c == Report(Drain(Library(), old(Value())))
    {
      hide Drain;
      hide TG.Inv;
      ghost var lib, d := Library(), Drain(Library(), Value());
      var out: seq<StreamEvent> := [];
      NothingFirst(lib, Value());
      while true
        invariant Valid() && Running()
        invariant d == Then(Step(Value(), out), Drain(lib, Value()))
        decreases |decoder.Pending()|
      {
        ghost var s := Value();
        NothingLast(out);
        var r := OneFrame();
        if r.None? {
          return Events(out);
        }
        if r.value.Err? {
          return ChunkBroken(out, r.value.error);
        }
        ThenAssoc(Step(s, out), Step(Value(), r.value.value), Drain(lib, Value()));
        out := out + r.value.value;
        NothingLast(out);
        DrainHalted(lib, Value());
        if translator.failure.Some? {
          return ChunkFailed(out, translator.failure.value);
        }
        var stopped := translator.Stopped();
        if stopped {
          return Events(out);
        }
      }
    }
  }

  lemma DrainHalted(lib: Lib, s: State)
    ensures Halted(s) ==> Drain(lib, s) == Step(s.(data := []), [])
  {
  }

  lemma NothingLast(out: seq<StreamEvent>)
    ensures out + [] == out
  {
  }

  lemma NothingFirst(lib: Lib, s: State)
    ensures Drain(lib, s) == Then(Step(s, []), Drain(lib, s))
  {
    hide Drain;
    assert [] + Drain(lib, s).events == Drain(lib, s).events;
  }

  /** One round of priming. */
  lemma PrimeOnce(lib: Lib, w: World, streaming: bool, patience: nat, buffered: seq<StreamEvent>)
    ensures Late(w.s, patience) ==>
              Delivery.Prime(lib, w, streaming, patience, buffered)
              == (Delivery.World(TimedOut(w.s), w.items), Broken(PRIMING_TIMEOUT))
    ensures var (v, c) := Delivery.Next(lib, w);
            var now := Buffered(c, streaming, buffered);
            var settled := Settle(c, v.s, streaming, now);
            !Late(w.s, patience) ==>
              && (settled.None? ==> |v.items| < |w.items|)
              && Delivery.Prime(lib, w, streaming, patience, buffered)
                 == if settled.Some? then (v, settled.value)
                    else Delivery.Prime(lib, v, streaming, if patience == 0 then 0 else patience - 1, now)
  {
    hide Read;
    EndRead(lib, w);
  }

  /** One round of draining. */
  lemma DrainOnce(lib: Lib, s: State)
    ensures Halted(s) ==> Drain(lib, s) == Step(s.(data := []), [])
    ensures var d := ES.Decode(lib.crc, s.data);
            && (!Halted(s) && d.NeedMore? ==> Drain(lib, s) == Step(s, []))
            && (!Halted(s) && d.Bad? ==> Drain(lib, s) == Step(s.(data := [], broken := Some(BadFrame(d.error))), []))
            && (!Halted(s) && d.Got? ==>
                  var a := OnFrame(lib, s.(data := s.data[d.n..]), d.frame);
                  Drain(lib, s) == Then(a, Drain(lib, a.s)))
  {
    hide ES.Decode;
    hide OnFrame;
  }

  lemma PushSingle(t: T.State, ev: Kiro.Event)
    ensures T.PushAll(t, [ev]) == T.Push(t, ev)
  {
    hide T.Push;
    assert [ev][1..] == [];
    Pipeline.QuietAll(T.Push(t, ev).t);
    assert T.Push(t, ev).events + [] == T.Push(t, ev).events;
  }

  lemma PushOneMore(t0: T.State, events: seq<Kiro.Event>, i: nat)
    requires i < |events|
    ensures var a := T.PushAll(t0, events[..i]);
            T.PushAll(t0, events[..i + 1]) == T.Then(a, T.Push(a.t, events[i]))
  {
    hide T.Push;
    hide T.PushAll;
    assert events[..i + 1] == events[..i] + [events[i]];
    Pipeline.PushAllAppend(t0, events[..i], [events[i]]);
    PushSingle(T.PushAll(t0, events[..i]).t, events[i]);
  }

  /** Once the translator takes nothing more, the events that are left out would not have changed anything. */
  lemma PushStays(t0: T.State, events: seq<Kiro.Event>, i: nat)
    requires i <= |events|
    requires var t := T.PushAll(t0, events[..i]).t; TG.Inv(t) && (t.failure.Some? || t.lim.stop.Some?)
    ensures T.PushAll(t0, events) == T.PushAll(t0, events[..i])
  {
    hide T.PushAll;
    var a := T.PushAll(t0, events[..i]);
    assert events == events[..i] + events[i..];
    Pipeline.PushAllAppend(t0, events[..i], events[i..]);
    Pipeline.QuietAfter(a.t, events[i..]);
    assert a.events + [] == a.events;
  }

  /** The body of a streaming response: its state is carried from poll to poll. */
  class StreamBody {
    var initial: Option<seq<StreamEvent>>
    const pump: Pump
    var mark: Mark
    var finished: bool

    ghost predicate Valid()
      reads this, pump, pump.decoder, pump.parser, pump.translator
    {
      pump.Valid()
    }

    ghost function Value(): Body
      reads this, pump, pump.decoder, pump.parser, pump.translator
      requires Valid()
    {
      Body(initial, pump.World(), mark, finished)
    }

    constructor (first: seq<StreamEvent>, pump: Pump)
      requires pump.Valid()
      ensures Valid() && this.pump == pump && Value() == Body(Some(first), pump.World(), Live, false)
    {
      initial, this.pump, mark, finished := Some(first), pump, Live, false;
    }

    /** One poll; `ready` is false when the keep-alive timer fires before upstream sends anything. */
    method Poll(ready: bool) returns (out: Option<seq<Frame>>)
      requires Valid()
      modifies this, pump, pump.decoder, pump.parser, pump.translator
      ensures Valid()
      ensures out.None? <==> old(finished)
      ensures out.None? ==> Value() == old(Value())
      ensures out.Some? ==> Polled(Value(), out.value) == Delivery.Poll(pump.Library(), old(Value()), !ready)
    {
      hide Delivery.Next;
      hide TG.Inv;
      hide Delivery.Write;
      if finished {
        return None;
      }
      if initial.Some? {
        var text := Framed(initial.value);
        finished := pump.EndedOrStopped();
        if finished {
          mark := Completed;
        }
        initial := None;
        return Some(text);
      }
      var chunk := pump.Next(ready);
      if chunk.None? {
        return Some([KeepAlive]);
      }
      var text := Write(chunk.value);
      out := Some(text);
    }

    /** A chunk becomes text; a failure and the end finish the body. */
    method Write(chunk: Chunk) returns (text: seq<Frame>)
      requires Valid()
      modifies this`mark, this`finished
      ensures Valid()
      ensures Polled(Value(), text) == Delivery.Write(old(Value()), chunk)
    {
      hide TG.Inv;
      match chunk {
        case Events(events) =>
          finished := pump.EndedOrStopped();
          if finished {
            mark := Completed;
          }
          text := Framed(events);
        case ChunkFailed(events, failure) =>
          finished, mark := true, MarkedFailed(UpstreamFailure(failure));
          text := Framed(events) + [ErrorEv(UpstreamFailure(failure))];
        case ChunkBroken(events, error) =>
          finished, mark := true, MarkedFailed(UpstreamBroken(error));
          text := Framed(events) + [ErrorEv(UpstreamBroken(error))];
        case Done =>
          finished, mark := true, Completed;
          text := [];
      }
    }
  }
}
