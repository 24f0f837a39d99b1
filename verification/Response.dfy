/** Whole responses: what was proved about priming and the body, from the first byte to the last. */
module Response {
  import opened Wrappers
  import opened Pumping
  import opened Delivery
  import opened Anthropic
  import Emitter
  import Json
  import Views
  import Dedupe
  import T = Translator
  import TG = TranslatorGrammar
  import TF = TranslatorFold
  import Pipeline
  import BigEndian

  function Start(opts: T.Options, items: seq<Item>): World {
    World(New(opts), items)
  }

  /** All the bytes that arrive before the connection ends or is lost. */
  function BytesOf(items: seq<Item>): seq<BigEndian.byte> {
    Joined(ChunksOf(items))
  }

  /** What the pump makes of everything upstream sends. */
  function Total(lib: Lib, opts: T.Options, items: seq<Item>): Step {
    Whole(lib, New(opts), ChunksOf(items), EndingOf(items))
  }

  /** The body that follows a successful priming. */
  function BodyOf(w: World, p: Primed): Body
    requires p.Ready? || p.Ended?
  {
    Body(Some(p.events), w, Live, false)
  }

  // ---- one terminal ----------------------------------------------------------------------

  function Terminals(fs: seq<Frame>): nat {
    if fs == [] then 0
    else (if fs[0].ErrorEv? || fs[0] == Ev(MessageStop) then 1 else 0) + Terminals(fs[1..])
  }

  lemma {:induction false} TerminalsAppend(a: seq<Frame>, b: seq<Frame>)
    ensures Terminals(a + b) == Terminals(a) + Terminals(b)
    decreases |a|
  {
    if a == [] {
      assert a + b == b;
    } else {
      assert (a + b)[1..] == a[1..] + b;
      TerminalsAppend(a[1..], b);
    }
  }

  lemma TerminalOne(f: Frame)
    ensures Terminals([]) == 0 && Terminals([f]) == if f.ErrorEv? || f == Ev(MessageStop) then 1 else 0
  {
    assert [f][1..] == [];
  }

  /** Events in order hold one message stop, at the end, exactly when they are a complete message. */
  lemma {:induction false} StopsOnce(p: Emitter.Phase, events: seq<StreamEvent>)
    requires Emitter.Accept(p, events) != Emitter.Broken && p != Emitter.Over
    ensures Terminals(Framed(events)) == if Emitter.Accept(p, events) == Emitter.Over then 1 else 0
    ensures Emitter.Accept(p, events) == Emitter.Over ==> events != [] && events[|events| - 1] == MessageStop
    decreases |events|
  {
    if events != [] {
      var q := Emitter.Advance(p, events[0]);
      TG.BrokenStays(events[1..]);
      assert Framed(events)[1..] == Framed(events[1..]);
      if q == Emitter.Over {
        TG.NoBlocksAtTheEnd(q, events[1..]);
        assert events == [MessageStop];
        assert Framed([]) == [];
      } else {
        StopsOnce(q, events[1..]);
      }
    }
  }

  /** All that is due: every event, and the error event when the stream failed. */
  function AllFrames(total: Step): seq<Frame> {
    Framed(total.events) + Terminal(total.s)
  }

  lemma LastFramed(events: seq<StreamEvent>)
    requires events != []
    ensures Framed(events) != [] && Framed(events)[|events| - 1] == Ev(events[|events| - 1])
  {
    hide Framed;
    assert events == events[..|events| - 1] + [events[|events| - 1]];
    FramedAppend(events[..|events| - 1], [events[|events| - 1]]);
    FramedSingle(events[|events| - 1]);
  }

  lemma FramedSingle(ev: StreamEvent)
    ensures Framed([ev]) == [Ev(ev)]
  {
    assert [ev][1..] == [];
    assert Framed([]) == [];
  }

  /** The cause is what stopped the pump: a failure upstream reported, or a stream that could not be read. */
  ghost predicate Names(c: Cause, s: State) {
    && (c.UpstreamFailure? ==> s.t.failure == Some(c.failure))
    && (c.UpstreamBroken? ==> s.broken == Some(c.error))
  }

  /** There is exactly one terminal among them and it is the last: a message stop when nothing failed,
      otherwise an error event that names what failed. */
  lemma OneTerminal(lib: Lib, opts: T.Options, items: seq<Item>)
    ensures var total := Total(lib, opts, items);
            var fs := AllFrames(total);
            && Terminals(fs) == 1 && fs != []
            && (if Pipeline.Failed(total.s) then fs[|fs| - 1].ErrorEv? else fs[|fs| - 1] == Ev(MessageStop))
            && (fs[|fs| - 1].ErrorEv? ==> Names(fs[|fs| - 1].cause, total.s))
  {
    hide Whole;
    hide Emitter.Accept;
    hide Framed;
    var total := Total(lib, opts, items);
    Pipeline.ClientSeesOneMessage(lib, opts, ChunksOf(items), EndingOf(items));
    StopsOnce(Emitter.Fresh, total.events);
    TerminalsAppend(Framed(total.events), Terminal(total.s));
    if Pipeline.Failed(total.s) {
      TerminalOne(Terminal(total.s)[0]);
    } else {
      TerminalOne(KeepAlive);
      LastFramed(total.events);
    }
  }

  // ---- streamed responses ------------------------------------------------------------------

  lemma PrimedIsGoing(lib: Lib, opts: T.Options, items: seq<Item>, patience: nat)
    requires var p := Prime(lib, Start(opts, items), true, patience, []).1; p.Ready? || p.Ended?
    ensures var (v, p) := Prime(lib, Start(opts, items), true, patience, []);
            Going(BodyOf(v, p)) && Due(lib, BodyOf(v, p)) == AllFrames(Total(lib, opts, items))
            && Play(lib, v).s == Total(lib, opts, items).s
  {
    hide Play;
    hide Whole;
    hide Good;
    hide Framed;
    NewGood(opts);
    PrimeStreaming(lib, Start(opts, items), patience);
    PlayIsWhole(lib, Start(opts, items));
    var (v, p) := Prime(lib, Start(opts, items), true, patience, []);
    if p.Ended? {
      PlayHalted(lib, v);
      assert p.events + [] == p.events;
    }
  }

  /**
   However upstream cuts its bytes, whenever the priming deadline and the keep-alive timer fire and however
   often the body is polled: what the client got, comments aside, is a prefix of all that was due, each event
   once and in order; a body that finished delivered all of it and the request was counted accordingly.
   */
  lemma StreamedOnce(lib: Lib, opts: T.Options, items: seq<Item>, patience: nat, polls: seq<bool>)
    requires var p := Prime(lib, Start(opts, items), true, patience, []).1; p.Ready? || p.Ended?
    ensures var (v, p) := Prime(lib, Start(opts, items), true, patience, []);
            var r := Run(lib, BodyOf(v, p), polls);
            var total := Total(lib, opts, items);
            && Strip(r.out) <= AllFrames(total)
            && (r.body.finished ==> Strip(r.out) == AllFrames(total) && r.body.mark == MarkOf(total.s))
            && (r.body.mark == Completed <==> r.body.finished && !Pipeline.Failed(total.s))
            && (r.body.mark.MarkedFailed? ==> r.body.finished && Names(r.body.mark.cause, total.s))
            && (!r.body.finished ==> r.body.mark == Live)
  {
    hide Play;
    hide Prime;
    hide Whole;
    hide Good;
    hide Framed;
    hide Run;
    hide Strip;
    hide Due;
    PrimedIsGoing(lib, opts, items, patience);
    var (v, p) := Prime(lib, Start(opts, items), true, patience, []);
    RunDelivers(lib, BodyOf(v, p), polls);
    var r := Run(lib, BodyOf(v, p), polls);
    assert Strip(r.out) + [] == Strip(r.out);
  }

  /** The reads that are left, and one more for events that are buffered. */
  function Left(b: Body): nat {
    |b.w.items| + 1 + if b.initial.Some? then 1 else 0
  }

  lemma PollProgress(lib: Lib, b: Body)
    requires !b.finished
    ensures var p := Poll(lib, b, false); p.body.finished || Left(p.body) < Left(b)
  {
    hide Feed;
    hide AtEnd;
    hide Framed;
    if b.initial.None? && b.w.items == [] {
      EndRead(lib, b.w);
    }
  }

  lemma LateKeeps(lib: Lib, b: Body)
    requires !b.finished
    ensures var p := Poll(lib, b, true); p.body.finished || Left(p.body) <= Left(b)
  {
    hide Feed;
    hide AtEnd;
    hide Framed;
    if b.initial.None? && b.w.items == [] {
      EndRead(lib, b.w);
    }
  }

  /** A body finishes after as many polls at which the keep-alive timer does not fire first as there are reads
      left, one for the end and one for events that are buffered. */
  lemma {:induction false} Finishes(lib: Lib, b: Body, polls: seq<bool>)
    requires |b.w.items| + 1 + (if b.initial.Some? then 1 else 0) <= multiset(polls)[false]
    ensures Run(lib, b, polls).body.finished
    decreases |polls|
  {
    hide Poll;
    if polls != [] && !b.finished {
      var p := Poll(lib, b, polls[0]);
      assert polls == [polls[0]] + polls[1..];
      if polls[0] {
        LateKeeps(lib, b);
      } else {
        PollProgress(lib, b);
      }
      if p.body.finished {
        assert Run(lib, p.body, polls[1..]) == Polled(p.body, []);
      } else {
        Finishes(lib, p.body, polls[1..]);
      }
    }
  }

  // ---- folded responses ------------------------------------------------------------------------

  /** A response that is not streamed is answered with the message only when nothing failed, and then the
      translator has seen exactly the upstream events of the bytes and the end. */
  lemma FoldedWhole(lib: Lib, opts: T.Options, items: seq<Item>, patience: nat)
    ensures var (v, p) := Prime(lib, Start(opts, items), false, patience, []);
            var total := Total(lib, opts, items);
            && !p.Ready?
            && (p.Ended? ==> !Pipeline.Failed(total.s) && v.s.t == T.Whole(T.New(opts), Pipeline.Upstream(lib, BytesOf(items))).t)
            && (p.Failed? ==> total.s.t.failure == Some(p.failure))
            && (p.Broken? ==> p.error == PRIMING_TIMEOUT || total.s.broken == Some(p.error))
  {
    hide Play;
    hide Prime;
    hide Whole;
    hide T.Whole;
    hide Pipeline.Upstream;
    PrimeFolded(lib, Start(opts, items), patience);
    PlayIsWhole(lib, Start(opts, items));
    Pipeline.BytesToMessage(lib, opts, ChunksOf(items), EndingOf(items));
  }

  /**
   The same bytes answered as one message and as a stream, each cut and timed in its own way: what a client
   collects from the stream is what it reads in the message, and both end alike.
   */
  lemma SameAnswer(serde: Json.Serde, lib: Lib, opts: T.Options, whole: seq<Item>, patience: nat, streamed: seq<Item>)
    requires BytesOf(whole) == BytesOf(streamed) && EndingOf(whole) == EndingOf(streamed)
    requires Prime(lib, Start(opts, whole), false, patience, []).1.Ended?
    ensures var t := Prime(lib, Start(opts, whole), false, patience, []).0.s.t;
            var events := Total(lib, opts, streamed).events;
            var v := Views.ViewOf(events);
            && |v.calls| == |v.inputs|
            && TF.Read(TF.Fold(serde, t).content)
               == TF.Reading(v.text, v.think, v.redacted, TF.ToolBlocks(serde, Dedupe.DedupeCalls(serde, TF.Recalled(v))))
            && TF.EndsLikeFold(serde, t, events)
  {
    hide Prime;
    hide Whole;
    hide T.Whole;
    hide T.New;
    hide TF.Fold;
    hide TF.Read;
    hide TF.ToolBlocks;
    hide Dedupe.DedupeCalls;
    hide Views.ViewOf;
    hide TF.Recalled;
    hide TF.EndsLikeFold;
    hide Pipeline.Upstream;
    FoldedWhole(lib, opts, whole, patience);
    ChunkingIndependent(lib, opts, ChunksOf(whole), ChunksOf(streamed), EndingOf(whole));
    Pipeline.BytesToMessage(lib, opts, ChunksOf(streamed), EndingOf(streamed));
    var evs := Pipeline.Upstream(lib, BytesOf(streamed));
    TF.StreamAgreesWithFold(serde, opts, evs);
    TF.StreamEndsLikeFold(serde, opts, evs);
  }
}
