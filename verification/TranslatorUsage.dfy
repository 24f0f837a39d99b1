/** Where the reported token counts of a message come from. */
module TranslatorUsage {
  import opened Wrappers
  import opened Kiro
  import opened Translator
  import Emitter
  import TagSplitter
  import Pipeline

  datatype Reported = Reported(input: nat, output: nat)

  /** What a metadata event reports: cached input counts as input; a sum of more than 64 bits is cut to them. */
  function ByMetadata(ev: Event): Option<Reported> {
    if !ev.Metadata? then None else
    var input := ev.uncachedInput + ev.cacheRead;
    if input == 0 && ev.output == 0 then None
    else Some(Reported(if input > 18446744073709551615 then 18446744073709551615 else input, ev.output))
  }

  function ByMetering(ev: Event): Option<Reported> {
    if ev.Metering? && (ev.meterInput > 0 || ev.meterOutput > 0) then Some(Reported(ev.meterInput, ev.meterOutput)) else None
  }

  /** The last report of each kind that says anything. */
  function LastMetadata(evs: seq<Event>): Option<Reported> {
    if evs == [] then None
    else if ByMetadata(evs[|evs| - 1]).Some? then ByMetadata(evs[|evs| - 1])
    else LastMetadata(evs[..|evs| - 1])
  }

  function LastMetering(evs: seq<Event>): Option<Reported> {
    if evs == [] then None
    else if ByMetering(evs[|evs| - 1]).Some? then ByMetering(evs[|evs| - 1])
    else LastMetering(evs[..|evs| - 1])
  }

  function Chosen(evs: seq<Event>): Reported {
    if LastMetadata(evs).Some? then LastMetadata(evs).value
    else if LastMetering(evs).Some? then LastMetering(evs).value
    else Reported(0, 0)
  }

  /** The events change the counts in one way only. */
  function Counted(m: Meter, ev: Event): Meter {
    match ev
    case Metadata(uncached, output, _, cacheRead, cacheWrite) => Metered(m, uncached, output, cacheRead, cacheWrite)
    case Metering(input, output) => Remetered(m, input, output)
    case _ => m
  }

  lemma FinishKeepsMeter(t: State)
    ensures Finish(t).t.meter == t.meter
  {
    hide Emitter.EmitDelta;
    hide TakeText;
    hide TakeThinking;
  }

  lemma ConcludeKeepsMeter(s: Step)
    ensures Conclude(s).t.meter == s.t.meter
  {
    hide Finish;
    FinishKeepsMeter(s.t);
  }

  lemma PushCounts(t: State, ev: Event)
    requires !t.finished && t.failure.None?
    ensures Push(t, ev).t.meter == Counted(t.meter, ev)
  {
    hide Conclude;
    hide Emitter.EmitDelta;
    hide Emitter.EmitWhole;
    hide TagSplitter.Feed;
    hide TakeText;
    hide TakeThinking;
    match ev
    case AssistantResponse(content) => ConcludeKeepsMeter(PushAssistant(t, content));
    case ReasoningContent(text, signature, redacted) =>
      var t1 := Signed(t, signature);
      if redacted.Some? {
        ConcludeKeepsMeter(PushRedacted(t1, redacted.value));
      } else {
        ConcludeKeepsMeter(PushReasoning(t1, if t1.lim.stop.None? then text else "", signature));
      }
    case ToolUse(id, name, input) => ConcludeKeepsMeter(PushTool(t, id, name, input));
    case _ =>
  }

  ghost predicate Takes(t: State) {
    !t.finished && t.failure.None?
  }

  /** The counts while the message goes on, and after the event that ends it or fails. */
  lemma {:induction false} CountsSoFar(opts: Options, evs: seq<Event>)
    requires evs != [] ==> Takes(PushAll(New(opts), evs[..|evs| - 1]).t)
    ensures var m := PushAll(New(opts), evs).t.meter;
            && Reported(m.input, m.output) == Chosen(evs)
            && (m.hasMetadata <==> LastMetadata(evs).Some?)
    decreases |evs|
  {
    hide Push;
    hide New;
    if evs == [] {
      NewMeter(opts);
    } else {
      hide PushAll;
      var front, last := evs[..|evs| - 1], evs[|evs| - 1];
      assert evs == front + [last];
      Pipeline.PushAllAppend(New(opts), front, [last]);
      var t := PushAll(New(opts), front).t;
      OnePush(t, last);
      if front != [] {
        TookAll(opts, front);
      }
      CountsSoFar(opts, front);
      PushCounts(t, last);
    }
  }

  /** A run that still takes events took them all along. */
  lemma TookAll(opts: Options, evs: seq<Event>)
    requires evs != [] && Takes(PushAll(New(opts), evs).t)
    ensures Takes(PushAll(New(opts), evs[..|evs| - 1]).t)
  {
    hide Push;
    hide New;
    hide PushAll;
    var front, last := evs[..|evs| - 1], evs[|evs| - 1];
    assert evs == front + [last];
    Pipeline.PushAllAppend(New(opts), front, [last]);
    var t := PushAll(New(opts), front).t;
    if !Takes(t) {
      Pipeline.QuietAfter(t, [last]);
    }
  }

  /** How many events are taken: up to the one that ends the message or fails, with that one. */
  function Taken(t: State, evs: seq<Event>): (n: nat)
    ensures n <= |evs|
    decreases |evs|
  {
    if evs == [] then 0 else
    var a := Push(t, evs[0]).t;
    if a.finished || a.failure.Some? then 1 else 1 + Taken(a, evs[1..])
  }

  lemma {:induction false} TakenIsAll(t: State, evs: seq<Event>)
    requires Takes(t)
    ensures var n := Taken(t, evs);
            && PushAll(t, evs).t == PushAll(t, evs[..n]).t
            && (n > 0 ==> Takes(PushAll(t, evs[..n - 1]).t))
    decreases |evs|
  {
    hide Push;
    if evs != [] {
      var a, n := Push(t, evs[0]).t, Taken(t, evs);
      if a.finished || a.failure.Some? {
        Pipeline.QuietAfter(a, evs[1..]);
        assert evs[..1] == [evs[0]] && evs[..0] == [];
        OnePush(t, evs[0]);
      } else {
        TakenIsAll(a, evs[1..]);
        assert evs[..n][1..] == evs[1..][..n - 1];
        if n > 1 {
          assert evs[..n - 1][1..] == evs[1..][..n - 2];
        } else {
          assert evs[..0] == [];
        }
      }
    } else {
      assert evs[..0] == evs;
    }
  }

  /** In every run, ended, stopped or failed, the counts of the message are those of the last metadata taken that
      reports any, and only without one those of the last metering taken that does. */
  lemma CountsComeFromLast(opts: Options, evs: seq<Event>)
    ensures var m, heard := Whole(New(opts), evs).t.meter, evs[..Taken(New(opts), evs)];
            && Reported(m.input, m.output) == Chosen(heard)
            && (m.hasMetadata <==> LastMetadata(heard).Some?)
  {
    hide Push;
    hide PushAll;
    hide Finish;
    var n := Taken(New(opts), evs);
    TakenIsAll(New(opts), evs);
    FinishKeepsMeter(PushAll(New(opts), evs).t);
    if n > 0 {
      assert evs[..n][..n - 1] == evs[..n - 1];
    }
    CountsSoFar(opts, evs[..n]);
  }

  lemma NewMeter(opts: Options)
    ensures New(opts).meter == Meter(false, 0, 0, 0, 0)
  {
  }

  lemma OnePush(t: State, ev: Event)
    ensures PushAll(t, [ev]).t == Push(t, ev).t
  {
    hide Push;
    assert [ev][1..] == [];
    Pipeline.QuietAll(Push(t, ev).t);
  }
}
