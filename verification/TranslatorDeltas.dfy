/**
 What a message says when upstream sends nothing but text deltas, computed from the text and
 the places where it is cut, with any budget and any stop sequences.
 */
module TranslatorDeltas {
  import opened Wrappers
  import opened Anthropic
  import opened Kiro
  import opened Text
  import opened TagSplitter
  import opened Translator
  import opened TranslatorLimits
  import opened TranslatorText
  import Emitter
  import StopFilter
  import TranslatorGrammar

  /** What a client gets of a message of text and thinking: both, and why it stopped early. */
  datatype Outcome = Outcome(text: string, think: string, stop: Option<Stop>)

  function OutcomeOf(t: State): Outcome {
    Outcome(t.acc.text, t.acc.thinking, t.lim.stop)
  }

  const AT_BUDGET := Some(Stop(MaxTokens, None))

  /** Text deltas as upstream events; upstream never makes an event of an empty one count. */
  function Deltas(ds: seq<string>): seq<Event> {
    if ds == [] then [] else [AssistantResponse(ds[0])] + Deltas(ds[1..])
  }

  // ---- what is known of a text ----------------------------------------------------------------

  function TextOf(said: string): string {
    SplitOf(said).text
  }

  function ThinkOf(said: string): string {
    SplitOf(said).think
  }

  /** All that lies inside the thinking tags, or outside them, the held-back end included. */
  function Side(said: string, inside: bool): string {
    Total(SplitOf(said), inside)
  }

  /** The stop sequence found in the text outside thinking. */
  function Hit(list: seq<string>, said: string): Option<string> {
    StopFilter.FirstListed(list, TextOf(said))
  }

  /** How many of `n` characters the stop filter does not hold back. */
  function Through(list: seq<string>, n: nat): (k: nat)
    ensures k <= n
  {
    if n <= StopFilter.MaxKeep(list) then 0 else n - StopFilter.MaxKeep(list)
  }

  function Passed(list: seq<string>, said: string): (n: nat)
    ensures n <= |TextOf(said)|
  {
    Through(list, |TextOf(said)|)
  }

  /** The text up to the stop sequence, or what the filter does not hold back. */
  function CutText(list: seq<string>, said: string): string {
    var t := TextOf(said);
    match Hit(list, said)
    case Some(x) => t[..Find(t, x).value]
    case None => t[..Passed(list, said)]
  }

  /** The characters shown while nothing has stopped. */
  function Shown(list: seq<string>, said: string): nat {
    Passed(list, said) + |ThinkOf(said)|
  }

  /** The message ends in the delta that completes `said`. */
  predicate Ends(b: nat, list: seq<string>, said: string) {
    Hit(list, said).Some? || b <= Shown(list, said)
  }

  // ---- what a run of deltas comes to ------------------------------------------------------------

  /** One delta takes the text from `q` to `p`, where the message ends. Its thinking comes first. */
  function CutAt(b: nat, list: seq<string>, q: string, p: string): Outcome
    requires Passed(list, q) < b
  {
    var room := b - Passed(list, q);
    if room <= |ThinkOf(p)| then Outcome(CutText(list, p), Take(ThinkOf(p), room), AT_BUDGET)
    else if Hit(list, p).Some? then Outcome(CutText(list, p), Take(Side(p, true), room), Some(Stop(StopSequence, Hit(list, p))))
    else Outcome(Take(CutText(list, p), b - |ThinkOf(p)|), ThinkOf(p), AT_BUDGET)
  }

  /** The stream ends first: what tags and stop filter hold back is shown as far as it fits. */
  function Flushed(b: nat, list: seq<string>, said: string): Outcome
    requires Passed(list, said) < b
  {
    var text, think, n := Side(said, false), Side(said, true), Passed(list, said);
    match StopFilter.FirstListed(list, text)
    case Some(x) => Outcome(text[..Find(text, x).value], think, Some(Stop(StopSequence, Some(x))))
    case None =>
      if b <= n + |think| then Outcome(TextOf(said)[..n], Take(think, b - n), AT_BUDGET)
      else Outcome(Take(text, b - |think|), think, if b <= |text| + |think| then AT_BUDGET else None)
  }

  function Spoken(b: nat, list: seq<string>, said: string, ds: seq<string>): Outcome
    requires Shown(list, said) < b
    decreases |ds|
  {
    if ds == [] then Flushed(b, list, said)
    else if Ends(b, list, said + ds[0]) then CutAt(b, list, said, said + ds[0])
    else Spoken(b, list, said + ds[0], ds[1..])
  }

  // ---- the translator does that -------------------------------------------------------------------

  /** Only assistant text was accumulated, all of it, on the right sides of the tags. */
  ghost predicate FollowsAll(t: State, said: string) {
    && Follows(t, said) && t.acc.thinking == ThinkOf(said) && t.acc.calls == [] && t.acc.redacted == []
    && !t.finished && t.failure.None?
  }

  /** What is held back and what is shown of the text. */
  lemma Held(t: State, said: string)
    requires FollowsAll(t, said)
    ensures var n := Passed(t.stops, said);
            && t.acc.text == TextOf(said)[..n] && t.lim.pending == TextOf(said)[n..] && Hit(t.stops, said).None?
            && t.lim.chars == Shown(t.stops, said) < Budget(t.opts)
            && t.acc.thinking == ThinkOf(said) && t.tag == SplitOf(said).st
  {
    hide SplitOf;
    var text := TextOf(said);
    assert t.acc.text + t.lim.pending == text;
  }

  /** What one more delta brings in. */
  lemma Grown(said: string, c: string)
    ensures var d := Feed(THINKING, SplitOf(said).st, c);
            && TextOf(said + c) == TextOf(said) + d.text && ThinkOf(said + c) == ThinkOf(said) + d.think
            && SplitOf(said + c).st == d.st
  {
    hide Feed;
    Append1(said, c);
  }

  /** The filter on a piece of text, by all the text. */
  lemma FilterOn(t: State, said: string, d: string)
    requires FollowsAll(t, said)
    ensures var f, all := Filter(t, d), TextOf(said) + d;
            && f.hit == StopFilter.FirstListed(t.stops, all)
            && (f.hit.Some? ==> t.acc.text + f.emit == all[..Find(all, f.hit.value).value] && f.pending == "")
            && (f.hit.None? ==> var n := Through(t.stops, |all|); t.acc.text + f.emit == all[..n] && f.pending == all[n..])
  {
    hide SplitOf;
    Held(t, said);
    var text := TextOf(said);
    if d == "" {
      assert text + d == text && t.acc.text + "" == t.acc.text;
    } else if t.stops == [] {
      assert (text + d)[..|text + d|] == text + d;
      assert text[..|text|] == text;
    } else {
      StopFilter.ApplyMeaning(t.stops, text, t.lim.pending, d);
      assert StopFilter.Before(text, t.lim.pending) == t.acc.text;
      var f := StopFilter.Apply(t.stops, t.lim.pending, d);
      if f.hit.None? {
        BeforeHeld(t.acc.text + f.emit, f.pending, text + d);
      }
    }
  }

  /** The filter on the text of the next delta. */
  lemma FilterShows(t: State, said: string, c: string)
    requires FollowsAll(t, said)
    ensures var f := Filter(t, Feed(THINKING, t.tag, c).text);
            && f.hit == Hit(t.stops, said + c)
            && t.acc.text + f.emit == CutText(t.stops, said + c)
            && (f.hit.None? ==> |t.acc.text| + |f.emit| == Passed(t.stops, said + c))
  {
    hide Feed;
    hide SplitOf;
    hide Filter;
    Held(t, said);
    Grown(said, c);
    FilterOn(t, said, Feed(THINKING, t.tag, c).text);
  }

  lemma BeforeHeld(a: string, b: string, s: string)
    requires a + b == s
    ensures a == s[..|s| - |b|]
  {
  }

  /** What a delta that ends the message shows of text and thinking, before and after the end is added. */
  lemma StoppedOutcome(t: State, said: string, c: string)
    requires FollowsAll(t, said) && PushAssistant(t, c).t.lim.stop.Some?
    ensures Passed(t.stops, said) < Budget(t.opts)
    ensures OutcomeOf(Finish(PushAssistant(t, c).t).t) == CutAt(Budget(t.opts), t.stops, said, said + c)
  {
    hide PushAssistant;
    hide Finish;
    hide Feed;
    hide SplitOf;
    hide Filter;
    hide CutText;
    hide Take;
    Held(t, said);
    FollowsIsWithin(t, said);
    Grown(said, c);
    FilterShows(t, said, c);
    CutTakes(t, said, c);
    hide FollowsAll;
    hide Within;
    var p := PushAssistant(t, c).t;
    AssistantShows(t, c);
    AssistantLeaves(t, c);
    FinishAfterStop(p);
    assert p.acc.thinking + "" == p.acc.thinking;
    TakeNone(p.tag.buf);
    var room := Budget(t.opts) - Passed(t.stops, said);
    if |ThinkOf(said + c)| < room {
      assert ThinkOf(said + c) + "" == ThinkOf(said + c);
      TakeAll(ThinkOf(said + c), room);
    }
  }

  /** A delta that ends the message ends it as `CutAt` says. */
  lemma DeltaCuts(t: State, said: string, c: string)
    requires FollowsAll(t, said) && Ends(Budget(t.opts), t.stops, said + c)
    ensures var s := Push(t, AssistantResponse(c)).t;
            s.finished && Passed(t.stops, said) < Budget(t.opts) && OutcomeOf(s) == CutAt(Budget(t.opts), t.stops, said, said + c)
  {
    hide PushAssistant;
    hide Finish;
    hide Feed;
    hide SplitOf;
    hide Filter;
    hide CutAt;
    hide CutText;
    assert said + "" == said;
    Held(t, said);
    FollowsIsWithin(t, said);
    Grown(said, c);
    FilterShows(t, said, c);
    AssistantLeaves(t, c);
    StoppedOutcome(t, said, c);
    TranslatorGrammar.FinishEnds(PushAssistant(t, c).t);
  }

  lemma TakeNone(s: string)
    ensures Take(s, 0) == ""
  {
  }

  lemma FollowsIsWithin(t: State, said: string)
    requires FollowsAll(t, said)
    ensures Within(t) && !t.finished && t.failure.None? && t.lim.stop.None?
  {
  }

  /** Cutting the parts of text and thinking that are new is cutting all of them. */
  lemma CutTakes(t: State, said: string, c: string)
    requires FollowsAll(t, said)
    ensures var d, f := Feed(THINKING, t.tag, c), Filter(t, Feed(THINKING, t.tag, c).text);
            var b, n := Budget(t.opts), Passed(t.stops, said);
            && n < b && n == |t.acc.text|
            && (b - n <= |ThinkOf(said + c)| <==> b - t.lim.chars <= |d.think|)
            && ThinkOf(said) + Take(d.think, b - t.lim.chars) == Take(ThinkOf(said + c), b - n)
            && (|ThinkOf(said + c)| < b - n ==>
                  && t.acc.text + Take(f.emit, b - t.lim.chars - |d.think|) == Take(t.acc.text + f.emit, b - |ThinkOf(said + c)|)
                  && ThinkOf(said + c) + Take(d.st.buf, b - t.lim.chars - |d.think|) == Take(ThinkOf(said + c) + d.st.buf, b - n))
  {
    hide Feed;
    hide SplitOf;
    hide Filter;
    hide FollowsAll;
    hide Take;
    Held(t, said);
    Grown(said, c);
    var d, f := Feed(THINKING, t.tag, c), Filter(t, Feed(THINKING, t.tag, c).text);
    var b, n := Budget(t.opts), Passed(t.stops, said);
    TakeOver(ThinkOf(said), d.think, b - n);
    if |ThinkOf(said + c)| < b - n {
      TakeOver(t.acc.text, f.emit, b - |ThinkOf(said + c)|);
      TakeOver(ThinkOf(said + c), d.st.buf, b - n);
    }
  }

  lemma TakeOver(a: string, d: string, n: nat)
    requires |a| <= n
    ensures Take(a + d, n) == a + Take(d, n - |a|)
  {
  }

  /** A delta that does not end the message goes on following all the text. */
  lemma DeltaGoesOn(t: State, said: string, c: string)
    requires FollowsAll(t, said) && !Ends(Budget(t.opts), t.stops, said + c)
    ensures FollowsAll(Push(t, AssistantResponse(c)).t, said + c)
  {
    hide Finish;
    hide Feed;
    hide SplitOf;
    hide Filter;
    Held(t, said);
    if c == "" {
      assert said + c == said;
    } else {
      var d := Feed(THINKING, t.tag, c);
      Grown(said, c);
      FilterShows(t, said, c);
      AssistantLeaves(t, c);
      AssistantShows(t, c);
      AssistantFollows(t, said, c);
    }
  }

  /** Freeing thinking. */
  lemma TagThinks(t: State)
    requires Within(t) && t.tag.inside
    ensures var b, room := FlushTag(t).t, Budget(t.opts) - t.lim.chars;
            && OutcomeOf(b) == Outcome(t.acc.text, t.acc.thinking + Take(t.tag.buf, room), if room <= |t.tag.buf| then AT_BUDGET else None)
            && b.opts == t.opts && b.lim.pending == t.lim.pending
            && (b.lim.stop.None? ==> b.lim.chars == t.lim.chars + |t.tag.buf|)
  {
    hide Emitter.EmitDelta;
    assert t.acc.thinking + "" == t.acc.thinking;
    if t.tag.buf != "" {
      SpendCounts(Budget(t.opts), t.lim, t.tag.buf);
    }
  }

  /** Freeing text. */
  lemma TagSpeaks(t: State)
    requires Within(t) && !t.tag.inside
    ensures var b, f, room := FlushTag(t).t, Filter(t, t.tag.buf), Budget(t.opts) - t.lim.chars;
            && OutcomeOf(b) == (if f.hit.Some? then Outcome(t.acc.text + f.emit, t.acc.thinking, Some(Stop(StopSequence, f.hit)))
                                else Outcome(t.acc.text + Take(f.emit, room), t.acc.thinking, if room <= |f.emit| then AT_BUDGET else None))
            && b.opts == t.opts && b.lim.pending == f.pending
            && (b.lim.stop.None? ==> b.lim.chars == t.lim.chars + |f.emit|)
  {
    hide Emitter.EmitDelta;
    hide StopFilter.Apply;
    assert t.acc.text + "" == t.acc.text;
    var t1 := t.(tag := t.tag.(buf := ""));
    var f := Filter(t, t.tag.buf);
    assert Filter(t1, t.tag.buf) == f;
    if f.emit != "" && f.hit.None? {
      SpendCounts(Budget(t.opts), t1.lim.(pending := f.pending), f.emit);
    }
  }

  /** Freeing what the stop filter held back. */
  lemma PendingSpeaks(t: State)
    ensures t.lim.stop.Some? ==> OutcomeOf(FlushPending(t).t) == OutcomeOf(t)
    ensures t.lim.stop.None? && t.lim.chars < Budget(t.opts) ==>
              var room := Budget(t.opts) - t.lim.chars;
              OutcomeOf(FlushPending(t).t)
              == Outcome(t.acc.text + Take(t.lim.pending, room), t.acc.thinking, if room <= |t.lim.pending| then AT_BUDGET else None)
  {
    hide Emitter.EmitDelta;
    assert t.acc.text + "" == t.acc.text;
    if t.lim.stop.None? && t.lim.pending != "" {
      SpendCounts(Budget(t.opts), t.lim.(pending := ""), t.lim.pending);
    }
  }

  /** What is held back is thinking. */
  lemma InsideFlushes(t: State, said: string)
    requires FollowsAll(t, said) && t.tag.inside
    ensures Passed(t.stops, said) < Budget(t.opts)
    ensures OutcomeOf(FlushPending(FlushTag(t).t).t) == Flushed(Budget(t.opts), t.stops, said)
  {
    hide FlushTag;
    hide FlushPending;
    hide SplitOf;
    hide Follows;
    hide Take;
    Held(t, said);
    FollowsIsWithin(t, said);
    TagThinks(t);
    PendingSpeaks(FlushTag(t).t);
    var text, buf, n := TextOf(said), t.tag.buf, Passed(t.stops, said);
    var b, room := Budget(t.opts), Budget(t.opts) - t.lim.chars;
    assert Side(said, false) == text by { assert text + "" == text; }
    assert text[..n] + text[n..] == text;
    TakeOver(ThinkOf(said), buf, b - n);
    if |buf| < room {
      TakeOver(text[..n], text[n..], b - |Side(said, true)|);
      assert Take(buf, room) == buf by { TakeAll(buf, room); }
    }
  }

  lemma TakeAll(s: string, n: nat)
    requires |s| <= n
    ensures Take(s, n) == s
  {
  }

  /** What is held back is text, and may complete a stop sequence. */
  lemma OutsideFlushes(t: State, said: string)
    requires FollowsAll(t, said) && !t.tag.inside
    ensures Passed(t.stops, said) < Budget(t.opts)
    ensures OutcomeOf(FlushPending(FlushTag(t).t).t) == Flushed(Budget(t.opts), t.stops, said)
  {
    hide FlushTag;
    hide FlushPending;
    hide SplitOf;
    hide Follows;
    hide Filter;
    hide Take;
    Held(t, said);
    FollowsIsWithin(t, said);
    TagSpeaks(t);
    FilterOn(t, said, t.tag.buf);
    PendingSpeaks(FlushTag(t).t);
    hide FollowsAll;
    hide Within;
    hide Find;
    hide StopFilter.FirstListed;
    var f, room := Filter(t, t.tag.buf), Budget(t.opts) - t.lim.chars;
    var all := TextOf(said) + t.tag.buf;
    assert Side(said, false) == all && Side(said, true) == ThinkOf(said) by { assert ThinkOf(said) + "" == ThinkOf(said); }
    if f.hit.None? {
      FreedText(t.acc.text, f.emit, f.pending, all, room);
    }
  }

  /** What the filter lets through and what it then gives back, as far as there is room. */
  lemma FreedText(shown: string, emit: string, pending: string, all: string, room: nat)
    requires (shown + emit) + pending == all
    ensures room <= |emit| ==> shown + Take(emit, room) == Take(all, |shown| + room) && |shown| + room <= |all|
    ensures |emit| < room ==>
              && (shown + Take(emit, room)) + Take(pending, room - |emit|) == Take(all, |shown| + room)
              && (|shown| + room <= |all| <==> room - |emit| <= |pending|)
  {
  }

  /** The end of the stream, when nothing has ended the message. */
  lemma EndFlushes(t: State, said: string)
    requires FollowsAll(t, said)
    ensures Passed(t.stops, said) < Budget(t.opts) && OutcomeOf(Finish(t).t) == Flushed(Budget(t.opts), t.stops, said)
  {
    hide FlushTag;
    hide FlushPending;
    hide Flushed;
    hide SplitOf;
    var a := FinishStart(t).t;
    FlushesAlike(t);
    if t.tag.inside {
      InsideFlushes(t, said);
    } else {
      OutsideFlushes(t, said);
    }
  }

  /** Starting to end changes nothing of what is flushed. */
  lemma FlushesAlike(t: State)
    ensures OutcomeOf(FlushPending(FlushTag(FinishStart(t).t).t).t) == OutcomeOf(FlushPending(FlushTag(t).t).t)
  {
    hide Emitter.EmitDelta;
    hide Emitter.EnsureStarted;
    hide StopFilter.Apply;
    hide Spend;
  }

  lemma DeltasStep(t: State, ds: seq<string>)
    requires ds != []
    ensures PushAll(t, Deltas(ds)).t == PushAll(Push(t, AssistantResponse(ds[0])).t, Deltas(ds[1..])).t
  {
    assert Deltas(ds)[1..] == Deltas(ds[1..]);
  }

  lemma FinishedStays(t: State, evs: seq<Event>)
    requires t.finished
    ensures PushAll(t, evs).t == t && Finish(t).t == t
  {
    TranslatorGrammar.NothingAfterTheEnd(t, evs);
  }

  /** What the message of a run of deltas says, computed from the upstream text alone. */
  lemma {:induction false} RunSpeaks(t: State, said: string, ds: seq<string>)
    requires FollowsAll(t, said)
    ensures Shown(t.stops, said) < Budget(t.opts)
    ensures OutcomeOf(Whole(t, Deltas(ds)).t) == Spoken(Budget(t.opts), t.stops, said, ds)
    decreases |ds|
  {
    hide Push;
    hide Finish;
    hide CutAt;
    hide Flushed;
    hide Ends;
    Held(t, said);
    FollowsIsWithin(t, said);
    hide FollowsAll;
    hide Within;
    if ds == [] {
      EndFlushes(t, said);
    } else {
      DeltasStep(t, ds);
      var a := Push(t, AssistantResponse(ds[0])).t;
      if Ends(Budget(t.opts), t.stops, said + ds[0]) {
        DeltaCuts(t, said, ds[0]);
        FinishedStays(a, Deltas(ds[1..]));
      } else {
        DeltaGoesOn(t, said, ds[0]);
        PushOpts(t, AssistantResponse(ds[0]));
        RunSpeaks(a, said + ds[0], ds[1..]);
      }
    }
  }

  // ---- when the message ends early -------------------------------------------------------------------

  lemma Grows(list: seq<string>, a: string, w: string)
    requires a <= w
    ensures TextOf(a) <= TextOf(w) && ThinkOf(a) <= ThinkOf(w)
    ensures Passed(list, a) <= Passed(list, w) && Shown(list, a) <= Shown(list, w)
    ensures Hit(list, a).Some? ==> Hit(list, w).Some?
  {
    hide Feed;
    hide SplitOf;
    Grown(a, w[|a|..]);
    assert a + w[|a|..] == w;
    if Hit(list, a).Some? {
      HitStays(list, TextOf(a), TextOf(w));
    }
  }

  lemma HitStays(list: seq<string>, s: string, t: string)
    requires s <= t && StopFilter.FirstListed(list, s).Some?
    ensures StopFilter.FirstListed(list, t).Some?
  {
    var x := StopFilter.FirstListed(list, s).value;
    StopFilter.ListedMeaning(list, s);
    StopFilter.ListedMeaning(list, t);
    StopFilter.FoundInPrefix(s, t, x);
  }

  /** Ended because the text so far says so, or still following all of it. */
  ghost predicate EndsIff(t: State, opts: Options, said: string) {
    && t.opts == opts && t.stops == StopFilter.Usable(opts.stops)
    && (if t.finished then Ends(Budget(opts), t.stops, said) else FollowsAll(t, said) && !Ends(Budget(opts), t.stops, said))
  }

  lemma OneDelta(t: State, opts: Options, said: string, c: string)
    requires EndsIff(t, opts, said)
    ensures EndsIff(Push(t, AssistantResponse(c)).t, opts, said + c)
  {
    hide SplitOf;
    hide FollowsAll;
    PushOpts(t, AssistantResponse(c));
    if t.finished {
      Grows(t.stops, said, said + c);
    } else if Ends(Budget(opts), t.stops, said + c) {
      DeltaCuts(t, said, c);
    } else {
      DeltaGoesOn(t, said, c);
      FollowsIsWithin(Push(t, AssistantResponse(c)).t, said + c);
    }
  }

  lemma {:induction false} DeltasEndIff(t: State, opts: Options, said: string, ds: seq<string>)
    requires EndsIff(t, opts, said)
    ensures EndsIff(PushAll(t, Deltas(ds)).t, opts, said + Concat(ds))
    decreases |ds|
  {
    hide EndsIff;
    hide Push;
    if ds == [] {
      assert said + "" == said;
    } else {
      OneDelta(t, opts, said, ds[0]);
      DeltasEndIff(Push(t, AssistantResponse(ds[0])).t, opts, said + ds[0], ds[1..]);
      DeltasStep(t, ds);
      Regroup3(said, ds[0], Concat(ds[1..]));
    }
  }

  lemma Starts(opts: Options)
    ensures FollowsAll(New(opts), "") && SplitOf("") == Split("", "", START)
    ensures var list := StopFilter.Usable(opts.stops);
            Hit(list, "").None? && Shown(list, "") == 0 && !Ends(Budget(opts), list, "")
  {
    StartFollows(opts);
    NothingSaid();
    Held(New(opts), "");
  }

  /**
   However upstream cuts its text into deltas, the message ends early exactly when the text
   outside thinking holds a stop sequence or what is shown reaches the budget, and otherwise
   all of text and thinking has been taken in, up to what tags and stop filter hold back.
   */
  lemma EndsEarlyIff(opts: Options, ds: seq<string>)
    ensures var s, said := PushAll(New(opts), Deltas(ds)).t, Concat(ds);
            && (s.finished <==> Ends(Budget(opts), StopFilter.Usable(opts.stops), said))
            && (!s.finished ==> s.acc.text + s.lim.pending == TextOf(said) && s.acc.thinking == ThinkOf(said) && s.tag == SplitOf(said).st)
  {
    hide PushAll;
    hide SplitOf;
    hide Ends;
    hide FollowsAll;
    Starts(opts);
    DeltasEndIff(New(opts), opts, "", ds);
    assert "" + Concat(ds) == Concat(ds);
    var s, said := PushAll(New(opts), Deltas(ds)).t, Concat(ds);
    if !s.finished {
      Held(s, said);
      HeldAll(s, said);
    }
  }

  lemma HeldAll(t: State, said: string)
    requires FollowsAll(t, said)
    ensures t.acc.text + t.lim.pending == TextOf(said)
  {
  }
}
