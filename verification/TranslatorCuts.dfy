/**
 How a message depends on the deltas in which upstream sends its text: with any budget and any
 stop sequences, the exact condition for it not to.
 */
module TranslatorCuts {
  import opened Wrappers
  import opened Anthropic
  import opened Text
  import opened TagSplitter
  import opened Translator
  import opened TranslatorText
  import opened TranslatorDeltas
  import StopFilter

  // ---- cuts that agree ----------------------------------------------------------------------------------

  /** Ending the message in the delta from `i` to `j` says what it says when all comes at once. */
  predicate AgreesAt(b: nat, list: seq<string>, w: string, i: nat, j: nat)
    requires Passed(list, "") < b && i <= |w| && j <= |w|
  {
    !Ends(b, list, w[..i]) && Ends(b, list, w[..j]) ==> CutAt(b, list, w[..i], w[..j]) == CutAt(b, list, "", w)
  }

  ghost predicate CutsAgree(b: nat, list: seq<string>, w: string)
    requires Passed(list, "") < b
  {
    forall i, j | 0 <= i < j <= |w| :: AgreesAt(b, list, w, i, j)
  }

  /** The message when all the text comes at once. */
  function AtOnce(b: nat, list: seq<string>, w: string): Outcome
    requires Passed(list, "") < b
  {
    if Ends(b, list, w) then CutAt(b, list, "", w) else Flushed(b, list, w)
  }

  lemma NotEnded(b: nat, list: seq<string>, w: string)
    requires !Ends(b, list, w)
    ensures Hit(list, w).None? && Passed(list, w) <= Shown(list, w) < b && |ThinkOf(w)| < b
  {
  }

  /** Three deltas that end the message in the second. */
  lemma ThreeDeltas(b: nat, list: seq<string>, w: string, i: nat, j: nat) returns (ds: seq<string>)
    requires !Ends(b, list, "") && i < j <= |w| && !Ends(b, list, w[..i]) && Ends(b, list, w[..j])
    ensures Concat(ds) == w && Spoken(b, list, "", ds) == CutAt(b, list, w[..i], w[..j])
  {
    hide SplitOf;
    hide CutAt;
    hide Flushed;
    hide Ends;
    NotEnded(b, list, "");
    NotEnded(b, list, w[..i]);
    hide Shown;
    ds := [w[..i], w[i..j], w[j..]];
    assert "" + w[..i] == w[..i] && w[..i] + w[i..j] == w[..j] && w[..j] + w[j..] == w;
    assert ds[1..] == [w[i..j], w[j..]] && ds[1..][1..] == [w[j..]] && ds[1..][1..][1..] == [];
    assert Concat([w[j..]]) == w[j..] + "" == w[j..];
    assert Concat(ds[1..]) == w[i..j] + w[j..];
    assert w[..i] + (w[i..j] + w[j..]) == w;
    assert Spoken(b, list, "", ds) == Spoken(b, list, w[..i], ds[1..]);
  }

  /** Nothing that was passed when the message ended depends on more than where it ended. */
  lemma {:induction false} SpokenAgrees(b: nat, list: seq<string>, w: string, said: string, ds: seq<string>)
    requires !Ends(b, list, "") && Passed(list, "") < b && CutsAgree(b, list, w)
    requires said + Concat(ds) == w && !Ends(b, list, said)
    ensures Shown(list, said) < b && Spoken(b, list, said, ds) == AtOnce(b, list, w)
    decreases |ds|
  {
    hide SplitOf;
    hide CutAt;
    hide Flushed;
    hide Ends;
    NotEnded(b, list, said);
    if ds == [] {
      assert said + "" == said;
    } else {
      var p := said + ds[0];
      Regroup3(said, ds[0], Concat(ds[1..]));
      if Ends(b, list, p) {
        assert ds[0] != "" by { assert said + "" == said; }
        assert said == w[..|said|] && p == w[..|p|];
        assert AgreesAt(b, list, w, |said|, |p|);
        assert Ends(b, list, w) by { EndsStays(b, list, p, w); }
      } else {
        SpokenAgrees(b, list, w, p, ds[1..]);
      }
    }
  }

  lemma EndsStays(b: nat, list: seq<string>, p: string, w: string)
    requires p <= w && Ends(b, list, p)
    ensures Ends(b, list, w)
  {
    Grows(list, p, w);
  }

  lemma SpokenAtOnce(b: nat, list: seq<string>, w: string)
    requires !Ends(b, list, "") && Passed(list, "") < b && Shown(list, "") < b
    ensures Spoken(b, list, "", [w]) == AtOnce(b, list, w)
  {
    hide SplitOf;
    hide CutAt;
    hide Flushed;
    hide Ends;
    assert "" + w == w && [w][1..] == [];
    if !Ends(b, list, w) {
      NotEnded(b, list, w);
      assert Spoken(b, list, w, []) == Flushed(b, list, w);
    }
  }

  /** All cuttings come to the same message exactly when all places to end it agree. */
  lemma SpokenAgreesIff(b: nat, list: seq<string>, w: string)
    requires !Ends(b, list, "") && Passed(list, "") < b && Shown(list, "") < b
    ensures (forall ds | Concat(ds) == w :: Spoken(b, list, "", ds) == Spoken(b, list, "", [w])) <==> CutsAgree(b, list, w)
  {
    hide SplitOf;
    hide CutAt;
    hide Spoken;
    hide Ends;
    SpokenAtOnce(b, list, w);
    if CutsAgree(b, list, w) {
      forall ds | Concat(ds) == w ensures Spoken(b, list, "", ds) == AtOnce(b, list, w) {
        assert "" + w == w;
        SpokenAgrees(b, list, w, "", ds);
      }
    } else {
      var i, j :| 0 <= i < j <= |w| && !AgreesAt(b, list, w, i, j);
      var ds := ThreeDeltas(b, list, w, i, j);
      assert w[..j] <= w;
      EndsStays(b, list, w[..j], w);
      assert Spoken(b, list, "", ds) != Spoken(b, list, "", [w]);
    }
  }

  // ---- the condition --------------------------------------------------------------------------------------

  /**
   A prefix in which the message ends finds the same stop sequence and has the same thinking,
   as far as it fits; one in which it does not end leaves room for all the thinking.
   */
  predicate SequenceFitsAt(b: nat, list: seq<string>, w: string, n: nat)
    requires n <= |w|
  {
    var p := w[..n];
    if Ends(b, list, p) then Hit(list, p) == Hit(list, w) && Take(Side(p, true), b) == Take(Side(w, true), b)
    else Passed(list, p) + |ThinkOf(w)| < b && Passed(list, p) + |Take(Side(w, true), b)| <= b
  }

  ghost predicate SequenceFits(b: nat, list: seq<string>, w: string) {
    forall n | 0 <= n <= |w| :: SequenceFitsAt(b, list, w, n)
  }

  /** No prefix has text to show, and no stop sequence is found before the thinking uses the budget up. */
  predicate NoTextAt(b: nat, list: seq<string>, w: string, n: nat)
    requires n <= |w|
  {
    CutText(list, w[..n]) == "" && (Hit(list, w[..n]).Some? ==> b <= |ThinkOf(w[..n])|)
  }

  ghost predicate NoText(b: nat, list: seq<string>, w: string) {
    forall n | 0 <= n <= |w| :: NoTextAt(b, list, w, n)
  }

  /** All the thinking of `w` is shown by the first `n` characters, and the budget is not reached there. */
  predicate ThoughtBy(b: nat, list: seq<string>, w: string, n: nat) {
    n <= |w| && ThinkOf(w[..n]) == ThinkOf(w) && Shown(list, w[..n]) < b
  }

  /** Nothing is cut but the end of the text: all fits, or the thinking is complete before the budget is reached. */
  ghost predicate ThinkingFits(b: nat, list: seq<string>, w: string) {
    Shown(list, w) <= b || exists n: nat :: ThoughtBy(b, list, w, n)
  }

  /** The condition for the message not to depend on the deltas. */
  ghost predicate CuttingFree(b: nat, list: seq<string>, w: string) {
    Ends(b, list, w) ==>
      if Hit(list, w).Some? && |ThinkOf(w)| < b then SequenceFits(b, list, w)
      else NoText(b, list, w) || (Hit(list, w).None? && ThinkingFits(b, list, w))
  }

  /** Where the same sequence is found, the text ends in the same place. */
  lemma SameCut(list: seq<string>, p: string, w: string)
    requires p <= w && Hit(list, p).Some? && Hit(list, p) == Hit(list, w)
    ensures CutText(list, p) == CutText(list, w)
  {
    hide SplitOf;
    Grows(list, p, w);
    var x := Hit(list, w).value;
    StopFilter.FoundInPrefix(TextOf(p), TextOf(w), x);
    var i := Find(TextOf(p), x).value;
    assert TextOf(p)[..i] == TextOf(w)[..i];
  }

  /** Where none is found, the text that was let through only grows. */
  lemma CutGrows(list: seq<string>, p: string, w: string)
    requires p <= w && Hit(list, w).None?
    ensures Hit(list, p).None? && CutText(list, p) <= CutText(list, w) && |CutText(list, p)| == Passed(list, p)
  {
    hide SplitOf;
    Grows(list, p, w);
  }

  /** Stopped by a sequence. */
  lemma SequenceAgrees(b: nat, list: seq<string>, w: string, i: nat, j: nat)
    requires Hit(list, w).Some? && |ThinkOf(w)| < b && SequenceFits(b, list, w)
    requires Passed(list, "") == 0 && i < j <= |w| && !Ends(b, list, w[..i]) && Ends(b, list, w[..j])
    ensures Passed(list, w[..i]) < b && CutAt(b, list, w[..i], w[..j]) == CutAt(b, list, "", w)
  {
    hide SplitOf;
    hide Side;
    hide CutText;
    var q, p := w[..i], w[..j];
    NotEnded(b, list, q);
    assert SequenceFitsAt(b, list, w, i) && SequenceFitsAt(b, list, w, j);
    Grows(list, p, w);
    SameCut(list, p, w);
    TakeLess(Side(p, true), b, b - Passed(list, q));
  }

  /** What is cut at `n` and is short is cut alike at any place behind it. */
  lemma TakeLess(s: string, n: nat, k: nat)
    requires k <= n && |Take(s, n)| <= k
    ensures Take(s, k) == Take(s, n)
  {
  }

  lemma SequenceFitsAgrees(b: nat, list: seq<string>, w: string)
    requires Passed(list, "") == 0 && 0 < b && Hit(list, w).Some? && |ThinkOf(w)| < b && CutsAgree(b, list, w)
    requires Ends(b, list, w) && !Ends(b, list, "")
    ensures SequenceFits(b, list, w)
  {
    hide SplitOf;
    hide Ends;
    assert w[..0] == "" && w[..|w|] == w;
    forall n | 0 <= n <= |w| ensures SequenceFitsAt(b, list, w, n) {
      if Ends(b, list, w[..n]) {
        assert AgreesAt(b, list, w, 0, n);
      } else {
        NotEnded(b, list, w[..n]);
        assert AgreesAt(b, list, w, n, |w|);
      }
    }
  }

  // ---- stopped by the budget ------------------------------------------------------------------------------

  lemma NoTextAgrees(b: nat, list: seq<string>, w: string, i: nat, j: nat)
    requires NoText(b, list, w) && (Hit(list, w).Some? ==> b <= |ThinkOf(w)|) && Ends(b, list, w)
    requires Passed(list, "") == 0 && i < j <= |w| && !Ends(b, list, w[..i]) && Ends(b, list, w[..j])
    ensures Passed(list, w[..i]) < b && CutAt(b, list, w[..i], w[..j]) == CutAt(b, list, "", w)
  {
    hide SplitOf;
    hide Side;
    var q, p := w[..i], w[..j];
    assert w[..|w|] == w;
    NotEnded(b, list, q);
    assert NoTextAt(b, list, w, i) && NoTextAt(b, list, w, j) && NoTextAt(b, list, w, |w|);
    Grows(list, p, w);
    assert Passed(list, q) == 0 by { CutGrows(list, q, q); }
    if Hit(list, p).None? {
      CutGrows(list, p, p);
    }
    if Hit(list, w).None? {
      CutGrows(list, w, w);
    }
    assert Take(ThinkOf(p), b) == Take(ThinkOf(w), b) by { TakePrefix(ThinkOf(p), ThinkOf(w), b); }
  }

  lemma TakePrefix(a: string, w: string, n: nat)
    requires a <= w && n <= |a|
    ensures Take(a, n) == Take(w, n)
  {
  }

  /** When the thinking is complete early, what comes before the budget leaves room for all of it. */
  lemma EarlyThinking(b: nat, list: seq<string>, q: string, p: string, w: string, n: nat)
    requires q <= p <= w && b <= Shown(list, p) && Shown(list, q) < b && ThoughtBy(b, list, w, n)
    ensures ThinkOf(p) == ThinkOf(w) && Passed(list, q) + |ThinkOf(w)| < b
  {
    hide SplitOf;
    hide Passed;
    var e := w[..n];
    Grows(list, p, w);
    if n <= |q| {
      assert q == w[..|q|] && e == q[..n];
      Grows(list, e, q);
      Grows(list, q, p);
    } else {
      assert q == e[..|q|];
      Grows(list, q, e);
      if n <= |p| {
        assert e == p[..n];
        Grows(list, e, p);
      } else {
        assert p == e[..|p|];
        Grows(list, p, e);
      }
    }
  }

  lemma ThinkingAgrees(b: nat, list: seq<string>, w: string, i: nat, j: nat)
    requires Hit(list, w).None? && ThinkingFits(b, list, w)
    requires Passed(list, "") == 0 && Shown(list, "") == 0 && i < j <= |w| && !Ends(b, list, w[..i]) && Ends(b, list, w[..j])
    ensures Passed(list, w[..i]) < b && CutAt(b, list, w[..i], w[..j]) == CutAt(b, list, "", w)
  {
    hide SplitOf;
    hide Side;
    hide Take;
    var q, p := w[..i], w[..j];
    NotEnded(b, list, q);
    assert q <= p by { assert q == p[..i]; }
    Grows(list, p, w);
    Grows(list, q, p);
    CutGrows(list, p, w);
    CutGrows(list, w, w);
    hide CutText;
    if Shown(list, w) <= b {
      assert ThinkOf(p) == ThinkOf(w) && CutText(list, p) == CutText(list, w);
      TakeAll(CutText(list, p), b - |ThinkOf(p)|);
      if b - Passed(list, q) <= |ThinkOf(p)| {
        TakeAll(ThinkOf(p), b - Passed(list, q));
      }
      TakeAll(ThinkOf(p), b);
    } else {
      var n: nat :| ThoughtBy(b, list, w, n);
      EarlyThinking(b, list, q, p, w, n);
      assert "" <= p && "" <= w;
      TakePrefix(CutText(list, p), CutText(list, w), b - |ThinkOf(w)|);
    }
  }

  // ---- when the condition is needed ------------------------------------------------------------------------

  /** The first place where the message ends. */
  lemma {:induction false} FirstEnd(b: nat, list: seq<string>, w: string, n: nat) returns (k: nat)
    requires !Ends(b, list, w[..0]) && n <= |w| && Ends(b, list, w[..n])
    ensures 0 < k <= n && !Ends(b, list, w[..k - 1]) && Ends(b, list, w[..k])
  {
    hide Ends;
    if Ends(b, list, w[..n - 1]) {
      k := FirstEnd(b, list, w, n - 1);
    } else {
      k := n;
    }
  }

  /** One character lets through text or thinking. */
  lemma OneCharacter(q: string, c: char)
    ensures TextOf(q + [c]) == TextOf(q) || ThinkOf(q + [c]) == ThinkOf(q)
  {
    hide Feed;
    Grown(q, [c]);
    SplitHolds(q);
    OneKind(THINKING, SplitOf(q).st, c);
    assert TextOf(q) + "" == TextOf(q) && ThinkOf(q) + "" == ThinkOf(q);
  }

  lemma SplitHolds(q: string)
    ensures var st := SplitOf(q).st; Find(st.buf, Tag(THINKING, st.inside)).None?
  {
    hide Scan;
    hide Find;
    ScanHolds(THINKING, false, false, "" + q);
  }

  /** The message ends by budget after more thinking than the budget holds. */
  lemma ManyThoughts(b: nat, list: seq<string>, w: string)
    requires Passed(list, "") == 0 && 0 < b <= |ThinkOf(w)| && CutsAgree(b, list, w) && !Ends(b, list, "") && Ends(b, list, w)
    ensures NoText(b, list, w)
  {
    hide SplitOf;
    hide Ends;
    assert w[..0] == "" && w[..|w|] == w;
    var m := FirstEnd(b, list, w, |w|);
    var q, e := w[..m - 1], w[..m];
    NotEnded(b, list, q);
    assert AgreesAt(b, list, w, 0, m) && AgreesAt(b, list, w, m - 1, m);
    assert b <= |ThinkOf(e)|;
    assert |Take(ThinkOf(e), b - Passed(list, q))| == b - Passed(list, q);
    assert Passed(list, q) == 0;
    assert e == q + [w[m - 1]];
    OneCharacter(q, w[m - 1]);
    assert CutText(list, e) == "";
    forall n | 0 <= n <= |w| ensures NoTextAt(b, list, w, n) {
      if Ends(b, list, w[..n]) {
        assert AgreesAt(b, list, w, 0, n);
      } else {
        NotEnded(b, list, w[..n]);
        NotAfter(b, list, w, n, m);
        assert w[..n] == q[..n];
        Grows(list, w[..n], q);
      }
    }
  }

  /** A prefix in which the message does not end is shorter than one in which it does. */
  lemma NotAfter(b: nat, list: seq<string>, w: string, n: nat, m: nat)
    requires n <= |w| && m <= |w| && !Ends(b, list, w[..n]) && Ends(b, list, w[..m])
    ensures n < m
  {
    hide Ends;
    if m <= n {
      assert w[..m] == w[..n][..m];
      EndsStays(b, list, w[..m], w[..n]);
    }
  }

  /** The message ends by budget in its text. */
  lemma FewThoughts(b: nat, list: seq<string>, w: string)
    requires Passed(list, "") == 0 && |ThinkOf(w)| < b && Hit(list, w).None? && CutsAgree(b, list, w)
    requires !Ends(b, list, "") && Ends(b, list, w)
    ensures ThinkingFits(b, list, w)
  {
    hide SplitOf;
    hide Ends;
    hide CutText;
    assert w[..0] == "" && w[..|w|] == w;
    var m := FirstEnd(b, list, w, |w|);
    var q, e := w[..m - 1], w[..m];
    NotEnded(b, list, q);
    assert AgreesAt(b, list, w, m - 1, m) && AgreesAt(b, list, w, m - 1, |w|);
    assert e == q + [w[m - 1]];
    OneCharacter(q, w[m - 1]);
    CutGrows(list, e, w);
    CutGrows(list, w, w);
    Grows(list, e, w);
    assert b <= Shown(list, w) && b <= Shown(list, e) by { EndedShown(b, list, w); EndedShown(b, list, e); }
    if ThinkOf(e) == ThinkOf(q) {
      assert ThoughtBy(b, list, w, m - 1);
    }
  }

  lemma EndedShown(b: nat, list: seq<string>, w: string)
    requires Ends(b, list, w) && Hit(list, w).None?
    ensures b <= Shown(list, w)
  {
  }

  lemma FreeAgrees(b: nat, list: seq<string>, w: string, i: nat, j: nat)
    requires Passed(list, "") == 0 && Shown(list, "") == 0 && 0 < b && CuttingFree(b, list, w) && i < j <= |w|
    ensures AgreesAt(b, list, w, i, j)
  {
    hide SplitOf;
    hide Ends;
    hide CutAt;
    hide CutText;
    hide Side;
    if !Ends(b, list, w[..i]) && Ends(b, list, w[..j]) {
      EndsStays(b, list, w[..j], w);
      if Hit(list, w).Some? && |ThinkOf(w)| < b {
        SequenceAgrees(b, list, w, i, j);
      } else if NoText(b, list, w) {
        NoTextAgrees(b, list, w, i, j);
      } else {
        ThinkingAgrees(b, list, w, i, j);
      }
    }
  }

  lemma CutsAgreeIff(b: nat, list: seq<string>, w: string)
    requires 0 < b && Hit(list, "").None? && Shown(list, "") == 0
    ensures Passed(list, "") == 0 && (CutsAgree(b, list, w) <==> CuttingFree(b, list, w))
  {
    hide SplitOf;
    hide CutAt;
    hide CutText;
    hide Side;
    assert !Ends(b, list, "");
    hide Ends;
    if CuttingFree(b, list, w) {
      forall i, j | 0 <= i < j <= |w| ensures AgreesAt(b, list, w, i, j) {
        FreeAgrees(b, list, w, i, j);
      }
    }
    if CutsAgree(b, list, w) && Ends(b, list, w) {
      if b <= |ThinkOf(w)| {
        ManyThoughts(b, list, w);
      } else if Hit(list, w).Some? {
        SequenceFitsAgrees(b, list, w);
      } else {
        FewThoughts(b, list, w);
      }
    }
  }

  // ---- the translator ------------------------------------------------------------------------------------------

  lemma StartSpeaks(opts: Options, ds: seq<string>)
    ensures var list := StopFilter.Usable(opts.stops);
            && Hit(list, "").None? && Shown(list, "") == 0
            && OutcomeOf(Whole(New(opts), Deltas(ds)).t) == Spoken(Budget(opts), list, "", ds)
  {
    hide Whole;
    hide Spoken;
    hide FollowsAll;
    Starts(opts);
    RunSpeaks(New(opts), "", ds);
  }

  /**
   For every budget and all stop sequences: text, thinking and stop of the message are the same
   however upstream cuts its text into deltas, if and only if `CuttingFree` holds of the text.
   */
  lemma CuttingIndependentIff(opts: Options, said: string)
    ensures (forall ds | Concat(ds) == said ::
               OutcomeOf(Whole(New(opts), Deltas(ds)).t) == OutcomeOf(Whole(New(opts), Deltas([said])).t))
            <==> CuttingFree(Budget(opts), StopFilter.Usable(opts.stops), said)
  {
    hide Whole;
    hide Spoken;
    hide CuttingFree;
    hide CutsAgree;
    hide SplitOf;
    var b, list := Budget(opts), StopFilter.Usable(opts.stops);
    forall ds ensures Shown(list, "") < b && OutcomeOf(Whole(New(opts), Deltas(ds)).t) == Spoken(b, list, "", ds) {
      StartSpeaks(opts, ds);
    }
    StartSpeaks(opts, []);
    CutsAgreeIff(b, list, said);
    SpokenAgreesIff(b, list, said);
  }

  /** And then the message says what it says when all the text comes at once. */
  lemma CuttingIrrelevant(opts: Options, ds: seq<string>)
    requires CuttingFree(Budget(opts), StopFilter.Usable(opts.stops), Concat(ds))
    ensures Passed(StopFilter.Usable(opts.stops), "") < Budget(opts)
    ensures OutcomeOf(Whole(New(opts), Deltas(ds)).t) == AtOnce(Budget(opts), StopFilter.Usable(opts.stops), Concat(ds))
  {
    hide Whole;
    hide Spoken;
    hide CuttingFree;
    hide CutsAgree;
    hide SplitOf;
    hide AtOnce;
    var b, list := Budget(opts), StopFilter.Usable(opts.stops);
    StartSpeaks(opts, ds);
    CutsAgreeIff(b, list, Concat(ds));
    assert "" + Concat(ds) == Concat(ds);
    SpokenAgrees(b, list, Concat(ds), "", ds);
  }

  // ---- what that says of simpler texts ------------------------------------------------------------------------

  lemma {:induction false} ScanSize(g: Tags, inside: bool, suppress: bool, s: string)
    ensures var r := Scan(g, inside, suppress, s); |r.text| + |r.think| + |r.st.buf| <= |s|
    decreases |s|
  {
    hide Find;
    hide Part;
    hide Scan;
    var tag := Tag(g, inside);
    match Find(s, tag) {
      case Some(i) =>
        var rest := s[i + |tag|..];
        ScanAtTag(g, inside, suppress, s, i, rest);
        ScanSize(g, !inside, suppress || !inside, rest);
      case None => ScanNoTag(g, inside, suppress, s, |s| - Part(s, tag));
    }
  }

  lemma SidesSize(said: string)
    ensures |TextOf(said)| + |Side(said, true)| <= |said|
    ensures ThinkOf(said) <= Side(said, true) && TextOf(said) <= Side(said, false)
  {
    hide Scan;
    ScanSize(THINKING, false, false, "" + said);
  }

  /** A prefix that holds a stop sequence finds the one that all the text finds, and has all its thinking. */
  predicate SettledAt(list: seq<string>, w: string, n: nat)
    requires n <= |w|
  {
    Hit(list, w[..n]).Some? ==> Hit(list, w[..n]) == Hit(list, w) && Side(w[..n], true) == Side(w, true)
  }

  /** For a text shorter than the budget only stop sequences matter. */
  lemma ShortIff(b: nat, list: seq<string>, w: string)
    requires |w| < b
    ensures CuttingFree(b, list, w) <==> forall n | 0 <= n <= |w| :: SettledAt(list, w, n)
  {
    hide SplitOf;
    hide Side;
    hide CutText;
    SidesSize(w);
    assert w[..|w|] == w;
    forall n | 0 <= n <= |w| ensures Ends(b, list, w) ==> (SequenceFitsAt(b, list, w, n) <==> SettledAt(list, w, n)) {
      ShortAt(b, list, w, n);
    }
    forall n | 0 <= n <= |w| && Hit(list, w[..n]).Some? ensures Ends(b, list, w) {
      EndsStays(b, list, w[..n], w);
    }
  }

  lemma ShortAt(b: nat, list: seq<string>, w: string, n: nat)
    requires |w| < b && n <= |w|
    ensures SequenceFitsAt(b, list, w, n) <==> SettledAt(list, w, n)
  {
    hide SplitOf;
    hide Side;
    SidesSize(w);
    SidesSize(w[..n]);
    Grows(list, w[..n], w);
    TakeAll(Side(w, true), b);
    TakeAll(Side(w[..n], true), b);
  }

  /**
   Text shorter than the budget: the message is the same in every cutting if and only if every
   prefix that holds a stop sequence finds the one all the text finds, and has all its thinking.
   */
  lemma ShortIndependentIff(opts: Options, said: string)
    requires |said| < Budget(opts)
    ensures (forall ds | Concat(ds) == said ::
               OutcomeOf(Whole(New(opts), Deltas(ds)).t) == OutcomeOf(Whole(New(opts), Deltas([said])).t))
            <==> forall n | 0 <= n <= |said| :: SettledAt(StopFilter.Usable(opts.stops), said, n)
  {
    hide Whole;
    hide CuttingFree;
    hide SettledAt;
    CuttingIndependentIff(opts, said);
    ShortIff(Budget(opts), StopFilter.Usable(opts.stops), said);
  }

  /** Without stop sequences only the budget matters: no text, all fits, or the thinking is complete before. */
  lemma WithoutSequences(b: nat, w: string)
    requires 0 < b
    ensures CuttingFree(b, [], w) <==> TextOf(w) == "" || ThinkingFits(b, [], w)
  {
    hide SplitOf;
    assert w[..|w|] == w;
    if NoText(b, [], w) {
      assert NoTextAt(b, [], w, |w|);
    }
    if TextOf(w) == "" {
      forall n | 0 <= n <= |w| ensures NoTextAt(b, [], w, n) {
        Grows([], w[..n], w);
      }
    }
  }

  /** No stop sequence occurs outside the thinking tags. */
  predicate Unstopped(opts: Options, said: string) {
    StopFilter.FirstListed(StopFilter.Usable(opts.stops), Side(said, false)).None?
  }

  lemma UnstoppedHits(opts: Options, said: string)
    requires Unstopped(opts, said)
    ensures Hit(StopFilter.Usable(opts.stops), said).None?
    ensures TextOf(said) <= Side(said, false) && ThinkOf(said) <= Side(said, true)
  {
    hide SplitOf;
    SidesSize(said);
    if Hit(StopFilter.Usable(opts.stops), said).Some? {
      HitStays(StopFilter.Usable(opts.stops), TextOf(said), Side(said, false));
    }
  }

  lemma FittingAtOnce(b: nat, list: seq<string>, said: string)
    requires Passed(list, "") == 0 < b && Hit(list, said).None? && StopFilter.FirstListed(list, Side(said, false)).None?
    requires TextOf(said) <= Side(said, false) && ThinkOf(said) <= Side(said, true)
    requires |Side(said, false)| + |Side(said, true)| <= b
    ensures CuttingFree(b, list, said)
    ensures var text, think := Side(said, false), Side(said, true);
            AtOnce(b, list, said) == Outcome(text, think, if b <= |text| + |think| then AT_BUDGET else None)
  {
    hide SplitOf;
    hide Side;
    hide Find;
    hide StopFilter.FirstListed;
  }

  /** What fits the budget and holds no stop sequence is shown whole, held-back ends included, in every cutting. */
  lemma FittingIsWhole(opts: Options, ds: seq<string>)
    requires var said := Concat(ds); Unstopped(opts, said) && |Side(said, false)| + |Side(said, true)| <= Budget(opts)
    ensures var said := Concat(ds);
            OutcomeOf(Whole(New(opts), Deltas(ds)).t)
            == Outcome(Side(said, false), Side(said, true),
                       if Budget(opts) <= |Side(said, false)| + |Side(said, true)| then AT_BUDGET else None)
  {
    hide Whole;
    hide SplitOf;
    hide Side;
    hide AtOnce;
    hide CuttingFree;
    UnstoppedHits(opts, Concat(ds));
    Starts(opts);
    FittingAtOnce(Budget(opts), StopFilter.Usable(opts.stops), Concat(ds));
    CuttingIrrelevant(opts, ds);
  }

  lemma TextAtOnce(b: nat, list: seq<string>, said: string)
    requires Shown(list, "") == 0 < b && SplitOf("") == Split("", "", START)
    requires Hit(list, said).None? && StopFilter.FirstListed(list, Side(said, false)).None?
    requires TextOf(said) <= Side(said, false) && ThinkOf(said) == Side(said, true) == ""
    ensures CuttingFree(b, list, said)
    ensures AtOnce(b, list, said).text == Take(Side(said, false), b) && AtOnce(b, list, said).think == ""
  {
    hide SplitOf;
    hide Side;
    hide Find;
    hide StopFilter.FirstListed;
    assert said[..0] == "";
    assert ThoughtBy(b, list, said, 0);
    if Ends(b, list, said) {
      TakePrefix(CutText(list, said), Side(said, false), b);
    }
  }

  /** Text without thinking and without stop sequences is cut at the budget, in every cutting. */
  lemma OnlyText(opts: Options, ds: seq<string>)
    requires Unstopped(opts, Concat(ds)) && Side(Concat(ds), true) == ""
    ensures var o := OutcomeOf(Whole(New(opts), Deltas(ds)).t);
            o.text == Take(Side(Concat(ds), false), Budget(opts)) && o.think == ""
  {
    hide Whole;
    hide SplitOf;
    hide Side;
    hide AtOnce;
    hide CuttingFree;
    UnstoppedHits(opts, Concat(ds));
    Starts(opts);
    TextAtOnce(Budget(opts), StopFilter.Usable(opts.stops), Concat(ds));
    CuttingIrrelevant(opts, ds);
  }

  lemma ThinkingAtOnce(b: nat, list: seq<string>, said: string)
    requires Shown(list, "") == 0 < b && Hit(list, "").None? && SplitOf("") == Split("", "", START)
    requires TextOf(said) == Side(said, false) == "" && ThinkOf(said) <= Side(said, true)
    ensures CuttingFree(b, list, said)
    ensures AtOnce(b, list, said).text == "" && AtOnce(b, list, said).think == Take(Side(said, true), b)
  {
    hide SplitOf;
    hide Side;
    hide Find;
    hide StopFilter.FirstListed;
    forall n | 0 <= n <= |said| ensures NoTextAt(b, list, said, n) {
      Grows(list, said[..n], said);
    }
    if b <= |ThinkOf(said)| {
      TakePrefix(ThinkOf(said), Side(said, true), b);
    }
  }

  /** Thinking without text is cut at the budget, in every cutting, whatever the stop sequences. */
  lemma OnlyThinking(opts: Options, ds: seq<string>)
    requires Side(Concat(ds), false) == ""
    ensures var o := OutcomeOf(Whole(New(opts), Deltas(ds)).t);
            o.text == "" && o.think == Take(Side(Concat(ds), true), Budget(opts))
  {
    hide Whole;
    hide SplitOf;
    hide Side;
    hide AtOnce;
    hide CuttingFree;
    SidesSize(Concat(ds));
    Starts(opts);
    ThinkingAtOnce(Budget(opts), StopFilter.Usable(opts.stops), Concat(ds));
    CuttingIrrelevant(opts, ds);
  }

  // ---- cases --------------------------------------------------------------------------------------------------

  /** The message ends in the first delta. */
  lemma FirstDelta(opts: Options, c: string, rest: seq<string>)
    requires Ends(Budget(opts), StopFilter.Usable(opts.stops), c)
    ensures Passed(StopFilter.Usable(opts.stops), "") < Budget(opts)
    ensures OutcomeOf(Whole(New(opts), Deltas([c] + rest)).t) == CutAt(Budget(opts), StopFilter.Usable(opts.stops), "", c)
  {
    hide Whole;
    hide SplitOf;
    hide CutAt;
    hide Ends;
    StartSpeaks(opts, [c] + rest);
    assert "" + c == c && ([c] + rest)[0] == c;
  }

  /** All of a first delta is text, then thinking that is closed. */
  predicate Closed(c: string, text: string, think: string) {
    TextOf(c) == text && ThinkOf(c) == think && Side(c, true) == think
  }

  /** It ends in the only stop sequence. */
  lemma EndsInSequence(opts: Options, c: string, rest: seq<string>, head: string, x: string, think: string)
    requires opts.stops == [x] && x != "" && x[0] !in head && Closed(c, head + x, think) && |think| < Budget(opts)
    ensures OutcomeOf(Whole(New(opts), Deltas([c] + rest)).t) == Outcome(head, think, Some(Stop(StopSequence, Some(x))))
  {
    hide Whole;
    hide SplitOf;
    hide Side;
    hide Find;
    hide StopFilter.FirstListed;
    StopFilter.OneSequence(x, head);
    FirstDelta(opts, c, rest);
    StartSpeaks(opts, []);
    assert (head + x)[..|head|] == head;
  }

  /** It reaches the budget without a stop sequence; what sequences there are hold nothing back. */
  lemma EndsByBudget(opts: Options, c: string, rest: seq<string>, text: string, think: string)
    requires var list := StopFilter.Usable(opts.stops); StopFilter.MaxKeep(list) == 0 && StopFilter.FirstListed(list, text).None?
    requires Closed(c, text, think) && |think| < Budget(opts) <= |text| + |think|
    ensures OutcomeOf(Whole(New(opts), Deltas([c] + rest)).t) == Outcome(text[..Budget(opts) - |think|], think, AT_BUDGET)
  {
    hide Whole;
    hide SplitOf;
    hide Side;
    hide Find;
    hide StopFilter.FirstListed;
    assert text[..|text|] == text;
    StartSpeaks(opts, []);
    hide StopFilter.MaxKeep;
    FirstDelta(opts, c, rest);
  }

  lemma PlainClosed(said: string)
    requires '<' !in said
    ensures Closed(said, said, "")
  {
    FastFeed(THINKING, START, said);
  }

  lemma SectionClosed(head: string, inner: string)
    requires '<' !in head && '<' !in inner
    ensures Closed(head + OPEN_TAG + (inner + CLOSE_TAG), head, inner)
  {
    hide Feed;
    OneSection(head, inner, "");
    assert inner + CLOSE_TAG + "" == inner + CLOSE_TAG && head + "" == head && inner + "" == inner;
  }

  lemma LiteralSections()
    ensures "aaaa" + OPEN_TAG + ("bb" + CLOSE_TAG) == "aaaa<thinking>bb</thinking>"
    ensures "aE" + OPEN_TAG + ("bb" + CLOSE_TAG) == "aE<thinking>bb</thinking>"
  {
    assert "bb" + CLOSE_TAG == "bb</thinking>";
  }

  lemma NoSequences(s: string)
    ensures StopFilter.MaxKeep([]) == 0 && StopFilter.FirstListed([], s).None?
  {
  }

  /** Text that uses the budget up, and thinking behind it, in one delta and in two. */
  lemma TextThenThinking(opts: Options, one: string, text: string, think: string, rest: string)
    requires StopFilter.Usable(opts.stops) == [] && Budget(opts) == |text| && |think| < |text|
    requires Closed(one, text, think) && Closed(text, text, "")
    ensures OutcomeOf(Whole(New(opts), Deltas([one])).t) == Outcome(text[..|text| - |think|], think, AT_BUDGET)
    ensures OutcomeOf(Whole(New(opts), Deltas([text, rest])).t) == Outcome(text, "", AT_BUDGET)
  {
    hide *;
    NoSequences(text);
    assert [one] == [one] + [] && [text, rest] == [text] + [rest];
    EndsByBudget(opts, one, [], text, think);
    EndsByBudget(opts, text, [rest], text, "");
    assert text[..|text|] == text;
  }

  /** Past the budget it may differ: one token, and text before thinking, in one piece and in two. */
  lemma TwoCutsDiffer(opts: Options)
    requires StopFilter.Usable(opts.stops) == [] && Budget(opts) == 4
    ensures OutcomeOf(Whole(New(opts), Deltas(["aaaa<thinking>bb</thinking>"])).t) == Outcome("aa", "bb", AT_BUDGET)
    ensures OutcomeOf(Whole(New(opts), Deltas(["aaaa", "<thinking>bb</thinking>"])).t) == Outcome("aaaa", "", AT_BUDGET)
  {
    hide *;
    LiteralSections();
    SectionClosed("aaaa", "bb");
    PlainClosed("aaaa");
    TextThenThinking(opts, "aaaa<thinking>bb</thinking>", "aaaa", "bb", "<thinking>bb</thinking>");
    assert "aaaa"[..2] == "aa";
  }

  /** Budget or stop sequence: with one token, a text in one piece stops by the sequence and in two by the budget. */
  lemma BudgetOrSequence(opts: Options)
    requires opts.stops == ["E"] && Budget(opts) == 4
    ensures OutcomeOf(Whole(New(opts), Deltas(["aaaaaE"])).t) == Outcome("aaaaa", "", Some(Stop(StopSequence, Some("E"))))
    ensures OutcomeOf(Whole(New(opts), Deltas(["aaaa", "aE"])).t) == Outcome("aaaa", "", AT_BUDGET)
  {
    hide *;
    PlainClosed("aaaaaE");
    PlainClosed("aaaa");
    StopFilter.OneSequence("E", "aaaa");
    assert "aaaaaE" == "aaaaa" + "E" && "aaaa"[..4] == "aaaa";
    assert ["aaaaaE"] == ["aaaaaE"] + [] && ["aaaa", "aE"] == ["aaaa"] + ["aE"];
    EndsInSequence(opts, "aaaaaE", [], "aaaaa", "E", "");
    EndsByBudget(opts, "aaaa", ["aE"], "aaaa", "");
  }

  lemma SmallestBudget(opts: Options)
    ensures 4 <= Budget(opts)
  {
  }

  /** With one stop sequence and any budget, thinking behind it is shown when it comes in the same delta. */
  lemma ThinkingBehindSequence(opts: Options)
    requires opts.stops == ["E"]
    ensures OutcomeOf(Whole(New(opts), Deltas(["aE<thinking>bb</thinking>"])).t) == Outcome("a", "bb", Some(Stop(StopSequence, Some("E"))))
    ensures OutcomeOf(Whole(New(opts), Deltas(["aE", "<thinking>bb</thinking>"])).t) == Outcome("a", "", Some(Stop(StopSequence, Some("E"))))
  {
    hide *;
    SmallestBudget(opts);
    LiteralSections();
    SectionClosed("aE", "bb");
    PlainClosed("aE");
    assert "aE" == "a" + "E";
    assert ["aE<thinking>bb</thinking>"] == ["aE<thinking>bb</thinking>"] + [];
    assert ["aE", "<thinking>bb</thinking>"] == ["aE"] + ["<thinking>bb</thinking>"];
    EndsInSequence(opts, "aE<thinking>bb</thinking>", [], "a", "E", "bb");
    EndsInSequence(opts, "aE", ["<thinking>bb</thinking>"], "a", "E", "");
  }
}
