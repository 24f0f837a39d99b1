/**
 Every tool result that is sent upstream answers a call of the assistant entry right before it, exactly
 when the results in messages of unknown role already did so in the request.
 */
module Answers {
  import opened Wrappers
  import opened Content
  import opened Normalize
  import opened History
  import Reorder

  predicate AllIn(ids: seq<string>, offer: seq<string>) {
    forall id | id in ids :: id in offer
  }

  /** The calls a user message claims to answer. */
  function Need(m: Message): seq<string> {
    if m.role.User? then ResultIds(BlocksOf(m.content)) else []
  }

  /** The calls the next message may answer. */
  function Offer(m: Message): seq<string> {
    if m.role.Assistant? then UseIds(BlocksOf(m.content)) else []
  }

  predicate Answered(offer: seq<string>, msgs: seq<Message>)
    decreases |msgs|
  {
    msgs == [] || (AllIn(Need(msgs[0]), offer) && Answered(Offer(msgs[0]), msgs[1..]))
  }

  /** In the request: results in a message of unknown role answer calls of the message before it. */
  predicate OthersAnswered(before: Option<Message>, msgs: seq<Message>)
    decreases |msgs|
  {
    msgs == []
    || ((msgs[0].role.Other? ==> AllIn(ResultIds(BlocksOf(msgs[0].content)), OfferAfter(before)))
        && OthersAnswered(Some(msgs[0]), msgs[1..]))
  }

  // ---- plain text answers nothing -------------------------------------------------------------

  lemma {:induction false} TextHasNoTools(blocks: seq<Block>)
    requires AllText(blocks)
    ensures UseIds(blocks) == [] && ResultIds(blocks) == []
    decreases |blocks|
  {
    hide IsText;
    hide IsToolUse;
    hide IsToolResult;
    if blocks != [] {
      TextIsNoTool(blocks[0]);
      TextHasNoTools(blocks[1..]);
    }
  }

  lemma PlainIsQuiet(m: Message)
    requires IsPlain(m)
    ensures Need(m) == [] && Offer(m) == []
  {
    if m.content.Blocks? {
      TextHasNoTools(m.content.blocks);
    } else {
      TextHasNoTools([]);
    }
  }

  // ---- orphans are shown as text -----------------------------------------------------------------

  lemma {:induction false} CallIdsAreUses(blocks: seq<Block>, id: string)
    requires id in CallIds(blocks)
    ensures id in UseIds(blocks)
    decreases |blocks|
  {
    hide IsToolUse;
    if blocks != [] && id in CallIds(blocks[1..]) {
      CallIdsAreUses(blocks[1..], id);
    }
  }

  lemma {:induction false} ShownAreAnswered(blocks: seq<Block>, ids: seq<string>)
    ensures AllIn(ResultIds(OrphansShown(blocks, ids)), ids)
    decreases |blocks|
  {
    hide IsToolResult;
    hide ShownResult;
    hide IsText;
    if blocks != [] {
      ShownAreAnswered(blocks[1..], ids);
      ShownIsNoTool(blocks[0]);
      var b := OrphansShown(blocks, ids);
      assert b[1..] == OrphansShown(blocks[1..], ids);
    }
  }

  lemma ShownIsNoTool(b: Block)
    ensures !IsToolResult(ShownResult(b)) && !IsToolUse(ShownResult(b))
  {
    TextIsNoTool(ShownResult(b));
  }

  lemma AnswerableIsOffered(before: Option<Message>, ids: seq<string>)
    requires AllIn(ids, Answerable(before))
    ensures AllIn(ids, OfferAfter(before))
  {
    forall id | id in ids ensures id in OfferAfter(before) {
      CallIdsAreUses(before.value.content.blocks, id);
    }
  }

  /** One message of the orphan pass. */
  lemma OrphanStep(before: Option<Message>, m: Message)
    ensures var t := Turn(WithoutOrphans(before, m));
            && (AllIn(Need(t), OfferAfter(before)) <==>
                (m.role.Other? ==> AllIn(ResultIds(BlocksOf(m.content)), OfferAfter(before))))
            && Offer(t) == OfferAfter(Some(m))
  {
    hide OrphansShown;
    if m.role.User? {
      if m.content.Blocks? {
        ShownAreAnswered(m.content.blocks, Answerable(before));
        AnswerableIsOffered(before, ResultIds(OrphansShown(m.content.blocks, Answerable(before))));
      } else {
        TextHasNoTools([]);
      }
    }
  }

  lemma {:induction false} OrphansAnswered(before: Option<Message>, msgs: seq<Message>)
    ensures Answered(OfferAfter(before), NormalizeRoles(TextualizeOrphans(before, msgs))) <==> OthersAnswered(before, msgs)
    decreases |msgs|
  {
    hide WithoutOrphans;
    hide Turn;
    hide Need;
    hide Offer;
    hide OfferAfter;
    hide AllIn;
    if msgs != [] {
      OrphanStep(before, msgs[0]);
      OrphansAnswered(Some(msgs[0]), msgs[1..]);
      var shown := TextualizeOrphans(before, msgs);
      assert shown[1..] == TextualizeOrphans(Some(msgs[0]), msgs[1..]);
      assert NormalizeRoles(shown)[1..] == NormalizeRoles(shown[1..]);
    }
  }

  // ---- the other passes change nothing about it ------------------------------------------------------

  /** A run of plain text answers nothing and offers nothing. */
  lemma {:induction false} RunIsQuiet(offer: seq<string>, msgs: seq<Message>, n: nat)
    requires 1 <= n <= |msgs| && forall i | 0 <= i < n :: IsPlain(msgs[i])
    ensures Answered(offer, msgs) <==> Answered([], msgs[n..])
    decreases n
  {
    hide IsPlain;
    hide Need;
    hide Offer;
    PlainIsQuiet(msgs[0]);
    if n > 1 {
      assert forall i | 0 <= i < n - 1 :: msgs[1..][i] == msgs[i + 1];
      RunIsQuiet([], msgs[1..], n - 1);
      assert msgs[1..][n - 1..] == msgs[n..];
    }
  }

  lemma {:induction false} PlainRunMeaning(msgs: seq<Message>, role: Role)
    ensures forall i | 0 <= i < PlainRun(msgs, role) :: IsPlain(msgs[i])
    decreases |msgs|
  {
    hide IsPlain;
    if msgs != [] && msgs[0].role == role && IsPlain(msgs[0]) {
      PlainRunMeaning(msgs[1..], role);
      assert forall i | 1 <= i < PlainRun(msgs, role) :: msgs[i] == msgs[1..][i - 1];
    }
  }

  lemma LongRunPlain(msgs: seq<Message>)
    requires msgs != [] && RunLength(msgs) > 1
    ensures forall i | 0 <= i < RunLength(msgs) :: IsPlain(msgs[i])
  {
    hide IsPlain;
    PlainRunMeaning(msgs[1..], msgs[0].role);
    assert forall i | 1 <= i < RunLength(msgs) :: msgs[i] == msgs[1..][i - 1];
  }

  lemma {:induction false} MergeAnswered(offer: seq<string>, msgs: seq<Message>)
    ensures Answered(offer, MergeAdjacent(msgs)) <==> Answered(offer, msgs)
    decreases |msgs|
  {
    hide IsPlain;
    hide RunLength;
    hide Need;
    hide Offer;
    if msgs != [] {
      var n := RunLength(msgs);
      var first := Merged(msgs[..n]);
      assert MergeAdjacent(msgs)[1..] == MergeAdjacent(msgs[n..]);
      if n == 1 {
        MergeAnswered(Offer(msgs[0]), msgs[1..]);
      } else {
        MergedPlain(msgs[..n]);
        PlainIsQuiet(first);
        LongRunPlain(msgs);
        RunIsQuiet(offer, msgs, n);
        MergeAnswered([], msgs[n..]);
      }
    }
  }

  lemma MergedPlain(run: seq<Message>)
    requires |run| > 1
    ensures IsPlain(Merged(run))
  {
  }

  lemma SyntheticQuiet(role: Role)
    ensures Need(Synthetic(role)) == [] && Offer(Synthetic(role)) == []
  {
    PlainIsQuiet(Synthetic(role));
  }

  lemma QuietCons(offer: seq<string>, m: Message, rest: seq<Message>)
    requires Need(m) == [] && Offer(m) == []
    ensures Answered(offer, [m] + rest) <==> Answered([], rest)
  {
    hide Need;
    hide Offer;
    assert ([m] + rest)[1..] == rest;
  }

  lemma StartAnswered(msgs: seq<Message>)
    ensures Answered([], StartWithUser(msgs)) <==> Answered([], msgs)
  {
    hide Answered;
    SyntheticQuiet(User);
    QuietCons([], Synthetic(User), msgs);
  }

  /** A message that is put between two of the same role comes where nothing could be answered anyway. */
  lemma {:induction false} AlternateAnswered(offer: seq<string>, last: Option<Role>, msgs: seq<Message>)
    requires last == Some(User) ==> offer == []
    requires Proper(msgs)
    ensures Answered(offer, Alternate(last, msgs)) <==> Answered(offer, msgs)
    decreases |msgs|
  {
    if msgs != [] {
      var m := msgs[0];
      var rest := Alternate(Some(m.role), msgs[1..]);
      AlternateAnswered(Offer(m), Some(m.role), msgs[1..]);
      assert ([m] + rest)[1..] == rest;
      if last == Some(m.role) {
        var s := Synthetic(Opposite(m.role));
        SyntheticQuiet(Opposite(m.role));
        QuietCons(offer, s, [m] + rest);
        assert Alternate(last, msgs) == [s] + ([m] + rest);
      } else {
        assert Alternate(last, msgs) == [m] + rest;
      }
    }
  }

  lemma NormalizedAnswered(env: Env, msgs: seq<Message>)
    ensures Answered([], NormalizeMessages(env, msgs, true)) <==> OthersAnswered(None, msgs)
  {
    hide Answered;
    hide MergeAdjacent;
    hide Alternate;
    hide StartWithUser;
    hide NormalizeRoles;
    hide TextualizeOrphans;
    hide Proper;
    var turned := NormalizeRoles(TextualizeOrphans(None, msgs));
    OrphansAnswered(None, msgs);
    MergeAnswered([], turned);
    StartAnswered(MergeAdjacent(turned));
    RolesProper(TextualizeOrphans(None, msgs));
    MergeProper(turned);
    StartProper(MergeAdjacent(turned));
    AlternateAnswered([], None, StartWithUser(MergeAdjacent(turned)));
  }

  // ---- in the conversation that is sent -----------------------------------------------------------------

  function UseIdsOf(uses: seq<ToolUse>): seq<string> {
    if uses == [] then [] else [uses[0].id] + UseIdsOf(uses[1..])
  }

  function EntryNeed(e: Entry): seq<string> {
    if e.UserEntry? then IdsOf(e.results) else []
  }

  function EntryOffer(e: Entry): seq<string> {
    if e.AssistantEntry? then UseIdsOf(e.uses) else []
  }

  predicate EntriesAnswered(offer: seq<string>, entries: seq<Entry>)
    decreases |entries|
  {
    entries == [] || (AllIn(EntryNeed(entries[0]), offer) && EntriesAnswered(EntryOffer(entries[0]), entries[1..]))
  }

  function LastOffer(entries: seq<Entry>): seq<string> {
    if entries == [] then [] else EntryOffer(entries[|entries| - 1])
  }

  /** Every result that is sent names a call of the assistant entry right before it. */
  predicate AllAnswered(p: Payload) {
    EntriesAnswered([], p.history) && AllIn(IdsOf(p.current.results), LastOffer(p.history))
  }

  lemma {:induction false} UsesKeepIds(env: Env, blocks: seq<Block>)
    ensures UseIdsOf(ToolUses(env, blocks)) == UseIds(blocks)
    decreases |blocks|
  {
    hide IsToolUse;
    if blocks != [] {
      UsesKeepIds(env, blocks[1..]);
      if IsToolUse(blocks[0]) {
        assert ToolUses(env, blocks)[1..] == ToolUses(env, blocks[1..]);
      } else {
        assert [] + ToolUses(env, blocks[1..]) == ToolUses(env, blocks[1..]);
      }
    }
  }

  lemma {:induction false} IdIn(results: seq<ToolResult>, id: string)
    ensures id in IdsOf(results) <==> exists r | r in results :: r.id == id
    decreases |results|
  {
    if results != [] {
      IdIn(results[1..], id);
      assert results == [results[0]] + results[1..];
    }
  }

  /** Reordering claims to answer the same calls. */
  lemma ReorderedIds(results: seq<ToolResult>, ids: seq<string>, offer: seq<string>)
    ensures AllIn(IdsOf(Reorder.Reordered(results, ids)), offer) <==> AllIn(IdsOf(results), offer)
  {
    hide Reorder.Reordered;
    var out := Reorder.Reordered(results, ids);
    Reorder.ReorderedPermutes(results, ids);
    assert forall r :: r in out <==> r in multiset(out);
    assert forall r :: r in results <==> r in multiset(results);
    forall id ensures id in IdsOf(out) <==> id in IdsOf(results) {
      IdIn(out, id);
      IdIn(results, id);
    }
  }

  lemma EntryStep(env: Env, before: Option<Message>, m: Message, count: nat, offer: seq<string>)
    requires !m.role.Other? && EntryOf(env, before, m, count).Ok?
    ensures var es := EntryOf(env, before, m, count).value.entries;
            |es| == 1 && (AllIn(EntryNeed(es[0]), offer) <==> AllIn(Need(m), offer)) && EntryOffer(es[0]) == Offer(m)
  {
    hide Scan;
    hide ToolUses;
    hide ExtractText;
    hide Reorder.Reordered;
    if m.role.Assistant? {
      UsesKeepIds(env, BlocksOf(m.content));
    } else {
      var s := Scan(env, BlocksOf(m.content), count, false).value;
      ScanFindsResults(env, BlocksOf(m.content), count, false);
      if before.Some? {
        ReorderedIds(s.results, UseIds(BlocksOf(before.value.content)), offer);
      }
    }
  }

  lemma {:induction false} HistoryAnswered(env: Env, before: Option<Message>, msgs: seq<Message>, count: nat, offer: seq<string>)
    requires Proper(msgs) && HistoryOf(env, before, msgs, count).Ok?
    ensures var es := HistoryOf(env, before, msgs, count).value.entries;
            && (EntriesAnswered(offer, es) <==> Answered(offer, msgs))
            && |es| == |msgs|
            && (msgs != [] ==> EntryOffer(es[|es| - 1]) == Offer(msgs[|msgs| - 1]))
    decreases |msgs|
  {
    hide EntryOf;
    hide AllIn;
    hide Need;
    hide Offer;
    hide EntryNeed;
    hide EntryOffer;
    if msgs != [] {
      var a := EntryOf(env, before, msgs[0], count).value;
      EntryStep(env, before, msgs[0], count, offer);
      HistoryAnswered(env, Some(msgs[0]), msgs[1..], a.count, Offer(msgs[0]));
      var rest := HistoryOf(env, Some(msgs[0]), msgs[1..], a.count).value.entries;
      var es := a.entries + rest;
      assert es[1..] == rest && es[0] == a.entries[0];
    }
  }

  /** The last message apart. */
  lemma {:induction false} AnsweredSnoc(offer: seq<string>, msgs: seq<Message>, m: Message)
    ensures Answered(offer, msgs + [m])
            <==> Answered(offer, msgs) && AllIn(Need(m), if msgs == [] then offer else Offer(msgs[|msgs| - 1]))
    decreases |msgs|
  {
    hide AllIn;
    hide Need;
    hide Offer;
    if msgs == [] {
      assert ([] + [m])[1..] == [];
      assert [] + [m] == [m];
    } else {
      assert (msgs + [m])[1..] == msgs[1..] + [m];
      AnsweredSnoc(Offer(msgs[0]), msgs[1..], m);
    }
  }

  lemma SplitAnswered(msgs: seq<Message>)
    requires TakesTurns(User, msgs)
    ensures var h := SplitMessages(msgs);
            Answered([], msgs) <==> Answered([], h.history) && AllIn(Need(h.last), OfferAfter(LastOf(h.history)))
  {
    hide Answered;
    hide AllIn;
    var h := SplitMessages(msgs);
    SplitTurns(msgs);
    if msgs != [] && !msgs[|msgs| - 1].role.Assistant? {
      assert msgs == h.history + [h.last];
      AnsweredSnoc([], h.history, h.last);
    } else {
      PlainIsQuiet(h.last);
      AllInNothing(OfferAfter(LastOf(h.history)));
    }
  }

  lemma AllInNothing(offer: seq<string>)
    ensures AllIn([], offer)
  {
  }

  lemma SystemAnswered(system: string, entries: seq<Entry>)
    ensures var placed := PlaceSystemPrompt(system, entries);
            (EntriesAnswered([], placed) <==> EntriesAnswered([], entries)) && LastOffer(placed) == LastOffer(entries)
  {
    if system != "" {
      var pair := [UserEntry(system, []), AssistantEntry(SYNTHETIC_ACK, [])];
      assert (pair + entries)[1..] == [pair[1]] + entries;
      assert ([pair[1]] + entries)[1..] == entries;
      assert UseIdsOf([]) == [] && IdsOf([]) == [];
      if entries != [] {
        assert (pair + entries)[|pair + entries| - 1] == entries[|entries| - 1];
      }
    }
  }

  lemma {:induction false} TurnsAreProper(next: Role, msgs: seq<Message>)
    requires TakesTurns(next, msgs) && !next.Other?
    ensures Proper(msgs)
    decreases |msgs|
  {
    if msgs != [] {
      TurnsAreProper(Opposite(next), msgs[1..]);
    }
  }

  /**
   With tools: every tool result that is sent answers a call of the assistant entry right before it, if and
   only if in the request every result in a message of unknown role answers a call of the message before.
   In particular it always does when the request has only users and assistants.
   */
  lemma ResultsAnsweredIff(env: Env, system: string, msgs: seq<Message>)
    requires BuildPayload(env, system, msgs, true).Ok?
    ensures AllAnswered(BuildPayload(env, system, msgs, true).value) <==> OthersAnswered(None, msgs)
  {
    hide NormalizeMessages;
    hide HistoryOf;
    hide Scan;
    hide PlaceSystemPrompt;
    hide SplitMessages;
    hide Answered;
    hide EntriesAnswered;
    hide LastOffer;
    hide AllIn;
    hide Reorder.Reordered;
    hide ExtractText;
    hide OthersAnswered;
    var n := NormalizeMessages(env, msgs, true);
    NormalizedTakesTurns(env, msgs, true);
    NormalizedAnswered(env, msgs);
    SplitAnswered(n);
    SplitTurns(n);
    var h := SplitMessages(n);
    TurnsAreProper(User, h.history);
    HistoryAnswered(env, None, h.history, 0, []);
    var b := HistoryOf(env, None, h.history, 0).value;
    SystemAnswered(system, b.entries);
    CurrentAnswered(env, h, b, OfferAfter(LastOf(h.history)));
    OffersAgree(h.history, b.entries);
  }

  lemma OffersAgree(msgs: seq<Message>, entries: seq<Entry>)
    requires |entries| == |msgs| && (msgs != [] ==> EntryOffer(entries[|entries| - 1]) == Offer(msgs[|msgs| - 1]))
    ensures LastOffer(entries) == OfferAfter(LastOf(msgs))
  {
  }

  lemma CurrentAnswered(env: Env, h: Halves, b: Built, offer: seq<string>)
    requires h.last.role.User? && Scan(env, BlocksOf(h.last.content), b.count, true).Ok?
    ensures var s := Scan(env, BlocksOf(h.last.content), b.count, true).value;
            AllIn(IdsOf(CurrentOf(h.last, offer, s).results), offer) <==> AllIn(Need(h.last), offer)
  {
    hide Scan;
    hide AllIn;
    var s := Scan(env, BlocksOf(h.last.content), b.count, true).value;
    ScanFindsResults(env, BlocksOf(h.last.content), b.count, true);
    ReorderedIds(s.results, offer, offer);
  }

  /** A request with users and assistants only. */
  predicate NoOthers(msgs: seq<Message>) {
    forall m | m in msgs :: !m.role.Other?
  }

  lemma {:induction false} NoOthersAnswered(before: Option<Message>, msgs: seq<Message>)
    requires NoOthers(msgs)
    ensures OthersAnswered(before, msgs)
    decreases |msgs|
  {
    if msgs != [] {
      NoOthersAnswered(Some(msgs[0]), msgs[1..]);
    }
  }

  lemma ResultsAnswered(env: Env, system: string, msgs: seq<Message>)
    requires NoOthers(msgs) && BuildPayload(env, system, msgs, true).Ok?
    ensures AllAnswered(BuildPayload(env, system, msgs, true).value)
  {
    hide AllAnswered;
    hide OthersAnswered;
    NoOthersAnswered(None, msgs);
    ResultsAnsweredIff(env, system, msgs);
  }

  // ---- a request where it fails --------------------------------------------------------------------

  /** A result in a message of unknown role, with no call before it. */
  function Stray(id: string): Message {
    Message(Other, Blocks([Block("tool_result", None, None, None, None, Some(id), NoResult, false, None)]))
  }

  /** Such a request is accepted, and the result is sent although it answers nothing. */
  lemma StrayIsSent(env: Env, id: string)
    ensures var r := BuildPayload(env, "", [Stray(id)], true);
            r.Ok? && !AllAnswered(r.value) && r.value.history == [] && IdsOf(r.value.current.results) == [id]
  {
    var m := Stray(id);
    var b := m.content.blocks[0];
    StrayNormalized(env, id);
    StrayScanned(env, b, id);
    var s := Scan(env, [b], 0, true).value;
    assert HistoryOf(env, None, [], 0) == Ok(Built([], 0));
    assert Reorder.Reordered(s.results, []) == s.results;
    var p := BuildPayload(env, "", [m], true).value;
    assert p.current.results == s.results && p.history == [];
    assert LastOffer(p.history) == [] && id in IdsOf(p.current.results);
  }

  lemma StrayNormalized(env: Env, id: string)
    ensures NormalizeMessages(env, [Stray(id)], true) == [Stray(id).(role := User)]
  {
    var m := Stray(id);
    var u := m.(role := User);
    assert [m][1..] == [];
    assert TextualizeOrphans(Some(m), []) == [] && TextualizeOrphans(None, [m]) == [m];
    assert NormalizeRoles([]) == [] && NormalizeRoles([m]) == [u];
    ResultIsNoUse(m.content.blocks[0]);
    assert RunLength([u]) == 1;
    assert [u][..1] == [u] && [u][1..] == [];
    MergeNothing();
    assert MergeAdjacent([u]) == [u];
    assert StartWithUser([u]) == [u];
    assert Alternate(Some(User), []) == [];
    assert Alternate(None, [u]) == [u];
  }

  lemma StrayScanned(env: Env, b: Block, id: string)
    requires b.kind == "tool_result" && b.toolUseId == Some(id) && b.result.NoResult?
    ensures var r := Scan(env, [b], 0, true);
            r.Ok? && |r.value.results| == 1 && IdsOf(r.value.results) == [id]
  {
    assert [b][1..] == [];
    assert Promote(env, [], 0) == Ok(Images([], 0));
    assert Scan(env, [], 0, true) == Ok(Scanned([], [], 0));
    var a := ScanBlock(env, b, 0, true).value;
    assert Scan(env, [b], 0, true) == Ok(Scanned(a.results + [], a.images + [], 0));
    assert a.results + [] == a.results && a.results[1..] == [];
  }

  // ---- without tools ----------------------------------------------------------------------------------

  /** No tool content at all. */
  predicate ToolFree(blocks: seq<Block>) {
    UseIds(blocks) == [] && ResultIds(blocks) == []
  }

  predicate AllToolFree(msgs: seq<Message>) {
    msgs == [] || (ToolFree(BlocksOf(msgs[0].content)) && AllToolFree(msgs[1..]))
  }

  lemma {:induction false} TextualizedFree(env: Env, blocks: seq<Block>)
    ensures ToolFree(Textualized(env, blocks))
    decreases |blocks|
  {
    hide IsToolUse;
    hide IsToolResult;
    hide ShownUse;
    hide ShownResult;
    if blocks != [] {
      TextualizedFree(env, blocks[1..]);
      UseShownIsNoTool(env, blocks[0]);
      ShownIsNoTool(blocks[0]);
      assert Textualized(env, blocks)[1..] == Textualized(env, blocks[1..]);
    }
  }

  lemma UseShownIsNoTool(env: Env, b: Block)
    ensures !IsToolResult(ShownUse(env, b)) && !IsToolUse(ShownUse(env, b))
  {
    TextIsNoTool(ShownUse(env, b));
  }

  lemma {:induction false} TextualizeAllFree(env: Env, msgs: seq<Message>)
    ensures AllToolFree(NormalizeRoles(TextualizeAll(env, msgs)))
    decreases |msgs|
  {
    hide Textualized;
    hide ToolFree;
    if msgs != [] {
      if msgs[0].content.Blocks? {
        TextualizedFree(env, msgs[0].content.blocks);
      } else {
        NoBlocksFree();
      }
      TextualizeAllFree(env, msgs[1..]);
      var shown := TextualizeAll(env, msgs);
      assert shown[1..] == TextualizeAll(env, msgs[1..]);
      assert NormalizeRoles(shown)[1..] == NormalizeRoles(shown[1..]);
    }
  }

  lemma NoBlocksFree()
    ensures ToolFree([])
  {
  }

  lemma {:induction false} FreeRest(msgs: seq<Message>, n: nat)
    requires AllToolFree(msgs) && n <= |msgs|
    ensures AllToolFree(msgs[n..])
    decreases n
  {
    hide ToolFree;
    if n > 0 {
      FreeRest(msgs[1..], n - 1);
      assert msgs[1..][n - 1..] == msgs[n..];
    }
  }

  lemma {:induction false} MergeFree(msgs: seq<Message>)
    requires AllToolFree(msgs)
    ensures AllToolFree(MergeAdjacent(msgs))
    decreases |msgs|
  {
    hide ToolFree;
    hide RunLength;
    if msgs != [] {
      var n := RunLength(msgs);
      FreeRest(msgs, n);
      MergeFree(msgs[n..]);
      NoBlocksFree();
      assert MergeAdjacent(msgs)[1..] == MergeAdjacent(msgs[n..]);
    }
  }

  lemma FreeCons(m: Message, rest: seq<Message>)
    requires ToolFree(BlocksOf(m.content)) && AllToolFree(rest)
    ensures AllToolFree([m] + rest)
  {
    assert ([m] + rest)[1..] == rest;
  }

  lemma {:induction false} AlternateFree(last: Option<Role>, msgs: seq<Message>)
    requires AllToolFree(msgs)
    ensures AllToolFree(Alternate(last, msgs))
    decreases |msgs|
  {
    hide ToolFree;
    if msgs != [] {
      var m := msgs[0];
      var rest := Alternate(Some(m.role), msgs[1..]);
      AlternateFree(Some(m.role), msgs[1..]);
      FreeCons(m, rest);
      NoBlocksFree();
      FreeCons(Synthetic(Opposite(m.role)), [m] + rest);
      if last == Some(m.role) {
        assert Alternate(last, msgs) == [Synthetic(Opposite(m.role))] + ([m] + rest);
      } else {
        assert Alternate(last, msgs) == [m] + rest;
      }
    }
  }

  /** Entries without calls and results. */
  predicate Bare(entries: seq<Entry>) {
    entries == []
    || ((if entries[0].UserEntry? then entries[0].results == [] else entries[0].uses == []) && Bare(entries[1..]))
  }

  lemma FreeScan(env: Env, blocks: seq<Block>, count: nat, own: bool)
    requires ToolFree(blocks) && Scan(env, blocks, count, own).Ok?
    ensures Scan(env, blocks, count, own).value.results == []
  {
    hide Scan;
    ScanFindsResults(env, blocks, count, own);
  }

  lemma FreeUses(env: Env, blocks: seq<Block>)
    requires ToolFree(blocks)
    ensures ToolUses(env, blocks) == []
  {
    hide ToolUses;
    UsesKeepIds(env, blocks);
  }

  lemma {:induction false} HistoryBare(env: Env, before: Option<Message>, msgs: seq<Message>, count: nat)
    requires AllToolFree(msgs) && HistoryOf(env, before, msgs, count).Ok?
    ensures Bare(HistoryOf(env, before, msgs, count).value.entries)
    decreases |msgs|
  {
    hide ToolFree;
    hide Scan;
    hide ToolUses;
    hide ExtractText;
    if msgs != [] {
      var a := EntryOf(env, before, msgs[0], count).value;
      if msgs[0].role.Assistant? {
        FreeUses(env, BlocksOf(msgs[0].content));
      } else {
        FreeScan(env, BlocksOf(msgs[0].content), count, false);
      }
      HistoryBare(env, Some(msgs[0]), msgs[1..], a.count);
      var rest := HistoryOf(env, Some(msgs[0]), msgs[1..], a.count).value.entries;
      assert (a.entries + rest)[1..] == rest;
    }
  }

  lemma SystemBare(system: string, entries: seq<Entry>)
    requires Bare(entries)
    ensures Bare(PlaceSystemPrompt(system, entries))
  {
    if system != "" {
      var pair := [UserEntry(system, []), AssistantEntry(SYNTHETIC_ACK, [])];
      assert (pair + entries)[1..] == [pair[1]] + entries;
      assert ([pair[1]] + entries)[1..] == entries;
    }
  }

  lemma {:induction false} FreePrefix(msgs: seq<Message>, n: nat)
    requires AllToolFree(msgs) && n <= |msgs|
    ensures AllToolFree(msgs[..n])
    ensures n < |msgs| ==> ToolFree(BlocksOf(msgs[n].content))
    decreases n
  {
    hide ToolFree;
    if n > 0 {
      FreePrefix(msgs[1..], n - 1);
      assert msgs[..n][1..] == msgs[1..][..n - 1];
    }
  }

  /** Without tools no call and no result is sent, whatever the request holds. */
  lemma NothingWithoutTools(env: Env, system: string, msgs: seq<Message>)
    requires BuildPayload(env, system, msgs, false).Ok?
    ensures var p := BuildPayload(env, system, msgs, false).value; Bare(p.history) && p.current.results == []
  {
    hide ToolFree;
    hide Scan;
    hide HistoryOf;
    hide PlaceSystemPrompt;
    hide ExtractText;
    hide MergeAdjacent;
    hide Alternate;
    hide NormalizeRoles;
    hide TextualizeAll;
    TextualizeAllFree(env, msgs);
    var merged := MergeAdjacent(NormalizeRoles(TextualizeAll(env, msgs)));
    MergeFree(NormalizeRoles(TextualizeAll(env, msgs)));
    NoBlocksFree();
    FreeCons(Synthetic(User), merged);
    AlternateFree(None, StartWithUser(merged));
    var n := NormalizeMessages(env, msgs, false);
    if n != [] {
      FreePrefix(n, |n| - 1);
    }
    var h := SplitMessages(n);
    HistoryBare(env, None, h.history, 0);
    var b := HistoryOf(env, None, h.history, 0).value;
    SystemBare(system, b.entries);
    FreeScan(env, BlocksOf(h.last.content), b.count, true);
  }
}
