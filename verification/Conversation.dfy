/**
 The conversation that is sent, entry by entry, and that every piece of a request, text, mark or
 tool content shown as text, reaches upstream in its order.
 */
module Conversation {
  import opened Wrappers
  import opened Json
  import opened Content
  import opened Normalize
  import opened History
  import opened Spoken
  import Reorder
  import Wording

  // ---- entry by entry ----------------------------------------------------------------------

  /** The ids of the calls of an assistant's entry. */
  function CalledIn(e: Option<Entry>): seq<string> {
    if e.Some? && e.value.AssistantEntry? then seq(|e.value.uses|, i requires 0 <= i < |e.value.uses| => e.value.uses[i].id) else []
  }

  /** The results of the blocks, in the order of the calls with these ids. */
  ghost predicate ResultsAre(blocks: seq<Block>, ids: seq<string>, results: seq<ToolResult>) {
    exists found :: AnswersAre(blocks, found) && results == Reorder.Reordered(found, ids)
  }

  /** The entry for a message, behind the entry `before`. */
  ghost predicate EntryIs(env: Env, before: Option<Entry>, m: Message, e: Entry) {
    && e.content == Says(m.content)
    && (e.AssistantEntry? <==> m.role.Assistant?)
    && if e.AssistantEntry? then CallsAre(env, BlocksOf(m.content), e.uses)
       else ResultsAre(BlocksOf(m.content), CalledIn(before), e.results)
  }

  ghost predicate EntriesAre(env: Env, before: Option<Entry>, msgs: seq<Message>, entries: seq<Entry>)
    decreases |msgs|
  {
    if msgs == [] then entries == []
    else entries != [] && EntryIs(env, before, msgs[0], entries[0]) && EntriesAre(env, Some(entries[0]), msgs[1..], entries[1..])
  }

  lemma {:induction false} CalledIds(env: Env, blocks: seq<Block>)
    ensures CalledIn(Some(AssistantEntry("", ToolUses(env, blocks)))) == UseIds(blocks)
    decreases |blocks|
  {
    if blocks != [] {
      CalledIds(env, blocks[1..]);
      var uses, rest := ToolUses(env, blocks), ToolUses(env, blocks[1..]);
      assert uses == (if IsToolUse(blocks[0]) then [uses[0]] else []) + rest;
      assert CalledIn(Some(AssistantEntry("", uses)))
             == (if IsToolUse(blocks[0]) then [uses[0].id] else []) + CalledIn(Some(AssistantEntry("", rest)));
    }
  }

  /** `e` is the entry that the message `m` has become. */
  ghost predicate Matches(env: Env, m: Option<Message>, e: Option<Entry>) {
    CalledIn(e) == OfferAfter(m)
  }

  lemma EntryOfIs(env: Env, before: Option<Message>, prior: Option<Entry>, m: Message, count: nat)
    requires EntryOf(env, before, m, count).Ok? && Matches(env, before, prior)
    ensures var b := EntryOf(env, before, m, count).value;
            && b.entries == [b.entries[0]] && EntryIs(env, prior, m, b.entries[0]) && Matches(env, Some(m), Some(b.entries[0]))
  {
    hide Scan;
    hide AnswersAre;
    hide CallsAre;
    hide ToolUses;
    hide UseIds;
    hide ExtractText;
    hide Says;
    hide Reorder.Pick;
    SaysIt(m.content);
    CalledIds(env, BlocksOf(m.content));
    UsesAreCalls(env, BlocksOf(m.content));
    if !m.role.Assistant? {
      ScanAnswers(env, BlocksOf(m.content), count, false);
      var found := Scan(env, BlocksOf(m.content), count, false).value.results;
      assert Ordered(before, found) == Reorder.Reordered(found, CalledIn(prior));
    }
  }

  lemma {:induction false} HistoryIs(env: Env, before: Option<Message>, prior: Option<Entry>, msgs: seq<Message>, count: nat)
    requires HistoryOf(env, before, msgs, count).Ok? && Matches(env, before, prior)
    ensures EntriesAre(env, prior, msgs, HistoryOf(env, before, msgs, count).value.entries)
    decreases |msgs|
  {
    hide EntryOf;
    hide EntryIs;
    hide Matches;
    if msgs != [] {
      var a := EntryOf(env, before, msgs[0], count).value;
      EntryOfIs(env, before, prior, msgs[0], count);
      var e := a.entries[0];
      HistoryIs(env, Some(msgs[0]), Some(e), msgs[1..], a.count);
      var rest := HistoryOf(env, Some(msgs[0]), msgs[1..], a.count).value.entries;
      assert ([e] + rest)[1..] == rest;
    }
  }

  lemma {:induction false} LastMatches(env: Env, before: Option<Message>, msgs: seq<Message>, count: nat)
    requires msgs != [] && HistoryOf(env, before, msgs, count).Ok?
    ensures var entries := HistoryOf(env, before, msgs, count).value.entries;
            entries != [] && CalledIn(Some(entries[|entries| - 1])) == OfferAfter(Some(msgs[|msgs| - 1]))
    decreases |msgs|
  {
    hide EntryOf;
    hide CalledIn;
    hide OfferAfter;
    var a := EntryOf(env, before, msgs[0], count).value;
    EntryMatches(env, before, msgs[0], count);
    if |msgs| > 1 {
      LastMatches(env, Some(msgs[0]), msgs[1..], a.count);
    } else {
      assert msgs[1..] == [];
    }
  }

  lemma EntryMatches(env: Env, before: Option<Message>, m: Message, count: nat)
    requires EntryOf(env, before, m, count).Ok?
    ensures var b := EntryOf(env, before, m, count).value;
            b.entries == [b.entries[0]] && CalledIn(Some(b.entries[0])) == OfferAfter(Some(m))
  {
    CalledIds(env, BlocksOf(m.content));
  }

  function LastEntry(entries: seq<Entry>): Option<Entry> {
    if entries == [] then None else Some(entries[|entries| - 1])
  }

  /** The pair that carries a system prompt. */
  ghost predicate IsLead(system: string, lead: seq<Entry>) {
    if system == "" then lead == []
    else |lead| == 2 && lead[0] == UserEntry(system, []) && lead[1] == AssistantEntry(
      "I will fully incorporate this information when generating my responses, and explicitly acknowledge relevant parts of the summary when answering questions.", [])
  }

  /** The current message: what was said last, or `Continue` where there is neither text nor a result. */
  ghost predicate CurrentIs(before: Option<Entry>, m: Message, c: Current) {
    && ResultsAre(BlocksOf(m.content), CalledIn(before), c.results)
    && c.images == Wording.ImagesIn(BlocksOf(m.content), true)
    && (Says(m.content) == "" && c.results == [] ==> c.content == "Continue")
    && (Says(m.content) != "" || c.results != [] ==> c.content == Says(m.content))
  }

  /**
   Every accepted request is sent as the pair with the system prompt, one entry for each
   normalised message but the last, and the last as the current message. Each carries what its
   message says, word for word, and its calls or its results, whole; results follow the calls
   of the entry before. Where the assistant spoke last, or nobody, the current message is new.
   */
  lemma PayloadIs(env: Env, system: string, msgs: seq<Message>, hasTools: bool) returns (lead: seq<Entry>, entries: seq<Entry>)
    requires BuildPayload(env, system, msgs, hasTools).Ok?
    ensures var p, n := BuildPayload(env, system, msgs, hasTools).value, NormalizeMessages(env, msgs, hasTools);
            && p.history == lead + entries && IsLead(system, lead)
            && (if n != [] && !n[|n| - 1].role.Assistant? then
                  EntriesAre(env, None, n[..|n| - 1], entries) && CurrentIs(LastEntry(entries), n[|n| - 1], p.current)
                else EntriesAre(env, None, n, entries) && p.current == Current("Continue", [], []))
  {
    hide NormalizeMessages;
    hide HistoryOf;
    hide EntriesAre;
    hide CurrentIs;
    hide Scan;
    hide CurrentOf;
    var n := NormalizeMessages(env, msgs, hasTools);
    var h := SplitMessages(n);
    var b := HistoryOf(env, None, h.history, 0).value;
    entries := b.entries;
    lead := if system == "" then [] else [UserEntry(system, []), AssistantEntry(SYNTHETIC_ACK, [])];
    assert [] + entries == entries;
    HistoryIs(env, None, None, h.history, 0);
    LastOffers(env, h.history, 0);
    if n != [] && !n[|n| - 1].role.Assistant? {
      CurrentOfIs(env, LastEntry(entries), h.last, b.count, OfferAfter(LastOf(h.history)));
    } else {
      AddedIs(env, h.last, b.count, OfferAfter(LastOf(h.history)));
    }
  }

  lemma LastOffers(env: Env, msgs: seq<Message>, count: nat)
    requires HistoryOf(env, None, msgs, count).Ok?
    ensures CalledIn(LastEntry(HistoryOf(env, None, msgs, count).value.entries)) == OfferAfter(LastOf(msgs))
  {
    if msgs != [] {
      LastMatches(env, None, msgs, count);
    }
  }

  lemma CurrentOfIs(env: Env, before: Option<Entry>, m: Message, count: nat, ids: seq<string>)
    requires Scan(env, BlocksOf(m.content), count, true).Ok? && ids == CalledIn(before)
    ensures CurrentIs(before, m, CurrentOf(m, ids, Scan(env, BlocksOf(m.content), count, true).value))
  {
    hide Scan;
    hide AnswersAre;
    hide Reorder.Reordered;
    hide ExtractText;
    hide Says;
    SaysIt(m.content);
    ScanAnswers(env, BlocksOf(m.content), count, true);
    Wording.ScanIff(env, BlocksOf(m.content), count, true);
  }

  lemma AddedIs(env: Env, m: Message, count: nat, ids: seq<string>)
    requires m.content == Text("") || m.content == Text(SYNTHETIC_CONTINUE)
    ensures Scan(env, BlocksOf(m.content), count, true).Ok?
    ensures CurrentOf(m, ids, Scan(env, BlocksOf(m.content), count, true).value) == Current("Continue", [], [])
  {
    assert Scan(env, [], count, true) == Ok(Scanned([], [], count));
  }
}
