/** The conversation that is sent upstream: history entries and the current message. */
module History {
  import opened Wrappers
  import opened Content
  import opened Normalize
  import Reorder

  const SYNTHETIC_CONTINUE := "Continue"
  const SYNTHETIC_ACK :=
    "I will fully incorporate this information when generating my responses, and explicitly acknowledge relevant parts of the summary when answering questions."

  datatype Entry =
    | UserEntry(content: string, results: seq<ToolResult>)
    | AssistantEntry(content: string, uses: seq<ToolUse>)

  datatype Current = Current(content: string, results: seq<ToolResult>, images: seq<Image>)

  datatype Payload = Payload(history: seq<Entry>, current: Current)

  /** The entries of a history, and the number of images counted on the way. */
  datatype Built = Built(entries: seq<Entry>, count: nat)

  /** Results follow the order of the calls of the assistant message before them. */
  function Ordered(before: Option<Message>, results: seq<ToolResult>): seq<ToolResult> {
    if |results| > 1 && before.Some? && before.value.role.Assistant?
    then Reorder.Reordered(results, UseIds(BlocksOf(before.value.content))) else results
  }

  function EntryOf(env: Env, before: Option<Message>, m: Message, count: nat): Result<Built, ImageError> {
    if m.role.Assistant? then Ok(Built([AssistantEntry(ExtractText(m.content), ToolUses(env, BlocksOf(m.content)))], count)) else
    match Scan(env, BlocksOf(m.content), count, false)
    case Err(e) => Err(e)
    case Ok(s) => Ok(Built([UserEntry(ExtractText(m.content), Ordered(before, s.results))], s.count))
  }

  function HistoryOf(env: Env, before: Option<Message>, msgs: seq<Message>, count: nat): Result<Built, ImageError>
    decreases |msgs|
  {
    if msgs == [] then Ok(Built([], count)) else
    match EntryOf(env, before, msgs[0], count)
    case Err(e) => Err(e)
    case Ok(a) =>
      match HistoryOf(env, Some(msgs[0]), msgs[1..], a.count)
      case Err(e) => Err(e)
      case Ok(rest) => Ok(Built(a.entries + rest.entries, rest.count))
  }

  /** `build_history`: the loop over the messages with the shared image count. */
  method BuildHistory(env: Env, msgs: seq<Message>, counter: nat) returns (r: Result<Built, ImageError>)
    ensures r == HistoryOf(env, None, msgs, counter)
  {
    hide EntryOf;
    var history: seq<Entry> := [];
    var count := counter;
    var i := 0;
    var before: Option<Message> := None;
    assert msgs[0..] == msgs;
    AfterNone(HistoryOf(env, None, msgs, counter));
    while i < |msgs|
      invariant 0 <= i <= |msgs|
      invariant HistoryOf(env, None, msgs, counter) == After(history, HistoryOf(env, before, msgs[i..], count))
    {
      assert msgs[i..][1..] == msgs[i + 1..];
      var e := EntryOf(env, before, msgs[i], count);
      if e.Err? {
        return Err(e.error);
      }
      AfterTwice(history, e.value.entries, HistoryOf(env, Some(msgs[i]), msgs[i + 1..], e.value.count));
      history := history + e.value.entries;
      count := e.value.count;
      before := Some(msgs[i]);
      i := i + 1;
    }
    assert history + [] == history;
    r := Ok(Built(history, count));
  }

  ghost function After(front: seq<Entry>, r: Result<Built, ImageError>): Result<Built, ImageError> {
    match r
    case Err(e) => Err(e)
    case Ok(b) => Ok(Built(front + b.entries, b.count))
  }

  lemma AfterNone(r: Result<Built, ImageError>)
    ensures After([], r) == r
  {
    assert r.Ok? ==> [] + r.value.entries == r.value.entries;
  }

  lemma AfterTwice(a: seq<Entry>, b: seq<Entry>, r: Result<Built, ImageError>)
    ensures After(a, After(b, r)) == After(a + b, r)
  {
    assert r.Ok? ==> a + (b + r.value.entries) == a + b + r.value.entries;
  }

  /** The system prompt travels as a leading pair. */
  function PlaceSystemPrompt(system: string, history: seq<Entry>): seq<Entry> {
    if system == "" then history
    else [UserEntry(system, []), AssistantEntry(SYNTHETIC_ACK, [])] + history
  }

  datatype Halves = Halves(history: seq<Message>, last: Message)

  /** The last message is the current one unless the assistant spoke last. */
  function SplitMessages(msgs: seq<Message>): Halves {
    if msgs == [] then Halves([], Message(User, Text("")))
    else if msgs[|msgs| - 1].role.Assistant? then Halves(msgs, Message(User, Text(SYNTHETIC_CONTINUE)))
    else Halves(msgs[..|msgs| - 1], msgs[|msgs| - 1])
  }

  function LastOf(msgs: seq<Message>): Option<Message> {
    if msgs == [] then None else Some(msgs[|msgs| - 1])
  }

  /** The calls that results may answer after this message. */
  function OfferAfter(before: Option<Message>): seq<string> {
    if before.Some? && before.value.role.Assistant? then UseIds(BlocksOf(before.value.content)) else []
  }

  function CurrentOf(last: Message, ids: seq<string>, s: Scanned): Current {
    var results := Reorder.Reordered(s.results, ids);
    var text := ExtractText(last.content);
    Current(if text == "" && results == [] then SYNTHETIC_CONTINUE else text, results, s.images)
  }

  /** `build_payload`, as far as the conversation goes. */
  function BuildPayload(env: Env, system: string, msgs: seq<Message>, hasTools: bool): Result<Payload, ImageError> {
    var h := SplitMessages(NormalizeMessages(env, msgs, hasTools));
    match HistoryOf(env, None, h.history, 0)
    case Err(e) => Err(e)
    case Ok(b) =>
      match Scan(env, BlocksOf(h.last.content), b.count, true)
      case Err(e) => Err(e)
      case Ok(s) =>
        Ok(Payload(PlaceSystemPrompt(system, b.entries), CurrentOf(h.last, OfferAfter(LastOf(h.history)), s)))
  }

  // ---- turns ---------------------------------------------------------------------------------

  predicate EntriesTakeTurns(next: Role, entries: seq<Entry>)
    decreases |entries|
  {
    entries == [] || (entries[0].UserEntry? == next.User? && EntriesTakeTurns(Opposite(next), entries[1..]))
  }

  lemma {:induction false} HistoryTurns(env: Env, before: Option<Message>, msgs: seq<Message>, count: nat, next: Role)
    requires TakesTurns(next, msgs) && !next.Other? && HistoryOf(env, before, msgs, count).Ok?
    ensures var es := HistoryOf(env, before, msgs, count).value.entries;
            EntriesTakeTurns(next, es) && |es| == |msgs|
    decreases |msgs|
  {
    hide Scan;
    hide ToolUses;
    hide ExtractText;
    hide Ordered;
    if msgs != [] {
      var a := EntryOf(env, before, msgs[0], count).value;
      HistoryTurns(env, Some(msgs[0]), msgs[1..], a.count, Opposite(next));
      var rest := HistoryOf(env, Some(msgs[0]), msgs[1..], a.count).value.entries;
      assert (a.entries + rest)[1..] == rest;
    }
  }

  /** Whose turn the last of `n` turns is. */
  lemma {:induction false} LastTurn(next: Role, msgs: seq<Message>)
    requires TakesTurns(next, msgs) && !next.Other? && msgs != []
    ensures msgs[|msgs| - 1].role == if |msgs| % 2 == 1 then next else Opposite(next)
    decreases |msgs|
  {
    if |msgs| > 1 {
      LastTurn(Opposite(next), msgs[1..]);
    }
  }

  lemma {:induction false} TurnsPrefix(next: Role, msgs: seq<Message>, n: nat)
    requires TakesTurns(next, msgs) && n <= |msgs|
    ensures TakesTurns(next, msgs[..n])
    decreases n
  {
    if n > 0 {
      TurnsPrefix(Opposite(next), msgs[1..], n - 1);
      assert msgs[..n][1..] == msgs[1..][..n - 1];
    }
  }

  lemma SplitTurns(msgs: seq<Message>)
    requires TakesTurns(User, msgs)
    ensures var h := SplitMessages(msgs);
            TakesTurns(User, h.history) && |h.history| % 2 == 0 && h.last.role.User?
  {
    if msgs != [] {
      LastTurn(User, msgs);
      TurnsPrefix(User, msgs, |msgs| - 1);
    }
  }

  lemma SystemTurns(system: string, history: seq<Entry>)
    requires EntriesTakeTurns(User, history) && |history| % 2 == 0
    ensures EntriesTakeTurns(User, PlaceSystemPrompt(system, history)) && |PlaceSystemPrompt(system, history)| % 2 == 0
  {
    if system != "" {
      var pair := [UserEntry(system, []), AssistantEntry(SYNTHETIC_ACK, [])];
      assert (pair + history)[1..] == [pair[1]] + history;
      assert ([pair[1]] + history)[1..] == history;
    }
  }

  /** For every request that is accepted: users and assistants take turns in the history, starting with a
      user, and it is the user's turn when the current message comes. */
  lemma ConversationTakesTurns(env: Env, system: string, msgs: seq<Message>, hasTools: bool)
    requires BuildPayload(env, system, msgs, hasTools).Ok?
    ensures var p := BuildPayload(env, system, msgs, hasTools).value;
            EntriesTakeTurns(User, p.history) && |p.history| % 2 == 0
  {
    hide NormalizeMessages;
    hide HistoryOf;
    hide Scan;
    hide CurrentOf;
    hide PlaceSystemPrompt;
    hide SplitMessages;
    var n := NormalizeMessages(env, msgs, hasTools);
    NormalizedTakesTurns(env, msgs, hasTools);
    SplitTurns(n);
    var h := SplitMessages(n);
    HistoryTurns(env, None, h.history, 0, User);
    SystemTurns(system, HistoryOf(env, None, h.history, 0).value.entries);
  }

  // ---- images -----------------------------------------------------------------------------------

  lemma {:induction false} HistoryCounts(env: Env, before: Option<Message>, msgs: seq<Message>, count: nat)
    requires count <= MAX_IMAGES && HistoryOf(env, before, msgs, count).Ok?
    ensures count <= HistoryOf(env, before, msgs, count).value.count <= MAX_IMAGES
    decreases |msgs|
  {
    hide Scan;
    hide ToolUses;
    hide ExtractText;
    hide Ordered;
    if msgs != [] {
      var a := EntryOf(env, before, msgs[0], count).value;
      HistoryCounts(env, Some(msgs[0]), msgs[1..], a.count);
    }
  }

  /** An accepted request carries at most ten images, those of the history counted in. */
  lemma ImagesBounded(env: Env, system: string, msgs: seq<Message>, hasTools: bool)
    requires BuildPayload(env, system, msgs, hasTools).Ok?
    ensures var h := SplitMessages(NormalizeMessages(env, msgs, hasTools));
            HistoryOf(env, None, h.history, 0).value.count
            + |BuildPayload(env, system, msgs, hasTools).value.current.images| <= 10
  {
    hide NormalizeMessages;
    hide HistoryOf;
    hide PlaceSystemPrompt;
    hide SplitMessages;
    hide ExtractText;
    hide Reorder.Reordered;
    HistoryCounts(env, None, SplitMessages(NormalizeMessages(env, msgs, hasTools)).history, 0);
  }
}
