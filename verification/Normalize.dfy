/** Message normalisation: five passes after which users and assistants take turns. */
module Normalize {
  import opened Wrappers
  import opened Content

  const SYNTHETIC_EMPTY := "(empty)"

  function Turn(m: Message): Message {
    m.(role := if m.role.Other? then User else m.role)
  }

  function Synthetic(role: Role): Message {
    Message(role, Text(SYNTHETIC_EMPTY))
  }

  // ---- tool content as text -----------------------------------------------------------------

  function ShownUse(env: Env, b: Block): Block {
    TextBlock("[Tool: " + OrEmpty(b.name) + " (" + OrEmpty(b.id) + ")]\n" + if b.input.Some? then env.show(b.input.value) else "null")
  }

  function ShownResult(b: Block): Block {
    TextBlock("[Tool Result (" + OrEmpty(b.toolUseId) + ")]\n" + ResultTextOf(b))
  }

  function Textualized(env: Env, blocks: seq<Block>): seq<Block> {
    if blocks == [] then []
    else [if IsToolUse(blocks[0]) then ShownUse(env, blocks[0])
          else if IsToolResult(blocks[0]) then ShownResult(blocks[0])
          else blocks[0]] + Textualized(env, blocks[1..])
  }

  /** Without tools, tool content travels as text. */
  function TextualizeAll(env: Env, msgs: seq<Message>): seq<Message> {
    if msgs == [] then []
    else [if msgs[0].content.Text? then msgs[0]
          else Message(msgs[0].role, Blocks(Textualized(env, msgs[0].content.blocks)))] + TextualizeAll(env, msgs[1..])
  }

  /** The ids of the calls of an assistant message; a call without an id has none. */
  function CallIds(blocks: seq<Block>): seq<string> {
    if blocks == [] then []
    else (if IsToolUse(blocks[0]) && blocks[0].id.Some? then [blocks[0].id.value] else []) + CallIds(blocks[1..])
  }

  function Answerable(before: Option<Message>): seq<string> {
    if before.Some? && before.value.role.Assistant? && before.value.content.Blocks?
    then CallIds(before.value.content.blocks) else []
  }

  function OrphansShown(blocks: seq<Block>, ids: seq<string>): seq<Block> {
    if blocks == [] then []
    else [if IsToolResult(blocks[0]) && OrEmpty(blocks[0].toolUseId) !in ids then ShownResult(blocks[0]) else blocks[0]]
         + OrphansShown(blocks[1..], ids)
  }

  function WithoutOrphans(before: Option<Message>, m: Message): Message {
    if m.content.Text? || !m.role.User? then m
    else Message(m.role, Blocks(OrphansShown(m.content.blocks, Answerable(before))))
  }

  /** With tools, the results of a user that answer no call of the message before travel as text. */
  function TextualizeOrphans(before: Option<Message>, msgs: seq<Message>): seq<Message>
    decreases |msgs|
  {
    if msgs == [] then []
    else [WithoutOrphans(before, msgs[0])] + TextualizeOrphans(Some(msgs[0]), msgs[1..])
  }

  function NormalizeRoles(msgs: seq<Message>): seq<Message> {
    if msgs == [] then [] else [Turn(msgs[0])] + NormalizeRoles(msgs[1..])
  }

  // ---- merging -------------------------------------------------------------------------------

  predicate AllText(blocks: seq<Block>) {
    blocks == [] || (IsText(blocks[0]) && AllText(blocks[1..]))
  }

  predicate IsPlain(m: Message) {
    m.content.Text? || AllText(m.content.blocks)
  }

  /** How many messages from the front are plain text of that role. */
  function PlainRun(msgs: seq<Message>, role: Role): (n: nat)
    ensures n <= |msgs|
  {
    if msgs != [] && msgs[0].role == role && IsPlain(msgs[0]) then 1 + PlainRun(msgs[1..], role) else 0
  }

  function TextsOf(msgs: seq<Message>): seq<string> {
    if msgs == [] then [] else [ExtractText(msgs[0].content)] + TextsOf(msgs[1..])
  }

  /** How many messages from the front become one. */
  function RunLength(msgs: seq<Message>): (n: nat)
    requires msgs != []
    ensures 1 <= n <= |msgs|
  {
    if IsPlain(msgs[0]) then 1 + PlainRun(msgs[1..], msgs[0].role) else 1
  }

  function Merged(run: seq<Message>): Message
    requires run != []
  {
    if |run| == 1 then run[0] else Message(run[0].role, Text(Join(TextsOf(run), "\n")))
  }

  function MergeAdjacent(msgs: seq<Message>): seq<Message>
    decreases |msgs|
  {
    if msgs == [] then []
    else [Merged(msgs[..RunLength(msgs)])] + MergeAdjacent(msgs[RunLength(msgs)..])
  }

  // ---- taking turns ------------------------------------------------------------------------------

  function StartWithUser(msgs: seq<Message>): seq<Message> {
    if msgs != [] && !msgs[0].role.User? then [Synthetic(User)] + msgs else msgs
  }

  function Opposite(role: Role): Role {
    if role.Assistant? then User else Assistant
  }

  function Alternate(last: Option<Role>, msgs: seq<Message>): seq<Message>
    decreases |msgs|
  {
    if msgs == [] then []
    else (if last == Some(msgs[0].role) then [Synthetic(Opposite(msgs[0].role))] else [])
         + [msgs[0]] + Alternate(Some(msgs[0].role), msgs[1..])
  }

  function NormalizeMessages(env: Env, msgs: seq<Message>, hasTools: bool): seq<Message> {
    var shown := if hasTools then TextualizeOrphans(None, msgs) else TextualizeAll(env, msgs);
    Alternate(None, StartWithUser(MergeAdjacent(NormalizeRoles(shown))))
  }

  // ---- the passes that work in place -----------------------------------------------------------

  lemma {:induction false} OrphansSnoc(before: Option<Message>, msgs: seq<Message>, m: Message)
    ensures TextualizeOrphans(before, msgs + [m])
            == TextualizeOrphans(before, msgs)
               + [WithoutOrphans(if msgs == [] then before else Some(msgs[|msgs| - 1]), m)]
    decreases |msgs|
  {
    hide WithoutOrphans;
    if msgs == [] {
      assert [m][1..] == [];
      assert TextualizeOrphans(Some(m), []) == [];
    } else {
      assert (msgs + [m])[1..] == msgs[1..] + [m];
      OrphansSnoc(Some(msgs[0]), msgs[1..], m);
    }
  }

  method TextualizeOrphanToolResults(msgs: seq<Message>) returns (out: seq<Message>)
    ensures out == TextualizeOrphans(None, msgs)
  {
    hide OrphansShown;
    hide Answerable;
    out := [];
    var i := 0;
    while i < |msgs|
      invariant 0 <= i <= |msgs|
      invariant out == TextualizeOrphans(None, msgs[..i])
    {
      var m := msgs[i];
      OrphansSnoc(None, msgs[..i], m);
      assert msgs[..i + 1] == msgs[..i] + [m];
      if m.content.Text? || m.role != User {
        out := out + [m];
      } else {
        var ids := Answerable(if i > 0 then Some(msgs[i - 1]) else None);
        out := out + [Message(m.role, Blocks(OrphansShown(m.content.blocks, ids)))];
      }
      i := i + 1;
    }
    assert msgs[..i] == msgs;
  }

  method NormalizeRolesInPlace(msgs: array<Message>)
    modifies msgs
    ensures msgs[..] == NormalizeRoles(old(msgs[..]))
  {
    hide Turn;
    ghost var was := msgs[..];
    for i := 0 to msgs.Length
      invariant forall k | 0 <= k < i :: msgs[k] == Turn(was[k])
      invariant forall k | i <= k < msgs.Length :: msgs[k] == was[k]
    {
      msgs[i] := Turn(msgs[i]);
    }
    TurnedEach(was, msgs[..]);
  }

  lemma {:induction false} TurnedEach(was: seq<Message>, now: seq<Message>)
    requires |now| == |was| && forall k | 0 <= k < |was| :: now[k] == Turn(was[k])
    ensures now == NormalizeRoles(was)
    decreases |was|
  {
    hide Turn;
    if was != [] {
      TurnedEach(was[1..], now[1..]);
      assert now == [now[0]] + now[1..];
    }
  }

  /** Where the run of messages that starts at `i` ends. */
  method RunEnd(msgs: seq<Message>, i: nat) returns (j: nat)
    requires i < |msgs|
    ensures i < j <= |msgs| && j - i == RunLength(msgs[i..])
  {
    hide IsPlain;
    j := i + 1;
    if IsPlain(msgs[i]) {
      assert msgs[i..][1..] == msgs[j..];
      while j < |msgs| && msgs[j].role == msgs[i].role && IsPlain(msgs[j])
        invariant i + 1 <= j <= |msgs|
        invariant j - i + PlainRun(msgs[j..], msgs[i].role) == RunLength(msgs[i..])
      {
        assert msgs[j..][1..] == msgs[j + 1..];
        j := j + 1;
      }
    }
  }

  method MergeAdjacentSameRole(msgs: seq<Message>) returns (out: seq<Message>)
    ensures out == MergeAdjacent(msgs)
  {
    hide RunLength;
    hide Merged;
    hide MergeAdjacent;
    out := [];
    var i := 0;
    assert [] + MergeAdjacent(msgs) == MergeAdjacent(msgs) && msgs[0..] == msgs;
    while i < |msgs|
      invariant 0 <= i <= |msgs|
      invariant MergeAdjacent(msgs) == out + MergeAdjacent(msgs[i..])
    {
      var j := RunEnd(msgs, i);
      MergeStep(msgs, i, j, out);
      out := out + [Merged(msgs[i..j])];
      i := j;
    }
    assert msgs[i..] == [];
    MergeNothing();
    assert out + [] == out;
  }

  lemma MergeNothing()
    ensures MergeAdjacent([]) == []
  {
  }

  lemma MergeStep(msgs: seq<Message>, i: nat, j: nat, out: seq<Message>)
    requires i < j <= |msgs| && j - i == RunLength(msgs[i..])
    ensures out + MergeAdjacent(msgs[i..]) == out + [Merged(msgs[i..j])] + MergeAdjacent(msgs[j..])
  {
    hide RunLength;
    hide Merged;
    assert msgs[i..][..j - i] == msgs[i..j] && msgs[i..][j - i..] == msgs[j..];
    assert out + ([Merged(msgs[i..j])] + MergeAdjacent(msgs[j..])) == out + [Merged(msgs[i..j])] + MergeAdjacent(msgs[j..]);
  }

  method EnsureAlternatingRoles(msgs: seq<Message>) returns (out: seq<Message>)
    ensures out == Alternate(None, msgs)
  {
    out := [];
    var i := 0;
    assert [] + Alternate(None, msgs) == Alternate(None, msgs) && msgs[0..] == msgs;
    while i < |msgs|
      invariant 0 <= i <= |msgs|
      invariant (i == 0) == (out == [])
      invariant i > 0 ==> out[|out| - 1].role == msgs[i - 1].role
      invariant Alternate(None, msgs) == out + Alternate(if i == 0 then None else Some(msgs[i - 1].role), msgs[i..])
    {
      var m := msgs[i];
      assert msgs[i..][1..] == msgs[i + 1..];
      ghost var rest := Alternate(Some(m.role), msgs[i + 1..]);
      if out != [] && out[|out| - 1].role == m.role {
        assert out + ([Synthetic(Opposite(m.role))] + [m] + rest) == out + [Synthetic(Opposite(m.role))] + [m] + rest;
        out := out + [Synthetic(Opposite(m.role))];
      } else {
        assert out + ([] + [m] + rest) == out + [m] + rest;
      }
      out := out + [m];
      i := i + 1;
    }
    assert out + [] == out;
  }

  // ---- users and assistants take turns ---------------------------------------------------------------

  /** Each message has the role that is next. */
  predicate TakesTurns(next: Role, msgs: seq<Message>)
    decreases |msgs|
  {
    msgs == [] || (msgs[0].role == next && TakesTurns(Opposite(next), msgs[1..]))
  }

  predicate Proper(msgs: seq<Message>) {
    msgs == [] || (!msgs[0].role.Other? && Proper(msgs[1..]))
  }

  lemma {:induction false} RolesProper(msgs: seq<Message>)
    ensures Proper(NormalizeRoles(msgs)) && |NormalizeRoles(msgs)| == |msgs|
    decreases |msgs|
  {
    if msgs != [] {
      assert NormalizeRoles(msgs)[1..] == NormalizeRoles(msgs[1..]);
      RolesProper(msgs[1..]);
    }
  }

  lemma {:induction false} ProperRest(msgs: seq<Message>, n: nat)
    requires Proper(msgs) && n <= |msgs|
    ensures Proper(msgs[n..])
    decreases n
  {
    if n > 0 {
      ProperRest(msgs[1..], n - 1);
      assert msgs[1..][n - 1..] == msgs[n..];
    }
  }

  lemma {:induction false} MergeProper(msgs: seq<Message>)
    requires Proper(msgs)
    ensures Proper(MergeAdjacent(msgs))
    decreases |msgs|
  {
    hide RunLength;
    if msgs != [] {
      var n := RunLength(msgs);
      ProperRest(msgs, n);
      MergeProper(msgs[n..]);
      assert MergeAdjacent(msgs)[1..] == MergeAdjacent(msgs[n..]);
    }
  }

  /** Continuing after a message of role `last`, the turns go on. */
  lemma {:induction false} AlternateTurns(last: Role, msgs: seq<Message>)
    requires Proper(msgs) && !last.Other?
    ensures TakesTurns(Opposite(last), Alternate(Some(last), msgs))
    decreases |msgs|
  {
    if msgs != [] {
      var m := msgs[0];
      var rest := Alternate(Some(m.role), msgs[1..]);
      AlternateTurns(m.role, msgs[1..]);
      TurnsCons(m, rest);
      var out := Alternate(Some(last), msgs);
      if last == m.role {
        assert out == [Synthetic(Opposite(m.role))] + ([m] + rest);
        TurnsCons(Synthetic(Opposite(m.role)), [m] + rest);
      } else {
        assert out == [m] + rest;
      }
    }
  }

  lemma TurnsCons(m: Message, rest: seq<Message>)
    requires TakesTurns(Opposite(m.role), rest)
    ensures TakesTurns(m.role, [m] + rest)
  {
    assert ([m] + rest)[1..] == rest;
  }

  /** For every list of messages: users and assistants take turns, and a user comes first. */
  lemma NormalizedTakesTurns(env: Env, msgs: seq<Message>, hasTools: bool)
    ensures TakesTurns(User, NormalizeMessages(env, msgs, hasTools))
  {
    hide TextualizeOrphans;
    hide TextualizeAll;
    hide MergeAdjacent;
    hide NormalizeRoles;
    var shown := if hasTools then TextualizeOrphans(None, msgs) else TextualizeAll(env, msgs);
    RolesProper(shown);
    MergeProper(NormalizeRoles(shown));
    var merged := MergeAdjacent(NormalizeRoles(shown));
    StartProper(merged);
    var started := StartWithUser(merged);
    if started != [] {
      AlternateTurns(User, started[1..]);
      TurnsCons(started[0], Alternate(Some(User), started[1..]));
      assert Alternate(None, started) == [started[0]] + Alternate(Some(User), started[1..]);
    }
  }

  lemma StartProper(msgs: seq<Message>)
    requires Proper(msgs)
    ensures Proper(StartWithUser(msgs))
    ensures StartWithUser(msgs) == [] || StartWithUser(msgs)[0].role.User?
  {
    assert ([Synthetic(User)] + msgs)[1..] == msgs;
  }
}
