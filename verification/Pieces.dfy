/**
 Nothing said in a request is lost: every piece of it, text, mark or tool content that travels as
 text, is found in the conversation that is sent, in the order of the request.
 */
module Pieces {
  import opened Wrappers
  import opened Json
  import opened Content
  import opened Normalize
  import opened History
  import opened Spoken
  import Conversation
  import Wording

  // ---- pieces in order ---------------------------------------------------------------------------

  /** What is said, and whether the assistant says it. */
  datatype Line = Line(assistant: bool, text: string)

  function By(assistant: bool, texts: seq<string>): (r: seq<Line>)
    ensures |r| == |texts|
  {
    seq(|texts|, i requires 0 <= i < |texts| => Line(assistant, texts[i]))
  }

  /** `p` occurs in `s` from index `i` on. */
  predicate Here(s: string, p: string, i: nat) {
    i + |p| <= |s| && s[i..i + |p|] == p
  }

  /** The pieces occur in the text one behind the other, and it is the text of the one who says them. */
  ghost predicate Within(pieces: seq<Line>, t: Line)
    decreases |pieces|
  {
    pieces == []
    || (pieces[0].assistant == t.assistant
        && exists i: nat :: Here(t.text, pieces[0].text, i) && Within(pieces[1..], Line(t.assistant, t.text[i + |pieces[0].text|..])))
  }

  /** The pieces occur in the texts, each whole in one of them and none before the one in front of it. */
  ghost predicate Spread(pieces: seq<Line>, texts: seq<Line>)
    decreases |texts|
  {
    if texts == [] then pieces == []
    else exists k: nat | k <= |pieces| :: Within(pieces[..k], texts[0]) && Spread(pieces[k..], texts[1..])
  }

  lemma WithinFirst(p: Line, pieces: seq<Line>, i: nat, s: string)
    requires Here(s, p.text, i) && Within(pieces, Line(p.assistant, s[i + |p.text|..]))
    ensures Within([p] + pieces, Line(p.assistant, s))
  {
    var all := [p] + pieces;
    assert all[1..] == pieces && all[0] == p;
    assert Here(s, all[0].text, i) && Within(all[1..], Line(p.assistant, s[i + |all[0].text|..]));
  }

  lemma FirstWithin(pieces: seq<Line>, t: Line) returns (i: nat)
    requires pieces != [] && Within(pieces, t)
    ensures pieces[0].assistant == t.assistant && i + |pieces[0].text| <= |t.text| && Here(t.text, pieces[0].text, i)
    ensures Within(pieces[1..], Line(t.assistant, t.text[i + |pieces[0].text|..]))
  {
    i :| Here(t.text, pieces[0].text, i) && Within(pieces[1..], Line(t.assistant, t.text[i + |pieces[0].text|..]));
  }

  /** More text in front loses nothing. */
  lemma WithinLater(pieces: seq<Line>, x: string, t: Line)
    requires Within(pieces, t)
    ensures Within(pieces, Line(t.assistant, x + t.text))
  {
    hide Within;
    if pieces == [] {
      WithinNothing(Line(t.assistant, x + t.text));
    } else {
      var p, s := pieces[0], t.text;
      var i := FirstWithin(pieces, t);
      assert (x + s)[|x| + i..|x| + i + |p.text|] == s[i..i + |p.text|];
      assert (x + s)[|x| + i + |p.text|..] == s[i + |p.text|..];
      WithinFirst(p, pieces[1..], |x| + i, x + s);
      assert [p] + pieces[1..] == pieces;
    }
  }

  lemma WithinNothing(t: Line)
    ensures Within([], t)
  {
  }

  lemma {:induction false} WithinAppend(a: seq<Line>, s: string, b: seq<Line>, t: Line)
    requires Within(a, Line(t.assistant, s)) && Within(b, t)
    ensures Within(a + b, Line(t.assistant, s + t.text))
    decreases |a|
  {
    hide Within;
    if a == [] {
      assert a + b == b;
      WithinLater(b, s, t);
    } else {
      var p := a[0];
      var i := FirstWithin(a, Line(t.assistant, s));
      WithinAppend(a[1..], s[i + |p.text|..], b, t);
      assert (s + t.text)[i..i + |p.text|] == s[i..i + |p.text|] && (s + t.text)[i + |p.text|..] == s[i + |p.text|..] + t.text;
      WithinFirst(p, a[1..] + b, i, s + t.text);
      assert [p] + (a[1..] + b) == a + b;
    }
  }

  lemma WithinOne(t: Line)
    ensures Within([t], t)
  {
    assert t.text[0..|t.text|] == t.text;
    WithinNothing(Line(t.assistant, t.text[|t.text|..]));
    WithinFirst(t, [], 0, t.text);
    assert [t] + [] == [t];
  }

  lemma SpreadCons(a: seq<Line>, t: Line, b: seq<Line>, texts: seq<Line>)
    requires Within(a, t) && Spread(b, texts)
    ensures Spread(a + b, [t] + texts)
  {
    assert (a + b)[..|a|] == a && (a + b)[|a|..] == b && ([t] + texts)[1..] == texts;
  }

  lemma SpreadSplit(pieces: seq<Line>, t: Line, texts: seq<Line>) returns (a: seq<Line>, b: seq<Line>)
    requires Spread(pieces, [t] + texts)
    ensures pieces == a + b && Within(a, t) && Spread(b, texts)
  {
    var all := [t] + texts;
    assert all[1..] == texts;
    var k: nat :| k <= |pieces| && Within(pieces[..k], all[0]) && Spread(pieces[k..], all[1..]);
    a, b := pieces[..k], pieces[k..];
  }

  lemma NothingSpread(pieces: seq<Line>)
    ensures Spread(pieces, []) <==> pieces == []
  {
  }

  lemma {:induction false} SpreadAppend(a: seq<Line>, s: seq<Line>, b: seq<Line>, t: seq<Line>)
    requires Spread(a, s) && Spread(b, t)
    ensures Spread(a + b, s + t)
    decreases |s|
  {
    hide Spread;
    hide Within;
    if s == [] {
      NothingSpread(a);
      assert a + b == b && s + t == t;
    } else {
      assert s == [s[0]] + s[1..];
      var x, y := SpreadSplit(a, s[0], s[1..]);
      SpreadAppend(y, s[1..], b, t);
      SpreadCons(x, s[0], y + b, s[1..] + t);
      assert x + (y + b) == a + b && [s[0]] + (s[1..] + t) == s + t;
    }
  }

  /** What is spread over texts of one who speaks is in their join. */
  lemma {:induction false} SpreadJoins(pieces: seq<Line>, assistant: bool, texts: seq<string>, sep: string)
    requires Spread(pieces, By(assistant, texts))
    ensures Within(pieces, Line(assistant, Join(texts, sep)))
    decreases |texts|
  {
    hide Spread;
    hide Within;
    if texts == [] {
      NothingSpread(pieces);
      WithinNothing(Line(assistant, ""));
    } else {
      var rest := Join(texts[1..], sep);
      assert By(assistant, texts) == [Line(assistant, texts[0])] + By(assistant, texts[1..]);
      var a, b := SpreadSplit(pieces, Line(assistant, texts[0]), By(assistant, texts[1..]));
      if |texts| == 1 {
        NothingSpread(b);
        assert texts[1..] == [] && a + b == a;
      } else {
        SpreadJoins(b, assistant, texts[1..], sep);
        WithinLater(b, sep, Line(assistant, rest));
        WithinAppend(a, texts[0], b, Line(assistant, sep + rest));
        assert texts[0] + (sep + rest) == texts[0] + sep + rest;
      }
    }
  }

  /** Each text on its own is a piece of the texts. */
  lemma {:induction false} SpreadSelf(texts: seq<Line>)
    ensures Spread(texts, texts)
    decreases |texts|
  {
    if texts != [] {
      SpreadSelf(texts[1..]);
      WithinOne(texts[0]);
      SpreadCons([texts[0]], texts[0], texts[1..], texts[1..]);
      assert [texts[0]] + texts[1..] == texts;
    }
  }

  /** Texts in front, or at the end, lose nothing. */
  lemma SpreadBetween(front: seq<Line>, pieces: seq<Line>, texts: seq<Line>, end: seq<Line>)
    requires Spread(pieces, texts)
    ensures Spread(pieces, front + texts + end)
  {
    SpreadNothing(front);
    SpreadNothing(end);
    SpreadAppend([], front, pieces, texts);
    SpreadAppend([] + pieces, front + texts, [], end);
    assert [] + pieces + [] == pieces;
  }

  lemma {:induction false} SpreadNothing(texts: seq<Line>)
    ensures Spread([], texts)
    decreases |texts|
  {
    if texts != [] {
      SpreadNothing(texts[1..]);
      SpreadCons([], texts[0], [], texts[1..]);
      assert [texts[0]] + texts[1..] == texts;
    }
  }

  /** What is in the empty text is in any text. */
  lemma {:induction false} WithinEmpty(pieces: seq<Line>, assistant: bool, s: string)
    requires Within(pieces, Line(assistant, ""))
    ensures Within(pieces, Line(assistant, s))
    decreases |pieces|
  {
    if pieces != [] {
      var i := FirstWithin(pieces, Line(assistant, ""));
      assert pieces[0] == Line(assistant, "") && ""[i + 0..] == "";
      WithinEmpty(pieces[1..], assistant, s);
      assert s[0..] == s && s[0..0] == "";
      WithinFirst(pieces[0], pieces[1..], 0, s);
      assert [pieces[0]] + pieces[1..] == pieces;
    }
  }

  // ---- what a request says ---------------------------------------------------------------------------

  /** The message before is the assistant's and holds a call with this id. */
  ghost predicate Called(before: Option<Message>, id: string) {
    && before.Some? && before.value.role.Assistant? && before.value.content.Blocks?
    && exists b :: b in before.value.content.blocks && IsCall(b.kind) && b.id == Some(id)
  }

  /** The block travels as text: tool content when no tools are offered, and a user's result that answers no call. */
  ghost predicate TravelsAsText(before: Option<Message>, role: Role, b: Block, hasTools: bool) {
    if hasTools then role.User? && IsAnswer(b.kind) && !Called(before, Given(b.toolUseId))
    else IsCall(b.kind) || IsAnswer(b.kind)
  }

  /** Tool content as text. */
  function ToolText(env: Env, b: Block): string {
    if IsCall(b.kind) then
      "[Tool: " + Given(b.name) + " (" + Given(b.id) + ")]\n" + (if b.input.Some? then env.show(b.input.value) else "null")
    else "[Tool Result (" + Given(b.toolUseId) + ")]\n" + ResultSays(b)
  }

  ghost function BlockPieces(env: Env, before: Option<Message>, role: Role, b: Block, hasTools: bool): seq<string> {
    if TravelsAsText(before, role, b, hasTools) then [ToolText(env, b)] else BlockWords(b)
  }

  ghost function PiecesOf(env: Env, before: Option<Message>, role: Role, blocks: seq<Block>, hasTools: bool): seq<string> {
    if blocks == [] then []
    else BlockPieces(env, before, role, blocks[0], hasTools) + PiecesOf(env, before, role, blocks[1..], hasTools)
  }

  /** All that a request says, piece by piece: plain texts, text blocks, marks, tool content as text. */
  ghost function AllPieces(env: Env, before: Option<Message>, msgs: seq<Message>, hasTools: bool): seq<Line>
    decreases |msgs|
  {
    if msgs == [] then [] else
    var m := msgs[0];
    By(m.role.Assistant?,
       match m.content
       case Text(t) => [t]
       case Blocks(blocks) => PiecesOf(env, before, m.role, blocks, hasTools))
    + AllPieces(env, Some(m), msgs[1..], hasTools)
  }

  // ---- the first passes keep the pieces --------------------------------------------------------------

  /** The pieces of messages that are sent as they are. */
  function PlainPieces(msgs: seq<Message>): seq<Line> {
    if msgs == [] then [] else By(msgs[0].role.Assistant?, OwnPieces(msgs[0].content)) + PlainPieces(msgs[1..])
  }

  function OwnPieces(c: MessageContent): seq<string> {
    match c
    case Text(t) => [t]
    case Blocks(blocks) => Words(blocks)
  }

  lemma KindsApart(b: Block)
    ensures IsToolUse(b) <==> IsCall(b.kind)
    ensures IsToolResult(b) <==> IsAnswer(b.kind)
    ensures IsCall(b.kind) || IsAnswer(b.kind) ==> Silent(b.kind) && b.kind != "text"
    ensures !(IsCall(b.kind) && IsAnswer(b.kind))
  {
    if IsToolUse(b) || IsToolResult(b) {
      if IsToolResult(b) {
        ResultIsNoUse(b);
      }
      if IsText(b) {
        TextIsNoTool(b);
      }
    }
  }

  lemma ShownSays(env: Env, b: Block)
    ensures IsCall(b.kind) ==> BlockWords(ShownUse(env, b)) == [ToolText(env, b)]
    ensures IsAnswer(b.kind) ==> BlockWords(ShownResult(b)) == [ToolText(env, b)]
  {
    KindsApart(b);
    ResultSaysIt(b);
  }

  lemma {:induction false} TextualizedPieces(env: Env, before: Option<Message>, role: Role, blocks: seq<Block>)
    ensures Words(Textualized(env, blocks)) == PiecesOf(env, before, role, blocks, false)
    decreases |blocks|
  {
    hide BlockWords;
    hide ToolText;
    hide ShownUse;
    hide ShownResult;
    hide IsToolUse;
    hide IsToolResult;
    hide IsCall;
    hide IsAnswer;
    if blocks != [] {
      KindsApart(blocks[0]);
      ShownSays(env, blocks[0]);
      TextualizedPieces(env, before, role, blocks[1..]);
      var t := Textualized(env, blocks);
      assert t == [t[0]] + Textualized(env, blocks[1..]);
      assert t[1..] == Textualized(env, blocks[1..]);
    }
  }

  lemma {:induction false} CallIdsFound(blocks: seq<Block>, id: string)
    ensures id in CallIds(blocks) <==> exists b :: b in blocks && IsCall(b.kind) && b.id == Some(id)
    decreases |blocks|
  {
    hide IsToolUse;
    hide IsCall;
    if blocks != [] {
      KindsApart(blocks[0]);
      CallIdsFound(blocks[1..], id);
      assert blocks == [blocks[0]] + blocks[1..];
    }
  }

  lemma AnswerableFound(before: Option<Message>, id: string)
    ensures id in Answerable(before) <==> Called(before, id)
  {
    if before.Some? && before.value.content.Blocks? {
      CallIdsFound(before.value.content.blocks, id);
    }
  }

  lemma {:induction false} OrphansPieces(env: Env, before: Option<Message>, blocks: seq<Block>)
    ensures Words(OrphansShown(blocks, Answerable(before))) == PiecesOf(env, before, User, blocks, true)
    decreases |blocks|
  {
    hide BlockWords;
    hide ToolText;
    hide ShownResult;
    hide IsToolResult;
    hide IsAnswer;
    hide Answerable;
    hide Called;
    if blocks != [] {
      KindsApart(blocks[0]);
      ShownSays(env, blocks[0]);
      AnswerableFound(before, Given(blocks[0].toolUseId));
      OrphansPieces(env, before, blocks[1..]);
      var t := OrphansShown(blocks, Answerable(before));
      assert t[1..] == OrphansShown(blocks[1..], Answerable(before));
      assert OrEmpty(blocks[0].toolUseId) == Given(blocks[0].toolUseId);
    }
  }

  /** Where nothing travels as text, the pieces are the words. */
  lemma {:induction false} OthersPieces(env: Env, before: Option<Message>, role: Role, blocks: seq<Block>)
    requires !role.User?
    ensures Words(blocks) == PiecesOf(env, before, role, blocks, true)
    decreases |blocks|
  {
    if blocks != [] {
      OthersPieces(env, before, role, blocks[1..]);
    }
  }

  lemma {:induction false} OrphansKeep(env: Env, before: Option<Message>, msgs: seq<Message>)
    ensures PlainPieces(NormalizeRoles(TextualizeOrphans(before, msgs))) == AllPieces(env, before, msgs, true)
    decreases |msgs|
  {
    hide PiecesOf;
    hide Words;
    hide OrphansShown;
    hide Answerable;
    if msgs != [] {
      var m := msgs[0];
      var first := WithoutOrphans(before, m);
      OrphansKeep(env, Some(m), msgs[1..]);
      var rest := TextualizeOrphans(Some(m), msgs[1..]);
      assert TextualizeOrphans(before, msgs) == [first] + rest && ([first] + rest)[1..] == rest;
      NormalizedCons(first, rest);
      if m.content.Blocks? {
        if m.role.User? {
          OrphansPieces(env, before, m.content.blocks);
        } else {
          OthersPieces(env, before, m.role, m.content.blocks);
        }
      }
    }
  }

  lemma NormalizedCons(m: Message, rest: seq<Message>)
    ensures PlainPieces(NormalizeRoles([m] + rest))
            == By(m.role.Assistant?, OwnPieces(m.content)) + PlainPieces(NormalizeRoles(rest))
  {
    hide OwnPieces;
    hide By;
    assert ([m] + rest)[1..] == rest;
    var n := NormalizeRoles([m] + rest);
    assert n[1..] == NormalizeRoles(rest);
  }

  lemma {:induction false} AllKeep(env: Env, before: Option<Message>, msgs: seq<Message>)
    ensures PlainPieces(NormalizeRoles(TextualizeAll(env, msgs))) == AllPieces(env, before, msgs, false)
    decreases |msgs|
  {
    hide PiecesOf;
    hide Words;
    hide Textualized;
    if msgs != [] {
      var m := msgs[0];
      AllKeep(env, Some(m), msgs[1..]);
      var first := TextualizeAll(env, msgs)[0];
      NormalizedCons(first, TextualizeAll(env, msgs[1..]));
      assert TextualizeAll(env, msgs) == [first] + TextualizeAll(env, msgs[1..]);
      if m.content.Blocks? {
        TextualizedPieces(env, before, m.role, m.content.blocks);
      }
    }
  }

  // ---- merging and taking turns keep them ---------------------------------------------------------------

  function AllSay(msgs: seq<Message>): seq<Line> {
    if msgs == [] then [] else [Line(msgs[0].role.Assistant?, Says(msgs[0].content))] + AllSay(msgs[1..])
  }

  lemma {:induction false} TextsAreSaid(msgs: seq<Message>, assistant: bool)
    requires forall i | 0 <= i < |msgs| :: msgs[i].role.Assistant? == assistant
    ensures By(assistant, TextsOf(msgs)) == AllSay(msgs)
    decreases |msgs|
  {
    hide ExtractText;
    hide Says;
    if msgs != [] {
      SaysIt(msgs[0].content);
      TextsAreSaid(msgs[1..], assistant);
    }
  }

  /** Every message says its pieces. */
  lemma {:induction false} PlainSpread(msgs: seq<Message>)
    ensures Spread(PlainPieces(msgs), AllSay(msgs))
    decreases |msgs|
  {
    hide Words;
    hide Joined;
    hide Within;
    if msgs != [] {
      var c, assistant := msgs[0].content, msgs[0].role.Assistant?;
      var pieces := OwnPieces(c);
      SpreadSelf(By(assistant, pieces));
      SpreadJoins(By(assistant, pieces), assistant, pieces, " ");
      if c.Blocks? {
        JoinIsJoined(pieces, " ");
      }
      PlainSpread(msgs[1..]);
      SpreadCons(By(assistant, pieces), Line(assistant, Says(c)), PlainPieces(msgs[1..]), AllSay(msgs[1..]));
    }
  }

  lemma {:induction false} PlainAppend(a: seq<Message>, b: seq<Message>)
    ensures PlainPieces(a + b) == PlainPieces(a) + PlainPieces(b)
    decreases |a|
  {
    hide OwnPieces;
    hide By;
    if a == [] {
      assert a + b == b;
    } else {
      assert (a + b)[1..] == a[1..] + b;
      PlainAppend(a[1..], b);
    }
  }

  /** Messages that become one have one role. */
  lemma {:induction false} RunRole(msgs: seq<Message>, role: Role)
    ensures forall i | 0 <= i < PlainRun(msgs, role) :: msgs[i].role == role
    decreases |msgs|
  {
    if msgs != [] && msgs[0].role == role && IsPlain(msgs[0]) {
      RunRole(msgs[1..], role);
      assert forall i | 0 < i < |msgs| :: msgs[i] == msgs[1..][i - 1];
    }
  }

  lemma {:induction false} RunsRole(msgs: seq<Message>)
    requires msgs != []
    ensures forall i | 0 <= i < RunLength(msgs) :: msgs[i].role == msgs[0].role
  {
    RunRole(msgs[1..], msgs[0].role);
    assert forall i | 0 < i < |msgs| :: msgs[i] == msgs[1..][i - 1];
  }

  lemma {:induction false} MergedSpread(run: seq<Message>)
    requires run != [] && forall i | 0 <= i < |run| :: run[i].role == run[0].role
    ensures Within(PlainPieces(run), Line(run[0].role.Assistant?, Says(Merged(run).content)))
    ensures Merged(run).role == run[0].role
  {
    hide Within;
    hide PlainPieces;
    hide Joined;
    hide Join;
    PlainSpread(run);
    if |run| == 1 {
      OneSays(run[0], PlainPieces(run));
      assert run == [run[0]];
    } else {
      TextsAreSaid(run, run[0].role.Assistant?);
      SpreadJoins(PlainPieces(run), run[0].role.Assistant?, TextsOf(run), "\n");
    }
  }

  lemma OneSays(m: Message, pieces: seq<Line>)
    requires Spread(pieces, AllSay([m]))
    ensures Within(pieces, Line(m.role.Assistant?, Says(m.content)))
  {
    hide Says;
    assert [m][1..] == [] && AllSay([]) == [];
    var t := Line(m.role.Assistant?, Says(m.content));
    assert AllSay([m]) == [t] + [];
    var a, b := SpreadSplit(pieces, t, []);
    assert b == [] && a + b == a;
  }

  lemma {:induction false} MergeSpread(msgs: seq<Message>)
    ensures Spread(PlainPieces(msgs), AllSay(MergeAdjacent(msgs)))
    decreases |msgs|
  {
    hide Spread;
    hide Within;
    hide Says;
    hide Merged;
    hide RunLength;
    hide PlainPieces;
    if msgs == [] {
      SpreadNothing([]);
      NoPieces();
    } else {
      var n := RunLength(msgs);
      var run, rest := msgs[..n], msgs[n..];
      RunsRole(msgs);
      MergedSpread(run);
      MergeSpread(rest);
      PlainAppend(run, rest);
      assert msgs == run + rest;
      SpreadCons(PlainPieces(run), Line(run[0].role.Assistant?, Says(Merged(run).content)), PlainPieces(rest), AllSay(MergeAdjacent(rest)));
      AllSayCons(Merged(run), MergeAdjacent(rest));
    }
  }

  lemma NoPieces()
    ensures PlainPieces([]) == []
  {
  }

  lemma AllSayCons(m: Message, rest: seq<Message>)
    ensures AllSay([m] + rest) == [Line(m.role.Assistant?, Says(m.content))] + AllSay(rest)
  {
    hide Says;
    assert ([m] + rest)[1..] == rest;
  }

  /** Messages put in between lose nothing. */
  lemma {:induction false} InsertedSpread(pieces: seq<Line>, msgs: seq<Message>, out: seq<Message>)
    requires Wording.Inserted(msgs, out) && Spread(pieces, AllSay(msgs))
    ensures Spread(pieces, AllSay(out))
    decreases |out|
  {
    hide Says;
    hide Within;
    if out != [] {
      AllSayCons(out[0], out[1..]);
      assert [out[0]] + out[1..] == out;
      if msgs != [] && msgs[0] == out[0] && Wording.Inserted(msgs[1..], out[1..]) {
        AllSayCons(msgs[0], msgs[1..]);
        assert [msgs[0]] + msgs[1..] == msgs;
        var a, b := SpreadSplit(pieces, AllSay(msgs)[0], AllSay(msgs[1..]));
        InsertedSpread(b, msgs[1..], out[1..]);
        SpreadCons(a, AllSay(out)[0], b, AllSay(out[1..]));
      } else {
        InsertedSpread(pieces, msgs, out[1..]);
        SpreadLater(pieces, AllSay(out)[0], AllSay(out[1..]));
      }
    }
  }

  lemma SpreadLater(pieces: seq<Line>, s: Line, texts: seq<Line>)
    requires Spread(pieces, texts)
    ensures Spread(pieces, [s] + texts)
  {
    SpreadCons([], s, pieces, texts);
    assert [] + pieces == pieces;
  }

  /** Every piece of the request is said by the normalised messages. */
  lemma NormalizedSpread(env: Env, msgs: seq<Message>, hasTools: bool)
    ensures Spread(AllPieces(env, None, msgs, hasTools), AllSay(NormalizeMessages(env, msgs, hasTools)))
  {
    hide Spread;
    hide AllPieces;
    hide AllSay;
    hide NormalizeMessages;
    var shown := Wording.Shown(env, msgs, hasTools);
    if hasTools {
      OrphansKeep(env, None, msgs);
    } else {
      AllKeep(env, None, msgs);
    }
    MergeSpread(shown);
    Wording.NormalizeKeepsText(env, msgs, hasTools);
    InsertedSpread(AllPieces(env, None, msgs, hasTools), MergeAdjacent(shown), NormalizeMessages(env, msgs, hasTools));
  }

  // ---- in the conversation ----------------------------------------------------------------------------------

  function ContentsOf(entries: seq<Entry>): seq<Line> {
    if entries == [] then [] else [Line(entries[0].AssistantEntry?, entries[0].content)] + ContentsOf(entries[1..])
  }

  lemma {:induction false} EntriesSay(env: Env, before: Option<Entry>, msgs: seq<Message>, entries: seq<Entry>)
    requires Conversation.EntriesAre(env, before, msgs, entries)
    ensures ContentsOf(entries) == AllSay(msgs)
    decreases |msgs|
  {
    hide Says;
    if msgs != [] {
      EntriesSay(env, Some(entries[0]), msgs[1..], entries[1..]);
    }
  }

  lemma {:induction false} ContentsAppend(a: seq<Entry>, b: seq<Entry>)
    ensures ContentsOf(a + b) == ContentsOf(a) + ContentsOf(b)
    decreases |a|
  {
    if a == [] {
      assert a + b == b;
    } else {
      assert (a + b)[1..] == a[1..] + b;
      ContentsAppend(a[1..], b);
    }
  }

  lemma {:induction false} AllSaySnoc(msgs: seq<Message>)
    requires msgs != []
    ensures AllSay(msgs) == AllSay(msgs[..|msgs| - 1]) + [Line(msgs[|msgs| - 1].role.Assistant?, Says(msgs[|msgs| - 1].content))]
    decreases |msgs|
  {
    hide Says;
    if |msgs| > 1 {
      AllSaySnoc(msgs[1..]);
      assert msgs[1..][..|msgs| - 2] == msgs[..|msgs| - 1][1..];
    } else {
      assert msgs[1..] == [] && msgs[..0] == [];
    }
  }

  /** An empty text at the end may be replaced. */
  lemma {:induction false} SpreadReplaced(pieces: seq<Line>, texts: seq<Line>, assistant: bool, s: string)
    requires Spread(pieces, texts + [Line(assistant, "")])
    ensures Spread(pieces, texts + [Line(assistant, s)])
    decreases |texts|
  {
    hide Within;
    hide Spread;
    var was, now := Line(assistant, ""), Line(assistant, s);
    if texts == [] {
      assert texts + [was] == [was] + [] && texts + [now] == [now] + [];
      var a, b := SpreadSplit(pieces, was, []);
      WithinEmpty(a, assistant, s);
      SpreadCons(a, now, b, []);
    } else {
      assert texts + [was] == [texts[0]] + (texts[1..] + [was]) && texts + [now] == [texts[0]] + (texts[1..] + [now]);
      var a, b := SpreadSplit(pieces, texts[0], texts[1..] + [was]);
      SpreadReplaced(b, texts[1..], assistant, s);
      SpreadCons(a, texts[0], b, texts[1..] + [now]);
    }
  }

  /**
   For every accepted request: each plain text, each text block, each mark of an unknown block
   and all tool content that travels as text is found in the contents of the entries and of the
   current message, whole, in the order in which the request says it, and what the assistant
   says, and only that, in entries of the assistant.
   */
  lemma NothingIsLost(env: Env, system: string, msgs: seq<Message>, hasTools: bool)
    requires BuildPayload(env, system, msgs, hasTools).Ok?
    ensures var p := BuildPayload(env, system, msgs, hasTools).value;
            Spread(AllPieces(env, None, msgs, hasTools), ContentsOf(p.history) + [Line(false, p.current.content)])
  {
    hide Spread;
    hide AllPieces;
    hide AllSay;
    hide NormalizeMessages;
    hide BuildPayload;
    hide Says;
    hide ContentsOf;
    hide Conversation.EntriesAre;
    var pieces, n := AllPieces(env, None, msgs, hasTools), NormalizeMessages(env, msgs, hasTools);
    var p := BuildPayload(env, system, msgs, hasTools).value;
    var lead, entries := Conversation.PayloadIs(env, system, msgs, hasTools);
    NormalizedSpread(env, msgs, hasTools);
    ContentsAppend(lead, entries);
    if n != [] && !n[|n| - 1].role.Assistant? {
      EntriesSay(env, None, n[..|n| - 1], entries);
      AllSaySnoc(n);
      if p.current.content != Says(n[|n| - 1].content) {
        SpreadReplaced(pieces, ContentsOf(entries), false, p.current.content);
      }
      SpreadBetween(ContentsOf(lead), pieces, ContentsOf(entries) + [Line(false, p.current.content)], []);
      Regroup(ContentsOf(lead), ContentsOf(entries), Line(false, p.current.content));
    } else {
      EntriesSay(env, None, n, entries);
      SpreadBetween(ContentsOf(lead), pieces, ContentsOf(entries), [Line(false, p.current.content)]);
    }
  }

  lemma Regroup(a: seq<Line>, b: seq<Line>, s: Line)
    ensures a + (b + [s]) + [] == a + b + [s]
  {
  }
}
