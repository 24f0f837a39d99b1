/** The text and the images of a request reach upstream: nothing said is lost on the way. */
module Wording {
  import opened Wrappers
  import opened Content
  import opened Normalize
  import opened History

  // ---- merging keeps the text ---------------------------------------------------------------

  /** All that is said together, one message to a line. */
  function Together(msgs: seq<Message>): string {
    Join(TextsOf(msgs), "\n")
  }

  lemma {:induction false} TextsAppend(a: seq<Message>, b: seq<Message>)
    ensures TextsOf(a + b) == TextsOf(a) + TextsOf(b)
    decreases |a|
  {
    hide ExtractText;
    if a == [] {
      assert a + b == b;
    } else {
      assert (a + b)[1..] == a[1..] + b;
      TextsAppend(a[1..], b);
    }
  }

  lemma {:induction false} TextsLength(msgs: seq<Message>)
    ensures |TextsOf(msgs)| == |msgs|
    decreases |msgs|
  {
    hide ExtractText;
    if msgs != [] {
      TextsLength(msgs[1..]);
    }
  }

  lemma {:induction false} JoinAppend(a: seq<string>, b: seq<string>, sep: string)
    requires a != [] && b != []
    ensures Join(a + b, sep) == Join(a, sep) + sep + Join(b, sep)
    decreases |a|
  {
    assert (a + b)[1..] == a[1..] + b;
    if |a| == 1 {
      assert a[1..] + b == b;
    } else {
      JoinAppend(a[1..], b, sep);
      assert a[0] + sep + (Join(a[1..], sep) + sep + Join(b, sep)) == (a[0] + sep + Join(a[1..], sep)) + sep + Join(b, sep);
    }
  }

  lemma MergedText(run: seq<Message>)
    requires run != []
    ensures TextsOf([Merged(run)]) == [Join(TextsOf(run), "\n")]
  {
    hide Join;
    assert [Merged(run)][1..] == [];
    assert TextsOf([]) == [];
    TextsLength(run);
    if |run| == 1 {
      assert run == [run[0]] && run[1..] == [];
      JoinOne(ExtractText(run[0].content));
      assert TextsOf(run) == [ExtractText(run[0].content)];
    }
  }

  lemma JoinOne(s: string)
    ensures Join([s], "\n") == s
  {
  }

  /** Merging adjacent messages changes where messages begin, but not a word of what they say together. */
  lemma {:induction false} MergeKeepsText(msgs: seq<Message>)
    ensures Together(MergeAdjacent(msgs)) == Together(msgs)
    ensures MergeAdjacent(msgs) == [] <==> msgs == []
    decreases |msgs|
  {
    hide Join;
    hide Merged;
    hide RunLength;
    hide TextsOf;
    if msgs != [] {
      var n := RunLength(msgs);
      var run, rest := msgs[..n], msgs[n..];
      MergeKeepsText(rest);
      MergedText(run);
      assert msgs == run + rest;
      TextsAppend(run, rest);
      TextsAppend([Merged(run)], MergeAdjacent(rest));
      TextsLength(run);
      TextsLength(rest);
      TextsLength(MergeAdjacent(rest));
      JoinOne(Join(TextsOf(run), "\n"));
      if rest != [] {
        JoinAppend(TextsOf(run), TextsOf(rest), "\n");
        JoinAppend(TextsOf([Merged(run)]), TextsOf(MergeAdjacent(rest)), "\n");
      } else {
        assert TextsOf(run) + TextsOf(rest) == TextsOf(run);
        assert TextsOf([Merged(run)]) + TextsOf(MergeAdjacent(rest)) == TextsOf([Merged(run)]);
      }
    }
  }

  // ---- the last passes only insert ---------------------------------------------------------------

  predicate IsSynthetic(m: Message) {
    m.content == Text("(empty)")
  }

  /** `out` is `msgs` with synthetic messages put in between. */
  predicate Inserted(msgs: seq<Message>, out: seq<Message>)
    decreases |out|
  {
    if out == [] then msgs == []
    else || (msgs != [] && msgs[0] == out[0] && Inserted(msgs[1..], out[1..]))
         || (IsSynthetic(out[0]) && Inserted(msgs, out[1..]))
  }

  lemma {:induction false} InsertedRefl(msgs: seq<Message>)
    ensures Inserted(msgs, msgs)
    decreases |msgs|
  {
    hide IsSynthetic;
    if msgs != [] {
      InsertedRefl(msgs[1..]);
    }
  }

  lemma InsertedKeep(m: Message, msgs: seq<Message>, out: seq<Message>)
    requires Inserted(msgs, out)
    ensures Inserted([m] + msgs, [m] + out)
  {
    hide IsSynthetic;
    assert ([m] + msgs)[1..] == msgs && ([m] + out)[1..] == out;
  }

  lemma InsertedAdd(role: Role, msgs: seq<Message>, out: seq<Message>)
    requires Inserted(msgs, out)
    ensures Inserted(msgs, [Synthetic(role)] + out)
  {
    assert ([Synthetic(role)] + out)[1..] == out;
  }

  lemma {:induction false} AlternateInserts(last: Option<Role>, msgs: seq<Message>)
    ensures Inserted(msgs, Alternate(last, msgs))
    decreases |msgs|
  {
    hide Inserted;
    if msgs == [] {
      InsertedRefl([]);
    } else {
      var m := msgs[0];
      var rest := Alternate(Some(m.role), msgs[1..]);
      AlternateInserts(Some(m.role), msgs[1..]);
      InsertedKeep(m, msgs[1..], rest);
      assert msgs == [m] + msgs[1..];
      if last == Some(m.role) {
        InsertedAdd(Opposite(m.role), msgs, [m] + rest);
        assert Alternate(last, msgs) == [Synthetic(Opposite(m.role))] + ([m] + rest);
      } else {
        assert Alternate(last, msgs) == [m] + rest;
      }
    }
  }

  lemma {:induction false} InsertedTwice(a: seq<Message>, b: seq<Message>, c: seq<Message>)
    requires Inserted(a, b) && Inserted(b, c)
    ensures Inserted(a, c)
    decreases |c|
  {
    hide IsSynthetic;
    if c != [] {
      if b != [] && b[0] == c[0] && Inserted(b[1..], c[1..]) {
        if a != [] && a[0] == b[0] && Inserted(a[1..], b[1..]) {
          InsertedTwice(a[1..], b[1..], c[1..]);
        } else {
          InsertedTwice(a, b[1..], c[1..]);
        }
      } else {
        InsertedTwice(a, b, c[1..]);
      }
    }
  }

  /** What the request is after tool content was shown as text and unknown roles became users. */
  function Shown(env: Env, msgs: seq<Message>, hasTools: bool): seq<Message> {
    NormalizeRoles(if hasTools then TextualizeOrphans(None, msgs) else TextualizeAll(env, msgs))
  }

  /** Normalising loses no text: the messages are merged without a change to what they say together, and
      otherwise only synthetic messages are put in between. */
  lemma NormalizeKeepsText(env: Env, msgs: seq<Message>, hasTools: bool)
    ensures var merged := MergeAdjacent(Shown(env, msgs, hasTools));
            && Together(merged) == Together(Shown(env, msgs, hasTools))
            && Inserted(merged, NormalizeMessages(env, msgs, hasTools))
  {
    hide Together;
    hide Inserted;
    hide MergeAdjacent;
    hide NormalizeRoles;
    hide Alternate;
    var merged := MergeAdjacent(Shown(env, msgs, hasTools));
    MergeKeepsText(Shown(env, msgs, hasTools));
    InsertedRefl(merged);
    InsertedAdd(User, merged, merged);
    AlternateInserts(None, StartWithUser(merged));
    InsertedTwice(merged, StartWithUser(merged), Alternate(None, StartWithUser(merged)));
  }

  // ---- what is merged, and what is put in between -----------------------------------------------------

  /** A message of nothing but text. */
  predicate OnlyText(m: Message) {
    m.content.Text? || forall i | 0 <= i < |m.content.blocks| :: m.content.blocks[i].kind == "text"
  }

  lemma {:induction false} AllTextIs(blocks: seq<Block>)
    ensures AllText(blocks) <==> forall i | 0 <= i < |blocks| :: blocks[i].kind == "text"
    decreases |blocks|
  {
    if blocks != [] {
      AllTextIs(blocks[1..]);
      assert forall i | 0 < i < |blocks| :: blocks[i] == blocks[1..][i - 1];
    }
  }

  lemma PlainIs(m: Message)
    ensures IsPlain(m) <==> OnlyText(m)
  {
    if m.content.Blocks? {
      AllTextIs(m.content.blocks);
    }
  }

  /** Two messages that could be one. */
  predicate Mergeable(a: Message, b: Message) {
    a.role == b.role && OnlyText(a) && OnlyText(b)
  }

  /** The messages of something other than text. */
  function OthersOf(msgs: seq<Message>): seq<Message> {
    if msgs == [] then [] else (if OnlyText(msgs[0]) then [] else [msgs[0]]) + OthersOf(msgs[1..])
  }

  lemma {:induction false} OthersAppend(a: seq<Message>, b: seq<Message>)
    ensures OthersOf(a + b) == OthersOf(a) + OthersOf(b)
    decreases |a|
  {
    hide OnlyText;
    if a == [] {
      assert a + b == b;
    } else {
      assert (a + b)[1..] == a[1..] + b;
      OthersAppend(a[1..], b);
    }
  }

  lemma {:induction false} RunIsPlain(msgs: seq<Message>, role: Role)
    ensures var n := PlainRun(msgs, role);
            && OthersOf(msgs[..n]) == []
            && (n < |msgs| ==> !(msgs[n].role == role && OnlyText(msgs[n])))
    decreases |msgs|
  {
    hide IsPlain;
    hide OnlyText;
    if msgs != [] {
      PlainIs(msgs[0]);
      if msgs[0].role == role && IsPlain(msgs[0]) {
        RunIsPlain(msgs[1..], role);
        var n := PlainRun(msgs, role);
        assert msgs[..n][1..] == msgs[1..][..n - 1] && msgs[..n][0] == msgs[0];
      }
    }
  }

  /** A run that becomes one message: what it becomes, and what may not follow it. */
  lemma {:induction false} RunMerges(msgs: seq<Message>)
    requires msgs != []
    ensures var n := RunLength(msgs);
            var m := Merged(msgs[..n]);
            && m.role == msgs[0].role && OthersOf([m]) == OthersOf(msgs[..n])
            && (n < |msgs| ==> !(OnlyText(m) && OnlyText(msgs[n]) && m.role == msgs[n].role))
  {
    hide IsPlain;
    var n := RunLength(msgs);
    PlainIs(msgs[0]);
    RunIsPlain(msgs[1..], msgs[0].role);
    assert msgs[..n][0] == msgs[0];
    if n == 1 {
      assert msgs[..1] == [msgs[0]];
    } else {
      assert msgs[..n] == [msgs[0]] + msgs[1..][..n - 1];
      OthersAppend([msgs[0]], msgs[1..][..n - 1]);
      assert [msgs[0]][1..] == [] && [Merged(msgs[..n])][1..] == [];
    }
    if n < |msgs| {
      assert msgs[n] == msgs[1..][n - 1];
    }
  }

  /** Merging leaves no two neighbours of one role that are only text, and every message of anything else as it is. */
  lemma {:induction false} MergedIsMaximal(msgs: seq<Message>)
    ensures var out := MergeAdjacent(msgs);
            && (forall i | 0 < i < |out| :: !Mergeable(out[i - 1], out[i]))
            && OthersOf(out) == OthersOf(msgs)
            && (msgs != [] ==> out != [] && out[0].role == msgs[0].role && (OnlyText(out[0]) ==> OnlyText(msgs[0])))
    decreases |msgs|
  {
    hide RunLength;
    hide Merged;
    hide OnlyText;
    if msgs != [] {
      var n := RunLength(msgs);
      var m, rest := Merged(msgs[..n]), MergeAdjacent(msgs[n..]);
      RunMerges(msgs);
      MergedIsMaximal(msgs[n..]);
      FirstIsText(msgs);
      OthersAppend([m], rest);
      OthersAppend(msgs[..n], msgs[n..]);
      assert msgs[..n] + msgs[n..] == msgs && MergeAdjacent(msgs) == [m] + rest;
      var out := [m] + rest;
      forall i | 0 < i < |out| ensures !Mergeable(out[i - 1], out[i]) {
        if i > 1 {
          assert out[i] == rest[i - 1] && out[i - 1] == rest[i - 2];
        }
      }
    }
  }

  lemma FirstIsText(msgs: seq<Message>)
    requires msgs != []
    ensures OnlyText(Merged(msgs[..RunLength(msgs)])) ==> OnlyText(msgs[0])
  {
    PlainIs(msgs[0]);
  }

  /** How many turns are missing for users and assistants to take turns. */
  function Missing(next: Role, msgs: seq<Message>): nat
    decreases |msgs|
  {
    if msgs == [] then 0
    else (if msgs[0].role == next then 0 else 1) + Missing(if msgs[0].role == User then Assistant else User, msgs[1..])
  }

  lemma {:induction false} AlternateAdds(last: Role, msgs: seq<Message>)
    requires Proper(msgs) && !last.Other?
    ensures |Alternate(Some(last), msgs)| == |msgs| + Missing(if last == User then Assistant else User, msgs)
    decreases |msgs|
  {
    if msgs != [] {
      AlternateAdds(msgs[0].role, msgs[1..]);
    }
  }

  /** No more messages are put in than turns are missing; where users and assistants take turns there are none. */
  lemma OnlyMissingTurns(env: Env, msgs: seq<Message>, hasTools: bool)
    ensures var merged := MergeAdjacent(Shown(env, msgs, hasTools));
            |NormalizeMessages(env, msgs, hasTools)| == |merged| + Missing(User, merged)
  {
    hide MergeAdjacent;
    hide NormalizeRoles;
    var shown := if hasTools then TextualizeOrphans(None, msgs) else TextualizeAll(env, msgs);
    var merged := MergeAdjacent(NormalizeRoles(shown));
    RolesProper(shown);
    MergeProper(NormalizeRoles(shown));
    if merged != [] {
      var started := StartWithUser(merged);
      AlternateAdds(started[0].role, started[1..]);
      if !merged[0].role.User? {
        assert started[1..] == merged;
      }
    }
  }

  // ---- in the conversation ---------------------------------------------------------------------------

  function ContentsOf(entries: seq<Entry>): seq<string> {
    if entries == [] then [] else [entries[0].content] + ContentsOf(entries[1..])
  }

  /** Every entry of the history says what its message says. */
  lemma {:induction false} HistorySays(env: Env, before: Option<Message>, msgs: seq<Message>, count: nat)
    requires HistoryOf(env, before, msgs, count).Ok?
    ensures ContentsOf(HistoryOf(env, before, msgs, count).value.entries) == TextsOf(msgs)
    decreases |msgs|
  {
    hide Scan;
    hide ToolUses;
    hide ExtractText;
    hide Ordered;
    if msgs != [] {
      var a := EntryOf(env, before, msgs[0], count).value;
      HistorySays(env, Some(msgs[0]), msgs[1..], a.count);
      var rest := HistoryOf(env, Some(msgs[0]), msgs[1..], a.count).value.entries;
      assert (a.entries + rest)[1..] == rest;
    }
  }

  /** The conversation says what the normalised messages say, after the system prompt and its acknowledgement;
      a current message without text or results says `Continue`, as does one that had to be added. */
  lemma ConversationSays(env: Env, system: string, msgs: seq<Message>, hasTools: bool)
    requires BuildPayload(env, system, msgs, hasTools).Ok?
    ensures var p := BuildPayload(env, system, msgs, hasTools).value;
            var n := NormalizeMessages(env, msgs, hasTools);
            var said := ContentsOf(p.history) + [p.current.content];
            var lead := if system == "" then [] else [system, SYNTHETIC_ACK];
            || said == lead + TextsOf(n)
            || (LastSilent(n) && said == lead + TextsOf(n[..|n| - 1]) + [SYNTHETIC_CONTINUE])
            || ((n == [] || n[|n| - 1].role.Assistant?) && said == lead + TextsOf(n) + [SYNTHETIC_CONTINUE])
  {
    hide NormalizeMessages;
    hide HistoryOf;
    hide Scan;
    hide ExtractText;
    hide TextsOf;
    hide ContentsOf;
    var n := NormalizeMessages(env, msgs, hasTools);
    var h := SplitMessages(n);
    HistorySays(env, None, h.history, 0);
    var b := HistoryOf(env, None, h.history, 0).value;
    var p := BuildPayload(env, system, msgs, hasTools).value;
    SystemSays(system, b.entries);
    LastSays(h.last);
    if n == [] || n[|n| - 1].role.Assistant? {
      AddedSays(env, h.last, b.count, OfferAfter(LastOf(h.history)));
    } else {
      assert n == h.history + [h.last];
      TextsAppend(h.history, [h.last]);
      var lead := if system == "" then [] else [system, SYNTHETIC_ACK];
      assert lead + TextsOf(h.history) + TextsOf([h.last]) == lead + (TextsOf(h.history) + TextsOf([h.last]));
    }
  }

  /** The last message is a user's without text. */
  predicate LastSilent(n: seq<Message>) {
    n != [] && !n[|n| - 1].role.Assistant? && ExtractText(n[|n| - 1].content) == ""
  }

  lemma LastSays(m: Message)
    ensures TextsOf([m]) == [ExtractText(m.content)]
  {
    assert [m][1..] == [];
    assert TextsOf([]) == [];
  }

  /** A current message that had to be added. */
  lemma AddedSays(env: Env, m: Message, count: nat, ids: seq<string>)
    requires m.content == Text("") || m.content == Text(SYNTHETIC_CONTINUE)
    ensures Scan(env, BlocksOf(m.content), count, true).Ok?
    ensures CurrentOf(m, ids, Scan(env, BlocksOf(m.content), count, true).value).content == SYNTHETIC_CONTINUE
  {
    assert Scan(env, [], count, true) == Ok(Scanned([], [], count));
  }

  lemma SystemSays(system: string, entries: seq<Entry>)
    ensures ContentsOf(PlaceSystemPrompt(system, entries))
            == (if system == "" then [] else [system, SYNTHETIC_ACK]) + ContentsOf(entries)
  {
    if system != "" {
      var pair := [UserEntry(system, []), AssistantEntry(SYNTHETIC_ACK, [])];
      assert (pair + entries)[1..] == [pair[1]] + entries;
      assert ([pair[1]] + entries)[1..] == entries;
      assert [system] + ([SYNTHETIC_ACK] + ContentsOf(entries)) == [system, SYNTHETIC_ACK] + ContentsOf(entries);
    } else {
      assert [] + ContentsOf(entries) == ContentsOf(entries);
    }
  }

  // ---- images ---------------------------------------------------------------------------------------------

  /** The base64 image of a block. */
  function ImageOf(b: Block): seq<Image> {
    if b.source.Some? && b.source.value.kind == "base64" then [Image(AfterSlash(b.source.value.mediaType), b.source.value.data)] else []
  }

  /** The format that a media type names: all that is behind its last slash. */
  ghost predicate NamesFormat(mediaType: string, format: string) {
    '/' !in format && (mediaType == format || exists front :: mediaType == front + "/" + format)
  }

  lemma FormatMore(front: string, c: char, format: string)
    requires NamesFormat(front, format) && c != '/'
    ensures NamesFormat(front + [c], format + [c])
  {
    if front != format {
      var head :| front == head + "/" + format;
      assert front + [c] == head + "/" + (format + [c]);
    }
  }

  lemma {:induction false} FormatFound(mediaType: string)
    ensures NamesFormat(mediaType, AfterSlash(mediaType))
  {
    hide NamesFormat;
    if mediaType == "" {
      EmptyFormat("");
    } else {
      var front, last := mediaType[..|mediaType| - 1], mediaType[|mediaType| - 1];
      assert mediaType == front + [last];
      if last == '/' {
        EmptyFormat(front);
      } else {
        FormatFound(front);
        FormatMore(front, last, AfterSlash(front));
      }
    }
  }

  lemma EmptyFormat(front: string)
    ensures NamesFormat(front + "/", "") && NamesFormat("", "")
  {
    assert front + "/" == front + "/" + "";
  }

  lemma BeforeFormat(mediaType: string, f: string)
    requires NamesFormat(mediaType, f)
    ensures |f| < |mediaType| ==> mediaType[|mediaType| - |f| - 1] == '/'
  {
    if mediaType != f {
      var front :| mediaType == front + "/" + f;
      assert |mediaType| - |f| - 1 == |front|;
    }
  }

  lemma InFormat(mediaType: string, g: string)
    requires NamesFormat(mediaType, g)
    ensures forall k | |mediaType| - |g| <= k < |mediaType| && 0 <= k :: mediaType[k] != '/'
  {
    assert FormatLength(mediaType, g);
    forall k | |mediaType| - |g| <= k < |mediaType| && 0 <= k ensures mediaType[k] != '/' {
      assert mediaType[k] == g[k - (|mediaType| - |g|)];
    }
  }

  lemma FormatLonger(mediaType: string, f: string, g: string)
    requires NamesFormat(mediaType, f) && NamesFormat(mediaType, g)
    ensures |f| >= |g|
  {
    assert |g| <= |mediaType|;
    BeforeFormat(mediaType, f);
    InFormat(mediaType, g);
  }

  /** A format is the end of the media type. */
  ghost predicate FormatLength(mediaType: string, format: string) {
    |format| <= |mediaType| && format == mediaType[|mediaType| - |format|..]
  }

  lemma FormatIs(mediaType: string)
    ensures forall format :: NamesFormat(mediaType, format) <==> format == AfterSlash(mediaType)
  {
    FormatFound(mediaType);
    forall format | NamesFormat(mediaType, format) ensures format == AfterSlash(mediaType) {
      FormatLonger(mediaType, format, AfterSlash(mediaType));
      FormatLonger(mediaType, AfterSlash(mediaType), format);
      assert FormatLength(mediaType, format) && FormatLength(mediaType, AfterSlash(mediaType));
    }
  }

  /** It would be accepted but for the number of images. */
  ghost predicate IsAcceptable(env: Env, b: Block) {
    b.source.Some? && b.source.value.kind == "base64" ==>
      && (exists format :: NamesFormat(b.source.value.mediaType, format) && format in ["gif", "jpeg", "png", "webp"])
      && env.decode(b.source.value.data).Some? && env.decode(b.source.value.data).value <= 10485760
  }

  function InnerImages(inner: seq<Block>): seq<Image> {
    if inner == [] then [] else (if inner[0].kind == "image" then ImageOf(inner[0]) else []) + InnerImages(inner[1..])
  }

  ghost predicate InnerAcceptable(env: Env, inner: seq<Block>) {
    inner == [] || ((inner[0].kind == "image" ==> IsAcceptable(env, inner[0])) && InnerAcceptable(env, inner[1..]))
  }

  function Inner(b: Block): seq<Block> {
    if b.result.ResultBlocks? then b.result.blocks else []
  }

  function ImagesOf(b: Block, own: bool): seq<Image> {
    if IsToolResult(b) then InnerImages(Inner(b)) else if own && b.kind == "image" then ImageOf(b) else []
  }

  ghost predicate BlockAcceptable(env: Env, b: Block, own: bool) {
    if IsToolResult(b) then InnerAcceptable(env, Inner(b)) else own && b.kind == "image" ==> IsAcceptable(env, b)
  }

  /** All images of a message, those inside tool results included. */
  function ImagesIn(blocks: seq<Block>, own: bool): seq<Image> {
    if blocks == [] then [] else ImagesOf(blocks[0], own) + ImagesIn(blocks[1..], own)
  }

  ghost predicate AllAcceptable(env: Env, blocks: seq<Block>, own: bool) {
    blocks == [] || (BlockAcceptable(env, blocks[0], own) && AllAcceptable(env, blocks[1..], own))
  }

  predicate Fits(count: nat, images: seq<Image>) {
    images == [] || count + |images| <= 10
  }

  lemma ConvertIff(env: Env, b: Block, count: nat)
    ensures var r := ConvertImage(env, b, count);
            && (r.Ok? <==> IsAcceptable(env, b) && Fits(count, ImageOf(b)))
            && (r.Ok? ==> r.value.images == ImageOf(b))
  {
    hide AfterSlash;
    hide NamesFormat;
    if b.source.Some? {
      var mediaType := b.source.value.mediaType;
      FormatIs(mediaType);
      assert NamesFormat(mediaType, AfterSlash(mediaType));
      assert IsFormat(AfterSlash(mediaType)) <==> AfterSlash(mediaType) in ["gif", "jpeg", "png", "webp"];
    }
  }

  lemma FitsSum(count: nat, a: seq<Image>, b: seq<Image>)
    ensures Fits(count, a) && Fits(count + |a|, b) <==> Fits(count, a + b)
  {
  }

  lemma {:induction false} PromoteIff(env: Env, inner: seq<Block>, count: nat)
    ensures var r := Promote(env, inner, count);
            && (r.Ok? <==> InnerAcceptable(env, inner) && Fits(count, InnerImages(inner)))
            && (r.Ok? ==> r.value.images == InnerImages(inner))
    decreases |inner|
  {
    hide ConvertImage;
    hide ImageOf;
    hide IsAcceptable;
    hide Fits;
    if inner == [] {
      NoneFits(count);
    } else if inner[0].kind == "image" {
      ConvertIff(env, inner[0], count);
      var a := ImageOf(inner[0]);
      PromoteIff(env, inner[1..], count + |a|);
      FitsSum(count, a, InnerImages(inner[1..]));
    } else {
      PromoteIff(env, inner[1..], count);
      assert [] + InnerImages(inner[1..]) == InnerImages(inner[1..]);
    }
  }

  lemma NoneFits(count: nat)
    ensures Fits(count, [])
  {
  }

  lemma BlockIff(env: Env, b: Block, count: nat, own: bool)
    ensures var r := ScanBlock(env, b, count, own);
            && (r.Ok? <==> BlockAcceptable(env, b, own) && Fits(count, ImagesOf(b, own)))
            && (r.Ok? ==> r.value.images == ImagesOf(b, own))
  {
    hide Promote;
    hide ConvertImage;
    hide IsToolResult;
    hide Noted;
    hide ResultTextOf;
    hide ImageOf;
    hide IsAcceptable;
    hide Fits;
    hide InnerImages;
    hide InnerAcceptable;
    NoneFits(count);
    PromoteIff(env, Inner(b), count);
    ConvertIff(env, b, count);
  }

  /** A message is accepted if and only if each of its images is acceptable and, when it has any, they do not take
      the request over ten; then it carries exactly those images, in order. */
  lemma {:induction false} ScanIff(env: Env, blocks: seq<Block>, count: nat, own: bool)
    ensures var r := Scan(env, blocks, count, own);
            && (r.Ok? <==> AllAcceptable(env, blocks, own) && Fits(count, ImagesIn(blocks, own)))
            && (r.Ok? ==> r.value.images == ImagesIn(blocks, own))
    decreases |blocks|
  {
    hide ScanBlock;
    hide ImagesOf;
    hide BlockAcceptable;
    hide Fits;
    if blocks == [] {
      NoneFits(count);
    } else {
      var b := blocks[0];
      var a := ImagesOf(b, own);
      BlockIff(env, b, count, own);
      ScanIff(env, blocks[1..], count + |a|, own);
      FitsSum(count, a, ImagesIn(blocks[1..], own));
    }
  }
}
