/**
 The tool calls that come out of a run of fragments: group the fragments first, then read each
 group's name and input off its fragments. The parser, which keeps one call in progress, does the same.
 */
module ToolCalls {
  import opened Wrappers
  import opened Kiro
  import opened Events
  import Text

  // ---- reading a group ------------------------------------------------------------------

  /** The last name that was given. */
  function NameIn(parts: seq<Fragment>): string {
    if parts == [] then ""
    else if parts[|parts| - 1].name != "" then parts[|parts| - 1].name
    else NameIn(parts[..|parts| - 1])
  }

  /** Where the pieces after the last one that gave the whole input begin. */
  function AfterAll(parts: seq<Fragment>): (k: nat)
    ensures k <= |parts|
  {
    if parts == [] then 0
    else if parts[|parts| - 1].piece.All? then |parts|
    else AfterAll(parts[..|parts| - 1])
  }

  /** The text pieces one after the other. */
  function Texts(parts: seq<Fragment>): string {
    if parts == [] then ""
    else (if parts[0].piece.More? then parts[0].piece.text else "") + Texts(parts[1..])
  }

  /** The last whole input, if there is one, and the text that came after it. */
  function InputIn(parts: seq<Fragment>): string {
    var k := AfterAll(parts);
    (if 0 < k && parts[k - 1].piece.All? then parts[k - 1].piece.text else "") + Texts(parts[k..])
  }

  lemma {:induction false} AfterAllMeaning(parts: seq<Fragment>)
    ensures var k := AfterAll(parts);
            (0 < k ==> parts[k - 1].piece.All?) && forall i | k <= i < |parts| :: !parts[i].piece.All?
    decreases |parts|
  {
    if parts != [] && !parts[|parts| - 1].piece.All? {
      AfterAllMeaning(parts[..|parts| - 1]);
    }
  }

  /** The input is the piece before `k`, which gave the whole of it, and the text of the pieces from `k` on, none of which did. */
  lemma InputMeaning(parts: seq<Fragment>) returns (k: nat)
    ensures k <= |parts| && (forall i | k <= i < |parts| :: !parts[i].piece.All?)
    ensures 0 < k ==> parts[k - 1].piece.All? && InputIn(parts) == parts[k - 1].piece.text + Texts(parts[k..])
    ensures k == 0 ==> InputIn(parts) == Texts(parts)
  {
    k := AfterAll(parts);
    AfterAllMeaning(parts);
    assert k == 0 ==> parts[k..] == parts && "" + Texts(parts) == Texts(parts);
  }

  lemma {:induction false} TextsSnoc(parts: seq<Fragment>, f: Fragment)
    ensures Texts(parts + [f]) == Texts(parts) + if f.piece.More? then f.piece.text else ""
    decreases |parts|
  {
    if parts == [] {
      assert [f][1..] == [];
      assert Texts([]) == "";
    } else {
      assert (parts + [f])[1..] == parts[1..] + [f];
      TextsSnoc(parts[1..], f);
    }
  }

  /** One more fragment changes the input as the parser changes it. */
  lemma InputSnoc(parts: seq<Fragment>, f: Fragment)
    ensures InputIn(parts + [f]) == Grow(InputIn(parts), f.piece)
  {
    var k, ps := AfterAll(parts), parts + [f];
    assert ps[..|ps| - 1] == parts;
    if f.piece.All? {
      assert ps[|ps|..] == [];
      assert f.piece.text + "" == f.piece.text;
    } else {
      assert ps[k..] == parts[k..] + [f];
      TextsSnoc(parts[k..], f);
    }
  }

  lemma NameSnoc(parts: seq<Fragment>, f: Fragment)
    ensures NameIn(parts + [f]) == if f.name != "" then f.name else NameIn(parts)
  {
    assert (parts + [f])[..|parts|] == parts;
  }

  // ---- grouping ---------------------------------------------------------------------------

  /** Fragments that belong together; without an id, fragments that belong to no call. */
  datatype Call = Call(id: string, parts: seq<Fragment>)

  /** A group that is complete, and whether it is handed out. */
  datatype Closed = Closed(call: Call, shown: bool)

  datatype Groups = Groups(closed: seq<Closed>, open: Call, drawn: nat)

  const NONE := Call("", [])

  function Joined(env: Env, g: Groups, f: Fragment): Call {
    if !Opens(g.open.id, f) then Call(g.open.id, g.open.parts + [f])
    else Call(if f.id != "" then f.id else env.draw(g.drawn), [f])
  }

  /** A fragment goes to the group in progress, or closes it and opens another. */
  function Group(env: Env, g: Groups, f: Fragment): Groups {
    var opens := Opens(g.open.id, f);
    var call := Joined(env, g, f);
    Groups(
      g.closed + (if opens then [Closed(g.open, g.open.id != "")] else []) + (if f.stop then [Closed(call, true)] else []),
      if f.stop then NONE else call,
      if opens && f.id == "" then g.drawn + 1 else g.drawn)
  }

  function GroupAll(env: Env, g: Groups, fs: seq<Fragment>): Groups
    decreases |fs|
  {
    if fs == [] then g else GroupAll(env, Group(env, g, fs[0]), fs[1..])
  }

  /** At the end the group in progress is complete. */
  function CloseLast(g: Groups): seq<Closed> {
    g.closed + [Closed(g.open, g.open.id != "")]
  }

  function ToolOf(call: Call): Tool {
    Tool(call.id, NameIn(call.parts), InputIn(call.parts))
  }

  /** The groups that are handed out, in order. */
  function Shown(cs: seq<Closed>): seq<Event> {
    if cs == [] then []
    else (if cs[0].shown then [Taken(ToolOf(cs[0].call))] else []) + Shown(cs[1..])
  }

  lemma {:induction false} ShownAppend(a: seq<Closed>, b: seq<Closed>)
    ensures Shown(a + b) == Shown(a) + Shown(b)
    decreases |a|
  {
    hide ToolOf;
    if a == [] {
      assert a + b == b;
    } else {
      assert (a + b)[1..] == a[1..] + b;
      ShownAppend(a[1..], b);
    }
  }

  lemma ShownOne(c: Closed)
    ensures Shown([]) == []
    ensures Shown([c]) == if c.shown then [Taken(ToolOf(c.call))] else []
  {
    hide ToolOf;
    assert [c][1..] == [];
    assert Shown([]) == [];
  }

  // ---- what grouping promises ----------------------------------------------------------------

  function PartsOf(cs: seq<Closed>): seq<Fragment> {
    if cs == [] then [] else cs[0].call.parts + PartsOf(cs[1..])
  }

  lemma {:induction false} PartsAppend(a: seq<Closed>, b: seq<Closed>)
    ensures PartsOf(a + b) == PartsOf(a) + PartsOf(b)
    decreases |a|
  {
    if a == [] {
      assert a + b == b;
    } else {
      assert (a + b)[1..] == a[1..] + b;
      PartsAppend(a[1..], b);
    }
  }

  lemma PartsOne(c: Closed)
    ensures PartsOf([]) == [] && PartsOf([c]) == c.call.parts
  {
    assert [c][1..] == [];
    assert PartsOf([]) == [];
  }

  lemma GroupParts(env: Env, g: Groups, f: Fragment)
    ensures PartsOf(Group(env, g, f).closed) + Group(env, g, f).open.parts == PartsOf(g.closed) + g.open.parts + [f]
  {
    hide PartsOf;
    hide Opens;
    var call := Joined(env, g, f);
    var a := if Opens(g.open.id, f) then [Closed(g.open, g.open.id != "")] else [];
    var b := if f.stop then [Closed(call, true)] else [];
    PartsAppend(g.closed + a, b);
    PartsAppend(g.closed, a);
    PartsOne(Closed(g.open, g.open.id != ""));
    PartsOne(Closed(call, true));
  }

  /** Every fragment is in exactly one group, and the order of the fragments is kept. */
  lemma {:induction false} GroupsPartition(env: Env, g: Groups, fs: seq<Fragment>)
    ensures var r := GroupAll(env, g, fs);
            PartsOf(r.closed) + r.open.parts == PartsOf(g.closed) + g.open.parts + fs
    decreases |fs|
  {
    hide PartsOf;
    hide Group;
    if fs != [] {
      GroupParts(env, g, fs[0]);
      GroupsPartition(env, Group(env, g, fs[0]), fs[1..]);
      assert PartsOf(g.closed) + g.open.parts + [fs[0]] + fs[1..] == PartsOf(g.closed) + g.open.parts + fs;
    }
  }

  /** Every fragment of a call names that call or none; a call without an id was never opened. */
  ghost predicate Owned(call: Call) {
    && (forall f | f in call.parts :: f.id == "" || f.id == call.id)
    && (call.id == "" ==> forall f | f in call.parts :: !f.named)
  }

  /** A group that is handed out was stopped or has an id. */
  ghost predicate Proper(c: Closed) {
    && Owned(c.call)
    && (c.call.id != "" ==> c.shown)
    && (c.shown && c.call.id == "" ==> c.call.parts != [] && c.call.parts[|c.call.parts| - 1].stop)
  }

  lemma JoinedOwned(env: Env, g: Groups, f: Fragment)
    requires Sound(env) && Owned(g.open)
    ensures Owned(Joined(env, g, f)) && f in Joined(env, g, f).parts
  {
    var call := Joined(env, g, f);
    assert call.parts[|call.parts| - 1] == f;
    if call.id == "" {
      assert !Opens(g.open.id, f) && !f.named;
    }
  }

  /** In every run: fragments go to the call they name, and every call that was opened is handed out once. */
  lemma {:induction false} GroupsProper(env: Env, g: Groups, fs: seq<Fragment>)
    requires Sound(env) && Owned(g.open) && forall c | c in g.closed :: Proper(c)
    ensures Owned(GroupAll(env, g, fs).open) && forall c | c in CloseLast(GroupAll(env, g, fs)) :: Proper(c)
    decreases |fs|
  {
    hide Opens;
    hide Owned;
    if fs != [] {
      var f := fs[0];
      JoinedOwned(env, g, f);
      NoneOwned();
      GroupsProper(env, Group(env, g, f), fs[1..]);
    }
  }

  lemma NoneOwned()
    ensures Owned(NONE)
  {
  }

  // ---- the parser does the same --------------------------------------------------------------------

  /** A run of fragments, up to the first that is refused. */
  datatype Run = Run(parser: Parser, events: seq<Event>, error: Option<EventError>)

  function RunAll(env: Env, p: Parser, fs: seq<Fragment>): Run
    decreases |fs|
  {
    if fs == [] then Run(p, [], None) else
    var o := OnFragment(env, p, fs[0]);
    match o.result
    case Err(e) => Run(o.parser, [], Some(e))
    case Ok(evs) =>
      var r := RunAll(env, o.parser, fs[1..]);
      Run(r.parser, evs + r.events, r.error)
  }

  /** The parser that has seen the groups. */
  function ParserOf(g: Groups): Parser {
    Parser(ToolOf(g.open), g.drawn)
  }

  predicate WithinCap(call: Call) {
    Text.Bytes(InputIn(call.parts)) <= 16777216
  }

  /** The fragment leaves its call within the cap. */
  lemma RefusedIff(env: Env, g: Groups, f: Fragment)
    requires WithinCap(g.open)
    ensures OverCap(Named(Started(env, ParserOf(g), f).tool, f).input, f.piece) <==> !WithinCap(Joined(env, g, f))
  {
    hide InputIn;
    hide Text.Bytes;
    var before := if Opens(g.open.id, f) then [] else g.open.parts;
    InputSnoc(before, f);
    InputNone();
    if f.piece.More? {
      Text.BytesAppend(InputIn(before), f.piece.text);
    }
    assert [] + [f] == [f];
  }

  lemma InputNone()
    ensures InputIn([]) == "" && NameIn([]) == "" && Text.Bytes("") == 0
  {
  }

  /** One fragment: the parser and the groups stay in step. */
  lemma FragmentGroups(env: Env, g: Groups, f: Fragment)
    requires WithinCap(g.open)
    ensures var o := OnFragment(env, ParserOf(g), f);
            && (o.result.Ok? <==> WithinCap(Joined(env, g, f)))
            && (o.result.Ok? ==> o.parser == ParserOf(Group(env, g, f)))
            && (o.result.Ok? ==> Shown(Group(env, g, f).closed) == Shown(g.closed) + o.result.value)
  {
    hide InputIn;
    hide NameIn;
    hide WithinCap;
    hide OverCap;
    hide Grow;
    hide Shown;
    RefusedIff(env, g, f);
    var before := if Opens(g.open.id, f) then [] else g.open.parts;
    InputSnoc(before, f);
    NameSnoc(before, f);
    InputNone();
    assert [] + [f] == [f];
    var call := Joined(env, g, f);
    var a := if Opens(g.open.id, f) then [Closed(g.open, g.open.id != "")] else [];
    var b := if f.stop then [Closed(call, true)] else [];
    ShownAppend(g.closed + a, b);
    ShownAppend(g.closed, a);
    ShownOne(Closed(g.open, g.open.id != ""));
    ShownOne(Closed(call, true));
  }

  /** No fragment of the run takes its call over the cap. */
  ghost predicate AllWithinCap(env: Env, g: Groups, fs: seq<Fragment>)
    decreases |fs|
  {
    fs == [] || (WithinCap(Joined(env, g, fs[0])) && AllWithinCap(env, Group(env, g, fs[0]), fs[1..]))
  }

  lemma {:induction false} RunGroups(env: Env, g: Groups, fs: seq<Fragment>)
    requires WithinCap(g.open)
    ensures var r := RunAll(env, ParserOf(g), fs);
            && (r.error.None? <==> AllWithinCap(env, g, fs))
            && (r.error.None? ==> r.parser == ParserOf(GroupAll(env, g, fs)))
            && (r.error.None? ==> Shown(GroupAll(env, g, fs).closed) == Shown(g.closed) + r.events)
    decreases |fs|
  {
    hide OnFragment;
    hide Group;
    hide Shown;
    hide ParserOf;
    hide WithinCap;
    hide Joined;
    if fs != [] {
      var f := fs[0];
      FragmentGroups(env, g, f);
      if WithinCap(Joined(env, g, f)) {
        GroupWithin(env, g, f);
        RunGroups(env, Group(env, g, f), fs[1..]);
      }
    }
  }

  lemma GroupWithin(env: Env, g: Groups, f: Fragment)
    requires WithinCap(Joined(env, g, f))
    ensures WithinCap(Group(env, g, f).open)
  {
    InputNone();
  }

  const START := Groups([], NONE, 0)

  /**
   Unless a call goes over the cap, what the parser hands out during a run and at its end are the
   groups: each call once, in the order in which they were opened, with the last name and the last
   whole input followed by the text after it.
   */
  lemma Reassembly(env: Env, fs: seq<Fragment>)
    ensures var r := RunAll(env, Parser(IDLE, 0), fs);
            var last := Flush(r.parser).1;
            && (r.error.None? <==> AllWithinCap(env, START, fs))
            && (r.error.None? ==> r.events + (if last.Some? then [last.value] else []) == Shown(CloseLast(GroupAll(env, START, fs))))
  {
    hide InputIn;
    hide NameIn;
    hide Shown;
    InputNone();
    RunGroups(env, START, fs);
    var g := GroupAll(env, START, fs);
    var last := Closed(g.open, g.open.id != "");
    ShownAppend(g.closed, [last]);
    ShownOne(last);
  }

  // ---- the cap -------------------------------------------------------------------------------------

  ghost predicate Small(ev: Event) {
    ev.ToolUse? && Text.Bytes(ev.input) <= 16777216
  }

  lemma FragmentSmall(env: Env, p: Parser, f: Fragment)
    requires Text.Bytes(p.tool.input) <= 16777216
    ensures var o := OnFragment(env, p, f);
            && Text.Bytes(o.parser.tool.input) <= 16777216
            && (o.result.Ok? ==> forall ev | ev in o.result.value :: Small(ev))
  {
    hide Text.Bytes;
    assert Text.Bytes("") == 0 by { InputNone(); }
    if f.piece.More? {
      Text.BytesAppend(Started(env, p, f).tool.input, f.piece.text);
    }
  }

  /** No call that is handed out is over the cap, refused fragments or not. */
  lemma {:induction false} HandedOutSmall(env: Env, p: Parser, fs: seq<Fragment>)
    requires Text.Bytes(p.tool.input) <= 16777216
    ensures var r := RunAll(env, p, fs);
            && (forall ev | ev in r.events :: Small(ev))
            && (Flush(r.parser).1.Some? ==> Small(Flush(r.parser).1.value))
    decreases |fs|
  {
    hide OnFragment;
    hide Text.Bytes;
    if fs != [] {
      FragmentSmall(env, p, fs[0]);
      if OnFragment(env, p, fs[0]).result.Ok? {
        HandedOutSmall(env, OnFragment(env, p, fs[0]).parser, fs[1..]);
      }
    }
  }

  /** A call without an id comes out exactly when a fragment with neither id nor name stops while
      nothing is in flight. */
  lemma EmptyIdIff(env: Env, p: Parser, f: Fragment)
    requires Sound(env) && OnFragment(env, p, f).result.Ok?
    ensures (exists ev | ev in OnFragment(env, p, f).result.value :: ev.ToolUse? && ev.id == "")
            <==> (p.tool.id == "" && f.id == "" && !f.named && f.stop)
  {
    hide OverCap;
    hide Grow;
    var evs := OnFragment(env, p, f).result.value;
    if p.tool.id == "" && f.id == "" && !f.named && f.stop {
      assert evs[0].ToolUse? && evs[0].id == "";
    }
  }

  /** A refused fragment takes the call it would have superseded down with it: with another id,
      the complete call in flight is neither handed out nor kept. */
  lemma RefusalLosesBoth(env: Env, p: Parser, f: Fragment)
    requires p.tool.id != "" && Opens(p.tool.id, f)
    ensures var o := OnFragment(env, p, f);
            && Superseded(p, f) == [Taken(p.tool)]
            && (OverCap("", f.piece) <==> o.result.Err?)
            && (o.result.Ok? ==> Superseded(p, f) <= o.result.value)
            && (o.result.Err? ==> o.parser.tool == IDLE)
  {
  }
}
