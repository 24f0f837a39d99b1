/** What a client collects from the stream: the text, the thinking, the redacted blocks, the tool calls. */
module Views {
  import opened Wrappers
  import opened Anthropic
  import opened Emitter

  datatype View = View(
    text: string, think: string, redacted: seq<string>,
    calls: seq<(string, string)>, inputs: seq<string>)

  const NOTHING := View("", "", [], [], [])

  function Join(a: View, b: View): View {
    View(a.text + b.text, a.think + b.think, a.redacted + b.redacted, a.calls + b.calls, a.inputs + b.inputs)
  }

  function ViewOne(ev: StreamEvent): View {
    match ev
    case BlockDelta(_, TextDelta(s)) => NOTHING.(text := s)
    case BlockDelta(_, ThinkingDelta(s)) => NOTHING.(think := s)
    case BlockDelta(_, InputJsonDelta(s)) => NOTHING.(inputs := [s])
    case BlockStart(_, RedactedBlock(d)) => NOTHING.(redacted := [d])
    case BlockStart(_, ToolBlock(id, name)) => NOTHING.(calls := [(id, name)])
    case _ => NOTHING
  }

  function ViewOf(events: seq<StreamEvent>): View {
    if events == [] then NOTHING else Join(ViewOne(events[0]), ViewOf(events[1..]))
  }

  lemma JoinAssoc(a: View, b: View, c: View)
    ensures Join(Join(a, b), c) == Join(a, Join(b, c))
  {
    assert (a.text + b.text) + c.text == a.text + (b.text + c.text);
    assert (a.think + b.think) + c.think == a.think + (b.think + c.think);
    assert (a.redacted + b.redacted) + c.redacted == a.redacted + (b.redacted + c.redacted);
    assert (a.calls + b.calls) + c.calls == a.calls + (b.calls + c.calls);
    assert (a.inputs + b.inputs) + c.inputs == a.inputs + (b.inputs + c.inputs);
  }

  lemma JoinNothing(a: View)
    ensures Join(a, NOTHING) == a && Join(NOTHING, a) == a
  {
    assert a.text + "" == a.text && "" + a.text == a.text;
    assert a.think + "" == a.think && "" + a.think == a.think;
    assert a.redacted + [] == a.redacted && [] + a.redacted == a.redacted;
    assert a.calls + [] == a.calls && [] + a.calls == a.calls;
    assert a.inputs + [] == a.inputs && [] + a.inputs == a.inputs;
  }

  lemma {:induction false} ViewAppend(a: seq<StreamEvent>, b: seq<StreamEvent>)
    ensures ViewOf(a + b) == Join(ViewOf(a), ViewOf(b))
  {
    if a == [] {
      assert a + b == b;
      JoinNothing(ViewOf(b));
    } else {
      assert (a + b)[1..] == a[1..] + b;
      ViewAppend(a[1..], b);
      JoinAssoc(ViewOne(a[0]), ViewOf(a[1..]), ViewOf(b));
    }
  }

  lemma ViewSingle(ev: StreamEvent)
    ensures ViewOf([ev]) == ViewOne(ev)
  {
    assert [ev][1..] == [];
    JoinNothing(ViewOne(ev));
  }

  lemma ViewThen(a: seq<StreamEvent>, ev: StreamEvent)
    ensures ViewOf(a + [ev]) == Join(ViewOf(a), ViewOne(ev))
  {
    ViewAppend(a, [ev]);
    ViewSingle(ev);
  }

  /** Events in front that carry no content do not change the view. */
  lemma QuietAppend(a: seq<StreamEvent>, b: seq<StreamEvent>)
    requires ViewOf(a) == NOTHING
    ensures ViewOf(a + b) == ViewOf(b)
  {
    ViewAppend(a, b);
    JoinNothing(ViewOf(b));
  }

  lemma StartShows(e: Emit, head: OutMessage)
    ensures ViewOf(EnsureStarted(e, head).events) == NOTHING
  {
    ViewSingle(MessageStart(head));
  }

  lemma CloseShows(e: Emit)
    ensures ViewOf(CloseActive(e).events) == NOTHING
  {
    ViewSingle(BlockStop(Wire(e.index)));
  }

  lemma SwitchShows(e: Emit, kind: Active)
    ensures ViewOf(SwitchBlock(e, kind).events) == NOTHING
  {
    if e.active != Some(kind) {
      CloseShows(e);
      QuietAppend(CloseActive(e).events, [BlockStart(Wire(e.index + 1), BlockOf(kind))]);
      ViewSingle(BlockStart(Wire(e.index + 1), BlockOf(kind)));
    }
  }

  /** A piece of content as a view. */
  function Piece(kind: Active, piece: string): View {
    if kind == ActiveText then NOTHING.(text := piece) else NOTHING.(think := piece)
  }

  /** An emitted delta shows exactly its piece. */
  lemma DeltaShows(e: Emit, head: OutMessage, kind: Active, piece: string)
    ensures ViewOf(EmitDelta(e, head, kind, piece).events) == Piece(kind, piece)
  {
    hide SwitchBlock;
    hide EnsureStarted;
    if piece != "" {
      var s := EnsureStarted(e, head);
      var v := s.e.(visible := s.e.visible || kind == ActiveText);
      var w := SwitchBlock(v, kind);
      StartShows(e, head);
      SwitchShows(v, kind);
      var last := BlockDelta(Wire(w.e.index), if kind == ActiveText then TextDelta(piece) else ThinkingDelta(piece));
      QuietAppend(s.events, w.events);
      QuietAppend(s.events + w.events, [last]);
      ViewSingle(last);
    }
  }

  lemma ClearShows(e: Emit, head: OutMessage, visible: bool)
    ensures ViewOf(Clear(e, head, visible).events) == NOTHING
  {
    var s := EnsureStarted(e, head);
    var v := s.e.(visible := s.e.visible || visible);
    StartShows(e, head);
    CloseShows(v);
    QuietAppend(s.events, CloseActive(v).events);
  }

  lemma RedactedShows(e: Emit, head: OutMessage, data: string)
    ensures ViewOf(EmitWhole(e, head, false, RedactedBlock(data), None).events) == NOTHING.(redacted := [data])
  {
    ClearShows(e, head, false);
    var i := Clear(e, head, false).e.index + 1;
    var start, stop := BlockStart(Wire(i), RedactedBlock(data)), BlockStop(Wire(i));
    assert WholeEvents(i, RedactedBlock(data), None) == [start] + [stop];
    QuietAppend(Clear(e, head, false).events, [start] + [stop]);
    ViewSingle(start);
    ViewThen([start], stop);
    JoinNothing(NOTHING.(redacted := [data]));
  }

  lemma ToolShows(e: Emit, head: OutMessage, id: string, name: string, input: string)
    ensures ViewOf(EmitWhole(e, head, true, ToolBlock(id, name), Some(InputJsonDelta(input))).events)
            == NOTHING.(calls := [(id, name)], inputs := [input])
  {
    ClearShows(e, head, true);
    var i := Clear(e, head, true).e.index + 1;
    var start, delta, stop := BlockStart(Wire(i), ToolBlock(id, name)), BlockDelta(Wire(i), InputJsonDelta(input)), BlockStop(Wire(i));
    QuietAppend(Clear(e, head, true).events, [start] + [delta] + [stop]);
    ViewSingle(start);
    ViewThen([start], delta);
    ViewThen([start] + [delta], stop);
    JoinNothing(NOTHING.(calls := [(id, name)], inputs := [input]));
    assert [(id, name)] + [] == [(id, name)] && [] + [input] == [input];
  }
}
