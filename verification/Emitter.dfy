/**
 The block emitter of the response translator, and the grammar its output follows:
 one message start, then blocks one after the other, then the message's end.
 */
module Emitter {
  import opened Wrappers
  import opened Anthropic

  datatype Active = ActiveText | ActiveThinking

  /** The emitter's fields; `index` is the index of the newest block, -1 before the first. */
  datatype Emit = Emit(started: bool, index: int, active: Option<Active>, visible: bool)

  const INIT := Emit(false, -1, None, false)

  /** A block index as the wire carries it: `i64 as u32`. */
  function Wire(index: int): nat {
    index % 0x1_0000_0000
  }

  function BlockOf(kind: Active): Block {
    if kind == ActiveText then TextBlock else ThinkingBlock
  }

  datatype Out = Out(e: Emit, events: seq<StreamEvent>)

  function EnsureStarted(e: Emit, head: OutMessage): Out {
    if e.started then Out(e, []) else Out(e.(started := true), [MessageStart(head)])
  }

  function CloseActive(e: Emit): Out {
    if e.active.None? then Out(e, []) else Out(e.(active := None), [BlockStop(Wire(e.index))])
  }

  function SwitchBlock(e: Emit, kind: Active): Out {
    if e.active == Some(kind) then Out(e, []) else
    var c := CloseActive(e);
    Out(c.e.(index := e.index + 1, active := Some(kind)), c.events + [BlockStart(Wire(e.index + 1), BlockOf(kind))])
  }

  /** A delta of the given kind; an empty one emits nothing at all. */
  function EmitDelta(e: Emit, head: OutMessage, kind: Active, piece: string): Out {
    if piece == "" then Out(e, []) else
    var s := EnsureStarted(e, head);
    var w := SwitchBlock(s.e.(visible := s.e.visible || kind == ActiveText), kind);
    var delta := if kind == ActiveText then TextDelta(piece) else ThinkingDelta(piece);
    Out(w.e, s.events + w.events + [BlockDelta(Wire(w.e.index), delta)])
  }

  /** The events of a block that is complete at once. */
  function WholeEvents(index: int, block: Block, delta: Option<Delta>): seq<StreamEvent> {
    [BlockStart(Wire(index), block)]
    + (if delta.Some? then [BlockDelta(Wire(index), delta.value)] else [])
    + [BlockStop(Wire(index))]
  }

  /** The message is started and no block is open. */
  function Clear(e: Emit, head: OutMessage, visible: bool): Out {
    var s := EnsureStarted(e, head);
    var c := CloseActive(s.e.(visible := s.e.visible || visible));
    Out(c.e, s.events + c.events)
  }

  /** A tool call or redacted thinking. */
  function EmitWhole(e: Emit, head: OutMessage, visible: bool, block: Block, delta: Option<Delta>): Out {
    var c := Clear(e, head, visible);
    Out(c.e.(index := c.e.index + 1), c.events + WholeEvents(c.e.index + 1, block, delta))
  }

  // ---- the grammar --------------------------------------------------------------

  /** Where a client is in the stream. Blocks are counted without wrapping. */
  datatype Phase =
    | Fresh
    | Idle(next: nat)
    | Open(block: Block, index: nat, filled: bool)
    | Ending
    | Over
    | Broken

  /** A delta of the block's own kind. A tool call takes one, redacted thinking none. */
  predicate Fits(block: Block, filled: bool, d: Delta) {
    match block
    case TextBlock => d.TextDelta? && d.text != ""
    case ThinkingBlock => (d.ThinkingDelta? && d.thinking != "") || (d.SignatureDelta? && filled)
    case ToolBlock(_, _) => d.InputJsonDelta? && !filled
    case RedactedBlock(_) => false
  }

  function Advance(p: Phase, ev: StreamEvent): Phase {
    match (p, ev)
    case (Fresh, MessageStart(m)) =>
      if m.content == [] && m.stopReason.None? && m.stopSequence.None? then Idle(0) else Broken
    case (Idle(n), BlockStart(i, b)) => if i == Wire(n) then Open(b, n, false) else Broken
    case (Open(b, n, filled), BlockDelta(i, d)) => if i == Wire(n) && Fits(b, filled, d) then Open(b, n, true) else Broken
    case (Open(b, n, filled), BlockStop(i)) => if i == Wire(n) && (filled || b.RedactedBlock?) then Idle(n + 1) else Broken
    case (Idle(_), MessageDelta(_, _, _)) => Ending
    case (Ending, MessageStop) => Over
    case _ => Broken
  }

  function Accept(p: Phase, events: seq<StreamEvent>): Phase
    decreases |events|
  {
    if events == [] then p else Accept(Advance(p, events[0]), events[1..])
  }

  lemma {:induction false} AcceptAppend(p: Phase, a: seq<StreamEvent>, b: seq<StreamEvent>)
    ensures Accept(p, a + b) == Accept(Accept(p, a), b)
    decreases |a|
  {
    if a == [] {
      assert a + b == b;
    } else {
      assert (a + b)[1..] == a[1..] + b;
      AcceptAppend(Advance(p, a[0]), a[1..], b);
    }
  }

  lemma AcceptOne(p: Phase, ev: StreamEvent)
    ensures Accept(p, [ev]) == Advance(p, ev)
  {
    assert [ev][1..] == [];
    assert Accept(Advance(p, ev), []) == Advance(p, ev);
  }

  // ---- the emitter follows the grammar ----------------------------------------------

  ghost predicate Valid(e: Emit) {
    && -1 <= e.index
    && (!e.started ==> e.index == -1 && e.active.None?)
    && (e.active.Some? ==> 0 <= e.index)
  }

  /** The phase an emitter has brought its client to. */
  function PhaseOf(e: Emit): Phase
    requires Valid(e)
  {
    if !e.started then Fresh
    else match e.active
      case None => Idle(e.index + 1)
      case Some(kind) => Open(BlockOf(kind), e.index, true)
  }

  /** `o` brings the client from the phase of `e` to the phase of `o.e`. */
  ghost predicate Follows(e: Emit, o: Out) {
    Valid(e) && Valid(o.e) && Accept(PhaseOf(e), o.events) == PhaseOf(o.e)
  }

  ghost predicate Neutral(head: OutMessage) {
    head.content == [] && head.stopReason.None? && head.stopSequence.None?
  }

  lemma StartFollows(e: Emit, head: OutMessage)
    requires Valid(e) && Neutral(head)
    ensures Follows(e, EnsureStarted(e, head)) && EnsureStarted(e, head).e.started
  {
    AcceptOne(PhaseOf(e), MessageStart(head));
  }

  lemma CloseFollows(e: Emit)
    requires Valid(e) && e.started
    ensures Follows(e, CloseActive(e)) && CloseActive(e).e.active.None?
  {
    AcceptOne(PhaseOf(e), BlockStop(Wire(e.index)));
  }

  lemma SwitchFollows(e: Emit, kind: Active)
    requires Valid(e) && e.started
    ensures var w := SwitchBlock(e, kind);
            && Valid(w.e) && w.e.active == Some(kind) && w.e.started && w.e.visible == e.visible
            && Accept(PhaseOf(e), w.events) == Open(BlockOf(kind), w.e.index, e.active == Some(kind))
  {
    if e.active != Some(kind) {
      CloseFollows(e);
      var c := CloseActive(e);
      var start := BlockStart(Wire(e.index + 1), BlockOf(kind));
      AcceptOne(Idle(e.index + 1), start);
      AcceptAppend(PhaseOf(e), c.events, [start]);
    }
  }

  lemma DeltaFollows(e: Emit, head: OutMessage, kind: Active, piece: string)
    requires Valid(e) && Neutral(head)
    ensures Follows(e, EmitDelta(e, head, kind, piece))
  {
    if piece != "" {
      StartFollows(e, head);
      var s := EnsureStarted(e, head);
      var v := s.e.(visible := s.e.visible || kind == ActiveText);
      SwitchFollows(v, kind);
      var w := SwitchBlock(v, kind);
      var delta := if kind == ActiveText then TextDelta(piece) else ThinkingDelta(piece);
      var last := BlockDelta(Wire(w.e.index), delta);
      AcceptOne(Accept(PhaseOf(v), w.events), last);
      AcceptAppend(PhaseOf(e), s.events, w.events);
      AcceptAppend(PhaseOf(e), s.events + w.events, [last]);
    }
  }

  /** A block that is accepted whole: no delta for redacted thinking, one for a tool call. */
  ghost predicate Complete(block: Block, delta: Option<Delta>) {
    || (block.RedactedBlock? && delta.None?)
    || (block.ToolBlock? && delta.Some? && delta.value.InputJsonDelta?)
  }

  lemma WholeBlock(n: nat, block: Block, delta: Option<Delta>)
    requires Complete(block, delta)
    ensures Accept(Idle(n), WholeEvents(n, block, delta)) == Idle(n + 1)
  {
    var start, stop := BlockStart(Wire(n), block), BlockStop(Wire(n));
    var ds := if delta.Some? then [BlockDelta(Wire(n), delta.value)] else [];
    AcceptOne(Idle(n), start);
    AcceptAppend(Idle(n), [start], ds);
    AcceptAppend(Idle(n), [start] + ds, [stop]);
    if delta.Some? {
      AcceptOne(Open(block, n, false), ds[0]);
    }
    AcceptOne(Open(block, n, delta.Some?), stop);
  }

  lemma ClearFollows(e: Emit, head: OutMessage, visible: bool)
    requires Valid(e) && Neutral(head)
    ensures var c := Clear(e, head, visible);
            Follows(e, c) && c.e.started && c.e.active.None?
  {
    var s := EnsureStarted(e, head);
    var v := s.e.(visible := s.e.visible || visible);
    StartFollows(e, head);
    CloseFollows(v);
    AcceptAppend(PhaseOf(e), s.events, CloseActive(v).events);
  }

  lemma WholeFollows(e: Emit, head: OutMessage, visible: bool, block: Block, delta: Option<Delta>)
    requires Valid(e) && Neutral(head) && Complete(block, delta)
    ensures Follows(e, EmitWhole(e, head, visible, block, delta))
  {
    var c := Clear(e, head, visible);
    ClearFollows(e, head, visible);
    WholeBlock(c.e.index + 1, block, delta);
    AcceptAppend(PhaseOf(e), c.events, WholeEvents(c.e.index + 1, block, delta));
  }
}
