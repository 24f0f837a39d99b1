/** The parser as a class that updates its accumulator field by field. */
module EventParserClass {
  import opened Wrappers
  import opened Json
  import opened Kiro
  import opened Events
  import EventStream
  import Text

  class EventParser {
    const env: Env
    var id: string
    var name: string
    var input: string
    var drawn: nat

    ghost function State(): Parser
      reads this
    {
      Parser(Tool(id, name, input), drawn)
    }

    constructor (env: Env)
      ensures State() == Parser(IDLE, 0) && this.env == env
    {
      this.env := env;
      id, name, input, drawn := "", "", "", 0;
    }

    /** `ToolUseAccumulator::take`. */
    method Take() returns (ev: Event)
      modifies this
      ensures ev == Taken(old(State()).tool) && State() == old(State()).(tool := IDLE)
    {
      ev := Event.ToolUse(id, name, input);
      id, name, input := "", "", "";
    }

    method RejectToolInput() returns (r: Result<seq<Event>, EventError>)
      modifies this
      ensures State() == old(State()).(tool := IDLE)
      ensures r == Err(ToolInputTooLarge(old(id), MAX_TOOL_INPUT_BYTES))
    {
      var toolUseId := id;
      id, name, input := "", "", "";
      r := Err(ToolInputTooLarge(toolUseId, MAX_TOOL_INPUT_BYTES));
    }

    method ToolUse(v: Value) returns (r: Result<seq<Event>, EventError>)
      modifies this
      ensures Outcome(State(), r) == OnFragment(env, old(State()), FragmentOf(env, v))
    {
      hide ToolUseId;
      hide HasName;
      hide NameOf;
      hide Stops;
      hide OverCap;
      hide Grow;
      var out := StartIfNew(ToolUseId(v), HasName(v), FragmentOf(env, v));
      var given := NameOf(v);
      if given.Some? {
        name := given.value;
      }
      assert State() == Parser(Named(Started(env, old(State()), FragmentOf(env, v)).tool, FragmentOf(env, v)),
                               Started(env, old(State()), FragmentOf(env, v)).drawn);
      var over := AddInput(InputOf(v));
      if over {
        r := RejectToolInput();
        return;
      }
      if Stops(v) {
        var ev := Take();
        out := out + [ev];
      }
      r := Ok(out);
    }

    method StartIfNew(given: string, hasName: bool, ghost f: Fragment) returns (out: seq<Event>)
      requires given == f.id && hasName == f.named
      modifies this
      ensures State() == Started(env, old(State()), f) && out == Superseded(old(State()), f)
    {
      out := [];
      var currentId := given;
      var isNew := false;
      if currentId != "" && currentId != id {
        isNew := true;
      } else if currentId == "" && id == "" && hasName {
        currentId := env.draw(drawn);
        drawn := drawn + 1;
        isNew := true;
      }
      if isNew {
        if id != "" {
          var ev := Take();
          out := out + [ev];
        }
        id := currentId;
        name := "";
        input := "";
      }
    }

    /** Adds a fragment's input unless that takes the call over the cap. */
    method AddInput(given: Option<Value>) returns (over: bool)
      modifies this`input
      ensures over == OverCap(old(input), PieceOf(env, given))
      ensures input == if over then old(input) else Grow(old(input), PieceOf(env, given))
    {
      hide Text.Bytes;
      over := false;
      match given {
        case None =>
        case Some(Null) =>
        case Some(Str(s)) =>
          if Text.Bytes(input) + Text.Bytes(s) > MAX_TOOL_INPUT_BYTES {
            return true;
          }
          input := input + s;
        case Some(other) =>
          var serialized := env.show(other);
          if Text.Bytes(serialized) > MAX_TOOL_INPUT_BYTES {
            return true;
          }
          input := serialized;
      }
    }

    method Parse(f: EventStream.Frame) returns (r: Result<seq<Event>, EventError>)
      modifies this
      ensures Outcome(State(), r) == Events.Parse(env, old(State()), f)
    {
      hide KindOf;
      hide EventType;
      hide IsException;
      hide AssistantOf;
      hide ReasoningOf;
      hide MetadataOf;
      hide MeteringOf;
      hide InvalidStateOf;
      hide ExceptionOf;
      hide OnFragment;
      hide FragmentOf;
      if IsException(f) {
        return Ok([ExceptionOf(env, f)]);
      }
      var eventType := EventType(f);
      if eventType.None? {
        return Ok([]);
      }
      var v := env.json(f.payload);
      match KindOf(eventType.value) {
        case AssistantKind =>
          if v.None? {
            return Err(BadJson(env.text(eventType.value)));
          }
          r := Ok([AssistantOf(v.value)]);
        case ReasoningKind =>
          if v.None? {
            return Err(BadJson(env.text(eventType.value)));
          }
          r := Ok([ReasoningOf(v.value)]);
        case ToolKind =>
          if v.None? {
            return Ok([]);
          }
          r := ToolUse(v.value);
        case MetadataKind =>
          if v.None? {
            return Ok([]);
          }
          r := Ok([MetadataOf(v.value)]);
        case MeteringKind =>
          if v.None? {
            return Ok([]);
          }
          r := Ok([MeteringOf(v.value)]);
        case InvalidKind =>
          if v.None? {
            return Err(BadJson(env.text(eventType.value)));
          }
          r := Ok([InvalidStateOf(v.value)]);
        case OtherKind =>
          r := Ok([Ignored(env.text(eventType.value))]);
      }
    }

    method Finish() returns (r: Option<Event>)
      modifies this
      ensures (State(), r) == Flush(old(State()))
    {
      if id == "" {
        return None;
      }
      var ev := Take();
      r := Some(ev);
    }
  }
}
