/** Usage counters as values, and what holds between them in every run. */
module UsageLedger {
  import opened Wrappers

  const U64_MAX: nat := 0xFFFF_FFFF_FFFF_FFFF
  const ERROR_KINDS: nat := 11
  /** The index of the kind `Cancelled`. */
  const CANCELLED: nat := 9

  function Sat(n: nat): nat {
    if n > U64_MAX then U64_MAX else n
  }

  function Max(a: nat, b: nat): nat {
    if a < b then b else a
  }

  datatype Tokens = Tokens(
    reportedInput: nat, reportedOutput: nat, reportedCacheRead: nat, reportedCacheWrite: nat,
    estimatedInput: nat, estimatedOutput: nat)

  const NO_TOKENS := Tokens(0, 0, 0, 0, 0, 0)

  datatype Counts = Counts(
    started: nat, completed: nat, failed: nat, cancelled: nat, inFlight: nat,
    tokens: Tokens, durationTotal: nat, durationMax: nat, retries: nat, errors: seq<nat>)

  type ErrorKind = k: nat | k < 11

  datatype Outcome = Completed | Failed(kind: ErrorKind) | Cancelled

  const NO_COUNTS := Counts(0, 0, 0, 0, 0, NO_TOKENS, 0, 0, 0, seq(ERROR_KINDS, _ => 0))

  // ---- the counters -----------------------------------------------------------------------

  function Begun(c: Counts): Counts {
    c.(started := Sat(c.started + 1), inFlight := Sat(c.inFlight + 1))
  }

  function AddTokens(a: Tokens, b: Tokens): Tokens {
    Tokens(Sat(a.reportedInput + b.reportedInput), Sat(a.reportedOutput + b.reportedOutput),
           Sat(a.reportedCacheRead + b.reportedCacheRead), Sat(a.reportedCacheWrite + b.reportedCacheWrite),
           Sat(a.estimatedInput + b.estimatedInput), Sat(a.estimatedOutput + b.estimatedOutput))
  }

  function Bumped(errors: seq<nat>, k: nat): seq<nat> {
    if k < |errors| then errors[k := Sat(errors[k] + 1)] else errors
  }

  function Outcomed(c: Counts, o: Outcome): Counts {
    match o
    case Completed => c.(completed := Sat(c.completed + 1))
    case Failed(kind) => c.(failed := Sat(c.failed + 1), errors := Bumped(c.errors, kind))
    case Cancelled => c.(cancelled := Sat(c.cancelled + 1), errors := Bumped(c.errors, CANCELLED))
  }

  /** How a request ended. */
  datatype Done = Done(outcome: Outcome, usage: Tokens, duration: nat, retries: nat)

  function Terminated(c: Counts, d: Done): Counts {
    var o := Outcomed(c.(inFlight := if c.inFlight == 0 then 0 else c.inFlight - 1), d.outcome);
    o.(tokens := AddTokens(o.tokens, d.usage), durationTotal := Sat(o.durationTotal + d.duration),
       durationMax := Max(o.durationMax, d.duration), retries := Sat(o.retries + d.retries))
  }

  // ---- every interleaving -------------------------------------------------------------------

  /** A request guard: its model's slot, the usage last seen, and how it ended. */
  datatype Guard = Guard(model: nat, usage: Tokens, done: Option<Done>)

  datatype State = State(total: Counts, models: seq<Counts>, guards: seq<Guard>)

  /** `Finish` stands for `complete`, `fail` and a drop, which is a cancellation. */
  datatype Action =
    | Begin(model: nat)
    | Update(g: nat, usage: Tokens)
    | Finish(g: nat, outcome: Outcome, duration: nat, retries: nat)

  function Init(models: nat): State {
    State(NO_COUNTS, seq(models, _ => NO_COUNTS), [])
  }

  /** A model outside the catalog and a guard that was not begun do not exist; a finished guard stays finished. */
  function Act(s: State, a: Action): State {
    match a
    case Begin(m) =>
      if m >= |s.models| then s
      else State(Begun(s.total), s.models[m := Begun(s.models[m])], s.guards + [Guard(m, NO_TOKENS, None)])
    case Update(g, usage) =>
      if g >= |s.guards| then s else s.(guards := s.guards[g := s.guards[g].(usage := usage)])
    case Finish(g, outcome, duration, retries) =>
      if g >= |s.guards| || s.guards[g].done.Some? || s.guards[g].model >= |s.models| then s else
      var d := Done(outcome, s.guards[g].usage, duration, retries);
      var m := s.guards[g].model;
      State(Terminated(s.total, d), s.models[m := Terminated(s.models[m], d)], s.guards[g := s.guards[g].(done := Some(d))])
  }

  function Run(s: State, actions: seq<Action>): State
    decreases |actions|
  {
    if actions == [] then s else Run(Act(s, actions[0]), actions[1..])
  }

  // ---- the counters as sums over the guards -----------------------------------------------------

  datatype Gauge =
    | StartedG | CompletedG | FailedG | CancelledG | InFlightG
    | ReportedInputG | ReportedOutputG | ReportedCacheReadG | ReportedCacheWriteG | EstimatedInputG | EstimatedOutputG
    | DurationG | RetriesG | ErrorG(k: ErrorKind)

  function Get(c: Counts, f: Gauge): nat {
    match f
    case StartedG => c.started
    case CompletedG => c.completed
    case FailedG => c.failed
    case CancelledG => c.cancelled
    case InFlightG => c.inFlight
    case ReportedInputG => c.tokens.reportedInput
    case ReportedOutputG => c.tokens.reportedOutput
    case ReportedCacheReadG => c.tokens.reportedCacheRead
    case ReportedCacheWriteG => c.tokens.reportedCacheWrite
    case EstimatedInputG => c.tokens.estimatedInput
    case EstimatedOutputG => c.tokens.estimatedOutput
    case DurationG => c.durationTotal
    case RetriesG => c.retries
    case ErrorG(k) => if k < |c.errors| then c.errors[k] else 0
  }

  function Unit(b: bool): nat {
    if b then 1 else 0
  }

  /** What a request that ended adds. */
  function DoneWeight(d: Done, f: Gauge): nat {
    match f
    case StartedG => 1
    case CompletedG => Unit(d.outcome.Completed?)
    case FailedG => Unit(d.outcome.Failed?)
    case CancelledG => Unit(d.outcome.Cancelled?)
    case InFlightG => 0
    case ReportedInputG => d.usage.reportedInput
    case ReportedOutputG => d.usage.reportedOutput
    case ReportedCacheReadG => d.usage.reportedCacheRead
    case ReportedCacheWriteG => d.usage.reportedCacheWrite
    case EstimatedInputG => d.usage.estimatedInput
    case EstimatedOutputG => d.usage.estimatedOutput
    case DurationG => d.duration
    case RetriesG => d.retries
    case ErrorG(k) => Unit((d.outcome.Failed? && d.outcome.kind == k) || (d.outcome.Cancelled? && k == 9))
  }

  function Weight(g: Guard, f: Gauge): nat {
    if g.done.Some? then DoneWeight(g.done.value, f) else Unit(f.StartedG? || f.InFlightG?)
  }

  /** The guards of one model, or all of them. */
  predicate Of(g: Guard, who: Option<nat>) {
    who.None? || g.model == who.value
  }

  function Sum(guards: seq<Guard>, f: Gauge, who: Option<nat>): nat {
    if guards == [] then 0 else (if Of(guards[0], who) then Weight(guards[0], f) else 0) + Sum(guards[1..], f, who)
  }

  function Longest(guards: seq<Guard>, who: Option<nat>): nat {
    if guards == [] then 0
    else Max(if Of(guards[0], who) && guards[0].done.Some? then guards[0].done.value.duration else 0, Longest(guards[1..], who))
  }

  lemma {:induction false} SumSnoc(guards: seq<Guard>, g: Guard, f: Gauge, who: Option<nat>)
    ensures Sum(guards + [g], f, who) == Sum(guards, f, who) + if Of(g, who) then Weight(g, f) else 0
    decreases |guards|
  {
    hide Weight;
    if guards == [] {
      assert guards + [g] == [g] && [g][1..] == [];
    } else {
      assert (guards + [g])[1..] == guards[1..] + [g];
      SumSnoc(guards[1..], g, f, who);
    }
  }

  lemma {:induction false} LongestSnoc(guards: seq<Guard>, g: Guard, who: Option<nat>)
    requires g.done.None?
    ensures Longest(guards + [g], who) == Longest(guards, who)
    decreases |guards|
  {
    if guards == [] {
      assert guards + [g] == [g] && [g][1..] == [];
    } else {
      assert (guards + [g])[1..] == guards[1..] + [g];
      LongestSnoc(guards[1..], g, who);
    }
  }

  /** Replacing one guard changes a sum by the difference of their weights. */
  lemma {:induction false} SumReplace(guards: seq<Guard>, i: nat, g: Guard, f: Gauge, who: Option<nat>)
    requires i < |guards| && g.model == guards[i].model
    ensures Sum(guards[i := g], f, who) + (if Of(g, who) then Weight(guards[i], f) else 0)
            == Sum(guards, f, who) + if Of(g, who) then Weight(g, f) else 0
    decreases i
  {
    hide Weight;
    var r := guards[i := g];
    if i == 0 {
      assert r[1..] == guards[1..];
    } else {
      assert r[1..] == guards[1..][i - 1 := g];
      SumReplace(guards[1..], i - 1, g, f, who);
    }
  }

  lemma {:induction false} LongestReplace(guards: seq<Guard>, i: nat, g: Guard, who: Option<nat>)
    requires i < |guards| && g.model == guards[i].model && guards[i].done.None?
    ensures Longest(guards[i := g], who)
            == Max(Longest(guards, who), if Of(g, who) && g.done.Some? then g.done.value.duration else 0)
    decreases i
  {
    var r := guards[i := g];
    if i == 0 {
      assert r[1..] == guards[1..];
    } else {
      assert r[1..] == guards[1..][i - 1 := g];
      LongestReplace(guards[1..], i - 1, g, who);
    }
  }

  lemma {:induction false} FlightBound(guards: seq<Guard>, who: Option<nat>)
    ensures Sum(guards, InFlightG, who) <= |guards|
    decreases |guards|
  {
    if guards != [] {
      FlightBound(guards[1..], who);
    }
  }

  // ---- the invariant -----------------------------------------------------------------------------

  /** Every counter is the sum over its guards, cut off at the largest 64-bit number. */
  ghost predicate Tallies(c: Counts, guards: seq<Guard>, who: Option<nat>) {
    && |c.errors| == ERROR_KINDS
    && (forall f: Gauge :: Get(c, f) == Sat(Sum(guards, f, who)))
    && c.durationMax == Longest(guards, who)
  }

  ghost predicate Inv(s: State) {
    && Tallies(s.total, s.guards, None)
    && (forall m | 0 <= m < |s.models| :: Tallies(s.models[m], s.guards, Some(m)))
    && (forall g | g in s.guards :: g.model < |s.models|)
  }

  lemma BegunGets(c: Counts, f: Gauge)
    ensures Get(Begun(c), f) == if f.StartedG? || f.InFlightG? then Sat(Get(c, f) + 1) else Get(c, f)
  {
  }

  lemma BeginTallies(c: Counts, guards: seq<Guard>, who: Option<nat>, m: nat)
    requires Tallies(c, guards, who)
    ensures var g := Guard(m, NO_TOKENS, None);
            Tallies(if Of(g, who) then Begun(c) else c, guards + [g], who)
  {
    hide Get;
    hide Begun;
    hide Sum;
    hide Longest;
    var g := Guard(m, NO_TOKENS, None);
    var d := if Of(g, who) then Begun(c) else c;
    assert |d.errors| == ERROR_KINDS && d.durationMax == c.durationMax by { BegunKeeps(c); }
    LongestSnoc(guards, g, who);
    forall f: Gauge ensures Get(d, f) == Sat(Sum(guards + [g], f, who)) {
      SumSnoc(guards, g, f, who);
      BegunGets(c, f);
      assert Get(c, f) == Sat(Sum(guards, f, who));
    }
  }

  lemma BegunKeeps(c: Counts)
    ensures Begun(c).errors == c.errors && Begun(c).durationMax == c.durationMax
  {
  }

  lemma TerminatedGets(c: Counts, d: Done, f: Gauge)
    requires |c.errors| == ERROR_KINDS
    ensures Get(Terminated(c, d), f)
            == match f
               case StartedG => c.started
               case InFlightG => if c.inFlight == 0 then 0 else c.inFlight - 1
               case _ => Sat(Get(c, f) + DoneWeight(d, f))
    ensures |Terminated(c, d).errors| == ERROR_KINDS && Terminated(c, d).durationMax == Max(c.durationMax, d.duration)
    requires forall g: Gauge :: Get(c, g) <= U64_MAX
  {
    assert Get(c, f) <= U64_MAX;
  }

  lemma FinishTallies(c: Counts, guards: seq<Guard>, who: Option<nat>, i: nat, d: Done)
    requires Tallies(c, guards, who) && i < |guards| && guards[i].done.None? && |guards| <= U64_MAX
    ensures var g := guards[i].(done := Some(d));
            Tallies(if Of(g, who) then Terminated(c, d) else c, guards[i := g], who)
  {
    hide Get;
    hide Terminated;
    hide Sum;
    hide Longest;
    hide DoneWeight;
    var g := guards[i].(done := Some(d));
    var e := if Of(g, who) then Terminated(c, d) else c;
    LongestReplace(guards, i, g, who);
    assert forall f: Gauge :: Get(c, f) <= U64_MAX by {
      forall f: Gauge ensures Get(c, f) <= U64_MAX { assert Get(c, f) == Sat(Sum(guards, f, who)); }
    }
    TerminatedGets(c, d, StartedG);
    forall f: Gauge ensures Get(e, f) == Sat(Sum(guards[i := g], f, who)) {
      FinishOne(c, guards, who, i, d, f);
    }
  }

  lemma FinishOne(c: Counts, guards: seq<Guard>, who: Option<nat>, i: nat, d: Done, f: Gauge)
    requires Tallies(c, guards, who) && i < |guards| && guards[i].done.None? && |guards| <= U64_MAX
    requires forall h: Gauge :: Get(c, h) <= U64_MAX
    ensures var g := guards[i].(done := Some(d));
            Get(if Of(g, who) then Terminated(c, d) else c, f) == Sat(Sum(guards[i := g], f, who))
  {
    hide Terminated;
    hide Sum;
    hide Longest;
    var g := guards[i].(done := Some(d));
    SumReplace(guards, i, g, f, who);
    TerminatedGets(c, d, f);
    assert Get(c, f) == Sat(Sum(guards, f, who));
    FlightBound(guards, who);
  }

  lemma UpdateTallies(c: Counts, guards: seq<Guard>, who: Option<nat>, i: nat, usage: Tokens)
    requires Tallies(c, guards, who) && i < |guards|
    ensures Tallies(c, guards[i := guards[i].(usage := usage)], who)
  {
    hide Get;
    hide Sum;
    hide Longest;
    var g := guards[i].(usage := usage);
    forall f: Gauge ensures Sum(guards[i := g], f, who) == Sum(guards, f, who) {
      SumReplace(guards, i, g, f, who);
    }
    LongestSame(guards, i, g, who);
    forall f: Gauge ensures Get(c, f) == Sat(Sum(guards[i := g], f, who)) {
      assert Get(c, f) == Sat(Sum(guards, f, who));
    }
  }

  lemma {:induction false} LongestSame(guards: seq<Guard>, i: nat, g: Guard, who: Option<nat>)
    requires i < |guards| && g.model == guards[i].model && g.done == guards[i].done
    ensures Longest(guards[i := g], who) == Longest(guards, who)
    decreases i
  {
    var r := guards[i := g];
    if i == 0 {
      assert r[1..] == guards[1..];
    } else {
      assert r[1..] == guards[1..][i - 1 := g];
      LongestSame(guards[1..], i - 1, g, who);
    }
  }

  lemma InitInv(models: nat)
    ensures Inv(Init(models))
  {
    forall who: Option<nat> ensures Tallies(NO_COUNTS, [], who) {
      forall f: Gauge ensures Get(NO_COUNTS, f) == Sat(Sum([], f, who)) {
      }
    }
  }

  lemma ActInv(s: State, a: Action)
    requires Inv(s) && |s.guards| <= U64_MAX
    ensures Inv(Act(s, a))
  {
    hide Tallies;
    hide Begun;
    hide Terminated;
    match a
    case Begin(m) =>
      BeginTallies(s.total, s.guards, None, m);
      forall k | 0 <= k < |s.models| ensures Tallies(if k == m then Begun(s.models[k]) else s.models[k], s.guards + [Guard(m, NO_TOKENS, None)], Some(k)) {
        BeginTallies(s.models[k], s.guards, Some(k), m);
      }
    case Update(g, usage) =>
      if g < |s.guards| {
        UpdateTallies(s.total, s.guards, None, g, usage);
        forall k | 0 <= k < |s.models| ensures Tallies(s.models[k], s.guards[g := s.guards[g].(usage := usage)], Some(k)) {
          UpdateTallies(s.models[k], s.guards, Some(k), g, usage);
        }
      }
    case Finish(g, outcome, duration, retries) =>
      if g < |s.guards| && s.guards[g].done.None? {
        var d := Done(outcome, s.guards[g].usage, duration, retries);
        var m := s.guards[g].model;
        FinishTallies(s.total, s.guards, None, g, d);
        forall k | 0 <= k < |s.models|
          ensures Tallies(if k == m then Terminated(s.models[k], d) else s.models[k], s.guards[g := s.guards[g].(done := Some(d))], Some(k))
        {
          FinishTallies(s.models[k], s.guards, Some(k), g, d);
        }
      }
  }

  lemma {:induction false} GuardsGrow(s: State, actions: seq<Action>)
    ensures |s.guards| <= |Run(s, actions).guards|
    decreases |actions|
  {
    hide Begun;
    hide Terminated;
    if actions != [] {
      GuardsGrow(Act(s, actions[0]), actions[1..]);
    }
  }

  lemma {:induction false} RunInv(s: State, actions: seq<Action>)
    requires Inv(s) && |Run(s, actions).guards| <= U64_MAX
    ensures Inv(Run(s, actions))
    decreases |actions|
  {
    hide Inv;
    hide Act;
    if actions != [] {
      GuardsGrow(s, actions);
      ActInv(s, actions[0]);
      RunInv(Act(s, actions[0]), actions[1..]);
    }
  }
}
