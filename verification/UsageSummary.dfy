/** The usage counters and request guards as objects. */
module UsageSummaryClass {
  import opened Wrappers
  import opened UsageLedger

  function SatSub(n: nat): nat {
    if n == 0 then 0 else n - 1
  }

  class Counters {
    var started: nat
    var completed: nat
    var failed: nat
    var cancelled: nat
    var inFlight: nat
    var tokens: Tokens
    var durationTotal: nat
    var durationMax: nat
    var retries: nat
    var errors: seq<nat>

    ghost function Value(): Counts
      reads this
    {
      Counts(started, completed, failed, cancelled, inFlight, tokens, durationTotal, durationMax, retries, errors)
    }

    constructor ()
      ensures Value() == NO_COUNTS
    {
      started, completed, failed, cancelled, inFlight := 0, 0, 0, 0, 0;
      tokens := NO_TOKENS;
      durationTotal, durationMax, retries := 0, 0, 0;
      errors := seq(ERROR_KINDS, _ => 0);
    }

    method Begin()
      modifies this
      ensures Value() == Begun(old(Value()))
    {
      started := Sat(started + 1);
      inFlight := Sat(inFlight + 1);
    }

    method CountError(k: nat)
      modifies this`errors
      ensures errors == Bumped(old(errors), k)
    {
      if k < |errors| {
        errors := errors[k := Sat(errors[k] + 1)];
      }
    }

    method Terminal(outcome: Outcome, usage: Tokens, duration: nat, more: nat)
      modifies this
      ensures Value() == Terminated(old(Value()), Done(outcome, usage, duration, more))
    {
      hide Bumped;
      inFlight := SatSub(inFlight);
      match outcome {
        case Completed => completed := Sat(completed + 1);
        case Failed(kind) =>
          failed := Sat(failed + 1);
          CountError(kind);
        case Cancelled =>
          cancelled := Sat(cancelled + 1);
          CountError(CANCELLED);
      }
      tokens := AddTokens(tokens, usage);
      durationTotal := Sat(durationTotal + duration);
      durationMax := Max(durationMax, duration);
      retries := Sat(retries + more);
    }
  }

  class UsageSummary {
    const total: Counters
    const models: seq<Counters>

    /** No two counters are the same object. */
    ghost predicate Valid() {
      && total !in models
      && forall i, j | 0 <= i < j < |models| :: models[i] != models[j]
    }

    ghost function Parts(): set<object> {
      {total} + set i | 0 <= i < |models| :: models[i]
    }

    ghost function Values(): seq<Counts>
      reads models
    {
      seq(|models|, i requires 0 <= i < |models| reads models => models[i].Value())
    }

    constructor (n: nat)
      ensures Valid() && fresh(Parts())
      ensures total.Value() == Init(n).total && Values() == Init(n).models
    {
      var t := new Counters();
      var ms: seq<Counters> := [];
      while |ms| < n
        invariant |ms| <= n && t !in ms && fresh(t) && t.Value() == NO_COUNTS
        invariant forall i | 0 <= i < |ms| :: fresh(ms[i]) && ms[i].Value() == NO_COUNTS
        invariant forall i, j | 0 <= i < j < |ms| :: ms[i] != ms[j]
      {
        var c := new Counters();
        ms := ms + [c];
      }
      total, models := t, ms;
    }

    /** A request begins: it is counted in the total and under its model. */
    method Begin(model: nat) returns (g: RequestUsageGuard)
      requires Valid() && model < |models|
      modifies Parts()
      ensures total.Value() == Begun(old(total.Value()))
      ensures Values() == old(Values())[model := Begun(old(Values())[model])]
      ensures fresh(g) && g.summary == this && g.Value() == Guard(model, NO_TOKENS, None)
    {
      total.Begin();
      models[model].Begin();
      g := new RequestUsageGuard(this, model);
    }
  }

  class RequestUsageGuard {
    const summary: UsageSummary
    const modelIndex: nat
    var usage: Tokens
    var outputBytes: nat
    var terminal: bool
    /** How the request ended, for the record. */
    ghost var done: Option<Done>

    ghost predicate Valid()
      reads this
    {
      summary.Valid() && modelIndex < |summary.models| && (terminal <==> done.Some?)
    }

    ghost function Value(): Guard
      reads this
    {
      Guard(modelIndex, usage, done)
    }

    constructor (summary: UsageSummary, modelIndex: nat)
      requires summary.Valid() && modelIndex < |summary.models|
      ensures Valid() && this.summary == summary && Value() == Guard(modelIndex, NO_TOKENS, None)
    {
      this.summary, this.modelIndex := summary, modelIndex;
      usage, outputBytes, terminal, done := NO_TOKENS, 0, false, None;
    }

    method Update(usage: Tokens, outputBytes: nat)
      requires Valid()
      modifies this
      ensures Valid() && Value() == old(Value()).(usage := usage)
    {
      this.usage := usage;
      this.outputBytes := outputBytes;
    }

    /** Only the first transition counts. */
    method Transition(outcome: Outcome, duration: nat, completedAttempts: nat)
      requires Valid()
      modifies this, summary.Parts()
      ensures Valid()
      ensures old(terminal) ==>
                Value() == old(Value()) && summary.total.Value() == old(summary.total.Value()) && summary.Values() == old(summary.Values())
      ensures !old(terminal) ==>
                var d := Done(outcome, old(usage), if duration > 18446744073709551615 then 18446744073709551615 else duration,
                              if completedAttempts == 0 then 0 else completedAttempts - 1);
                && Value() == old(Value()).(done := Some(d))
                && summary.total.Value() == Terminated(old(summary.total.Value()), d)
                && summary.Values() == old(summary.Values())[modelIndex := Terminated(old(summary.Values())[modelIndex], d)]
    {
      hide Terminated;
      if terminal {
        return;
      }
      terminal := true;
      var ms := Sat(duration);
      var retries := SatSub(completedAttempts);
      done := Some(Done(outcome, usage, ms, retries));
      summary.total.Terminal(outcome, usage, ms, retries);
      summary.models[modelIndex].Terminal(outcome, usage, ms, retries);
    }

    /** `Drop`: a request that was not ended was cancelled. */
    method Drop(duration: nat, completedAttempts: nat)
      requires Valid()
      modifies this, summary.Parts()
      ensures Valid() && terminal
      ensures old(terminal) ==>
                Value() == old(Value()) && summary.total.Value() == old(summary.total.Value()) && summary.Values() == old(summary.Values())
      ensures !old(terminal) ==>
                var d := Done(Cancelled, old(usage), if duration > 18446744073709551615 then 18446744073709551615 else duration,
                              if completedAttempts == 0 then 0 else completedAttempts - 1);
                && Value() == old(Value()).(done := Some(d))
                && summary.total.Value() == Terminated(old(summary.total.Value()), d)
                && summary.Values() == old(summary.Values())[modelIndex := Terminated(old(summary.Values())[modelIndex], d)]
    {
      if !terminal {
        Transition(Cancelled, duration, completedAttempts);
      }
    }
  }
}
