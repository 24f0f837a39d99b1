/** What the usage report promises: its counts balance in every run. */
module UsageLaws {
  import opened Wrappers
  import opened UsageLedger

  /** Every guard is live or ended in one of three ways. */
  lemma {:induction false} SumBalances(guards: seq<Guard>, who: Option<nat>)
    ensures Sum(guards, StartedG, who)
            == Sum(guards, CompletedG, who) + Sum(guards, FailedG, who) + Sum(guards, CancelledG, who) + Sum(guards, InFlightG, who)
    decreases |guards|
  {
    if guards != [] {
      SumBalances(guards[1..], who);
    }
  }

  function Total(ns: seq<nat>): nat {
    if ns == [] then 0 else ns[0] + Total(ns[1..])
  }

  lemma {:induction false} TotalReplace(ns: seq<nat>, i: nat, n: nat)
    requires i < |ns|
    ensures Total(ns[i := n]) + ns[i] == Total(ns) + n
    decreases i
  {
    if i == 0 {
      assert ns[i := n][1..] == ns[1..];
    } else {
      assert ns[i := n][1..] == ns[1..][i - 1 := n];
      TotalReplace(ns[1..], i - 1, n);
    }
  }

  function ErrorSums(guards: seq<Guard>, who: Option<nat>): seq<nat> {
    seq(ERROR_KINDS, k requires 0 <= k < ERROR_KINDS => Sum(guards, ErrorG(k), who))
  }

  lemma {:induction false} TotalZero(ns: seq<nat>)
    requires forall k | 0 <= k < |ns| :: ns[k] == 0
    ensures Total(ns) == 0
    decreases |ns|
  {
    if ns != [] {
      TotalZero(ns[1..]);
    }
  }

  /** The error a guard is counted under. */
  function KindIndex(g: Guard): Option<nat> {
    if g.done.Some? && g.done.value.outcome.Failed? then Some(g.done.value.outcome.kind)
    else if g.done.Some? && g.done.value.outcome.Cancelled? then Some(CANCELLED)
    else None
  }

  /** The errors counted by kind are the requests that failed or were cancelled. */
  lemma {:induction false} ErrorsBalance(guards: seq<Guard>, who: Option<nat>)
    ensures Total(ErrorSums(guards, who)) == Sum(guards, FailedG, who) + Sum(guards, CancelledG, who)
    decreases |guards|
  {
    hide Total;
    if guards == [] {
      TotalZero(ErrorSums(guards, who));
    } else {
      var g := guards[0];
      var rest := ErrorSums(guards[1..], who);
      ErrorsBalance(guards[1..], who);
      var k := KindIndex(g);
      if k.Some? && Of(g, who) {
        assert ErrorSums(guards, who) == rest[k.value := rest[k.value] + 1];
        TotalReplace(rest, k.value, rest[k.value] + 1);
      } else {
        assert ErrorSums(guards, who) == rest;
      }
    }
  }

  /** Without saturation: what was started has completed, failed, was cancelled or is in flight, and the error
      counts add up to the failures and cancellations. This holds for the total and for each model. */
  lemma CountsBalance(c: Counts, guards: seq<Guard>, who: Option<nat>)
    requires Tallies(c, guards, who) && |guards| <= U64_MAX
    ensures c.started == c.completed + c.failed + c.cancelled + c.inFlight
    ensures Total(c.errors) == c.failed + c.cancelled
  {
    hide Sum;
    hide Longest;
    hide Total;
    SumBalances(guards, who);
    ErrorsBalance(guards, who);
    StartedBound(guards, who);
    assert Get(c, StartedG) == Sat(Sum(guards, StartedG, who));
    assert Get(c, CompletedG) == Sat(Sum(guards, CompletedG, who));
    assert Get(c, FailedG) == Sat(Sum(guards, FailedG, who));
    assert Get(c, CancelledG) == Sat(Sum(guards, CancelledG, who));
    assert Get(c, InFlightG) == Sat(Sum(guards, InFlightG, who));
    forall k | 0 <= k < ERROR_KINDS ensures c.errors[k] == ErrorSums(guards, who)[k] {
      assert Get(c, ErrorG(k)) == Sat(Sum(guards, ErrorG(k), who));
      ErrorBound(guards, who, k);
    }
    assert c.errors == ErrorSums(guards, who);
  }

  lemma {:induction false} StartedBound(guards: seq<Guard>, who: Option<nat>)
    ensures Sum(guards, StartedG, who) <= |guards|
    decreases |guards|
  {
    if guards != [] {
      StartedBound(guards[1..], who);
    }
  }

  lemma {:induction false} ErrorBound(guards: seq<Guard>, who: Option<nat>, k: ErrorKind)
    ensures Sum(guards, ErrorG(k), who) <= |guards|
    decreases |guards|
  {
    if guards != [] {
      ErrorBound(guards[1..], who, k);
    }
  }

  function Live(guards: seq<Guard>, who: Option<nat>): nat {
    if guards == [] then 0 else Unit(Of(guards[0], who) && guards[0].done.None?) + Live(guards[1..], who)
  }

  lemma {:induction false} InFlightIsLive(guards: seq<Guard>, who: Option<nat>)
    ensures Sum(guards, InFlightG, who) == Live(guards, who)
    decreases |guards|
  {
    if guards != [] {
      InFlightIsLive(guards[1..], who);
    }
  }

  // ---- the total is the sum over the models -------------------------------------------------------

  /** A gauge summed over the first `n` models. */
  function OverModels(guards: seq<Guard>, f: Gauge, n: nat): nat {
    if n == 0 then 0 else OverModels(guards, f, n - 1) + Sum(guards, f, Some(n - 1))
  }

  lemma {:induction false} OneGuardOver(g: Guard, rest: seq<Guard>, f: Gauge, n: nat)
    ensures OverModels([g] + rest, f, n) == OverModels(rest, f, n) + if g.model < n then Weight(g, f) else 0
    decreases n
  {
    hide Weight;
    if n > 0 {
      OneGuardOver(g, rest, f, n - 1);
      assert ([g] + rest)[1..] == rest;
    }
  }

  lemma {:induction false} NoGuardsOver(f: Gauge, n: nat)
    ensures OverModels([], f, n) == 0
    decreases n
  {
    if n > 0 {
      NoGuardsOver(f, n - 1);
    }
  }

  lemma {:induction false} ModelsAddUp(guards: seq<Guard>, f: Gauge, n: nat)
    requires forall g | g in guards :: g.model < n
    ensures Sum(guards, f, None) == OverModels(guards, f, n)
    decreases |guards|
  {
    hide Weight;
    if guards == [] {
      NoGuardsOver(f, n);
    } else {
      ModelsAddUp(guards[1..], f, n);
      OneGuardOver(guards[0], guards[1..], f, n);
      assert guards == [guards[0]] + guards[1..];
    }
  }

  /** A gauge of the counters of the first `n` models. */
  function OverCounts(models: seq<Counts>, f: Gauge, n: nat): nat
    requires n <= |models|
  {
    if n == 0 then 0 else OverCounts(models, f, n - 1) + Get(models[n - 1], f)
  }

  lemma {:induction false} SaturatedOver(models: seq<Counts>, guards: seq<Guard>, f: Gauge, n: nat)
    requires n <= |models| && forall m | 0 <= m < |models| :: Tallies(models[m], guards, Some(m))
    ensures Sat(OverCounts(models, f, n)) == Sat(OverModels(guards, f, n))
    decreases n
  {
    hide Get;
    hide Sum;
    hide Longest;
    if n > 0 {
      SaturatedOver(models, guards, f, n - 1);
      assert Tallies(models[n - 1], guards, Some(n - 1));
      assert Get(models[n - 1], f) == Sat(Sum(guards, f, Some(n - 1)));
    }
  }

  function LongestOver(models: seq<Counts>, n: nat): nat
    requires n <= |models|
  {
    if n == 0 then 0 else Max(LongestOver(models, n - 1), models[n - 1].durationMax)
  }

  function LongestModels(guards: seq<Guard>, n: nat): nat {
    if n == 0 then 0 else Max(LongestModels(guards, n - 1), Longest(guards, Some(n - 1)))
  }

  lemma {:induction false} OneGuardLongest(g: Guard, rest: seq<Guard>, n: nat)
    ensures LongestModels([g] + rest, n)
            == Max(if g.model < n && g.done.Some? then g.done.value.duration else 0, LongestModels(rest, n))
    decreases n
  {
    if n > 0 {
      OneGuardLongest(g, rest, n - 1);
      assert ([g] + rest)[1..] == rest;
    }
  }

  lemma {:induction false} NoGuardsLongest(n: nat)
    ensures LongestModels([], n) == 0
    decreases n
  {
    if n > 0 {
      NoGuardsLongest(n - 1);
    }
  }

  lemma {:induction false} LongestAddsUp(guards: seq<Guard>, n: nat)
    requires forall g | g in guards :: g.model < n
    ensures Longest(guards, None) == LongestModels(guards, n)
    decreases |guards|
  {
    if guards == [] {
      NoGuardsLongest(n);
    } else {
      LongestAddsUp(guards[1..], n);
      OneGuardLongest(guards[0], guards[1..], n);
      assert guards == [guards[0]] + guards[1..];
    }
  }

  lemma {:induction false} SameLongest(models: seq<Counts>, guards: seq<Guard>, n: nat)
    requires n <= |models| && forall m | 0 <= m < |models| :: Tallies(models[m], guards, Some(m))
    ensures LongestOver(models, n) == LongestModels(guards, n)
    decreases n
  {
    hide Get;
    hide Sum;
    hide Longest;
    if n > 0 {
      SameLongest(models, guards, n - 1);
      assert Tallies(models[n - 1], guards, Some(n - 1));
    }
  }

  /** A sum in 64 bits. */
  function Capped(n: nat): nat {
    if n > 18446744073709551615 then 18446744073709551615 else n
  }

  /**
   In every run of begins, updates, completions, failures and drops, interleaved in any way: the counts of the
   total and of every model balance and are the sums over their guards, the requests in flight are the guards that
   have not ended, and every total is the sum over the models, the longest duration their maximum, cut off at the largest 64-bit number.
   */
  lemma UsageIsConserved(models: nat, actions: seq<Action>, f: Gauge, m: nat)
    requires |Run(Init(models), actions).guards| <= 18446744073709551615 && m < models
    ensures var s := Run(Init(models), actions);
            && |s.models| == models
            && s.total.started == s.total.completed + s.total.failed + s.total.cancelled + s.total.inFlight
            && Total(s.total.errors) == s.total.failed + s.total.cancelled
            && s.models[m].started == s.models[m].completed + s.models[m].failed + s.models[m].cancelled + s.models[m].inFlight
            && Total(s.models[m].errors) == s.models[m].failed + s.models[m].cancelled
            && s.total.inFlight == Live(s.guards, None) && s.models[m].inFlight == Live(s.guards, Some(m))
            && Get(s.total, f) == Capped(Sum(s.guards, f, None)) && Get(s.models[m], f) == Capped(Sum(s.guards, f, Some(m)))
            && Get(s.total, f) == Capped(OverCounts(s.models, f, models))
            && s.total.durationMax == LongestOver(s.models, models)
  {
    hide Run;
    hide Tallies;
    var s := Run(Init(models), actions);
    InitInv(models);
    RunInv(Init(models), actions);
    ModelsKept(Init(models), actions);
    CountsBalance(s.total, s.guards, None);
    CountsBalance(s.models[m], s.guards, Some(m));
    LiveCount(s.total, s.guards, None);
    LiveCount(s.models[m], s.guards, Some(m));
    ModelsAddUp(s.guards, f, models);
    SaturatedOver(s.models, s.guards, f, models);
    LongestAddsUp(s.guards, models);
    SameLongest(s.models, s.guards, models);
    TalliesGet(s.total, s.guards, None, f);
    TalliesGet(s.models[m], s.guards, Some(m), f);
  }

  lemma LiveCount(c: Counts, guards: seq<Guard>, who: Option<nat>)
    requires Tallies(c, guards, who) && |guards| <= U64_MAX
    ensures c.inFlight == Live(guards, who)
  {
    InFlightIsLive(guards, who);
    FlightBound(guards, who);
    assert Get(c, InFlightG) == Sat(Sum(guards, InFlightG, who));
  }

  lemma TalliesGet(c: Counts, guards: seq<Guard>, who: Option<nat>, f: Gauge)
    requires Tallies(c, guards, who)
    ensures Get(c, f) == Sat(Sum(guards, f, who)) && c.durationMax == Longest(guards, who)
  {
  }

  lemma {:induction false} ModelsKept(s: State, actions: seq<Action>)
    ensures |Run(s, actions).models| == |s.models|
    decreases |actions|
  {
    hide Begun;
    hide Terminated;
    if actions != [] {
      ModelsKept(Act(s, actions[0]), actions[1..]);
    }
  }

  /** A guard that ended stays as it ended, and ending it again changes no counter. */
  lemma {:induction false} EndsOnce(s: State, actions: seq<Action>, g: nat)
    requires g < |s.guards| && s.guards[g].done.Some?
    ensures g < |Run(s, actions).guards| && Run(s, actions).guards[g].done == s.guards[g].done
    ensures forall o: Outcome, d: nat, r: nat :: Act(s, Finish(g, o, d, r)) == s
    decreases |actions|
  {
    hide Begun;
    hide Terminated;
    if actions != [] {
      EndsOnce(Act(s, actions[0]), actions[1..], g);
    }
  }

  // ---- the slot of a model ------------------------------------------------------------------------------

  /** A catalog row: always in the large context tier, or in both tiers, or in the small one only. */
  datatype Row = Row(always1m: bool, has1m: bool)

  datatype Key = Key(row: nat, context1m: bool)

  function Width(r: Row): nat {
    if r.always1m || !r.has1m then 1 else 2
  }

  function Widths(rows: seq<Row>): nat {
    if rows == [] then 0 else Widths(rows[..|rows| - 1]) + Width(rows[|rows| - 1])
  }

  /** A key that the catalog hands out. */
  predicate Routable(rows: seq<Row>, k: Key) {
    k.row < |rows| && (if rows[k.row].always1m then k.context1m else k.context1m ==> rows[k.row].has1m)
  }

  /** `catalog_index`. */
  function Slot(rows: seq<Row>, k: Key): nat
    requires Routable(rows, k)
  {
    Widths(rows[..k.row]) + Unit(k.context1m && !rows[k.row].always1m)
  }

  function KeysOf(i: nat, r: Row): seq<Key> {
    if r.always1m then [Key(i, true)]
    else [Key(i, false)] + if r.has1m then [Key(i, true)] else []
  }

  /** `models`: the keys in catalog order. */
  function Keys(rows: seq<Row>): seq<Key> {
    if rows == [] then []
    else Keys(rows[..|rows| - 1]) + KeysOf(|rows| - 1, rows[|rows| - 1])
  }

  lemma {:induction false} KeysWidth(rows: seq<Row>)
    ensures |Keys(rows)| == Widths(rows)
    decreases |rows|
  {
    if rows != [] {
      KeysWidth(rows[..|rows| - 1]);
    }
  }

  /** The slot of every key is its place in the list of models: no two keys share a slot. */
  lemma {:induction false} SlotIsPlace(rows: seq<Row>, k: Key)
    requires Routable(rows, k)
    ensures Slot(rows, k) < |Keys(rows)| && Keys(rows)[Slot(rows, k)] == k
    decreases |rows|
  {
    var front := rows[..|rows| - 1];
    KeysWidth(front);
    if k.row < |front| {
      SlotIsPlace(front, k);
      assert front[..k.row] == rows[..k.row];
    }
  }

  /** Every place in the list is the slot of the key that is there: no slot is unused. */
  lemma {:induction false} PlaceIsSlot(rows: seq<Row>, i: nat)
    requires i < |Keys(rows)|
    ensures Routable(rows, Keys(rows)[i]) && Slot(rows, Keys(rows)[i]) == i
    decreases |rows|
  {
    var front := rows[..|rows| - 1];
    KeysWidth(front);
    if i < |Keys(front)| {
      PlaceIsSlot(front, i);
      assert front[..Keys(front)[i].row] == rows[..Keys(front)[i].row];
    }
  }
}
