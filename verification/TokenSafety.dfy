/** What holds in every run of the credential protocol, whatever its callers and its environment do. */
module TokenSafety {
  import opened Wrappers
  import opened TokenProtocol

  /** Where the caller that holds the gate is. */
  function Holder(s: State): Pc {
    if s.gate.Some? && s.gate.value < |s.callers| then s.callers[s.gate.value] else Idle
  }

  ghost predicate Gated(s: State) {
    && (s.gate.Some? ==> s.gate.value < |s.callers|)
    && (forall c | 0 <= c < |s.callers| :: Holds(s.callers[c]) <==> s.gate == Some(c))
  }

  ghost predicate Inv(buffer: nat, s: State) {
    Gated(s) && Core(buffer, s.sh, Holder(s), s.log)
  }

  lemma InitInv(buffer: nat, n: nat, db: Option<Creds>, now: Time)
    ensures Inv(buffer, Init(n, db, now))
  {
    assert SpentKeys([]) == {};
  }

  /** A caller that holds the gate goes on holding it or is done. */
  lemma MovedPlace(buffer: nat, now: Time, db: Option<Creds>, sh: Shared, c: nat, pc: Pc, choice: Choice)
    requires Holds(pc)
    ensures var m := Moved(buffer, now, db, sh, c, pc, choice);
            m.Some? ==> m.value.pc.Idle? || Holds(m.value.pc)
  {
    hide Minted;
    hide Valid;
    hide Burned;
    hide Burn;
    hide CachedValid;
  }

  lemma InsideInv(buffer: nat, s: State, c: nat, choice: Choice)
    requires Inv(buffer, s) && c < |s.callers| && Holds(s.callers[c])
    ensures Inv(buffer, Inside(buffer, s, c, choice))
  {
    hide Moved;
    hide Core;
    assert s.gate == Some(c) && Holder(s) == s.callers[c];
    MovedPlace(buffer, s.now, s.db, s.sh, c, s.callers[c], choice);
    MovedKeeps(buffer, s.now, s.db, s.sh, c, s.callers[c], choice, s.log);
  }

  /** A caller that does not hold the gate moves without the holder noticing. */
  lemma PlacedOutside(s: State, c: nat, pc: Pc)
    requires Gated(s) && c < |s.callers| && !Holds(s.callers[c]) && !Holds(pc)
    ensures Gated(Placed(s, c, pc)) && Holder(Placed(s, c, pc)) == Holder(s)
  {
  }

  lemma Acquired(buffer: nat, s: State, c: nat)
    requires Inv(buffer, s) && c < |s.callers| && s.gate.None?
    ensures Inv(buffer, Placed(s, c, Enter).(gate := Some(c)))
  {
    hide Safe;
    assert Holder(s) == Idle;
    EnterCore(buffer, s.sh, s.log);
  }

  lemma EnterCore(buffer: nat, sh: Shared, log: seq<Event>)
    requires Core(buffer, sh, Idle, log)
    ensures Core(buffer, sh, Enter, log)
  {
    hide Safe;
    forall k ensures k in SpentKeys(log) <==> Burned(sh, k) {
      assert k in SpentKeys(log) <==> (Burned(sh, k) || (Idle.Past200? && k == 0));
    }
  }

  lemma ServedCore(buffer: nat, sh: Shared, pc: Pc, log: seq<Event>, e: Event)
    requires Core(buffer, sh, pc, log) && Proper(buffer, e) && !e.Sent? && !e.Spent?
    ensures Core(buffer, sh, pc, log + [e])
  {
    hide Safe;
    hide SpentKeys;
    hide Proper;
    SafeOne(buffer, log, e);
    assert SpentKeys(log) + {} == SpentKeys(log);
  }

  lemma OutsideInv(buffer: nat, s: State, c: nat, choice: Choice)
    requires Inv(buffer, s) && c < |s.callers| && !Holds(s.callers[c])
    ensures Inv(buffer, Outside(buffer, s, c, choice))
  {
    hide Core;
    PlacedOutside(s, c, Idle);
    PlacedOutside(s, c, Wait);
    PlacedOutside(s, c, Peek);
    var valid := CachedValid(buffer, s.now, s.sh);
    if s.callers[c].Peek? && valid.Some? {
      ServedCore(buffer, s.sh, Holder(s), s.log, Served(c, valid.value, false, s.now));
    }
    if s.callers[c].Wait? && s.gate.None? {
      Acquired(buffer, s, c);
    }
  }

  lemma InvalidateCore(buffer: nat, sh: Shared, pc: Pc, log: seq<Event>)
    requires Core(buffer, sh, pc, log)
    ensures Core(buffer, sh.(forced := true), pc, log + [Invalidated])
  {
    hide Safe;
    hide SpentKeys;
    ServedCore(buffer, sh, pc, log, Invalidated);
    var f := sh.(forced := true);
    var spent := SpentKeys(log + [Invalidated]);
    forall k ensures k in spent <==> (Burned(f, k) || (pc.Past200? && k == pc.try.seed.expires)) {
      assert k in spent <==> (Burned(sh, k) || (pc.Past200? && k == pc.try.seed.expires));
    }
  }

  lemma ActInv(buffer: nat, s: State, a: Action)
    requires Inv(buffer, s)
    ensures Inv(buffer, Act(buffer, s, a))
  {
    hide Core;
    match a
    case Call(c) =>
      if c < |s.callers| && s.callers[c].Idle? {
        PlacedOutside(s, c, Load);
      }
    case Step(c, choice) =>
      if c < |s.callers| {
        if Holds(s.callers[c]) {
          InsideInv(buffer, s, c, choice);
        } else {
          OutsideInv(buffer, s, c, choice);
        }
      }
    case Invalidate =>
      InvalidateCore(buffer, s.sh, Holder(s), s.log);
    case WriteDb(_) =>
    case Tick(_) =>
  }

  lemma {:induction false} RunInv(buffer: nat, s: State, actions: seq<Action>)
    requires Inv(buffer, s)
    ensures Inv(buffer, Run(buffer, s, actions))
    decreases |actions|
  {
    hide Act;
    hide Inv;
    if actions != [] {
      ActInv(buffer, s, actions[0]);
      RunInv(buffer, Act(buffer, s, actions[0]), actions[1..]);
    }
  }

  // ---- what the invariant means -----------------------------------------------------------------

  lemma {:induction false} SpentInLog(log: seq<Event>, i: nat)
    requires i < |log| && log[i].Spent?
    ensures log[i].key in SpentKeys(log)
    decreases |log|
  {
    if i < |log| - 1 {
      SpentInLog(log[..|log| - 1], i);
    }
  }

  lemma {:induction false} SafeMeans(buffer: nat, log: seq<Event>, i: nat, j: nat)
    requires Safe(buffer, log) && i < j < |log|
    ensures Proper(buffer, log[j]) && Proper(buffer, log[i])
    ensures log[i].Spent? && log[j].Sent? ==> log[i].key != log[j].key
    decreases |log|
  {
    hide Proper;
    var before := log[..|log| - 1];
    if j < |log| - 1 {
      SafeMeans(buffer, before, i, j);
    } else {
      EachProper(buffer, before, i);
      if log[i].Spent? {
        SpentInLog(before, i);
      }
    }
  }

  lemma {:induction false} EachProper(buffer: nat, log: seq<Event>, i: nat)
    requires Safe(buffer, log) && i < |log|
    ensures Proper(buffer, log[i])
    decreases |log|
  {
    hide Proper;
    if i < |log| - 1 {
      EachProper(buffer, log[..|log| - 1], i);
    }
  }

  /**
   No seed is spent twice: once an exchange for a key has reached a 200, no later exchange is sent for
   that key. With the key `UNIX_EPOCH` this is the latch: one such 200, and no unparsable seed is sent again.
   */
  lemma NeverSpentTwice(buffer: nat, n: nat, db: Option<Creds>, now: Time, actions: seq<Action>, i: nat, j: nat)
    requires var log := Run(buffer, Init(n, db, now), actions).log; i < j < |log| && log[i].Spent? && log[j].Sent?
    ensures var log := Run(buffer, Init(n, db, now), actions).log; log[i].key != log[j].key
  {
    hide Run;
    InitInv(buffer, n, db, now);
    RunInv(buffer, Init(n, db, now), actions);
    SafeMeans(buffer, Run(buffer, Init(n, db, now), actions).log, i, j);
  }

  /** A seed is burned exactly when its exchange reached a 200, and while the body of that exchange is being
      read it is about to be. A seed that never reached a 200 is never burned. */
  lemma BurnedIffSpent(buffer: nat, n: nat, db: Option<Creds>, now: Time, actions: seq<Action>, key: Time)
    ensures var s := Run(buffer, Init(n, db, now), actions);
            && (Burned(s.sh, key) ==> key in SpentKeys(s.log))
            && (key in SpentKeys(s.log) ==> Burned(s.sh, key) || (Holder(s).Past200? && Holder(s).try.seed.expires == key))
  {
    hide Run;
    InitInv(buffer, n, db, now);
    RunInv(buffer, Init(n, db, now), actions);
    var s := Run(buffer, Init(n, db, now), actions);
    assert key in SpentKeys(s.log) <==> (Burned(s.sh, key) || (Holder(s).Past200? && key == Holder(s).try.seed.expires));
  }

  predicate InFlight(pc: Pc) {
    pc.Sending? || pc.Past200?
  }

  /** There is never more than one exchange in flight. */
  lemma OneInFlight(buffer: nat, n: nat, db: Option<Creds>, now: Time, actions: seq<Action>, c: nat, d: nat)
    requires var s := Run(buffer, Init(n, db, now), actions);
             c < |s.callers| && d < |s.callers| && InFlight(s.callers[c]) && InFlight(s.callers[d])
    ensures c == d
  {
    hide Run;
    hide Core;
    InitInv(buffer, n, db, now);
    RunInv(buffer, Init(n, db, now), actions);
    var s := Run(buffer, Init(n, db, now), actions);
    assert Holds(s.callers[c]) && Holds(s.callers[d]);
  }

  /** The cache never goes back: whatever step replaces its credential puts in one that was minted, or a database
      row that expires strictly later. */
  lemma CacheAdvances(buffer: nat, n: nat, db: Option<Creds>, now: Time, actions: seq<Action>, a: Action)
    ensures var s := Run(buffer, Init(n, db, now), actions);
            var r := Act(buffer, s, a);
            r.sh.cached != s.sh.cached ==>
              && r.sh.cached.Some?
              && (r.sh.cached.value.minted || s.sh.cached.None? || r.sh.cached.value.creds.expires > s.sh.cached.value.creds.expires)
  {
    hide Run;
    hide Safe;
    InitInv(buffer, n, db, now);
    RunInv(buffer, Init(n, db, now), actions);
    var s := Run(buffer, Init(n, db, now), actions);
    if a.Step? && a.c < |s.callers| && Holds(s.callers[a.c]) {
      assert Located(buffer, s.sh, s.callers[a.c]);
      MovedCache(buffer, s.now, s.db, s.sh, a.c, s.callers[a.c], a.choice);
    }
  }

  lemma MovedCache(buffer: nat, now: Time, db: Option<Creds>, sh: Shared, c: nat, pc: Pc, choice: Choice)
    requires Holds(pc)
    ensures var m := Moved(buffer, now, db, sh, c, pc, choice);
            m.Some? && m.value.sh.cached != sh.cached ==>
              pc.Store? && m.value.sh.cached == Some(Cached(pc.creds, pc.minted))
  {
    hide Minted;
    hide Valid;
    hide Burned;
    hide CachedValid;
  }

  // ---- how often ----------------------------------------------------------------------------------

  datatype Counts = Counts(invalidated: nat, forced: nat, cycles: nat, sent: nat)

  function Count(log: seq<Event>): Counts {
    if log == [] then Counts(0, 0, 0, 0) else
    var k := Count(log[..|log| - 1]);
    match log[|log| - 1]
    case Invalidated => k.(invalidated := k.invalidated + 1)
    case ForcedEntry(_) => k.(forced := k.forced + 1)
    case Cycle(_, _) => k.(cycles := k.cycles + 1)
    case Sent(_, _, _, _, _) => k.(sent := k.sent + 1)
    case _ => k
  }

  lemma CountOne(log: seq<Event>, e: Event)
    ensures var k := Count(log);
            Count(log + [e]) == match e
                                case Invalidated => k.(invalidated := k.invalidated + 1)
                                case ForcedEntry(_) => k.(forced := k.forced + 1)
                                case Cycle(_, _) => k.(cycles := k.cycles + 1)
                                case Sent(_, _, _, _, _) => k.(sent := k.sent + 1)
                                case _ => k
  {
    assert (log + [e])[..|log|] == log;
  }

  /** The exchanges the holder of the gate may still send in its cycle. */
  function Allowed(pc: Pc): nat {
    match pc
    case ReadDb(_) => 2
    case Decide(_, _) => 2
    case Check(t) => if t.second then 1 else 2
    case Sending(t) => if t.second then 0 else 1
    case Past200(t) => if t.second then 0 else 1
    case Reread(_) => 1
    case _ => 0
  }

  /** Every forced entry used up an invalidation of its own, and no cycle sends more than twice. */
  predicate Bounded(sh: Shared, pc: Pc, log: seq<Event>) {
    var k := Count(log);
    && k.forced + (if sh.forced then 1 else 0) <= k.invalidated
    && k.sent + Allowed(pc) <= 2 * k.cycles
  }

  lemma MovedBounded(buffer: nat, now: Time, db: Option<Creds>, sh: Shared, c: nat, pc: Pc, choice: Choice, log: seq<Event>)
    requires Holds(pc) && Bounded(sh, pc, log)
    ensures var m := Moved(buffer, now, db, sh, c, pc, choice);
            m.Some? ==> Bounded(m.value.sh, m.value.pc, log + m.value.events)
  {
    hide Count;
    hide Minted;
    hide Valid;
    hide Burned;
    hide CachedValid;
    var m := Moved(buffer, now, db, sh, c, pc, choice);
    if m.Some? {
      if m.value.events == [] {
        assert log + m.value.events == log;
      } else {
        assert m.value.events == [m.value.events[0]];
        CountOne(log, m.value.events[0]);
      }
    }
  }

  lemma ActBounded(buffer: nat, s: State, a: Action)
    requires Gated(s) && Bounded(s.sh, Holder(s), s.log)
    ensures var r := Act(buffer, s, a); Bounded(r.sh, Holder(r), r.log)
  {
    hide Count;
    hide Moved;
    match a
    case Call(c) =>
    case Step(c, choice) =>
      if c < |s.callers| {
        if Holds(s.callers[c]) {
          MovedPlace(buffer, s.now, s.db, s.sh, c, s.callers[c], choice);
          MovedBounded(buffer, s.now, s.db, s.sh, c, s.callers[c], choice, s.log);
        } else {
          var valid := CachedValid(buffer, s.now, s.sh);
          if valid.Some? {
            CountOne(s.log, Served(c, valid.value, false, s.now));
          }
        }
      }
    case Invalidate => CountOne(s.log, Invalidated);
    case WriteDb(_) =>
    case Tick(_) =>
  }

  lemma {:induction false} RunBounded(buffer: nat, s: State, actions: seq<Action>)
    requires Inv(buffer, s) && Bounded(s.sh, Holder(s), s.log)
    ensures var r := Run(buffer, s, actions); Bounded(r.sh, Holder(r), r.log)
    decreases |actions|
  {
    hide Act;
    hide Core;
    hide Bounded;
    if actions != [] {
      ActBounded(buffer, s, actions[0]);
      ActInv(buffer, s, actions[0]);
      RunBounded(buffer, Act(buffer, s, actions[0]), actions[1..]);
    }
  }

  /** At most one forced cycle for each invalidation, and at most two exchanges in a cycle. */
  lemma ExchangesBounded(buffer: nat, n: nat, db: Option<Creds>, now: Time, actions: seq<Action>)
    ensures var k := Count(Run(buffer, Init(n, db, now), actions).log);
            k.forced <= k.invalidated && k.sent <= 2 * k.cycles
  {
    hide Run;
    InitInv(buffer, n, db, now);
    RunBounded(buffer, Init(n, db, now), actions);
  }
}
