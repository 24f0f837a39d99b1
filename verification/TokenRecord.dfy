/**
 What the record of a run says: which step wrote each entry, which entries follow each other
 under the gate, and what it rules out behind a refresh that succeeded.
 */
module TokenRecord {
  import opened Wrappers
  import opened TokenProtocol
  import opened TokenSafety

  // ---- every entry was written by one step -----------------------------------------------------

  /** The attempt uses the seed with this key, in the cycle with this entry and this row at its top. */
  predicate Is(t: Try, key: Time, entry: Entry, top: Time) {
    t.seed.expires == key && t.entry == entry && t.dbExpires == top
  }

  /** The step `a` in the state `s` that writes `e` into the record. */
  ghost predicate Caused(buffer: nat, s: State, a: Action, e: Event) {
    match e
    case Invalidated => a == Invalidate
    case ForcedEntry(c) => a == Step(c, Go) && c < |s.callers| && s.callers[c].Enter? && s.sh.forced
    case Cycle(c, entry) =>
      && a == Step(c, Go) && c < |s.callers| && s.callers[c] == Recheck(entry.forced)
      && entry.valid == CachedValid(buffer, s.now, s.sh).Some?
    case RowRead(c, entry, top) =>
      && a == Step(c, Go) && c < |s.callers| && s.callers[c] == ReadDb(entry)
      && s.db.Some? && s.db.value.expires == top
    case Sent(c, key, entry, second, top) =>
      && a == Step(c, Go) && c < |s.callers| && s.callers[c].Check? && !Burned(s.sh, key)
      && Is(s.callers[c].try, key, entry, top) && s.callers[c].try.second == second
    case Spent(c, key, entry, top) =>
      a == Step(c, Accept) && c < |s.callers| && s.callers[c].Sending? && Is(s.callers[c].try, key, entry, top)
    case RowChanged(c, entry, top, key) =>
      && a == Step(c, Go) && c < |s.callers| && s.callers[c].Reread?
      && s.callers[c].try.entry == entry && s.callers[c].try.dbExpires == top
      && s.db.Some? && s.db.value.expires == key
    case Issued(c, seed, response, at) =>
      && a == Step(c, Answer(response)) && c < |s.callers| && s.callers[c].Past200?
      && s.callers[c].try.seed == seed && at == s.now
    case Served(c, creds, minted, at) =>
      && a == Step(c, Go) && c < |s.callers|
      && (s.callers[c] == Store(creds, minted, at)
          || (!minted && at == s.now && CachedValid(buffer, s.now, s.sh) == Some(creds)))
    case Refused(c) => a.Step? && a.c == c
  }

  /** A step writes at most one entry, and that is what caused it. */
  lemma ActWrites(buffer: nat, s: State, a: Action)
    ensures var log := Act(buffer, s, a).log;
            log == s.log || (|log| == |s.log| + 1 && log[..|s.log|] == s.log && Caused(buffer, s, a, log[|s.log|]))
  {
    hide Burn;
    hide Burned;
    if a.Step? && a.c < |s.callers| && Holds(s.callers[a.c]) {
      MovedWrites(buffer, s, a.c, a.choice);
      assert s.log + [] == s.log;
    }
  }

  lemma MovedWrites(buffer: nat, s: State, c: nat, choice: Choice)
    requires c < |s.callers| && Holds(s.callers[c])
    ensures var m := Moved(buffer, s.now, s.db, s.sh, c, s.callers[c], choice);
            m.Some? ==> m.value.events == []
                        || (m.value.events == [m.value.events[0]] && Caused(buffer, s, Step(c, choice), m.value.events[0]))
  {
    hide Burn;
    hide Burned;
    hide Minted;
  }

  lemma {:induction false} RunGrows(buffer: nat, s: State, actions: seq<Action>)
    ensures s.log <= Run(buffer, s, actions).log
    decreases |actions|
  {
    hide Act;
    hide Caused;
    if actions != [] {
      ActWrites(buffer, s, actions[0]);
      RunGrows(buffer, Act(buffer, s, actions[0]), actions[1..]);
    }
  }

  /** The action that wrote entry `i`. */
  lemma {:induction false} WrittenBy(buffer: nat, s: State, actions: seq<Action>, i: nat) returns (k: nat)
    requires |s.log| <= i < |Run(buffer, s, actions).log|
    ensures k < |actions|
    ensures var log, before := Run(buffer, s, actions).log, Run(buffer, s, actions[..k]);
            before.log == log[..i] && Caused(buffer, before, actions[k], log[i])
    ensures Run(buffer, Act(buffer, Run(buffer, s, actions[..k]), actions[k]), actions[k + 1..]) == Run(buffer, s, actions)
    ensures Act(buffer, Run(buffer, s, actions[..k]), actions[k]).log == Run(buffer, s, actions).log[..i + 1]
    decreases |actions|
  {
    hide Act;
    hide Caused;
    var r := Act(buffer, s, actions[0]);
    ActWrites(buffer, s, actions[0]);
    RunGrows(buffer, r, actions[1..]);
    if |r.log| > i {
      k := 0;
      assert actions[..0] == [];
      assert Run(buffer, s, []) == s;
    } else {
      k := WrittenBy(buffer, r, actions[1..], i);
      assert actions[1..][..k] == actions[..k + 1][1..] && actions[1..][k + 1..] == actions[k + 2..];
      assert Run(buffer, s, actions[..k + 1]) == Run(buffer, r, actions[1..][..k]);
      k := k + 1;
    }
  }

  // ---- what follows what under the gate -----------------------------------------------------------

  /** Entries that only the caller that holds the gate writes. */
  predicate UnderGate(e: Event) {
    !(e.Invalidated? || (e.Served? && !e.minted))
  }

  /** The last entry written under the gate. */
  function LastGate(log: seq<Event>): Option<Event> {
    if log == [] then None
    else if UnderGate(log[|log| - 1]) then Some(log[|log| - 1])
    else LastGate(log[..|log| - 1])
  }

  lemma LastGateOne(log: seq<Event>, e: Event)
    ensures LastGate(log + [e]) == if UnderGate(e) then Some(e) else LastGate(log)
  {
    assert (log + [e])[..|log|] == log;
  }

  /** Caller `c` has sent an exchange in this cycle and got no credential. */
  predicate Tried(last: Option<Event>, c: nat, entry: Entry, top: Time) {
    && last.Some? && (last.value.Sent? || last.value.Spent?)
    && last.value.caller == c && last.value.entry == entry && last.value.top == top
  }

  /** Caller `c` has reached a 200 for the seed with this key. */
  predicate Reached200(last: Option<Event>, c: nat, key: Time) {
    last.Some? && last.value.Spent? && last.value.caller == c && last.value.key == key
  }

  /** Caller `c` has sent the seed with this key, in this cycle. */
  predicate JustSent(last: Option<Event>, c: nat, key: Time, entry: Entry, top: Time) {
    && last.Some? && last.value.Sent? && last.value.caller == c
    && last.value.key == key && last.value.entry == entry && last.value.top == top
  }

  /** The entry `last` of the gate before `e`: every entry but a first one continues what the same caller did. */
  predicate Linked(last: Option<Event>, e: Event) {
    match e
    case Cycle(c, entry) => entry.forced ==> last == Some(ForcedEntry(c))
    case RowRead(c, entry, top) => last == Some(Cycle(c, entry))
    case Sent(c, key, entry, second, top) =>
      last == Some(if second then RowChanged(c, entry, top, key) else RowRead(c, entry, top))
    case Spent(c, key, entry, top) => JustSent(last, c, key, entry, top)
    case RowChanged(c, entry, top, key) => Tried(last, c, entry, top) && key != top && top != UNIX_EPOCH
    case Issued(c, seed, response, at) => Reached200(last, c, seed.expires) && Minted(seed, at, response).Some?
    case Served(c, creds, minted, at) => minted ==> Granted(last, c, creds, at)
    case _ => true
  }

  /** The credential is what the last entry issued to the caller. */
  predicate Granted(last: Option<Event>, c: nat, creds: Creds, at: Time) {
    && last.Some? && last.value.Issued? && last.value.caller == c && last.value.at == at
    && Minted(last.value.seed, at, last.value.response) == Some(creds)
  }

  ghost predicate Chained(log: seq<Event>) {
    log == [] || (Chained(log[..|log| - 1]) && Linked(LastGate(log[..|log| - 1]), log[|log| - 1]))
  }

  lemma ChainedOne(log: seq<Event>, e: Event)
    requires Chained(log) && Linked(LastGate(log), e)
    ensures Chained(log + [e])
  {
    assert (log + [e])[..|log|] == log;
  }

  lemma {:induction false} ChainedAt(log: seq<Event>, i: nat)
    requires Chained(log) && i < |log|
    ensures Linked(LastGate(log[..i]), log[i])
    decreases |log|
  {
    hide Linked;
    if i < |log| - 1 {
      ChainedAt(log[..|log| - 1], i);
      assert log[..|log| - 1][..i] == log[..i];
    }
  }

  /** Where the holder of the gate is, by the last entry of the gate. */
  predicate Grounded(last: Option<Event>, c: nat, pc: Pc) {
    match pc
    case Recheck(forced) => forced ==> last == Some(ForcedEntry(c))
    case ReadDb(entry) => last == Some(Cycle(c, entry))
    case Decide(entry, row) => last == Some(RowRead(c, entry, row.expires))
    case Check(t) =>
      last == Some(if t.second then RowChanged(c, t.entry, t.dbExpires, t.seed.expires) else RowRead(c, t.entry, t.dbExpires))
    case Sending(t) => last == Some(Sent(c, t.seed.expires, t.entry, t.second, t.dbExpires))
    case Past200(t) => last == Some(Spent(c, t.seed.expires, t.entry, t.dbExpires))
    case Reread(t) => Tried(last, c, t.entry, t.dbExpires)
    case Store(creds, minted, at) => minted ==> Granted(last, c, creds, at)
    case _ => true
  }

  ghost predicate ChainInv(s: State) {
    Gated(s) && Chained(s.log) && (s.gate.Some? ==> Grounded(LastGate(s.log), s.gate.value, Holder(s)))
  }

  lemma MovedLinks(buffer: nat, now: Time, db: Option<Creds>, sh: Shared, c: nat, pc: Pc, choice: Choice, last: Option<Event>)
    requires Holds(pc) && Grounded(last, c, pc)
    ensures var m := Moved(buffer, now, db, sh, c, pc, choice);
            m.Some? ==> if m.value.events == [] then Grounded(last, c, m.value.pc)
                        else
                          var e := m.value.events[0];
                          && m.value.events == [e] && Linked(last, e)
                          && Grounded(if UnderGate(e) then Some(e) else last, c, m.value.pc)
  {
    hide Burn;
    hide Burned;
    hide Valid;
    hide CachedValid;
    hide Minted;
  }

  lemma EventsChain(log: seq<Event>, es: seq<Event>, c: nat, pc: Pc)
    requires Chained(log)
    requires if es == [] then Grounded(LastGate(log), c, pc)
             else es == [es[0]] && Linked(LastGate(log), es[0])
                  && Grounded(if UnderGate(es[0]) then Some(es[0]) else LastGate(log), c, pc)
    ensures Chained(log + es) && Grounded(LastGate(log + es), c, pc)
  {
    hide Chained;
    hide LastGate;
    hide Grounded;
    hide Linked;
    hide UnderGate;
    if es == [] {
      assert log + es == log;
    } else {
      ChainedOne(log, es[0]);
      LastGateOne(log, es[0]);
    }
  }

  lemma InsideChain(buffer: nat, s: State, c: nat, choice: Choice)
    requires ChainInv(s) && c < |s.callers| && Holds(s.callers[c])
    ensures ChainInv(Inside(buffer, s, c, choice))
  {
    hide Moved;
    hide Grounded;
    hide Linked;
    hide UnderGate;
    hide Chained;
    hide LastGate;
    var pc := s.callers[c];
    assert s.gate == Some(c) && Holder(s) == pc;
    MovedPlace(buffer, s.now, s.db, s.sh, c, pc, choice);
    MovedLinks(buffer, s.now, s.db, s.sh, c, pc, choice, LastGate(s.log));
    var m := Moved(buffer, s.now, s.db, s.sh, c, pc, choice);
    if m.Some? {
      EventsChain(s.log, m.value.events, c, m.value.pc);
    }
  }

  lemma OutsideChain(buffer: nat, s: State, c: nat, choice: Choice)
    requires ChainInv(s) && c < |s.callers| && !Holds(s.callers[c])
    ensures ChainInv(Outside(buffer, s, c, choice))
  {
    hide Chained;
    hide LastGate;
    var valid := CachedValid(buffer, s.now, s.sh);
    if s.callers[c].Peek? && valid.Some? {
      ChainedOne(s.log, Served(c, valid.value, false, s.now));
      LastGateOne(s.log, Served(c, valid.value, false, s.now));
    }
  }

  /** Every step of every caller and of the environment keeps the record chained. */
  lemma ActChain(buffer: nat, s: State, a: Action)
    requires ChainInv(s)
    ensures ChainInv(Act(buffer, s, a))
  {
    hide Chained;
    hide LastGate;
    hide Grounded;
    hide Outside;
    hide Inside;
    match a
    case Call(c) =>
    case Step(c, choice) =>
      if c < |s.callers| {
        if Holds(s.callers[c]) {
          InsideChain(buffer, s, c, choice);
        } else {
          OutsideChain(buffer, s, c, choice);
        }
      }
    case Invalidate =>
      ChainedOne(s.log, Invalidated);
      LastGateOne(s.log, Invalidated);
    case WriteDb(_) =>
    case Tick(_) =>
  }

  lemma {:induction false} RunChain(buffer: nat, s: State, actions: seq<Action>)
    requires ChainInv(s)
    ensures ChainInv(Run(buffer, s, actions))
    decreases |actions|
  {
    hide Act;
    hide ChainInv;
    if actions != [] {
      ActChain(buffer, s, actions[0]);
      RunChain(buffer, Act(buffer, s, actions[0]), actions[1..]);
    }
  }

  /**
   In every run, of the entries under the gate each continues the one before it. A credential
   that is served was valid when that was decided, or it is what the response to an exchange
   yields that the same caller has just seen a 200 for. A 200 is for what the caller has just
   sent; a first exchange follows the read of the row at the top of the caller's cycle, a
   second one the read of another parsable row after an attempt of the same cycle. A cycle
   starts only right after its own forced entry, or when nothing valid was found under the gate.
   */
  lemma ServedAndSent(buffer: nat, n: nat, db: Option<Creds>, now: Time, actions: seq<Action>, i: nat)
    requires i < |Run(buffer, Init(n, db, now), actions).log|
    ensures var log := Run(buffer, Init(n, db, now), actions).log;
            var last := LastGate(log[..i]);
            match log[i]
            case Served(c, creds, minted, at) =>
              if minted then
                && last.Some? && last.value.Issued? && last.value.caller == c && last.value.at == at
                && Renews(last.value.seed, last.value.response, at, creds)
              else at + buffer < creds.expires
            case Issued(c, seed, response, at) =>
              Reached200(last, c, seed.expires) && exists creds :: Renews(seed, response, at, creds)
            case Spent(c, key, entry, top) => JustSent(last, c, key, entry, top)
            case Sent(c, key, entry, second, top) =>
              && (entry.forced || !entry.valid)
              && last == Some(if second then RowChanged(c, entry, top, key) else RowRead(c, entry, top))
            case RowChanged(c, entry, top, key) => Tried(last, c, entry, top) && key != top && top != 0
            case RowRead(c, entry, top) => last == Some(Cycle(c, entry))
            case Cycle(c, entry) => if entry.forced then last == Some(ForcedEntry(c)) else !entry.valid
            case _ => true
  {
    hide Run;
    var s := Run(buffer, Init(n, db, now), actions);
    InitInv(buffer, n, db, now);
    RunInv(buffer, Init(n, db, now), actions);
    EachProper(buffer, s.log, i);
    RunChain(buffer, Init(n, db, now), actions);
    ChainedAt(s.log, i);
    IssuedRenews(LastGate(s.log[..i]), s.log[i]);
  }

  lemma IssuedRenews(last: Option<Event>, e: Event)
    requires Linked(last, e)
    ensures e.Issued? ==> exists creds :: Renews(e.seed, e.response, e.at, creds)
    ensures e.Served? && e.minted ==>
              && last.Some? && last.value.Issued? && last.value.caller == e.caller && last.value.at == e.at
              && Renews(last.value.seed, last.value.response, e.at, e.creds)
  {
    if e.Issued? {
      MintedRenews(e.seed, e.at, e.response);
    } else if e.Served? && e.minted {
      MintedRenews(last.value.seed, e.at, last.value.response);
    }
  }

  /**
   Whatever the body of a 200 brings, exactly that is kept: the caller's next step puts it into
   the cache, whole, and gives it to the caller. A body that brings nothing leaves the cache as
   it was; either way the seed is spent.
   */
  lemma AnswerIsKept(buffer: nat, s: State, c: nat, r: Response)
    requires c < |s.callers| && s.callers[c].Past200?
    ensures var seed, n := s.callers[c].try.seed, Act(buffer, s, Step(c, Answer(r)));
            && Burned(n.sh, seed.expires) && n.sh.cached == s.sh.cached
            && (forall creds :: Renews(seed, r, s.now, creds) ==>
                  && n.log == s.log + [Issued(c, seed, r, s.now)]
                  && Act(buffer, n, Step(c, Go)).sh == n.sh.(cached := Some(Cached(creds, true)))
                  && Act(buffer, n, Step(c, Go)).log == n.log + [Served(c, creds, true, s.now)])
            && ((forall creds :: !Renews(seed, r, s.now, creds)) ==> !n.callers[c].Store?)
  {
    var seed := s.callers[c].try.seed;
    MintedRenews(seed, s.now, r);
    var m := Minted(seed, s.now, r);
    if m.Some? {
      assert Renews(seed, r, s.now, m.value);
    }
    hide Minted;
  }

  /**
   In every run each entry of the record was written by one step that it tells the truth
   about. In particular a cycle's entry says whether the cache held a valid credential when
   the gate's holder looked, the rows read are what the database held, an exchange names its
   cycle's entry and row, and an issued credential names the seed in use and the response.
   */
  lemma RecordIsTrue(buffer: nat, n: nat, db: Option<Creds>, now: Time, actions: seq<Action>, i: nat)
    requires i < |Run(buffer, Init(n, db, now), actions).log|
    ensures var s0 := Init(n, db, now);
            var log := Run(buffer, s0, actions).log;
            exists k :: 0 <= k < |actions| && Run(buffer, s0, actions[..k]).log == log[..i]
                        && Caused(buffer, Run(buffer, s0, actions[..k]), actions[k], log[i])
  {
    hide Run;
    hide Caused;
    var k := WrittenBy(buffer, Init(n, db, now), actions, i);
  }

  /**
   A caller may be cancelled wherever it is: it is done, the gate it held is free, and nothing else
   changes, except that past a 200 the seed stays spent. What does not fit where a caller is,
   such as an answer to nothing it sent, changes nothing.
   */
  lemma CancelledAnywhere(buffer: nat, s: State, c: nat, choice: Choice)
    requires Gated(s) && c < |s.callers|
    ensures var pc, n := s.callers[c], Act(buffer, s, Step(c, Drop));
            && n.callers == s.callers[c := Idle] && n.log == s.log && n.db == s.db && n.now == s.now
            && n.gate == (if s.gate == Some(c) then None else s.gate)
            && n.sh == (if pc.Past200? then Burn(s.sh, pc.try.seed.expires) else s.sh)
    ensures (choice.Reject? || choice.Accept?) && !s.callers[c].Sending? ==> Act(buffer, s, Step(c, choice)) == s
    ensures choice.Answer? && !s.callers[c].Past200? ==> Act(buffer, s, Step(c, choice)) == s
  {
    assert s.log + [] == s.log;
  }

  // ---- no exchange while a minted credential is valid ------------------------------------------------

  /** The cache holds a credential that this process minted and that is still valid. */
  predicate HoldsMinted(buffer: nat, now: Time, sh: Shared) {
    sh.cached.Some? && sh.cached.value.minted && Valid(buffer, now, sh.cached.value.creds)
  }

  /** What the holder of the gate has found out about the cache still holds. */
  predicate Stale(buffer: nat, now: Time, sh: Shared, pc: Pc) {
    match pc
    case ReadDb(entry) => entry.forced || CachedValid(buffer, now, sh).None?
    case Decide(entry, _) => entry.forced || CachedValid(buffer, now, sh).None?
    case Check(_) => !HoldsMinted(buffer, now, sh)
    case Sending(_) => !HoldsMinted(buffer, now, sh)
    case Past200(_) => !HoldsMinted(buffer, now, sh)
    case Reread(_) => !HoldsMinted(buffer, now, sh)
    case _ => true
  }

  lemma MovedStale(buffer: nat, now: Time, db: Option<Creds>, sh: Shared, c: nat, pc: Pc, choice: Choice)
    requires Holds(pc) && Stale(buffer, now, sh, pc)
    ensures var m := Moved(buffer, now, db, sh, c, pc, choice);
            m.Some? ==> Stale(buffer, now, m.value.sh, m.value.pc)
  {
    hide Minted;
    hide Burned;
  }

  lemma ActStale(buffer: nat, s: State, a: Action)
    requires Gated(s) && Stale(buffer, s.now, s.sh, Holder(s))
    ensures var r := Act(buffer, s, a); Stale(buffer, r.now, r.sh, Holder(r))
  {
    hide Moved;
    if a.Step? && a.c < |s.callers| && Holds(s.callers[a.c]) {
      MovedPlace(buffer, s.now, s.db, s.sh, a.c, s.callers[a.c], a.choice);
      MovedStale(buffer, s.now, s.db, s.sh, a.c, s.callers[a.c], a.choice);
    }
  }

  lemma {:induction false} RunStale(buffer: nat, s: State, actions: seq<Action>)
    requires Inv(buffer, s) && Stale(buffer, s.now, s.sh, Holder(s))
    ensures var r := Run(buffer, s, actions); Stale(buffer, r.now, r.sh, Holder(r))
    decreases |actions|
  {
    hide Act;
    hide Core;
    hide Stale;
    if actions != [] {
      ActStale(buffer, s, actions[0]);
      ActInv(buffer, s, actions[0]);
      RunStale(buffer, Act(buffer, s, actions[0]), actions[1..]);
    }
  }

  /**
   In every run, when an exchange is sent, in a forced cycle or not, first or second, the cache
   does not hold a credential that this process minted and that is still valid.
   */
  lemma NoNeedlessExchange(buffer: nat, n: nat, db: Option<Creds>, now: Time, actions: seq<Action>, i: nat)
    requires i < |Run(buffer, Init(n, db, now), actions).log| && Run(buffer, Init(n, db, now), actions).log[i].Sent?
    ensures var s0 := Init(n, db, now);
            exists k :: 0 <= k < |actions| && Run(buffer, s0, actions[..k]).log == Run(buffer, s0, actions).log[..i]
                        && Act(buffer, Run(buffer, s0, actions[..k]), actions[k]).log == Run(buffer, s0, actions).log[..i + 1]
                        && !HoldsMinted(buffer, Run(buffer, s0, actions[..k]).now, Run(buffer, s0, actions[..k]).sh)
  {
    hide Run;
    hide Act;
    hide Core;
    hide HoldsMinted;
    var s0 := Init(n, db, now);
    var k := WrittenBy(buffer, s0, actions, i);
    InitInv(buffer, n, db, now);
    RunInv(buffer, s0, actions[..k]);
    RunStale(buffer, s0, actions[..k]);
    var s := Run(buffer, s0, actions[..k]);
    assert Holder(s) == s.callers[actions[k].c];
  }

  // ---- behind a refresh that succeeded ------------------------------------------------------------

  /** The last of invalidations and forced entries is an invalidation. */
  predicate Pending(log: seq<Event>) {
    log != [] && (log[|log| - 1].Invalidated? || (!log[|log| - 1].ForcedEntry? && Pending(log[..|log| - 1])))
  }

  lemma PendingOne(log: seq<Event>, e: Event)
    ensures Pending(log + [e]) <==> e.Invalidated? || (!e.ForcedEntry? && Pending(log))
  {
    assert (log + [e])[..|log|] == log;
  }

  /** The forced flag is what the record says of it. */
  lemma ActPending(buffer: nat, s: State, a: Action)
    requires s.sh.forced <==> Pending(s.log)
    ensures var r := Act(buffer, s, a); r.sh.forced <==> Pending(r.log)
  {
    hide Pending;
    hide Minted;
    hide CachedValid;
    hide Valid;
    hide Burned;
    ActWrites(buffer, s, a);
    var r := Act(buffer, s, a);
    if r.log != s.log {
      PendingOne(s.log, r.log[|s.log|]);
      assert r.log == s.log + [r.log[|s.log|]];
    }
    ActForced(buffer, s, a);
  }

  lemma ActForced(buffer: nat, s: State, a: Action)
    ensures var r := Act(buffer, s, a);
            r.sh.forced == if a == Invalidate then true
                           else s.sh.forced && !(a.Step? && a.choice == Go && a.c < |s.callers| && s.callers[a.c].Enter?)
    ensures a == Invalidate ==> Act(buffer, s, a).log == s.log + [Invalidated]
    ensures s.sh.forced && a.Step? && a.choice == Go && a.c < |s.callers| && s.callers[a.c].Enter?
            ==> Act(buffer, s, a).log == s.log + [ForcedEntry(a.c)]
  {
    hide Minted;
    hide CachedValid;
    hide Valid;
    hide Burned;
  }

  lemma {:induction false} RunPending(buffer: nat, s: State, actions: seq<Action>)
    requires s.sh.forced <==> Pending(s.log)
    ensures var r := Run(buffer, s, actions); r.sh.forced <==> Pending(r.log)
    decreases |actions|
  {
    hide Act;
    hide Pending;
    if actions != [] {
      ActPending(buffer, s, actions[0]);
      RunPending(buffer, Act(buffer, s, actions[0]), actions[1..]);
    }
  }

  /** The cache holds `creds`, the next cycle is not forced, and no cycle is under way. */
  predicate Settled(s: State, creds: Creds) {
    && s.sh.cached.Some? && s.sh.cached.value.creds == creds && !s.sh.forced
    && (Holder(s).Idle? || Holder(s).Enter? || Holder(s) == Recheck(false))
  }

  /** Storing a credential settles the shared state, unless a cycle is to be forced. */
  lemma StoreSettles(buffer: nat, s: State, c: nat)
    requires Gated(s) && c < |s.callers| && s.callers[c].Store? && !s.sh.forced
    ensures Settled(Act(buffer, s, Step(c, Go)), s.callers[c].creds)
  {
  }

  /** The entry is the start of a cycle or an exchange. */
  predicate Working(e: Event) {
    e.Cycle? || e.Sent?
  }

  lemma ActSettled(buffer: nat, s: State, a: Action, creds: Creds)
    requires Gated(s) && Settled(s, creds) && a != Invalidate && Valid(buffer, s.now, creds)
    ensures Settled(Act(buffer, s, a), creds)
    ensures var log := Act(buffer, s, a).log; log == s.log || (|log| == |s.log| + 1 && !Working(log[|s.log|]))
  {
    match a
    case Call(c) =>
    case Step(c, choice) =>
      if c < |s.callers| {
        assert s.log + [] == s.log;
      }
    case WriteDb(_) =>
    case Tick(_) =>
  }

  lemma {:induction false} LaterRun(buffer: nat, s: State, actions: seq<Action>)
    ensures s.now <= Run(buffer, s, actions).now
    decreases |actions|
  {
    if actions != [] {
      ActLater(buffer, s, actions[0]);
      LaterRun(buffer, Act(buffer, s, actions[0]), actions[1..]);
    }
  }

  lemma ActLater(buffer: nat, s: State, a: Action)
    ensures s.now <= Act(buffer, s, a).now
  {
    hide Moved;
  }

  /** Nothing was invalidated in the record from entry `from` on. */
  predicate Untouched(log: seq<Event>, from: nat) {
    forall j | from <= j < |log| :: log[j] != Invalidated
  }

  /** Neither a cycle nor an exchange is in the record from entry `from` on. */
  predicate Quiet(log: seq<Event>, from: nat) {
    forall j | from <= j < |log| :: !Working(log[j])
  }

  lemma {:induction false} SettledRun(buffer: nat, s: State, actions: seq<Action>, creds: Creds)
    requires Inv(buffer, s) && Settled(s, creds) && Untouched(Run(buffer, s, actions).log, |s.log|)
    requires Valid(buffer, Run(buffer, s, actions).now, creds)
    ensures Quiet(Run(buffer, s, actions).log, |s.log|)
    decreases |actions|
  {
    hide Act;
    hide Core;
    hide Settled;
    hide Caused;
    hide Working;
    if actions != [] {
      var r := Act(buffer, s, actions[0]);
      LaterRun(buffer, r, actions[1..]);
      RunGrows(buffer, r, actions[1..]);
      ActLater(buffer, s, actions[0]);
      ActInv(buffer, s, actions[0]);
      ActWrites(buffer, s, actions[0]);
      ActForced(buffer, s, actions[0]);
      ActSettled(buffer, s, actions[0], creds);
      SettledRun(buffer, r, actions[1..], creds);
    }
  }

  /**
   In every run: once the record shows a minted credential served while no invalidation was
   pending, then as long as that credential is valid and the record shows no invalidation,
   callers start no cycle and send nothing, however they interleave and whatever is written
   to the database.
   */
  lemma WaitersSendNothing(buffer: nat, n: nat, db: Option<Creds>, now: Time, actions: seq<Action>, i: nat)
    requires var s := Run(buffer, Init(n, db, now), actions);
             && i < |s.log| && s.log[i].Served? && s.log[i].minted && !Pending(s.log[..i])
             && Untouched(s.log, i) && Valid(buffer, s.now, s.log[i].creds)
    ensures Quiet(Run(buffer, Init(n, db, now), actions).log, i)
  {
    hide Run;
    hide Act;
    hide Core;
    hide Settled;
    hide Pending;
    var s0 := Init(n, db, now);
    var log := Run(buffer, s0, actions).log;
    var k := WrittenBy(buffer, s0, actions, i);
    var s := Run(buffer, s0, actions[..k]);
    var creds, c := log[i].creds, log[i].caller;
    InitInv(buffer, n, db, now);
    RunInv(buffer, s0, actions[..k]);
    NothingPending();
    RunPending(buffer, s0, actions[..k]);
    assert actions[k] == Step(c, Go) && s.callers[c] == Store(creds, true, log[i].at);
    StoreSettles(buffer, s, c);
    ActInv(buffer, s, actions[k]);
    SettledRun(buffer, Act(buffer, s, actions[k]), actions[k + 1..], creds);
  }

  lemma NothingPending()
    ensures !Pending([])
  {
  }
}
