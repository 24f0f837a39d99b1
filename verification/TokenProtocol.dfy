/**
 The credential cycle of N concurrent callers as a state machine. Every step is one atomic action of the
 program or of its environment: the database may be rewritten, the clock advance, the exchange end in any way,
 an upstream 403 force the next cycle, and a caller be cancelled at any point.
 */
module TokenProtocol {
  import opened Wrappers

  /** Seconds since the epoch. */
  type Time = nat

  /** The expiry of a row whose expiry could not be parsed. */
  const UNIX_EPOCH: Time := 0
  const MAX_EXPIRES_IN := 31_536_000

  datatype Creds = Creds(access: string, refresh: string, expires: Time)

  datatype Cached = Cached(creds: Creds, minted: bool)

  /** What the callers share. */
  datatype Shared = Shared(cached: Option<Cached>, forced: bool, burned: set<Time>, latch: bool)

  predicate Valid(buffer: nat, now: Time, c: Creds) {
    now + buffer < c.expires
  }

  function CachedValid(buffer: nat, now: Time, sh: Shared): Option<Creds> {
    if sh.cached.Some? && Valid(buffer, now, sh.cached.value.creds) then Some(sh.cached.value.creds) else None
  }

  /** The seed is known to have been spent. */
  predicate Burned(sh: Shared, key: Time) {
    if key == UNIX_EPOCH then sh.latch else key in sh.burned
  }

  /** `BurnGuard::drop` after a 200. */
  function Burn(sh: Shared, key: Time): Shared {
    if key == UNIX_EPOCH then sh.(latch := true) else sh.(burned := sh.burned + {key})
  }

  /** The seed is whichever credential expires later, the cached one when they tie. */
  function ChainSeed(cached: Option<Cached>, db: Creds): (seed: Creds)
    ensures seed.expires >= db.expires
    ensures seed == db || (cached.Some? && seed == cached.value.creds)
    ensures cached.Some? ==> seed.expires >= cached.value.creds.expires
  {
    if cached.Some? && cached.value.creds.expires >= db.expires then cached.value.creds else db
  }

  // ---- the exchange ---------------------------------------------------------------------

  /** What follows a 200: a body that cannot be used, or its fields. */
  datatype Response = Unusable | Tokens(access: string, refresh: Option<string>, expiresIn: int)

  /** The credential of a response, if it holds one. */
  function Minted(seed: Creds, now: Time, r: Response): Option<Creds> {
    match r
    case Unusable => None
    case Tokens(access, refresh, expiresIn) =>
      if access == "" || expiresIn <= 0 || expiresIn > MAX_EXPIRES_IN then None
      else Some(Creds(access, if refresh.Some? && refresh.value != "" then refresh.value else seed.refresh, now + expiresIn))
  }

  /** `creds` is what an exchange of `seed` that was answered with `r` at `at` brings: a new access
      token, the refresh token of the response or, when it gives none, that of the seed, for the
      time the response says, which is at most a year. */
  predicate Renews(seed: Creds, r: Response, at: Time, creds: Creds) {
    && r.Tokens? && r.access != "" && 1 <= r.expiresIn <= 31_536_000
    && creds.access == r.access
    && (r.refresh.Some? && r.refresh.value != "" ==> creds.refresh == r.refresh.value)
    && (r.refresh.None? || r.refresh.value == "" ==> creds.refresh == seed.refresh)
    && creds.expires == at + r.expiresIn
  }

  /** What a response yields is that and nothing else. */
  lemma MintedRenews(seed: Creds, now: Time, r: Response)
    ensures forall creds :: Minted(seed, now, r) == Some(creds) <==> Renews(seed, r, now, creds)
  {
  }

  // ---- where a caller is ------------------------------------------------------------------

  /** How a cycle was entered: forced, and whether the cached credential was valid then. */
  datatype Entry = Entry(forced: bool, valid: bool)

  /** One attempt to refresh; `dbExpires` is what the database held at the top of the cycle. */
  datatype Try = Try(entry: Entry, dbExpires: Time, seed: Creds, second: bool)

  datatype Pc =
    | Idle
    | Load                                        // read the forced flag
    | Peek                                        // read the cache without the gate
    | Wait                                        // for the gate
    | Enter                                       // swap the forced flag
    | Recheck(forced: bool)                       // read the cache under the gate
    | ReadDb(entry: Entry)
    | Decide(entry: Entry, db: Creds)
    | Check(try: Try)                             // has the seed been spent?
    | Sending(try: Try)                           // exchange in flight, no 200 yet
    | Past200(try: Try)                           // reading the body
    | Reread(try: Try)                            // after a failure: is there a newer login?
    | Store(creds: Creds, minted: bool, at: Time) // put into the cache what was decided at `at`

  predicate Holds(pc: Pc) {
    !(pc.Idle? || pc.Load? || pc.Peek? || pc.Wait?)
  }

  /** What happened, for the record. */
  datatype Event =
    | Invalidated
    | ForcedEntry(caller: nat)
    | Cycle(caller: nat, entry: Entry)
    | RowRead(caller: nat, entry: Entry, top: Time)
    | Sent(caller: nat, key: Time, entry: Entry, second: bool, top: Time)
    | Spent(caller: nat, key: Time, entry: Entry, top: Time)
    | RowChanged(caller: nat, entry: Entry, top: Time, key: Time)
    | Issued(caller: nat, seed: Creds, response: Response, at: Time)
    | Served(caller: nat, creds: Creds, minted: bool, at: Time)
    | Refused(caller: nat)

  /** One step of the caller that holds the gate; an idle caller has released it. */
  datatype Move = Move(sh: Shared, pc: Pc, events: seq<Event>)

  /** What the environment decides about a step. */
  datatype Choice = Go | Reject | Accept | Answer(response: Response) | Drop

  /** Rules 1 and 2 and the bound on forced cycles. */
  function Decided(buffer: nat, now: Time, sh: Shared, c: nat, entry: Entry, db: Creds): Move {
    var newer := sh.cached.None? || db.expires > sh.cached.value.creds.expires;
    if Valid(buffer, now, db) && newer then Move(sh, Store(db, false, now), [])
    else if entry.forced && sh.cached.Some? && sh.cached.value.minted && Valid(buffer, now, sh.cached.value.creds)
      then Move(sh, Idle, [Served(c, sh.cached.value.creds, false, now)])
    else Move(sh, Check(Try(entry, db.expires, ChainSeed(sh.cached, db), false)), [])
  }

  /** A failed attempt is followed by at most one other. */
  function Failed(sh: Shared, c: nat, t: Try): Move {
    if t.second then Move(sh, Idle, [Refused(c)]) else Move(sh, Reread(t), [])
  }

  /** Rule 3: only a database row that changed since the top of the cycle is tried again. */
  function Retried(sh: Shared, c: nat, t: Try, db: Option<Creds>): Move {
    if db.Some? && t.dbExpires != UNIX_EPOCH && db.value.expires != t.dbExpires
    then Move(sh, Check(t.(seed := db.value, second := true)), [RowChanged(c, t.entry, t.dbExpires, db.value.expires)])
    else Move(sh, Idle, [Refused(c)])
  }

  /** The cache is read again under the gate; a forced cycle goes on whatever it holds. */
  function Rechecked(sh: Shared, c: nat, forced: bool, valid: Option<Creds>, now: Time): Move {
    if !forced && valid.Some? then Move(sh, Idle, [Served(c, valid.value, false, now)])
    else Move(sh, ReadDb(Entry(forced, valid.Some?)), [Cycle(c, Entry(forced, valid.Some?))])
  }

  function Answered(sh: Shared, now: Time, c: nat, t: Try, r: Response): Move {
    var spent := Burn(sh, t.seed.expires);
    match Minted(t.seed, now, r)
    case Some(creds) => Move(spent, Store(creds, true, now), [Issued(c, t.seed, r, now)])
    case None => Failed(spent, c, t)
  }

  /** A step that waits for nothing. */
  function Walked(buffer: nat, now: Time, db: Option<Creds>, sh: Shared, c: nat, pc: Pc): Option<Move> {
    match pc
    case Enter => Some(Move(sh.(forced := false), Recheck(sh.forced), if sh.forced then [ForcedEntry(c)] else []))
    case Recheck(forced) => Some(Rechecked(sh, c, forced, CachedValid(buffer, now, sh), now))
    case ReadDb(entry) =>
      Some(if db.None? then Move(sh, Idle, [Refused(c)])
           else Move(sh, Decide(entry, db.value), [RowRead(c, entry, db.value.expires)]))
    case Decide(entry, row) => Some(Decided(buffer, now, sh, c, entry, row))
    case Check(t) =>
      Some(if Burned(sh, t.seed.expires) then Move(sh, Idle, [Refused(c)])
           else Move(sh, Sending(t), [Sent(c, t.seed.expires, t.entry, t.second, t.dbExpires)]))
    case Reread(t) => Some(Retried(sh, c, t, db))
    case Store(creds, minted, at) =>
      Some(Move(sh.(cached := Some(Cached(creds, minted))), Idle, [Served(c, creds, minted, at)]))
    case _ => None
  }

  /** The step of caller `c`, who holds the gate, if the choice fits where it is. */
  function Moved(buffer: nat, now: Time, db: Option<Creds>, sh: Shared, c: nat, pc: Pc, choice: Choice): Option<Move>
    requires Holds(pc)
  {
    match choice
    case Drop => Some(Move(if pc.Past200? then Burn(sh, pc.try.seed.expires) else sh, Idle, []))
    case Reject => if pc.Sending? then Some(Failed(sh, c, pc.try)) else None
    case Accept => if pc.Sending? then Some(Move(sh, Past200(pc.try), [Spent(c, pc.try.seed.expires, pc.try.entry, pc.try.dbExpires)])) else None
    case Answer(r) => if pc.Past200? then Some(Answered(sh, now, c, pc.try, r)) else None
    case Go => Walked(buffer, now, db, sh, c, pc)
  }

  // ---- all callers ----------------------------------------------------------------------------

  /** `db` is what a read of the database would give now; none when the read fails. */
  datatype State = State(sh: Shared, gate: Option<nat>, callers: seq<Pc>, db: Option<Creds>, now: Time, log: seq<Event>)

  datatype Action =
    | Call(c: nat)
    | Step(c: nat, choice: Choice)
    | Invalidate
    | WriteDb(db: Option<Creds>)
    | Tick(seconds: nat)

  function Init(n: nat, db: Option<Creds>, now: Time): State {
    State(Shared(None, false, {}, false), None, seq(n, _ => Idle), db, now, [])
  }

  function Placed(s: State, c: nat, pc: Pc): State
    requires c < |s.callers|
  {
    s.(callers := s.callers[c := pc])
  }

  /** The step of a caller that does not hold the gate. */
  function Outside(buffer: nat, s: State, c: nat, choice: Choice): State
    requires c < |s.callers| && !Holds(s.callers[c])
  {
    var pc := s.callers[c];
    if choice == Drop then Placed(s, c, Idle)
    else if choice != Go || pc.Idle? then s
    else if pc.Load? then Placed(s, c, if s.sh.forced then Wait else Peek)
    else if pc.Peek? then
      var valid := CachedValid(buffer, s.now, s.sh);
      if valid.Some? then Placed(s, c, Idle).(log := s.log + [Served(c, valid.value, false, s.now)]) else Placed(s, c, Wait)
    else if s.gate.None? then Placed(s, c, Enter).(gate := Some(c))
    else s
  }

  function Inside(buffer: nat, s: State, c: nat, choice: Choice): State
    requires c < |s.callers| && Holds(s.callers[c])
  {
    match Moved(buffer, s.now, s.db, s.sh, c, s.callers[c], choice)
    case None => s
    case Some(m) =>
      Placed(s, c, m.pc).(sh := m.sh, gate := if m.pc.Idle? then None else s.gate, log := s.log + m.events)
  }

  /** An action that is not possible changes nothing. */
  function Act(buffer: nat, s: State, a: Action): State {
    match a
    case Call(c) => if c < |s.callers| && s.callers[c].Idle? then Placed(s, c, Load) else s
    case Step(c, choice) =>
      if c >= |s.callers| then s
      else if Holds(s.callers[c]) then Inside(buffer, s, c, choice)
      else Outside(buffer, s, c, choice)
    case Invalidate => s.(sh := s.sh.(forced := true), log := s.log + [Invalidated])
    case WriteDb(db) => s.(db := db)
    case Tick(seconds) => s.(now := s.now + seconds)
  }

  function Run(buffer: nat, s: State, actions: seq<Action>): State
    decreases |actions|
  {
    if actions == [] then s else Run(buffer, Act(buffer, s, actions[0]), actions[1..])
  }

  // ---- what the record must show ------------------------------------------------------------------

  /** The keys of the seeds whose exchange reached a 200. */
  function SpentKeys(log: seq<Event>): set<Time> {
    if log == [] then {}
    else SpentKeys(log[..|log| - 1]) + (if log[|log| - 1].Spent? then {log[|log| - 1].key} else {})
  }

  /** An exchange is sent only in a cycle that was forced or found no valid credential, a second one only for
      another row than at the top of the cycle; a credential that is served was valid at the decision or was minted. */
  predicate Proper(buffer: nat, e: Event) {
    && (e.Sent? || e.Cycle? ==> e.entry.forced || !e.entry.valid)
    && (e.Sent? && e.second ==> e.key != e.top && e.top != UNIX_EPOCH)
    && (e.Served? ==> e.minted || Valid(buffer, e.at, e.creds))
  }

  /** Every event is proper, and no seed is sent that had been spent. */
  predicate Safe(buffer: nat, log: seq<Event>) {
    log == []
    || (var e, before := log[|log| - 1], log[..|log| - 1];
        Safe(buffer, before) && Proper(buffer, e) && (e.Sent? ==> e.key !in SpentKeys(before)))
  }

  lemma SafeOne(buffer: nat, log: seq<Event>, e: Event)
    requires Safe(buffer, log) && Proper(buffer, e) && (e.Sent? ==> e.key !in SpentKeys(log))
    ensures Safe(buffer, log + [e])
    ensures SpentKeys(log + [e]) == SpentKeys(log) + if e.Spent? then {e.key} else {}
  {
    assert (log + [e])[..|log|] == log;
  }

  // ---- the invariant --------------------------------------------------------------------------------

  /** The seeds marked as burned are those whose exchange reached a 200, but for the one in progress. */
  ghost predicate Accounted(sh: Shared, pc: Pc, spent: set<Time>) {
    && UNIX_EPOCH !in sh.burned
    && (forall k :: k in spent <==> (Burned(sh, k) || (pc.Past200? && k == pc.try.seed.expires)))
  }

  /** What is known about an attempt. */
  predicate Due(t: Try) {
    (t.entry.forced || !t.entry.valid) && (t.second ==> t.seed.expires != t.dbExpires && t.dbExpires != UNIX_EPOCH)
  }

  /** What is known where a caller is. */
  predicate Located(buffer: nat, sh: Shared, pc: Pc) {
    match pc
    case ReadDb(e) => e.forced || !e.valid
    case Decide(e, _) => e.forced || !e.valid
    case Check(t) => Due(t)
    case Sending(t) => Due(t) && !Burned(sh, t.seed.expires)
    case Past200(t) => Due(t)
    case Reread(t) => Due(t)
    case Store(creds, minted, at) =>
      minted || (Valid(buffer, at, creds) && (sh.cached.Some? ==> creds.expires > sh.cached.value.creds.expires))
    case _ => true
  }

  /** The shared state, the caller that holds the gate and the record fit together. */
  ghost predicate Core(buffer: nat, sh: Shared, pc: Pc, log: seq<Event>) {
    Safe(buffer, log) && Accounted(sh, pc, SpentKeys(log)) && Located(buffer, sh, pc)
  }

  lemma AddEvents(buffer: nat, log: seq<Event>, es: seq<Event>)
    requires Safe(buffer, log) && |es| <= 1
    requires forall e | e in es :: Proper(buffer, e) && (e.Sent? ==> e.key !in SpentKeys(log))
    ensures Safe(buffer, log + es)
    ensures SpentKeys(log + es) == SpentKeys(log) + if |es| == 1 && es[0].Spent? then {es[0].key} else {}
  {
    hide Safe;
    hide SpentKeys;
    if es == [] {
      assert log + es == log;
    } else {
      assert es == [es[0]];
      SafeOne(buffer, log, es[0]);
    }
  }

  lemma BurnAccounts(sh: Shared, t: Try, spent: set<Time>, pc: Pc)
    requires Accounted(sh, Past200(t), spent) && !pc.Past200?
    ensures Accounted(Burn(sh, t.seed.expires), pc, spent)
  {
    var b := Burn(sh, t.seed.expires);
    forall k ensures k in spent <==> Burned(b, k) {
      assert k in spent <==> (Burned(sh, k) || k == t.seed.expires);
    }
  }

  lemma AcceptAccounts(sh: Shared, t: Try, spent: set<Time>)
    requires Accounted(sh, Sending(t), spent)
    ensures Accounted(sh, Past200(t), spent + {t.seed.expires})
  {
    forall k ensures k in spent + {t.seed.expires} <==> (Burned(sh, k) || k == t.seed.expires) {
      assert k in spent <==> Burned(sh, k);
    }
  }

  lemma NotSpent(sh: Shared, t: Try, spent: set<Time>)
    requires Accounted(sh, Check(t), spent) && !Burned(sh, t.seed.expires)
    ensures t.seed.expires !in spent
  {
  }

  /** Every step of the caller that holds the gate keeps them fitting. */
  lemma MovedKeeps(buffer: nat, now: Time, db: Option<Creds>, sh: Shared, c: nat, pc: Pc, choice: Choice, log: seq<Event>)
    requires Holds(pc) && Core(buffer, sh, pc, log)
    ensures var m := Moved(buffer, now, db, sh, c, pc, choice);
            m.Some? ==> Core(buffer, m.value.sh, m.value.pc, log + m.value.events)
  {
    hide Safe;
    hide SpentKeys;
    hide Burn;
    var m := Moved(buffer, now, db, sh, c, pc, choice);
    if m.Some? {
      if pc.Past200? {
        BurnAccounts(sh, pc.try, SpentKeys(log), m.value.pc);
      }
      if pc.Sending? && choice == Accept {
        AcceptAccounts(sh, pc.try, SpentKeys(log));
      }
      if pc.Check? && !Burned(sh, pc.try.seed.expires) {
        NotSpent(sh, pc.try, SpentKeys(log));
      }
      AddEvents(buffer, log, m.value.events);
    }
  }
}
