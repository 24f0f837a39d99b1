/** The credential source as an object. What one call does without interference is a run of the protocol. */
module TokenSourceClass {
  import opened Wrappers
  import P = TokenProtocol

  /** How an exchange goes: refused or failed before a 200, answered after some seconds, or the caller is
      cancelled before or after the 200. */
  datatype Exchange = Rejected | Answered(seconds: nat, response: P.Response) | CancelledEarly | CancelledLate

  /** What the environment has for one call: the clock, two reads of the database, two exchanges. */
  datatype World = World(now: P.Time, db: Option<P.Creds>, first: Exchange, again: Option<P.Creds>, second: Exchange)

  datatype Outcome = Given(creds: P.Creds) | Denied | Cancelled

  /** What became of an attempt to refresh; `Burnt` when the seed was spent before. */
  datatype Tried = Burnt | Fresh(creds: P.Creds) | Failed | Dropped

  /** Caller `c` is done, and the record says so. */
  ghost predicate Ends(s: P.State, c: nat, r: Outcome) {
    && s.gate.None? && c < |s.callers| && s.callers[c].Idle?
    && (r.Given? ==> s.log != [] && s.log[|s.log| - 1].Served? && s.log[|s.log| - 1].caller == c && s.log[|s.log| - 1].creds == r.creds)
    && (r.Denied? ==> s.log != [] && s.log[|s.log| - 1] == P.Refused(c))
  }

  /** Caller `c` holds the gate and is at `pc`. */
  ghost predicate At(s: P.State, c: nat, pc: P.Pc) {
    c < |s.callers| && s.callers[c] == pc && s.gate == Some(c) && P.Holds(pc)
  }

  lemma {:induction false} RunAppend(buffer: nat, s: P.State, a: seq<P.Action>, b: seq<P.Action>)
    ensures P.Run(buffer, s, a + b) == P.Run(buffer, P.Run(buffer, s, a), b)
    decreases |a|
  {
    hide P.Act;
    if a == [] {
      assert a + b == b;
    } else {
      assert (a + b)[1..] == a[1..] + b;
      RunAppend(buffer, P.Act(buffer, s, a[0]), a[1..], b);
    }
  }

  lemma RunOne(buffer: nat, s: P.State, a: P.Action)
    ensures P.Run(buffer, s, [a]) == P.Act(buffer, s, a)
  {
    hide P.Act;
    assert [a][1..] == [];
    assert P.Run(buffer, P.Act(buffer, s, a), []) == P.Act(buffer, s, a);
  }

  /** The actions of an exchange of caller `c`. */
  ghost function Script(c: nat, x: Exchange): seq<P.Action> {
    match x
    case Rejected => [P.Step(c, P.Go), P.Step(c, P.Reject)]
    case CancelledEarly => [P.Step(c, P.Go), P.Step(c, P.Drop)]
    case CancelledLate => [P.Step(c, P.Go), P.Step(c, P.Accept), P.Step(c, P.Drop)]
    case Answered(seconds, response) => [P.Step(c, P.Go), P.Step(c, P.Accept), P.Tick(seconds), P.Step(c, P.Answer(response))]
  }

  /** A failed attempt leaves its caller where it tries again, or done. */
  ghost predicate AfterFailure(n: P.State, c: nat, t: P.Try) {
    if t.second then Ends(n, c, Denied) else At(n, c, P.Reread(t))
  }

  /** After a 200: a credential that the response brings goes to the cache next, otherwise the attempt failed. */
  ghost predicate Answers(n: P.State, c: nat, t: P.Try, response: P.Response) {
    && (forall creds :: P.Renews(t.seed, response, n.now, creds) ==> At(n, c, P.Store(creds, true, n.now)))
    && ((forall creds :: !P.Renews(t.seed, response, n.now, creds)) ==> AfterFailure(n, c, t))
  }

  lemma BurntRuns(buffer: nat, s: P.State, c: nat, t: P.Try)
    requires At(s, c, P.Check(t))
    ensures var n := P.Run(buffer, s, [P.Step(c, P.Go)]);
            P.Burned(s.sh, t.seed.expires) ==> n.sh == s.sh && n.now == s.now && |n.callers| == |s.callers| && Ends(n, c, Denied)
  {
    RunOne(buffer, s, P.Step(c, P.Go));
  }

  lemma RejectRuns(buffer: nat, s: P.State, c: nat, t: P.Try)
    requires At(s, c, P.Check(t)) && !P.Burned(s.sh, t.seed.expires)
    ensures var n := P.Run(buffer, s, Script(c, Rejected));
            n.sh == s.sh && n.now == s.now && |n.callers| == |s.callers| && AfterFailure(n, c, t)
  {
    RunTwo(buffer, s, P.Step(c, P.Go), P.Step(c, P.Reject));
  }

  lemma CancelRuns(buffer: nat, s: P.State, c: nat, t: P.Try)
    requires At(s, c, P.Check(t)) && !P.Burned(s.sh, t.seed.expires)
    ensures var n := P.Run(buffer, s, Script(c, CancelledEarly));
            n.sh == s.sh && n.now == s.now && |n.callers| == |s.callers| && Ends(n, c, Cancelled)
    ensures var n := P.Run(buffer, s, Script(c, CancelledLate));
            n.sh == P.Burn(s.sh, t.seed.expires) && n.now == s.now && |n.callers| == |s.callers| && Ends(n, c, Cancelled)
  {
    RunTwo(buffer, s, P.Step(c, P.Go), P.Step(c, P.Drop));
    RunThree(buffer, s, P.Step(c, P.Go), P.Step(c, P.Accept), P.Step(c, P.Drop));
  }

  lemma AnswerRuns(buffer: nat, s: P.State, c: nat, t: P.Try, seconds: nat, response: P.Response)
    requires At(s, c, P.Check(t)) && !P.Burned(s.sh, t.seed.expires)
    ensures var n := P.Run(buffer, s, Script(c, Answered(seconds, response)));
            && n.sh == P.Burn(s.sh, t.seed.expires) && n.now == s.now + seconds && |n.callers| == |s.callers|
            && Answers(n, c, t, response)
  {
    P.MintedRenews(t.seed, s.now + seconds, response);
    hide P.Minted;
    hide P.Renews;
    hide P.Burn;
    RunFour(buffer, s, P.Step(c, P.Go), P.Step(c, P.Accept), P.Tick(seconds), P.Step(c, P.Answer(response)));
  }

  /** Where an exchange leads. */
  lemma ScriptRuns(buffer: nat, s: P.State, c: nat, t: P.Try, x: Exchange)
    requires At(s, c, P.Check(t))
    ensures var n := P.Run(buffer, s, Script(c, x));
            !P.Burned(s.sh, t.seed.expires) ==>
              && n.sh == (if x.Answered? || x.CancelledLate? then P.Burn(s.sh, t.seed.expires) else s.sh)
              && n.now == (if x.Answered? then s.now + x.seconds else s.now) && |n.callers| == |s.callers|
              && (x.Rejected? ==> AfterFailure(n, c, t))
              && (x.CancelledEarly? || x.CancelledLate? ==> Ends(n, c, Cancelled))
              && (x.Answered? ==> Answers(n, c, t, x.response))
  {
    hide P.Run;
    hide Answers;
    hide P.Burn;
    if !P.Burned(s.sh, t.seed.expires) {
      match x
      case Rejected => RejectRuns(buffer, s, c, t);
      case CancelledEarly => CancelRuns(buffer, s, c, t);
      case CancelledLate => CancelRuns(buffer, s, c, t);
      case Answered(seconds, response) => AnswerRuns(buffer, s, c, t, seconds, response);
    }
  }

  class TokenSource {
    const buffer: nat
    var cached: Option<P.Cached>
    var forced: bool
    var burned: set<P.Time>
    var burnedUnparsable: bool

    ghost function Shared(): P.Shared
      reads this
    {
      P.Shared(cached, forced, burned, burnedUnparsable)
    }

    constructor (buffer: nat)
      ensures this.buffer == buffer && Shared() == P.Init(0, None, 0).sh
    {
      this.buffer := buffer;
      cached, forced, burned, burnedUnparsable := None, false, {}, false;
    }

    function CachedValid(now: P.Time): (r: Option<P.Creds>)
      reads this
      ensures r == P.CachedValid(buffer, now, Shared())
    {
      if cached.Some? && now + buffer < cached.value.creds.expires then Some(cached.value.creds) else None
    }

    function ChainSeed(db: P.Creds): (seed: P.Creds)
      reads this
      ensures seed.expires >= db.expires && (cached.Some? ==> seed.expires >= cached.value.creds.expires)
      ensures seed == db || (cached.Some? && seed == cached.value.creds)
    {
      if cached.Some? && cached.value.creds.expires >= db.expires then cached.value.creds else db
    }

    method SetCached(creds: P.Creds, minted: bool)
      modifies this`cached
      ensures Shared() == old(Shared()).(cached := Some(P.Cached(creds, minted)))
    {
      cached := Some(P.Cached(creds, minted));
    }

    method Invalidate()
      modifies this`forced
      ensures Shared() == old(Shared()).(forced := true)
    {
      forced := true;
    }

    /** `BurnGuard::drop`. */
    method DropGuard(expires: P.Time, past200: bool)
      modifies this`burned, this`burnedUnparsable
      ensures Shared() == if past200 then P.Burn(old(Shared()), expires) else old(Shared())
    {
      if !past200 {
        return;
      }
      if expires == P.UNIX_EPOCH {
        burnedUnparsable := true;
      } else {
        burned := burned + {expires};
      }
    }

    /** The fields of a 200's body, as `refresh` takes them. */
    method TakeTokens(seed: P.Creds, response: P.Response, now: P.Time) returns (r: Option<P.Creds>)
      ensures r.Some? ==> P.Renews(seed, response, now, r.value)
      ensures r.None? ==> forall creds :: !P.Renews(seed, response, now, creds)
    {
      match response {
        case Unusable => r := None;
        case Tokens(access, refresh, expiresIn) =>
          if access == "" {
            return None;
          }
          if expiresIn <= 0 || expiresIn > P.MAX_EXPIRES_IN {
            return None;
          }
          var kept := seed.refresh;
          if refresh.Some? && refresh.value != "" {
            kept := refresh.value;
          }
          r := Some(P.Creds(access, kept, now + expiresIn));
      }
    }

    /** `try_refresh`, and the actions of the protocol that it amounts to. */
    method TryRefresh(seed: P.Creds, x: Exchange, now: P.Time, ghost s: P.State, ghost c: nat, ghost t: P.Try)
      returns (r: Tried, later: P.Time, ghost acts: seq<P.Action>)
      requires At(s, c, P.Check(t)) && t.seed == seed && s.sh == Shared() && s.now == now
      modifies this`burned, this`burnedUnparsable
      ensures var n := P.Run(buffer, s, acts);
              && n.sh == Shared() && n.now == later && |n.callers| == |s.callers|
              && match r
                 case Fresh(creds) => At(n, c, P.Store(creds, true, later))
                 case Failed => if t.second then Ends(n, c, Denied) else At(n, c, P.Reread(t))
                 case Burnt => Ends(n, c, Denied)
                 case Dropped => Ends(n, c, Cancelled)
      ensures r.Burnt? <==> P.Burned(old(Shared()), seed.expires)
      ensures !r.Burnt? ==> Shared() == if x.Answered? || x.CancelledLate? then P.Burn(old(Shared()), seed.expires) else old(Shared())
      ensures r.Fresh? ==> x.Answered? && later == now + x.seconds && P.Renews(seed, x.response, later, r.creds)
      ensures r.Failed? && x.Answered? ==> forall creds :: !P.Renews(seed, x.response, later, creds)
    {
      hide P.Act;
      hide P.Burn;
      hide P.Renews;
      later := now;
      acts := [P.Step(c, P.Go)];
      BurntRuns(buffer, s, c, t);
      if seed.expires == P.UNIX_EPOCH {
        if burnedUnparsable {
          return Burnt, later, acts;
        }
      } else if seed.expires in burned {
        return Burnt, later, acts;
      }
      acts := Script(c, x);
      ScriptRuns(buffer, s, c, t, x);
      match x {
        case Rejected =>
          DropGuard(seed.expires, false);
          r := Failed;
        case CancelledEarly =>
          DropGuard(seed.expires, false);
          r := Dropped;
        case CancelledLate =>
          DropGuard(seed.expires, true);
          r := Dropped;
        case Answered(seconds, response) =>
          later := now + seconds;
          var creds := TakeTokens(seed, response, later);
          DropGuard(seed.expires, true);
          r := if creds.Some? then Fresh(creds.value) else Failed;
      }
    }

    /** A minted credential goes into the cache and to the caller. */
    method Keep(creds: P.Creds, minted: bool, ghost s: P.State, ghost c: nat, ghost at: P.Time)
      requires At(s, c, P.Store(creds, minted, at)) && s.sh == Shared()
      modifies this`cached
      ensures var n := P.Run(buffer, s, [P.Step(c, P.Go)]); n.sh == Shared() && Ends(n, c, Given(creds))
    {
      SetCached(creds, minted);
      RunOne(buffer, s, P.Step(c, P.Go));
    }

    /** The cycle from the seed on: one attempt, and another only after a new login. */
    method Refresh(seed: P.Creds, dbExpires: P.Time, w: World, ghost s: P.State, ghost c: nat, ghost t: P.Try)
      returns (r: Outcome, ghost acts: seq<P.Action>)
      requires At(s, c, P.Check(t)) && t.seed == seed && t.dbExpires == dbExpires && !t.second
      requires s.sh == Shared() && s.now == w.now
      modifies this`burned, this`burnedUnparsable, this`cached
      ensures var n := P.Run(buffer, s, acts); n.sh == Shared() && Ends(n, c, r)
    {
      hide P.Act;
      hide P.Run;
      var first, later, did := TryRefresh(seed, w.first, w.now, s, c, t);
      ghost var n := P.Run(buffer, s, did);
      match first {
        case Burnt => return Denied, did;
        case Dropped => return Cancelled, did;
        case Fresh(creds) =>
          Keep(creds, true, n, c, later);
          RunAppend(buffer, s, did, [P.Step(c, P.Go)]);
          return Given(creds), did + [P.Step(c, P.Go)];
        case Failed =>
      }
      ghost var reread := [P.WriteDb(w.again), P.Step(c, P.Go)];
      RunTwo(buffer, n, reread[0], reread[1]);
      RunAppend(buffer, s, did, reread);
      did := did + reread;
      ghost var m := P.Run(buffer, s, did);
      Rereads(buffer, n, c, t, w.again);
      if w.again.None? || dbExpires == P.UNIX_EPOCH || w.again.value.expires == dbExpires {
        return Denied, did;
      }
      ghost var u := t.(seed := w.again.value, second := true);
      var second, last, more := TryRefresh(w.again.value, w.second, later, m, c, u);
      RunAppend(buffer, s, did, more);
      ghost var k := P.Run(buffer, m, more);
      match second {
        case Burnt => return Denied, did + more;
        case Dropped => return Cancelled, did + more;
        case Failed => return Denied, did + more;
        case Fresh(creds) =>
          Keep(creds, true, k, c, last);
          RunAppend(buffer, s, did + more, [P.Step(c, P.Go)]);
          return Given(creds), did + more + [P.Step(c, P.Go)];
      }
    }

    /** `current`: the fast path without the gate, then the cycle under it. */
    method Current(w: World, ghost s: P.State, ghost c: nat) returns (r: Outcome, ghost acts: seq<P.Action>)
      requires c < |s.callers| && s.callers[c].Idle? && s.gate.None? && s.sh == Shared() && s.now == w.now && s.db == w.db
      modifies this
      ensures var n := P.Run(buffer, s, acts); n.sh == Shared() && Ends(n, c, r)
    {
      hide P.Run;
      hide P.Act;
      if !forced {
        var quick := CachedValid(w.now);
        if quick.Some? {
          acts := FastActs(c);
          FastRuns(buffer, s, c);
          return Given(quick.value), acts;
        }
      }
      acts := EntryActs(c, forced);
      EntryRuns(buffer, s, c);
      ghost var entered := P.Run(buffer, s, acts);
      var wasForced := forced;
      forced := false;
      ghost var cycle;
      r, cycle := Cycle(wasForced, w, entered, c);
      RunAppend(buffer, s, acts, cycle);
      acts := acts + cycle;
    }

    /** The part of `current` that holds the gate. */
    method Cycle(wasForced: bool, w: World, ghost s: P.State, ghost c: nat) returns (r: Outcome, ghost acts: seq<P.Action>)
      requires At(s, c, P.Recheck(wasForced)) && s.sh == Shared() && s.now == w.now && s.db == w.db
      modifies this`cached, this`burned, this`burnedUnparsable
      ensures var n := P.Run(buffer, s, acts); n.sh == Shared() && Ends(n, c, r)
    {
      hide P.Run;
      hide P.Act;
      acts := [P.Step(c, P.Go)];
      RecheckRuns(buffer, s, c, wasForced);
      var valid := CachedValid(w.now);
      if !wasForced && valid.Some? {
        return Given(valid.value), acts;
      }
      ghost var entry := P.Entry(wasForced, valid.Some?);
      if w.db.None? {
        acts := [P.Step(c, P.Go), P.Step(c, P.Go)];
        return Denied, acts;
      }
      var db := w.db.value;
      acts := [P.Step(c, P.Go), P.Step(c, P.Go), P.Step(c, P.Go)];
      ghost var decided := P.Run(buffer, s, acts);
      var newer := cached.None? || db.expires > cached.value.creds.expires;
      if w.now + buffer < db.expires && newer {
        Keep(db, false, decided, c, w.now);
        RunAppend(buffer, s, acts, [P.Step(c, P.Go)]);
        return Given(db), acts + [P.Step(c, P.Go)];
      }
      if wasForced && cached.Some? && cached.value.minted && w.now + buffer < cached.value.creds.expires {
        return Given(cached.value.creds), acts;
      }
      var seed := ChainSeed(db);
      ghost var more;
      r, more := Refresh(seed, db.expires, w, decided, c, P.Try(entry, db.expires, seed, false));
      RunAppend(buffer, s, acts, more);
      acts := acts + more;
    }
  }

  ghost function FastActs(c: nat): seq<P.Action> {
    [P.Call(c), P.Step(c, P.Go), P.Step(c, P.Go)]
  }

  lemma FastRuns(buffer: nat, s: P.State, c: nat)
    requires c < |s.callers| && s.callers[c].Idle? && s.gate.None? && !s.sh.forced
    ensures var n := P.Run(buffer, s, FastActs(c));
            s.sh.cached.Some? && s.now + buffer < s.sh.cached.value.creds.expires
            ==> n.sh == s.sh && Ends(n, c, Given(s.sh.cached.value.creds))
  {
    RunThree(buffer, s, P.Call(c), P.Step(c, P.Go), P.Step(c, P.Go));
  }

  /** From the call to the gate and the swap of the forced flag; a forced call does not look at the cache before. */
  ghost function EntryActs(c: nat, forced: bool): seq<P.Action> {
    [P.Call(c), P.Step(c, P.Go)] + (if forced then [] else [P.Step(c, P.Go)]) + [P.Step(c, P.Go), P.Step(c, P.Go)]
  }

  lemma EntryRuns(buffer: nat, s: P.State, c: nat)
    requires c < |s.callers| && s.callers[c].Idle? && s.gate.None?
    requires s.sh.forced || P.CachedValid(buffer, s.now, s.sh).None?
    ensures var n := P.Run(buffer, s, EntryActs(c, s.sh.forced));
            n.sh == s.sh.(forced := false) && n.now == s.now && n.db == s.db && |n.callers| == |s.callers|
            && At(n, c, P.Recheck(s.sh.forced))
  {
    hide P.Run;
    var go := P.Step(c, P.Go);
    if s.sh.forced {
      assert EntryActs(c, true) == [P.Call(c), go, go, go];
      RunFour(buffer, s, P.Call(c), go, go, go);
    } else {
      assert EntryActs(c, false) == [P.Call(c), go, go] + [go, go];
      RunAppend(buffer, s, [P.Call(c), go, go], [go, go]);
      RunThree(buffer, s, P.Call(c), go, go);
      RunTwo(buffer, P.Run(buffer, s, [P.Call(c), go, go]), go, go);
    }
  }

  /** From the second look at the cache to the decision. */
  lemma RecheckRuns(buffer: nat, s: P.State, c: nat, forced: bool)
    requires At(s, c, P.Recheck(forced))
    ensures var go := P.Step(c, P.Go);
            var valid := P.CachedValid(buffer, s.now, s.sh);
            && (!forced && valid.Some? ==>
                  var n := P.Run(buffer, s, [go]); n.sh == s.sh && Ends(n, c, Given(valid.value)))
            && ((forced || valid.None?) && s.db.None? ==>
                  var n := P.Run(buffer, s, [go, go]); n.sh == s.sh && Ends(n, c, Denied))
            && ((forced || valid.None?) && s.db.Some? ==>
                  Decides(buffer, s, P.Run(buffer, s, [go, go, go]), c, P.Entry(forced, valid.Some?), s.db.value))
  {
    hide P.Run;
    hide P.Decided;
    var go := P.Step(c, P.Go);
    RunOne(buffer, s, go);
    RunTwo(buffer, s, go, go);
    RunThree(buffer, s, go, go, go);
    if s.db.Some? && (forced || P.CachedValid(buffer, s.now, s.sh).None?) {
      var entry := P.Entry(forced, P.CachedValid(buffer, s.now, s.sh).Some?);
      var n := P.Act(buffer, P.Act(buffer, s, go), go);
      assert At(n, c, P.Decide(entry, s.db.value)) && n.sh == s.sh && n.now == s.now;
      DecideRuns(buffer, n, c, entry, s.db.value);
    }
  }

  /** Where the decision leads: the database row, the credential this process minted, or a refresh. */
  ghost predicate Decides(buffer: nat, s: P.State, n: P.State, c: nat, entry: P.Entry, db: P.Creds) {
    && n.sh == s.sh && n.now == s.now && |n.callers| == |s.callers|
    && var newer := s.sh.cached.None? || db.expires > s.sh.cached.value.creds.expires;
       if s.now + buffer < db.expires && newer then At(n, c, P.Store(db, false, s.now))
       else if entry.forced && s.sh.cached.Some? && s.sh.cached.value.minted && s.now + buffer < s.sh.cached.value.creds.expires
         then Ends(n, c, Given(s.sh.cached.value.creds))
       else
         var seed := if s.sh.cached.Some? && s.sh.cached.value.creds.expires >= db.expires then s.sh.cached.value.creds else db;
         At(n, c, P.Check(P.Try(entry, db.expires, seed, false)))
  }

  lemma DecideRuns(buffer: nat, s: P.State, c: nat, entry: P.Entry, db: P.Creds)
    requires At(s, c, P.Decide(entry, db))
    ensures Decides(buffer, s, P.Act(buffer, s, P.Step(c, P.Go)), c, entry, db)
  {
  }

  /** The second read of the database. */
  lemma Rereads(buffer: nat, s: P.State, c: nat, t: P.Try, db: Option<P.Creds>)
    requires At(s, c, P.Reread(t))
    ensures var n := P.Act(buffer, P.Act(buffer, s, P.WriteDb(db)), P.Step(c, P.Go));
            && n.sh == s.sh && n.now == s.now && |n.callers| == |s.callers|
            && if db.None? || t.dbExpires == P.UNIX_EPOCH || db.value.expires == t.dbExpires then Ends(n, c, Denied)
               else At(n, c, P.Check(t.(seed := db.value, second := true)))
  {
  }

  lemma RunTwo(buffer: nat, s: P.State, a: P.Action, b: P.Action)
    ensures P.Run(buffer, s, [a, b]) == P.Act(buffer, P.Act(buffer, s, a), b)
  {
    hide P.Act;
    assert [a, b] == [a] + [b];
    RunAppend(buffer, s, [a], [b]);
    RunOne(buffer, s, a);
    RunOne(buffer, P.Act(buffer, s, a), b);
  }

  lemma RunThree(buffer: nat, s: P.State, a: P.Action, b: P.Action, d: P.Action)
    ensures P.Run(buffer, s, [a, b, d]) == P.Act(buffer, P.Act(buffer, P.Act(buffer, s, a), b), d)
  {
    hide P.Act;
    assert [a, b, d] == [a, b] + [d];
    RunAppend(buffer, s, [a, b], [d]);
    RunTwo(buffer, s, a, b);
    RunOne(buffer, P.Act(buffer, P.Act(buffer, s, a), b), d);
  }

  lemma RunFour(buffer: nat, s: P.State, a: P.Action, b: P.Action, d: P.Action, e: P.Action)
    ensures P.Run(buffer, s, [a, b, d, e]) == P.Act(buffer, P.Act(buffer, P.Act(buffer, P.Act(buffer, s, a), b), d), e)
  {
    hide P.Act;
    assert [a, b, d, e] == [a, b, d] + [e];
    RunAppend(buffer, s, [a, b, d], [e]);
    RunThree(buffer, s, a, b, d);
    RunOne(buffer, P.Act(buffer, P.Act(buffer, P.Act(buffer, s, a), b), d), e);
  }
}
