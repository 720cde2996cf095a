/**
 * The Idempotency-Key protocol for one (business, key): any number of requests, each stepping through
 * short transactions on the key's row, interleaved in any order with time passing.
 */
module Idempotency {
  import opened Options
  import opened Waiting

  type Request = nat
  type Fingerprint = nat
  type Response = nat

  // Milliseconds.
  const STALE := 2 * 60 * 1000
  const RETENTION := 24 * 60 * 60 * 1000

  datatype Row = Row(hash: Fingerprint, response: Option<Response>, created: int) {
    // expires_at < now
    predicate Expired(now: int) { created + RETENTION < now }

    // now - created_at > two minutes
    predicate Stale(now: int) { now - created > STALE }
  }

  datatype Outcome =
    | Returned(response: Response)
    | Replayed(response: Response)
    | UsedForAnotherRequest
    | StillProcessing
    | HandlerError
    | Crashed

  datatype Stage =
    | Claiming                             // before DELETE expired; INSERT ... DO NOTHING
    | Selecting                            // the INSERT found a row
    | Deciding(seen: Option<Row>)          // the SELECT returned
    | ReleasingStale
    | Running                              // owns the key, handler at work
    | Storing(response: Response)          // handler committed
    | Releasing(outcome: Outcome)
    | Done(outcome: Outcome)

  datatype Call = Call(fingerprint: Fingerprint, stage: Stage, sleeps: nat, waited: nat, claimedAt: int) {
    predicate Owns() { stage.Running? || stage.Storing? || stage.Releasing? }
  }

  // A handler run that committed, and whether it raised all the same.
  datatype Success = Success(request: Request, fingerprint: Fingerprint, response: Response, raised: bool)

  // `successes` records every handler run that committed.
  datatype State = State(row: Option<Row>, now: int, calls: map<Request, Call>, successes: seq<Success>)

  datatype Action =
    | Arrive(r: Request, fingerprint: Fingerprint)
    | Tick(d: nat)
    | TryInsert(r: Request)
    | Select(r: Request)
    | Decide(r: Request)
    | ReleaseStale(r: Request)
    | HandlerOk(r: Request, response: Response)
    | HandlerRaises(r: Request)
    | HandlerRaisesLate(r: Request, response: Response)  // after its own commit
    | Store(r: Request)
    | StoreFails(r: Request)
    | Release(r: Request)
    | Crash(r: Request)
    | PurgeExpired                                       // a claim of another key of the business

  // DELETE ... WHERE expires_at < now; INSERT ... ON CONFLICT DO NOTHING
  function Purged(row: Option<Row>, now: int): Option<Row> {
    if row.Some? && row.value.Expired(now) then None else row
  }

  // DELETE ... WHERE response_status IS NULL
  function Released(row: Option<Row>): Option<Row> {
    if row.Some? && row.value.response.None? then None else row
  }

  // ... AND created_at < now - two minutes
  function ReleasedStale(row: Option<Row>, now: int): Option<Row> {
    if row.Some? && row.value.response.None? && row.value.created < now - STALE then None else row
  }

  // UPDATE ... SET response_status, response_body
  function Stored(row: Option<Row>, response: Response): Option<Row> {
    if row.Some? then Some(row.value.(response := Some(response))) else row
  }

  // What the loop does with the row it read.
  function Decision(c: Call, seen: Option<Row>, now: int): Call {
    if seen.None? then c.(stage := Claiming)
    else if seen.value.hash != c.fingerprint then c.(stage := Done(UsedForAnotherRequest))
    else if seen.value.response.Some? then c.(stage := Done(Replayed(seen.value.response.value)))
    else if seen.value.Stale(now) then c.(stage := ReleasingStale)
    else if c.waited >= WAIT_TOTAL then c.(stage := Done(StillProcessing))
    else c.(stage := Claiming, sleeps := c.sleeps + 1, waited := Rounded(c.waited + WAIT_STEP))
  }

  function Init(): State { State(None, 0, map[], []) }

  // The state after an action, or None where the action is not the request's next step.
  function Step(s: State, a: Action): Option<State> {
    match a
    case Arrive(r, f) =>
      if r in s.calls then None else Some(s.(calls := s.calls[r := Call(f, Claiming, 0, 0, 0)]))
    case Tick(d) => Some(s.(now := s.now + d))
    case PurgeExpired => Some(s.(row := Purged(s.row, s.now)))
    case _ =>
      if a.r !in s.calls then None else
        var c := s.calls[a.r];
        match a
        case TryInsert(r) =>
          if !c.stage.Claiming? then None
          else if Purged(s.row, s.now).None? then
            Some(s.(row := Some(Row(c.fingerprint, None, s.now)),
                    calls := s.calls[r := c.(stage := Running, claimedAt := s.now)]))
          else Some(s.(row := Purged(s.row, s.now), calls := s.calls[r := c.(stage := Selecting)]))
        case Select(r) =>
          if !c.stage.Selecting? then None else Some(s.(calls := s.calls[r := c.(stage := Deciding(s.row))]))
        case Decide(r) =>
          if !c.stage.Deciding? then None else Some(s.(calls := s.calls[r := Decision(c, c.stage.seen, s.now)]))
        case ReleaseStale(r) =>
          if !c.stage.ReleasingStale? then None
          else Some(s.(row := ReleasedStale(s.row, s.now), calls := s.calls[r := c.(stage := Claiming)]))
        case HandlerOk(r, x) =>
          if !c.stage.Running? then None
          else Some(s.(calls := s.calls[r := c.(stage := Storing(x))],
                       successes := s.successes + [Success(r, c.fingerprint, x, false)]))
        case HandlerRaises(r) =>
          if !c.stage.Running? then None else Some(s.(calls := s.calls[r := c.(stage := Releasing(HandlerError))]))
        case HandlerRaisesLate(r, x) =>
          if !c.stage.Running? then None
          else Some(s.(calls := s.calls[r := c.(stage := Releasing(HandlerError))],
                       successes := s.successes + [Success(r, c.fingerprint, x, true)]))
        case Store(r) =>
          if !c.stage.Storing? then None
          else Some(s.(row := Stored(s.row, c.stage.response),
                       calls := s.calls[r := c.(stage := Done(Returned(c.stage.response)))]))
        case StoreFails(r) =>
          if !c.stage.Storing? then None
          else Some(s.(calls := s.calls[r := c.(stage := Releasing(Returned(c.stage.response)))]))
        case Release(r) =>
          if !c.stage.Releasing? then None
          else Some(s.(row := Released(s.row), calls := s.calls[r := c.(stage := Done(c.stage.outcome))]))
        case Crash(r) =>
          if !c.Owns() then None else Some(s.(calls := s.calls[r := c.(stage := Done(Crashed))]))
  }

  // Which misfortunes a run may contain: an owner dying before or after its handler's commit, a handler
  // raising after its commit, a failing store, an owner outliving the cut-off, a request after the retention.
  datatype Faults = Faults(crashEarly: bool, crashLate: bool, raisesLate: bool, storeFails: bool, slowOwner: bool,
                           lateRequest: bool) {
    // Whether early crashes may happen does not matter here.
    predicate Safe() { !crashLate && !raisesLate && !storeFails && !slowOwner && !lateRequest }
  }

  ghost predicate Allowed(f: Faults, s: State, a: Action) {
    match a
    case Crash(r) => if r in s.calls && s.calls[r].stage.Storing? then f.crashLate else f.crashEarly
    case HandlerRaisesLate(_, _) => f.raisesLate
    case StoreFails(_) => f.storeFails
    case Tick(d) =>
      // No owner is still at work when its claim turns stale; no time passes a stored answer's expiry.
      && (f.slowOwner || forall r :: r in s.calls && s.calls[r].Owns() ==> s.now + d <= s.calls[r].claimedAt + STALE)
      && (f.lateRequest || (s.row.Some? && s.row.value.response.Some? ==> !s.row.value.Expired(s.now + d)))
    case _ => true
  }

  ghost predicate Run(f: Faults, s: State, actions: seq<Action>, t: State)
    decreases |actions|
  {
    if actions == [] then s == t
    else
      && Allowed(f, s, actions[0])
      && Step(s, actions[0]).Some?
      && Run(f, Step(s, actions[0]).value, actions[1..], t)
  }

  ghost predicate Owner(s: State, r: Request) { r in s.calls && s.calls[r].Owns() }

  ghost predicate Reachable(f: Faults, t: State) {
    exists actions :: Run(f, Init(), actions, t)
  }

  // At most one live owner, and it holds the row.
  ghost predicate Exclusive(s: State) {
    && (forall r, q :: Owner(s, r) && Owner(s, q) ==> r == q)
    && (forall r :: Owner(s, r) ==>
          && s.now <= s.calls[r].claimedAt + STALE
          && s.row == Some(Row(s.calls[r].fingerprint, None, s.calls[r].claimedAt)))
    && (s.row.Some? && s.row.value.response.Some? ==> !s.row.value.Expired(s.now))
  }

  ghost predicate InFlight(s: State) { s.row.Some? && s.row.value.response.None? }

  ghost predicate Owned(s: State) { exists r :: Owner(s, r) }

  ghost predicate Answered(s: State, f: Fingerprint, x: Response) {
    |s.successes| == 1 && s.successes[0].fingerprint == f && s.successes[0].response == x
  }

  ghost predicate CallOk(s: State, c: Call) {
    match c.stage
    case Deciding(Some(row)) => row.response.Some? ==> Answered(s, row.hash, row.response.value)
    case Running => s.successes == []
    case Storing(x) => Answered(s, c.fingerprint, x)
    case Releasing(o) => o.HandlerError? && s.successes == []
    case Done(Returned(x)) => Answered(s, c.fingerprint, x)
    case Done(Replayed(x)) => Answered(s, c.fingerprint, x)
    case _ => true
  }

  ghost predicate Inv(s: State) {
    && Exclusive(s)
    && |s.successes| <= 1
    && (forall r :: r in s.calls ==> CallOk(s, s.calls[r]))
    && (s.successes != [] ==>
          s.row.Some? && s.row.value.hash == s.successes[0].fingerprint && (InFlight(s) ==> Owned(s)))
    && (s.row.Some? && s.row.value.response.Some? ==> Answered(s, s.row.value.hash, s.row.value.response.value))
  }

  // A step that changes neither the row nor who owns it.
  lemma LocalKeepsInv(s: State, r: Request, c: Call)
    requires Inv(s) && !c.Owns() && CallOk(s, c) && !Owner(s, r)
    ensures Inv(s.(calls := s.calls[r := c]))
  {
    var t := s.(calls := s.calls[r := c]);
    assert forall q :: Owner(t, q) <==> Owner(s, q);
  }

  lemma TickKeepsInv(f: Faults, s: State, d: nat)
    requires Inv(s) && f.Safe() && Allowed(f, s, Tick(d))
    ensures Inv(s.(now := s.now + d))
  {
    var t := s.(now := s.now + d);
    assert forall q :: Owner(t, q) <==> Owner(s, q);
  }

  // A row a purge or a stale release removes was an orphan's: nobody owns it and nothing has succeeded.
  lemma RemovedIsOrphan(s: State)
    requires Inv(s) && (Purged(s.row, s.now) != s.row || ReleasedStale(s.row, s.now) != s.row)
    ensures !Owned(s) && s.successes == []
  {
  }

  lemma DropKeepsInv(s: State)
    requires Inv(s) && !Owned(s) && s.successes == []
    ensures Inv(s.(row := None))
  {
    var t := s.(row := None);
    assert forall q :: Owner(t, q) <==> Owner(s, q);
  }

  lemma InsertKeepsInv(s: State, r: Request)
    requires Inv(s) && r in s.calls && s.calls[r].stage.Claiming? && s.row.None?
    ensures Inv(Step(s, TryInsert(r)).value)
  {
    var t := Step(s, TryInsert(r)).value;
    assert Owner(t, r);
    assert forall q :: Owner(s, q) ==> false;
    assert s.successes == [];
  }

  lemma TryInsertKeepsInv(s: State, r: Request)
    requires Inv(s) && Step(s, TryInsert(r)).Some?
    ensures Inv(Step(s, TryInsert(r)).value)
  {
    var t := s.(row := Purged(s.row, s.now));
    if t.row != s.row {
      RemovedIsOrphan(s);
      DropKeepsInv(s);
    }
    if t.row.None? {
      InsertKeepsInv(t, r);
      assert Step(s, TryInsert(r)) == Step(t, TryInsert(r));
    } else {
      LocalKeepsInv(s, r, s.calls[r].(stage := Selecting));
    }
  }

  lemma ReleaseStaleKeepsInv(s: State, r: Request)
    requires Inv(s) && Step(s, ReleaseStale(r)).Some?
    ensures Inv(Step(s, ReleaseStale(r)).value)
  {
    var t := s.(row := ReleasedStale(s.row, s.now));
    if t.row != s.row {
      RemovedIsOrphan(s);
      DropKeepsInv(s);
    }
    assert !Owner(t, r);
    LocalKeepsInv(t, r, s.calls[r].(stage := Claiming));
  }

  // The owner moves on while it keeps the key.
  lemma HandlerKeepsInv(s: State, r: Request, a: Action)
    requires Inv(s) && (a.HandlerOk? || a.HandlerRaises?) && a.r == r && Step(s, a).Some?
    ensures Inv(Step(s, a).value)
  {
    var t := Step(s, a).value;
    assert Owner(s, r) && Owner(t, r);
    assert forall q :: Owner(t, q) <==> Owner(s, q);
    assert CallOk(s, s.calls[r]);
  }

  // The owner lets go of the key, leaving an answer, no row, or (dying before a success) an orphaned row.
  lemma FinishKeepsInv(f: Faults, s: State, r: Request, a: Action)
    requires Inv(s) && (a.Store? || a.Release? || a.Crash?) && a.r == r && Step(s, a).Some?
    requires f.Safe() && Allowed(f, s, a)
    ensures Inv(Step(s, a).value)
  {
    var t := Step(s, a).value;
    assert Owner(s, r);
    assert forall q :: Owner(t, q) ==> Owner(s, q) && q != r;
    assert CallOk(s, s.calls[r]);
  }

  lemma StepKeepsInv(f: Faults, s: State, a: Action)
    requires Inv(s) && f.Safe() && Allowed(f, s, a) && Step(s, a).Some?
    ensures Inv(Step(s, a).value)
  {
    match a
    case Arrive(r, fingerprint) => LocalKeepsInv(s, r, Call(fingerprint, Claiming, 0, 0, 0));
    case Tick(d) => TickKeepsInv(f, s, d);
    case PurgeExpired => if Purged(s.row, s.now) != s.row { RemovedIsOrphan(s); DropKeepsInv(s); }
    case TryInsert(r) => TryInsertKeepsInv(s, r);
    case Select(r) => LocalKeepsInv(s, r, s.calls[r].(stage := Deciding(s.row)));
    case Decide(r) =>
      assert CallOk(s, s.calls[r]);
      LocalKeepsInv(s, r, Decision(s.calls[r], s.calls[r].stage.seen, s.now));
    case ReleaseStale(r) => ReleaseStaleKeepsInv(s, r);
    case HandlerOk(r, _) => HandlerKeepsInv(s, r, a);
    case HandlerRaises(r) => HandlerKeepsInv(s, r, a);
    case Store(r) => FinishKeepsInv(f, s, r, a);
    case Release(r) => FinishKeepsInv(f, s, r, a);
    case Crash(r) => FinishKeepsInv(f, s, r, a);
  }

  lemma {:induction false} RunKeepsInv(f: Faults, s: State, actions: seq<Action>, t: State)
    requires Inv(s) && f.Safe() && Run(f, s, actions, t)
    ensures Inv(t)
    decreases |actions|
  {
    if actions != [] {
      StepKeepsInv(f, s, actions[0]);
      RunKeepsInv(f, Step(s, actions[0]).value, actions[1..], t);
    }
  }

  lemma ReachableInv(f: Faults, t: State)
    requires f.Safe() && Reachable(f, t)
    ensures Inv(t)
  {
    var actions :| Run(f, Init(), actions, t);
    RunKeepsInv(f, Init(), actions, t);
  }

  /** Every answer ever given to a safe run's requests is the one stored answer, for the same request. */
  lemma OneAnswer(f: Faults, t: State, r: Request, x: Response)
    requires f.Safe() && Reachable(f, t)
    requires r in t.calls && (t.calls[r].stage == Done(Returned(x)) || t.calls[r].stage == Done(Replayed(x)))
    ensures |t.successes| == 1 && t.successes[0].fingerprint == t.calls[r].fingerprint && t.successes[0].response == x
  {
    ReachableInv(f, t);
    assert CallOk(t, t.calls[r]);
  }

  /** While a row exists only the request it was claimed for can be running, and never after a success. */
  lemma OnlyTheClaimantRuns(f: Faults, t: State, r: Request)
    requires f.Safe() && Reachable(f, t)
    requires r in t.calls && t.calls[r].stage.Running?
    ensures t.row.Some? && t.row.value.hash == t.calls[r].fingerprint && t.successes == []
  {
    ReachableInv(f, t);
    assert Owner(t, r) && CallOk(t, t.calls[r]);
  }

  /** Once an answer is stored no step changes the row or lets another handler start. */
  lemma StoredIsFinal(f: Faults, s: State, a: Action)
    requires f.Safe() && Reachable(f, s) && Allowed(f, s, a) && Step(s, a).Some?
    requires s.row.Some? && s.row.value.response.Some?
    ensures Step(s, a).value.row == s.row && Step(s, a).value.successes == s.successes
    ensures forall r :: r in Step(s, a).value.calls ==> !Step(s, a).value.calls[r].stage.Running?
  {
    ReachableInv(f, s);
    assert forall r :: r in s.calls && s.calls[r].Owns() ==> Owner(s, r);
  }

  /** Whatever goes wrong, a stored answer stays until it expires; only another owner's store can replace it. */
  lemma AnswerIsKept(s: State, a: Action)
    requires Step(s, a).Some? && s.row.Some? && s.row.value.response.Some? && s.now <= s.row.value.created + RETENTION
    ensures var row := Step(s, a).value.row;
      && row.Some? && row.value.response.Some? && row.value.hash == s.row.value.hash
      && row.value.created == s.row.value.created && (row == s.row || a.Store?)
  {
  }

  // Once expired it is gone with the next claim of any key of the business, and the next request runs.
  lemma ExpiredIsForgotten(s: State, r: Request)
    requires s.row.Some? && s.row.value.created + RETENTION < s.now
    ensures Step(s, PurgeExpired).value.row.None?
    ensures r in s.calls && s.calls[r].stage.Claiming? ==>
      Step(s, TryInsert(r)).Some? && Step(s, TryInsert(r)).value.calls[r].stage.Running?
  {
  }

  /** So whoever reads the row from then on replays that answer, or is refused if its request differs. */
  lemma LaterCallsReplay(f: Faults, s: State, r: Request, later: int)
    requires f.Safe() && Reachable(f, s) && s.row.Some? && s.row.value.response.Some?
    requires r in s.calls && s.calls[r].stage.Selecting?
    ensures |s.successes| == 1
    ensures var c := Step(s, Select(r)).value.calls[r];
      c.stage.Deciding? &&
      Decision(c, c.stage.seen, later).stage == Done(
        if c.fingerprint == s.successes[0].fingerprint then Replayed(s.successes[0].response)
        else UsedForAnotherRequest)
  {
    ReachableInv(f, s);
  }

  /** The claim of an owner that died does not lock the key for good: once stale, the next release frees it. */
  lemma OrphanIsFreed(f: Faults, t: State, r: Request)
    requires f.Safe() && Reachable(f, t) && InFlight(t) && t.row.value.Stale(t.now)
    requires r in t.calls && t.calls[r].stage.ReleasingStale?
    ensures !Owned(t) && t.successes == []
    ensures Step(t, ReleaseStale(r)).Some? && Step(t, ReleaseStale(r)).value.row.None?
  {
    ReachableInv(f, t);
    RemovedIsOrphan(t);
  }

  lemma StepKeepsOwned(f: Faults, s: State, a: Action)
    requires Inv(s) && (InFlight(s) ==> Owned(s)) && f.Safe() && !f.crashEarly && Allowed(f, s, a) && Step(s, a).Some?
    ensures InFlight(Step(s, a).value) ==> Owned(Step(s, a).value)
  {
    var t := Step(s, a).value;
    if q :| Owner(s, q) {
      assert InFlight(t) ==> Owner(t, q);
    }
    if a.TryInsert? && t.calls[a.r].stage.Running? { assert Owner(t, a.r); }
  }

  lemma {:induction false} RunKeepsOwned(f: Faults, s: State, actions: seq<Action>, t: State)
    requires Inv(s) && (InFlight(s) ==> Owned(s)) && f.Safe() && !f.crashEarly && Run(f, s, actions, t)
    ensures InFlight(t) ==> Owned(t)
    decreases |actions|
  {
    if actions != [] {
      StepKeepsInv(f, s, actions[0]);
      StepKeepsOwned(f, s, actions[0]);
      RunKeepsOwned(f, Step(s, actions[0]).value, actions[1..], t);
    }
  }

  /**
   * In safe runs a row without a response exists exactly while one request is between its claim and its store
   * or release, if and only if no owner can die before its handler commits.
   */
  lemma InFlightIffOwned(f: Faults)
    requires f.Safe()
    ensures (forall t :: Reachable(f, t) ==> (InFlight(t) <==> Owned(t))) <==> !f.crashEarly
    ensures forall t, r, q :: Reachable(f, t) && Owner(t, r) && Owner(t, q) ==> r == q
  {
    forall t | Reachable(f, t)
      ensures Owned(t) ==> InFlight(t)
      ensures !f.crashEarly ==> (InFlight(t) <==> Owned(t))
      ensures forall r, q :: Owner(t, r) && Owner(t, q) ==> r == q
    {
      ReachableInv(f, t);
      var actions :| Run(f, Init(), actions, t);
      if !f.crashEarly { RunKeepsOwned(f, Init(), actions, t); }
    }
    if f.crashEarly {
      var actions, t := [], Init();
      actions, t := Then(f, actions, t, Arrive(0, 7));
      actions, t := Then(f, actions, t, TryInsert(0));
      actions, t := Then(f, actions, t, Crash(0));
      assert Reachable(f, t) && InFlight(t) && !Owned(t);
    }
  }

  /** A failed handler leaves the key free: where no owner dies, no success and no owner means no row. */
  lemma FailureFreesKey(f: Faults, t: State)
    requires f.Safe() && !f.crashEarly && Reachable(f, t)
    requires t.successes == [] && !Owned(t)
    ensures t.row.None?
  {
    InFlightIffOwned(f);
    ReachableInv(f, t);
  }

  ghost predicate Waiters(s: State) {
    forall r :: r in s.calls ==> Waits(s.calls[r].sleeps, s.calls[r].waited)
  }

  lemma StepKeepsWaiters(s: State, a: Action)
    requires Step(s, a).Some? && Waiters(s)
    ensures Waiters(Step(s, a).value)
  {
    if a.Decide? { NextSleep(s.calls[a.r].sleeps, s.calls[a.r].waited); }
  }

  lemma {:induction false} RunKeepsWaiters(f: Faults, s: State, actions: seq<Action>, t: State)
    requires Run(f, s, actions, t) && Waiters(s)
    ensures Waiters(t)
    decreases |actions|
  {
    if actions != [] {
      StepKeepsWaiters(s, actions[0]);
      RunKeepsWaiters(f, Step(s, actions[0]).value, actions[1..], t);
    }
  }

  /** Whatever goes wrong, no request sleeps more than 76 times, and one that did waits no longer. */
  lemma SleepsBounded(f: Faults, t: State, r: Request, row: Row)
    requires Reachable(f, t) && r in t.calls
    ensures t.calls[r].sleeps <= MAX_SLEEPS
    ensures t.calls[r].sleeps == MAX_SLEEPS && row.hash == t.calls[r].fingerprint && row.response.None? &&
      !row.Stale(t.now)
      ==> Decision(t.calls[r], Some(row), t.now).stage == Done(StillProcessing)
  {
    var actions :| Run(f, Init(), actions, t);
    RunKeepsWaiters(f, Init(), actions, t);
    NextSleep(t.calls[r].sleeps, t.calls[r].waited);
  }

  lemma {:induction false} RunExtends(f: Faults, s: State, actions: seq<Action>, t: State, a: Action)
    requires Run(f, s, actions, t) && Allowed(f, t, a) && Step(t, a).Some?
    ensures Run(f, s, actions + [a], Step(t, a).value)
    decreases |actions|
  {
    if actions == [] {
      assert [a][1..] == [];
    } else {
      RunExtends(f, Step(s, actions[0]).value, actions[1..], t, a);
      assert (actions + [a])[1..] == actions[1..] + [a];
    }
  }

  lemma Then(f: Faults, actions: seq<Action>, t: State, a: Action) returns (more: seq<Action>, u: State)
    requires Run(f, Init(), actions, t) && Allowed(f, t, a) && Step(t, a).Some?
    ensures Run(f, Init(), more, u) && u == Step(t, a).value
  {
    RunExtends(f, Init(), actions, t, a);
    more, u := actions + [a], Step(t, a).value;
  }

  ghost predicate NoSuccess(s: State, r: Request) {
    forall i :: 0 <= i < |s.successes| ==> s.successes[i].request != r
  }

  // r's handler succeeded, with this response.
  ghost predicate Succeeded(s: State, r: Request, x: Response, raised: bool) {
    exists i :: 0 <= i < |s.successes| && s.successes[i].request == r && s.successes[i].response == x
                && s.successes[i].raised == raised
  }

  ghost predicate OnlyRaised(s: State, r: Request) {
    forall i :: 0 <= i < |s.successes| && s.successes[i].request == r ==> s.successes[i].raised
  }

  // Where a request stands fits what its own handler did.
  ghost predicate Told(s: State, r: Request)
    requires r in s.calls
  {
    match s.calls[r].stage
    case Storing(x) => Succeeded(s, r, x, false)
    case Releasing(Returned(x)) => Succeeded(s, r, x, false)
    case Done(Returned(x)) => Succeeded(s, r, x, false)
    case Releasing(o) => o.HandlerError? && OnlyRaised(s, r)
    case Done(HandlerError) => OnlyRaised(s, r)
    case Done(Crashed) => true
    case _ => NoSuccess(s, r)
  }

  ghost predicate OneRunEach(s: State) {
    && (forall i :: 0 <= i < |s.successes| ==>
          && s.successes[i].request in s.calls
          && s.calls[s.successes[i].request].fingerprint == s.successes[i].fingerprint)
    && (forall i, j :: 0 <= i < j < |s.successes| ==> s.successes[i].request != s.successes[j].request)
  }

  ghost predicate AllTold(s: State) { OneRunEach(s) && forall r :: r in s.calls ==> Told(s, r) }

  lemma SuccessOneMore(s: State, t: State, e: Success)
    requires AllTold(s) && t.successes == s.successes + [e] && NoSuccess(s, e.request)
    ensures Succeeded(t, e.request, e.response, e.raised)
    ensures forall q, x, raised :: q != e.request && Succeeded(s, q, x, raised) ==> Succeeded(t, q, x, raised)
    ensures forall q :: q != e.request ==>
      (NoSuccess(t, q) <==> NoSuccess(s, q)) && (OnlyRaised(t, q) <==> OnlyRaised(s, q))
    ensures forall i :: 0 <= i < |t.successes| && t.successes[i].request == e.request ==> t.successes[i] == e
  {
    assert t.successes[|s.successes|] == e;
    forall q, x, raised | q != e.request && Succeeded(s, q, x, raised) ensures Succeeded(t, q, x, raised) {
      var i :| 0 <= i < |s.successes| && s.successes[i].request == q && s.successes[i].response == x
               && s.successes[i].raised == raised;
      assert t.successes[i] == s.successes[i];
    }
    forall q | q != e.request
      ensures (NoSuccess(t, q) <==> NoSuccess(s, q)) && (OnlyRaised(t, q) <==> OnlyRaised(s, q))
    {
      assert forall i :: 0 <= i < |s.successes| ==> t.successes[i] == s.successes[i];
    }
  }

  lemma HandlerKeepsTold(s: State, a: Action)
    requires AllTold(s) && (a.HandlerOk? || a.HandlerRaisesLate?) && Step(s, a).Some?
    ensures AllTold(Step(s, a).value)
  {
    var t := Step(s, a).value;
    assert Told(s, a.r);
    SuccessOneMore(s, t, Success(a.r, s.calls[a.r].fingerprint, a.response, a.HandlerRaisesLate?));
    forall q | q in t.calls && q != a.r ensures Told(t, q) { assert Told(s, q); }
  }

  lemma OtherStepKeepsTold(s: State, a: Action, q: Request)
    requires AllTold(s) && Step(s, a).Some? && !a.HandlerOk? && !a.HandlerRaisesLate? && q in Step(s, a).value.calls
    ensures Told(Step(s, a).value, q)
  {
    var t := Step(s, a).value;
    assert t.successes == s.successes;
    if q in s.calls {
      assert Told(s, q);
    } else {
      assert NoSuccess(s, q);
    }
  }

  lemma StepKeepsTold(s: State, a: Action)
    requires AllTold(s) && Step(s, a).Some?
    ensures AllTold(Step(s, a).value)
  {
    if a.HandlerOk? || a.HandlerRaisesLate? {
      HandlerKeepsTold(s, a);
    } else {
      var t := Step(s, a).value;
      forall q | q in t.calls ensures Told(t, q) {
        OtherStepKeepsTold(s, a, q);
      }
    }
  }

  lemma {:induction false} RunKeepsTold(f: Faults, s: State, actions: seq<Action>, t: State)
    requires AllTold(s) && Run(f, s, actions, t)
    ensures AllTold(t)
    decreases |actions|
  {
    if actions != [] {
      StepKeepsTold(s, actions[0]);
      RunKeepsTold(f, Step(s, actions[0]).value, actions[1..], t);
    }
  }

  /**
   * In every run, whatever goes wrong, a request whose handler committed runs it once and is on its way to its own
   * response, after a failing store as well, unless the handler raised late or its process died.
   */
  lemma OwnAnswer(f: Faults, t: State, i: nat)
    requires Reachable(f, t) && i < |t.successes|
    ensures var e := t.successes[i];
      && e.request in t.calls && t.calls[e.request].fingerprint == e.fingerprint
      && (forall j :: 0 <= j < |t.successes| && t.successes[j].request == e.request ==> j == i)
      && var stage := t.calls[e.request].stage;
         if e.raised then stage == Releasing(HandlerError) || stage == Done(HandlerError) || stage == Done(Crashed)
         else
           || stage == Storing(e.response) || stage == Releasing(Returned(e.response))
           || stage == Done(Returned(e.response)) || stage == Done(Crashed)
  {
    var actions :| Run(f, Init(), actions, t);
    RunKeepsTold(f, Init(), actions, t);
    var e := t.successes[i];
    assert Told(t, e.request);
    assert !NoSuccess(t, e.request);
  }

  /** And a request is told of an error, or of anything but its own response, only if its handler did not commit. */
  lemma ErrorMeansNoSuccess(f: Faults, t: State, r: Request, i: nat)
    requires Reachable(f, t) && r in t.calls && t.calls[r].stage.Done?
    ensures var o := t.calls[r].stage.outcome;
      && (o.Returned? ==> Succeeded(t, r, o.response, false))
      && (i < |t.successes| && t.successes[i].request == r ==>
            o == Returned(t.successes[i].response) || o.Crashed? || (o.HandlerError? && t.successes[i].raised))
  {
    var actions :| Run(f, Init(), actions, t);
    RunKeepsTold(f, Init(), actions, t);
    assert Told(t, r);
    if i < |t.successes| && t.successes[i].request == r { OwnAnswer(f, t, i); }
  }

  ghost predicate Asked(s: State, f: Fingerprint) { exists r :: r in s.calls && s.calls[r].fingerprint == f }

  ghost predicate AskedOther(s: State, f: Fingerprint) { exists r :: r in s.calls && s.calls[r].fingerprint != f }

  // Deaths happen only where they are allowed, and the refusals have their reasons.
  ghost predicate Reason(f: Faults, s: State, c: Call) {
    match c.stage
    case Deciding(Some(row)) => Asked(s, row.hash)
    case Done(Crashed) => f.crashEarly || f.crashLate
    case Done(StillProcessing) => c.waited >= WAIT_TOTAL
    case Done(UsedForAnotherRequest) => AskedOther(s, c.fingerprint)
    case Releasing(o) => o.HandlerError? || o.Returned?
    case _ => true
  }

  ghost predicate Reasons(f: Faults, s: State) {
    && (forall i :: 0 <= i < |s.successes| && s.successes[i].raised ==> f.raisesLate)
    && (s.row.Some? ==> Asked(s, s.row.value.hash))
    && (forall r :: r in s.calls ==> Reason(f, s, s.calls[r]))
  }

  lemma StepKeepsAsked(s: State, a: Action)
    requires Step(s, a).Some?
    ensures forall f :: Asked(s, f) ==> Asked(Step(s, a).value, f)
    ensures forall f :: AskedOther(s, f) ==> AskedOther(Step(s, a).value, f)
  {
    var t := Step(s, a).value;
    forall r | r in s.calls ensures r in t.calls && t.calls[r].fingerprint == s.calls[r].fingerprint {}
  }

  lemma ReasonStays(f: Faults, s: State, t: State, c: Call)
    requires Reason(f, s, c)
    requires forall h :: Asked(s, h) ==> Asked(t, h)
    requires forall h :: AskedOther(s, h) ==> AskedOther(t, h)
    ensures Reason(f, t, c)
  {
  }

  lemma ActorHasReason(f: Faults, s: State, a: Action)
    requires Reasons(f, s) && Allowed(f, s, a) && Step(s, a).Some? && !a.Tick? && !a.PurgeExpired?
    ensures Reason(f, s, Step(s, a).value.calls[a.r])
  {
    if a.r in s.calls {
      assert Reason(f, s, s.calls[a.r]);
      if a.Decide? && s.calls[a.r].stage.seen.Some? && s.calls[a.r].stage.seen.value.hash != s.calls[a.r].fingerprint {
        var r :| r in s.calls && s.calls[r].fingerprint == s.calls[a.r].stage.seen.value.hash;
        assert AskedOther(s, s.calls[a.r].fingerprint);
      }
    }
  }

  lemma StepKeepsReasons(f: Faults, s: State, a: Action)
    requires Reasons(f, s) && Allowed(f, s, a) && Step(s, a).Some?
    ensures Reasons(f, Step(s, a).value)
  {
    var t := Step(s, a).value;
    StepKeepsAsked(s, a);
    if !a.Tick? && !a.PurgeExpired? { ActorHasReason(f, s, a); }
    forall q | q in t.calls ensures Reason(f, t, t.calls[q]) {
      ReasonStays(f, s, t, t.calls[q]);
    }
    if a.TryInsert? { assert Asked(s, s.calls[a.r].fingerprint); }
  }

  lemma {:induction false} RunKeepsReasons(f: Faults, s: State, actions: seq<Action>, t: State)
    requires Reasons(f, s) && Run(f, s, actions, t)
    ensures Reasons(f, t)
    decreases |actions|
  {
    if actions != [] {
      StepKeepsReasons(f, s, actions[0]);
      RunKeepsReasons(f, Step(s, actions[0]).value, actions[1..], t);
    }
  }

  /**
   * A request is refused as a different one only if a different one used the key, refused as still processing only
   * after waiting the full time, and left without an answer only where deaths are possible.
   */
  lemma RefusalsHaveReasons(f: Faults, t: State, r: Request)
    requires Reachable(f, t) && r in t.calls
    ensures t.calls[r].stage == Done(UsedForAnotherRequest) ==>
      exists q :: q in t.calls && t.calls[q].fingerprint != t.calls[r].fingerprint
    ensures t.calls[r].stage == Done(StillProcessing) ==> t.calls[r].sleeps == MAX_SLEEPS
    ensures t.calls[r].stage == Done(Crashed) ==> f.crashEarly || f.crashLate
    ensures forall i :: 0 <= i < |t.successes| && t.successes[i].raised ==> f.raisesLate
  {
    var actions :| Run(f, Init(), actions, t);
    RunKeepsReasons(f, Init(), actions, t);
    RunKeepsWaiters(f, Init(), actions, t);
    NextSleep(t.calls[r].sleeps, t.calls[r].waited);
  }

  /** No request is ever stuck: until it is done it has a next step that needs no fault. */
  lemma NeverStuck(s: State, r: Request) returns (a: Action)
    requires r in s.calls && !s.calls[r].stage.Done?
    ensures Step(s, a).Some? && Allowed(Faults(false, false, false, false, false, false), s, a)
    ensures Step(s, a).value.calls[r] != s.calls[r]
  {
    match s.calls[r].stage
    case Claiming => a := TryInsert(r);
    case Selecting => a := Select(r);
    case Deciding(_) => a := Decide(r);
    case ReleasingStale => a := ReleaseStale(r);
    case Running => a := HandlerOk(r, 0);
    case Storing(_) => a := Store(r);
    case Releasing(_) => a := Release(r);
  }

  // What the first request, one waiting beside it, one after it, and one with another request are told.
  lemma OrdinaryRun(f: Faults, mine: Fingerprint, other: Fingerprint, x: Response) returns (acts: seq<Action>, t: State)
    requires mine != other
    ensures Run(f, Init(), acts, t) && 0 in t.calls && 1 in t.calls && 2 in t.calls
    ensures t.calls[0].stage == Done(Returned(x)) && t.calls[1].stage == Done(Replayed(x)) && t.calls[1].sleeps == 1
    ensures t.calls[2].stage == Done(UsedForAnotherRequest)
  {
    acts, t := ServedWhileWaiting(f, mine, x);
    acts, t := ThenReads(f, acts, t, 1);
    acts, t := Then(f, acts, t, Arrive(2, other));
    acts, t := ThenReads(f, acts, t, 2);
  }

  // The first request is served while the second waits.
  lemma ServedWhileWaiting(f: Faults, mine: Fingerprint, x: Response) returns (acts: seq<Action>, t: State)
    ensures Run(f, Init(), acts, t) && t.now == 0 && t.row == Some(Row(mine, Some(x), 0)) && t.calls.Keys == {0, 1}
    ensures t.calls[0].stage == Done(Returned(x))
    ensures t.calls[1].stage == Claiming && t.calls[1].fingerprint == mine && t.calls[1].sleeps == 1
  {
    acts, t := [], Init();
    acts, t := Then(f, acts, t, Arrive(0, mine));
    acts, t := Then(f, acts, t, TryInsert(0));
    acts, t := Then(f, acts, t, Arrive(1, mine));
    acts, t := Then(f, acts, t, TryInsert(1));
    acts, t := Then(f, acts, t, Select(1));
    acts, t := Then(f, acts, t, Decide(1));
    acts, t := Then(f, acts, t, HandlerOk(0, x));
    acts, t := Then(f, acts, t, Store(0));
  }

  lemma ThenReads(f: Faults, actions: seq<Action>, t: State, r: Request) returns (more: seq<Action>, u: State)
    requires Run(f, Init(), actions, t) && r in t.calls && t.calls[r].stage.Claiming?
    requires t.row.Some? && t.row.value.response.Some? && !t.row.value.Expired(t.now)
    ensures Run(f, Init(), more, u) && u.row == t.row && u.now == t.now && u.calls.Keys == t.calls.Keys
    ensures forall q :: q in t.calls && q != r ==> u.calls[q] == t.calls[q]
    ensures u.calls[r].sleeps == t.calls[r].sleeps
    ensures u.calls[r].stage == Done(if t.row.value.hash == t.calls[r].fingerprint
                                     then Replayed(t.row.value.response.value) else UsedForAnotherRequest)
  {
    more, u := Then(f, actions, t, TryInsert(r));
    more, u := Then(f, more, u, Select(r));
    more, u := Then(f, more, u, Decide(r));
  }

  // An owner may take the full two minutes, and its answer is replayed for the full day.
  lemma LastMoments(f: Faults) returns (acts: seq<Action>, t: State)
    ensures Run(f, Init(), acts, t) && t.now == 24 * 60 * 60 * 1000 && 0 in t.calls && 1 in t.calls
    ensures t.calls[0].stage == Done(Returned(1)) && t.calls[1].stage == Done(Replayed(1))
  {
    acts, t := FirstSuccess(f);
    acts, t := Then(f, acts, t, Tick(2 * 60 * 1000));
    acts, t := Then(f, acts, t, Store(0));
    acts, t := Then(f, acts, t, Tick(24 * 60 * 60 * 1000 - 2 * 60 * 1000));
    acts, t := Then(f, acts, t, Arrive(1, 7));
    acts, t := ThenReads(f, acts, t, 1);
  }

  // A handler that fails frees the key for the next request.
  lemma FailingRun(f: Faults, mine: Fingerprint) returns (acts: seq<Action>, t: State)
    ensures Run(f, Init(), acts, t) && t.row.None? && t.successes == []
    ensures t.calls.Keys == {0} && t.calls[0].stage == Done(HandlerError)
  {
    acts, t := [], Init();
    acts, t := Then(f, acts, t, Arrive(0, mine));
    acts, t := Then(f, acts, t, TryInsert(0));
    acts, t := Then(f, acts, t, HandlerRaises(0));
    acts, t := Then(f, acts, t, Release(0));
  }

  // Request 0 claims the key and its handler commits.
  lemma FirstSuccess(f: Faults) returns (acts: seq<Action>, t: State)
    ensures Run(f, Init(), acts, t)
    ensures t == State(Some(Row(7, None, 0)), 0, map[0 := Call(7, Storing(1), 0, 0, 0)], [Success(0, 7, 1, false)])
  {
    acts, t := [], Init();
    acts, t := Then(f, acts, t, Arrive(0, 7));
    acts, t := Then(f, acts, t, TryInsert(0));
    acts, t := Then(f, acts, t, HandlerOk(0, 1));
  }

  // Request 1 finds a claim more than two minutes old, releases it and runs again.
  lemma TakeOver(f: Faults, acts: seq<Action>, t: State) returns (more: seq<Action>, u: State)
    requires Run(f, Init(), acts, t)
    requires t.row == Some(Row(7, None, 0)) && t.now == STALE + 1 && 1 !in t.calls && |t.successes| == 1
    ensures Run(f, Init(), more, u) && |u.successes| == 2
  {
    more, u := acts, t;
    more, u := Then(f, more, u, Arrive(1, 7));
    more, u := Then(f, more, u, TryInsert(1));
    more, u := Then(f, more, u, Select(1));
    more, u := Then(f, more, u, Decide(1));
    more, u := Then(f, more, u, ReleaseStale(1));
    more, u := Then(f, more, u, TryInsert(1));
    more, u := Then(f, more, u, HandlerOk(1, 2));
  }

  lemma CrashRunsTwice(f: Faults) returns (acts: seq<Action>, t: State)
    requires f.crashLate
    ensures Run(f, Init(), acts, t) && |t.successes| == 2
  {
    acts, t := FirstSuccess(f);
    acts, t := Then(f, acts, t, Crash(0));
    acts, t := Then(f, acts, t, Tick(STALE + 1));
    acts, t := TakeOver(f, acts, t);
  }

  lemma LateRaiseRunsTwice(f: Faults) returns (acts: seq<Action>, t: State)
    requires f.raisesLate
    ensures Run(f, Init(), acts, t) && |t.successes| == 2
  {
    acts, t := [], Init();
    acts, t := Then(f, acts, t, Arrive(0, 7));
    acts, t := Then(f, acts, t, TryInsert(0));
    acts, t := Then(f, acts, t, HandlerRaisesLate(0, 1));
    acts, t := Then(f, acts, t, Release(0));
    acts, t := Then(f, acts, t, Arrive(1, 7));
    acts, t := Then(f, acts, t, TryInsert(1));
    acts, t := Then(f, acts, t, HandlerOk(1, 2));
  }

  lemma FailedStoreRunsTwice(f: Faults) returns (acts: seq<Action>, t: State)
    requires f.storeFails
    ensures Run(f, Init(), acts, t) && |t.successes| == 2
  {
    acts, t := FirstSuccess(f);
    acts, t := Then(f, acts, t, StoreFails(0));
    acts, t := Then(f, acts, t, Release(0));
    acts, t := Then(f, acts, t, Arrive(1, 7));
    acts, t := Then(f, acts, t, TryInsert(1));
    acts, t := Then(f, acts, t, HandlerOk(1, 2));
  }

  lemma SlowOwnerRunsTwice(f: Faults) returns (acts: seq<Action>, t: State)
    requires f.slowOwner
    ensures Run(f, Init(), acts, t) && |t.successes| == 2
  {
    acts, t := FirstSuccess(f);
    acts, t := Then(f, acts, t, Tick(STALE + 1));
    acts, t := TakeOver(f, acts, t);
  }

  lemma LateRequestRunsTwice(f: Faults) returns (acts: seq<Action>, t: State)
    requires f.lateRequest
    ensures Run(f, Init(), acts, t) && |t.successes| == 2
  {
    acts, t := FirstSuccess(f);
    acts, t := Then(f, acts, t, Store(0));
    acts, t := Then(f, acts, t, Tick(RETENTION + 1));
    acts, t := Then(f, acts, t, Arrive(1, 7));
    acts, t := Then(f, acts, t, TryInsert(1));
    acts, t := Then(f, acts, t, HandlerOk(1, 2));
  }

  /**
   * The handler commits at most once in every run exactly when none of the five faults can happen; owners
   * may die before their handler commits.
   */
  lemma AtMostOnceIffSafe(f: Faults)
    ensures (forall t :: Reachable(f, t) ==> |t.successes| <= 1) <==> f.Safe()
  {
    if f.Safe() {
      forall t | Reachable(f, t) ensures |t.successes| <= 1 {
        ReachableInv(f, t);
      }
    } else {
      var acts, t;
      if f.crashLate { acts, t := CrashRunsTwice(f); }
      else if f.raisesLate { acts, t := LateRaiseRunsTwice(f); }
      else if f.storeFails { acts, t := FailedStoreRunsTwice(f); }
      else if f.slowOwner { acts, t := SlowOwnerRunsTwice(f); }
      else { acts, t := LateRequestRunsTwice(f); }
      assert Reachable(f, t);
    }
  }
}
