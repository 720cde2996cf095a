/**
 * Transactions changing assignments, permissions and roles concurrently under row locks: each executes its
 * statements when it likes, and its deferred triggers fire at COMMIT, when other commits are already visible.
 */
module AccessCommits {
  import opened AccessTouch
  import opened Options

  type TxnId = nat

  datatype RowKey = LinkRow(link: RowId) | GrantRow(grant: RowId) | RoleRow(role: RoleId)

  // A trigger event waiting for COMMIT: the statement and the rows as they were when it executed (OLD).
  datatype Deferred = Deferred(st: Statement, was: Db)

  // The committed rows, and what each open transaction has executed.
  datatype World = World(db: Db, open: map<TxnId, seq<Deferred>>)

  datatype Event = Begin(t: TxnId) | Do(t: TxnId, st: Statement) | Commit(t: TxnId) | Abort(t: TxnId)

  function RowOf(st: Statement): RowKey {
    match st
    case InsertLink(id, _) => LinkRow(id)
    case UpdateLink(id, _) => LinkRow(id)
    case DeleteLink(id) => LinkRow(id)
    case InsertGrant(id, _) => GrantRow(id)
    case UpdateGrant(id, _) => GrantRow(id)
    case DeleteGrant(id) => GrantRow(id)
    case UpdateRole(r, _) => RoleRow(r)
  }

  ghost function RowsOf(evs: seq<Deferred>): set<RowKey> { set ev | ev in evs :: RowOf(ev.st) }

  function StatementsOf(evs: seq<Deferred>): seq<Statement> {
    if evs == [] then [] else [evs[0].st] + StatementsOf(evs[1..])
  }

  ghost predicate SameRow(db: Db, e: Db, k: RowKey) {
    match k
    case LinkRow(id) => (id in db.links <==> id in e.links) && (id in db.links ==> db.links[id] == e.links[id])
    case GrantRow(id) => (id in db.grants <==> id in e.grants) && (id in db.grants ==> db.grants[id] == e.grants[id])
    case RoleRow(r) => (r in db.roles <==> r in e.roles) && (r in db.roles ==> db.roles[r] == e.roles[r])
  }

  // The events apply from db on, and their OLD rows are the ones they find.
  ghost predicate Recorded(db: Db, evs: seq<Deferred>)
    decreases |evs|
  {
    evs == [] ||
    (Applies(db, evs[0].st) && SameRow(evs[0].was, db, RowOf(evs[0].st)) && Recorded(Execute(db, evs[0].st), evs[1..]))
  }

  // The users the deferred triggers touch, from their own OLD rows and the rows visible now.
  ghost function FiredAt(evs: seq<Deferred>, now: Db): set<User>
    decreases |evs|
  {
    if evs == [] then {}
    else (if Applies(evs[0].was, evs[0].st) then Touches(evs[0].was, evs[0].st, now) else {}) + FiredAt(evs[1..], now)
  }

  lemma {:induction false} RecordedFires(db: Db, evs: seq<Deferred>, now: Db)
    requires Recorded(db, evs)
    ensures Runs(db, StatementsOf(evs)) && FiredAt(evs, now) == Touched(db, StatementsOf(evs), now)
    decreases |evs|
  {
    if evs != [] {
      var sts := StatementsOf(evs);
      assert sts[0] == evs[0].st && sts[1..] == StatementsOf(evs[1..]);
      RecordedFires(Execute(db, evs[0].st), evs[1..], now);
    }
  }

  lemma {:induction false} RecordedOneMore(db: Db, evs: seq<Deferred>, st: Statement)
    requires Recorded(db, evs) && Applies(Executed(db, StatementsOf(evs)), st)
    ensures Recorded(db, evs + [Deferred(st, Executed(db, StatementsOf(evs)))])
    decreases |evs|
  {
    var view := Executed(db, StatementsOf(evs));
    if evs == [] {
      assert [Deferred(st, view)][1..] == [] && Recorded(Execute(db, st), []);
    } else {
      assert StatementsOf(evs)[1..] == StatementsOf(evs[1..]);
      RecordedOneMore(Execute(db, evs[0].st), evs[1..], st);
      assert (evs + [Deferred(st, view)])[1..] == evs[1..] + [Deferred(st, view)];
    }
  }

  lemma {:induction false} OtherRowsStay(db: Db, evs: seq<Deferred>, k: RowKey)
    requires k !in RowsOf(evs)
    ensures SameRow(db, Executed(db, StatementsOf(evs)), k)
    decreases |evs|
  {
    if evs != [] {
      assert evs[0] in evs && forall ev :: ev in evs[1..] ==> ev in evs;
      assert StatementsOf(evs)[1..] == StatementsOf(evs[1..]);
      OtherRowsStay(Execute(db, evs[0].st), evs[1..], k);
    }
  }

  // A statement does the same to the same row.
  lemma SameEffect(db: Db, e: Db, st: Statement, k: RowKey)
    requires SameRow(db, e, RowOf(st)) && SameRow(db, e, k)
    ensures Applies(db, st) <==> Applies(e, st)
    ensures SameRow(Execute(db, st), Execute(e, st), k)
  {
  }

  lemma SameRowTrans(was: Db, db: Db, e: Db, k: RowKey)
    requires SameRow(was, db, k) && SameRow(db, e, k)
    ensures SameRow(was, e, k)
  {
  }

  // Locked rows do not change under a transaction, so neither does what it recorded.
  lemma {:induction false} RecordedAnywhere(db: Db, e: Db, evs: seq<Deferred>)
    requires Recorded(db, evs) && forall k :: k in RowsOf(evs) ==> SameRow(db, e, k)
    ensures Recorded(e, evs)
    decreases |evs|
  {
    if evs != [] {
      var st := evs[0].st;
      assert evs[0] in evs && RowOf(st) in RowsOf(evs);
      SameRowTrans(evs[0].was, db, e, RowOf(st));
      SameEffect(db, e, st, RowOf(st));
      forall k | k in RowsOf(evs[1..]) ensures SameRow(Execute(db, st), Execute(e, st), k) {
        assert forall ev :: ev in evs[1..] ==> ev in evs;
        assert k in RowsOf(evs);
        SameEffect(db, e, st, k);
      }
      RecordedAnywhere(Execute(db, st), Execute(e, st), evs[1..]);
    }
  }

  ghost predicate LockFree(w: World, t: TxnId, k: RowKey) {
    forall u :: u in w.open && u != t ==> k !in RowsOf(w.open[u])
  }

  ghost predicate Enabled(w: World, e: Event) {
    match e
    case Begin(t) => t !in w.open
    case Do(t, st) => t in w.open && LockFree(w, t, RowOf(st)) && Applies(Executed(w.db, StatementsOf(w.open[t])), st)
    case Commit(t) => t in w.open
    case Abort(t) => t in w.open
  }

  // The triggers of a commit fire as one step: each first draws a number, so the counter row stays locked from
  // the first of them to the end of the commit, and every other commit that touches anyone waits for it.
  ghost function Next(w: World, e: Event): World
    requires Enabled(w, e)
  {
    match e
    case Begin(t) => w.(open := w.open[t := []])
    case Do(t, st) => w.(open := w.open[t := w.open[t] + [Deferred(st, Executed(w.db, StatementsOf(w.open[t])))]])
    case Commit(t) => World(Executed(w.db, StatementsOf(w.open[t])), w.open - {t})
    case Abort(t) => w.(open := w.open - {t})
  }

  ghost predicate Happens(w: World, events: seq<Event>, v: World)
    decreases |events|
  {
    if events == [] then v == w else Enabled(w, events[0]) && Happens(Next(w, events[0]), events[1..], v)
  }

  // Open transactions hold different rows, and the rows they hold are as they recorded them.
  ghost predicate Locked(w: World) {
    && (forall t :: t in w.open ==> Recorded(w.db, w.open[t]))
    && (forall t, u :: t in w.open && u in w.open && t != u ==> RowsOf(w.open[t]) !! RowsOf(w.open[u]))
  }

  lemma DoKeepsLocked(w: World, t: TxnId, st: Statement)
    requires Locked(w) && Enabled(w, Do(t, st))
    ensures Locked(Next(w, Do(t, st)))
  {
    var v := Next(w, Do(t, st));
    RecordedOneMore(w.db, w.open[t], st);
    assert RowsOf(v.open[t]) == RowsOf(w.open[t]) + {RowOf(st)};
  }

  lemma CommitKeepsLocked(w: World, t: TxnId)
    requires Locked(w) && Enabled(w, Commit(t))
    ensures Locked(Next(w, Commit(t)))
  {
    var v := Next(w, Commit(t));
    forall u | u in v.open ensures Recorded(v.db, v.open[u]) {
      forall k | k in RowsOf(w.open[u]) ensures SameRow(w.db, v.db, k) {
        OtherRowsStay(w.db, w.open[t], k);
      }
      RecordedAnywhere(w.db, v.db, w.open[u]);
    }
  }

  lemma {:induction false} HappensKeepsLocked(w: World, events: seq<Event>, v: World)
    requires Locked(w) && Happens(w, events, v)
    ensures Locked(v)
    decreases |events|
  {
    if events != [] {
      match events[0] {
        case Begin(t) =>
        case Do(t, st) => DoKeepsLocked(w, t, st);
        case Commit(t) => CommitKeepsLocked(w, t);
        case Abort(t) =>
      }
      HappensKeepsLocked(Next(w, events[0]), events[1..], v);
    }
  }

  /**
   * In every interleaving of transactions and aborts, each single commit that alters a user's derived access
   * touches that user, whatever touched the user before, unless it moves a permission row away from a role the
   * user holds then.
   */
  lemma EachCommitTouches(start: Db, events: seq<Event>, w: World, t: TxnId, u: User)
    requires Happens(World(start, map[]), events, w) && Enabled(w, Commit(t))
    requires Access(w.db, u) != Access(Next(w, Commit(t)).db, u)
    ensures var now := Next(w, Commit(t)).db;
      u in FiredAt(w.open[t], now) || u in Bereft(w.db, StatementsOf(w.open[t]), now)
  {
    HappensKeepsLocked(World(start, map[]), events, w);
    var sts := StatementsOf(w.open[t]);
    var now := Executed(w.db, sts);
    RecordedFires(w.db, w.open[t], now);
    ChangedAccessIsTouched(w.db, sts, now, u);
  }

  // Access changes by commits alone.
  lemma OnlyCommitsChangeAccess(w: World, e: Event, u: User)
    requires Enabled(w, e) && Access(Next(w, e).db, u) != Access(w.db, u)
    ensures e.Commit?
  {
  }

  /** A commit that changes anything the application derives for a user touches that user, moves apart. */
  lemma EachChangeOfRightsTouches(start: Db, events: seq<Event>, w: World, t: TxnId, u: User, isOwner: string -> bool,
                                  home: Option<nat>)
    requires Happens(World(start, map[]), events, w) && Enabled(w, Commit(t))
    requires RightsOf(w.db, u, isOwner, home) != RightsOf(Next(w, Commit(t)).db, u, isOwner, home)
    ensures var now := Next(w, Commit(t)).db;
      u in FiredAt(w.open[t], now) || u in Bereft(w.db, StatementsOf(w.open[t]), now)
  {
    var now := Next(w, Commit(t)).db;
    if Access(w.db, u) == Access(now, u) { AccessGivesRights(w.db, now, u, isOwner, home); }
    EachCommitTouches(start, events, w, t, u);
  }

  // Anyone may begin.
  lemma MayBegin(w: World, t: TxnId)
    requires t !in w.open
    ensures Enabled(w, Begin(t)) && Next(w, Begin(t)).db == w.db && Next(w, Begin(t)).open == w.open[t := []]
  {
  }

  // An open transaction may end whenever it likes, and an abort leaves nothing behind.
  lemma MayEnd(w: World, t: TxnId)
    requires t in w.open
    ensures Enabled(w, Commit(t)) && Enabled(w, Abort(t))
    ensures Next(w, Abort(t)).db == w.db && Next(w, Abort(t)).open == w.open - {t}
    ensures t !in Next(w, Commit(t)).open && Next(w, Commit(t)).open == w.open - {t}
  {
  }

  // The row the statement names is as the statement left it.
  ghost predicate Shows(db: Db, st: Statement) {
    match st
    case InsertLink(id, l) => id in db.links && db.links[id] == l
    case UpdateLink(id, l) => id in db.links && db.links[id] == l
    case DeleteLink(id) => id !in db.links
    case InsertGrant(id, g) => id in db.grants && db.grants[id] == g
    case UpdateGrant(id, g) => id in db.grants && db.grants[id] == g
    case DeleteGrant(id) => id !in db.grants
    case UpdateRole(r, to) => r in db.roles && db.roles[r] == to
  }

  // The transaction holds the statement's row and sees it as the statement left it.
  ghost predicate Done(w: World, t: TxnId, st: Statement) {
    t in w.open && RowOf(st) in RowsOf(w.open[t]) && Shows(Executed(w.db, StatementsOf(w.open[t])), st)
  }

  lemma {:induction false} ExecutedOneMore(db: Db, evs: seq<Deferred>, ev: Deferred)
    ensures Executed(db, StatementsOf(evs + [ev])) == Execute(Executed(db, StatementsOf(evs)), ev.st)
    decreases |evs|
  {
    if evs == [] {
      assert StatementsOf([ev]) == [ev.st] && [ev.st][1..] == [];
    } else {
      assert (evs + [ev])[1..] == evs[1..] + [ev];
      assert StatementsOf(evs + [ev])[1..] == StatementsOf(evs[1..] + [ev]);
      assert StatementsOf(evs)[1..] == StatementsOf(evs[1..]);
      ExecutedOneMore(Execute(db, evs[0].st), evs[1..], ev);
    }
  }

  // A transaction sees its own rows alike from any two states that agree on them.
  lemma {:induction false} OwnRowsAnywhere(db: Db, e: Db, evs: seq<Deferred>, k: RowKey)
    requires (forall q :: q in RowsOf(evs) ==> SameRow(db, e, q)) && SameRow(db, e, k)
    ensures SameRow(Executed(db, StatementsOf(evs)), Executed(e, StatementsOf(evs)), k)
    decreases |evs|
  {
    if evs != [] {
      var st := evs[0].st;
      assert evs[0] in evs && RowOf(st) in RowsOf(evs);
      assert StatementsOf(evs)[1..] == StatementsOf(evs[1..]);
      forall q | q in RowsOf(evs[1..]) ensures SameRow(Execute(db, st), Execute(e, st), q) {
        assert forall ev :: ev in evs[1..] ==> ev in evs;
        assert q in RowsOf(evs);
        SameEffect(db, e, st, q);
      }
      SameEffect(db, e, st, k);
      OwnRowsAnywhere(Execute(db, st), Execute(e, st), evs[1..], k);
    }
  }

  lemma DoIsDone(w: World, t: TxnId, st: Statement)
    requires Enabled(w, Do(t, st))
    ensures Done(Next(w, Do(t, st)), t, st)
  {
    var ev := Deferred(st, Executed(w.db, StatementsOf(w.open[t])));
    ExecutedOneMore(w.db, w.open[t], ev);
    assert ev in w.open[t] + [ev];
  }

  lemma StepKeepsDone(w: World, e: Event, t: TxnId, st: Statement)
    requires Locked(w) && Enabled(w, e) && Done(w, t, st)
    requires e != Commit(t) && e != Abort(t) && !(e.Do? && e.t == t && RowOf(e.st) == RowOf(st))
    ensures Done(Next(w, e), t, st)
  {
    var v := Next(w, e);
    if e.Do? && e.t == t {
      var ev := Deferred(e.st, Executed(w.db, StatementsOf(w.open[t])));
      ExecutedOneMore(w.db, w.open[t], ev);
      assert forall x :: x in w.open[t] ==> x in w.open[t] + [ev];
    } else if e.Commit? {
      forall k | k in RowsOf(w.open[t]) ensures SameRow(w.db, v.db, k) {
        OtherRowsStay(w.db, w.open[e.t], k);
      }
      OwnRowsAnywhere(w.db, v.db, w.open[t], RowOf(st));
    }
  }

  // t goes on without ending and leaves the row alone.
  ghost predicate LeavesAlone(events: seq<Event>, t: TxnId, k: RowKey) {
    forall e :: e in events ==> e != Commit(t) && e != Abort(t) && !(e.Do? && e.t == t && RowOf(e.st) == k)
  }

  lemma {:induction false} HappensKeepsDone(w: World, events: seq<Event>, v: World, t: TxnId, st: Statement)
    requires Locked(w) && Happens(w, events, v) && Done(w, t, st) && LeavesAlone(events, t, RowOf(st))
    ensures Done(v, t, st)
    decreases |events|
  {
    if events != [] {
      assert events[0] in events && forall e :: e in events[1..] ==> e in events;
      StepKeepsDone(w, events[0], t, st);
      HappensKeepsLocked(w, [events[0]], Next(w, events[0])) by {
        assert [events[0]][1..] == [] && Happens(Next(w, events[0]), [], Next(w, events[0]));
      }
      HappensKeepsDone(Next(w, events[0]), events[1..], v, t, st);
    }
  }

  /** What a transaction last did to a row is what its commit publishes, whatever commits in between. */
  lemma StatementsLand(start: Db, before: seq<Event>, w: World, t: TxnId, st: Statement, after: seq<Event>, v: World)
    requires Happens(World(start, map[]), before, w) && Enabled(w, Do(t, st))
    requires Happens(Next(w, Do(t, st)), after, v) && LeavesAlone(after, t, RowOf(st)) && Enabled(v, Commit(t))
    ensures Shows(Next(v, Commit(t)).db, st)
  {
    HappensKeepsLocked(World(start, map[]), before, w);
    DoKeepsLocked(w, t, st);
    DoIsDone(w, t, st);
    HappensKeepsDone(Next(w, Do(t, st)), after, v, t, st);
  }
}
