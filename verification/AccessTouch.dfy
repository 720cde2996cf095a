/**
 * Which users a transaction's deferred triggers touch, and that no change of a user's derived access
 * (roles, permission keys, branch scope) goes untouched.
 */
module AccessTouch {
  import opened Options

  type User = nat
  type RoleId = nat
  type Permission = nat
  type RowId = nat

  datatype Link = Link(user: User, role: RoleId, branch: Option<nat>, deleted: bool)
  datatype Grant = Grant(role: RoleId, permission: Permission)
  datatype Role = Role(name: string, deleted: bool)

  // user_roles, role_permissions, roles
  datatype Db = Db(links: map<RowId, Link>, grants: map<RowId, Grant>, roles: map<RoleId, Role>)

  datatype Statement =
    | InsertLink(id: RowId, link: Link)
    | UpdateLink(id: RowId, link: Link)
    | DeleteLink(id: RowId)
    | InsertGrant(id: RowId, grant: Grant)
    | UpdateGrant(id: RowId, grant: Grant)
    | DeleteGrant(id: RowId)
    | UpdateRole(role: RoleId, to: Role)

  ghost predicate Applies(db: Db, st: Statement) {
    match st
    case InsertLink(id, _) => id !in db.links
    case UpdateLink(id, _) => id in db.links
    case DeleteLink(id) => id in db.links
    case InsertGrant(id, _) => id !in db.grants
    case UpdateGrant(id, _) => id in db.grants
    case DeleteGrant(id) => id in db.grants
    case UpdateRole(r, _) => r in db.roles
  }

  function Execute(db: Db, st: Statement): Db {
    match st
    case InsertLink(id, l) => db.(links := db.links[id := l])
    case UpdateLink(id, l) => db.(links := db.links[id := l])
    case DeleteLink(id) => db.(links := db.links - {id})
    case InsertGrant(id, g) => db.(grants := db.grants[id := g])
    case UpdateGrant(id, g) => db.(grants := db.grants[id := g])
    case DeleteGrant(id) => db.(grants := db.grants - {id})
    case UpdateRole(r, to) => db.(roles := db.roles[r := to])
  }

  // FROM user_roles ur WHERE ur.role_id = r AND ur.deleted_at IS NULL
  function Holders(db: Db, r: RoleId): set<User> {
    set id | id in db.links && db.links[id].role == r && !db.links[id].deleted :: db.links[id].user
  }

  // The users the statement's trigger touches when it fires at COMMIT, with `now` the rows as they are then.
  function Touches(db: Db, st: Statement, now: Db): set<User>
    requires Applies(db, st)
  {
    match st
    case InsertLink(_, l) => {l.user}
    case UpdateLink(id, l) => {l.user, db.links[id].user}
    case DeleteLink(id) => {db.links[id].user}
    case InsertGrant(_, g) => Holders(now, g.role)
    case UpdateGrant(_, g) => Holders(now, g.role)
    case DeleteGrant(id) => Holders(now, db.grants[id].role)
    case UpdateRole(r, _) => Holders(now, r)
  }

  function Executed(db: Db, sts: seq<Statement>): Db
    decreases |sts|
  {
    if sts == [] then db else Executed(Execute(db, sts[0]), sts[1..])
  }

  // The statements apply one after the other.
  ghost predicate Runs(db: Db, sts: seq<Statement>)
    decreases |sts|
  {
    sts == [] || (Applies(db, sts[0]) && Runs(Execute(db, sts[0]), sts[1..]))
  }

  // All users a transaction touches.
  ghost function Touched(db: Db, sts: seq<Statement>, now: Db): set<User>
    requires Runs(db, sts)
    decreases |sts|
  {
    if sts == [] then {} else Touches(db, sts[0], now) + Touched(Execute(db, sts[0]), sts[1..], now)
  }

  // What a user's roles, permission keys and branch scope are computed from: the live assignments
  // of live roles, with the roles' names and permissions.
  datatype Assignment = Assignment(role: RoleId, name: string, branch: Option<nat>, permissions: set<Permission>)

  function PermissionsOf(db: Db, r: RoleId): set<Permission> {
    set id | id in db.grants && db.grants[id].role == r :: db.grants[id].permission
  }

  predicate Effective(db: Db, id: RowId, u: User) {
    && id in db.links && db.links[id].user == u && !db.links[id].deleted
    && db.links[id].role in db.roles && !db.roles[db.links[id].role].deleted
  }

  function Access(db: Db, u: User): map<RowId, Assignment> {
    map id | id in db.links && Effective(db, id, u) ::
      Assignment(db.links[id].role, db.roles[db.links[id].role].name, db.links[id].branch,
                 PermissionsOf(db, db.links[id].role))
  }

  // What the application derives for a user: roles and their names, permission keys, and the branches the user may
  // touch (None: all of them). `isOwner` tells an owner's role by its name, `home` is the user's assigned branch.
  datatype Rights = Rights(roles: set<RoleId>, names: set<string>, keys: set<Permission>, branches: Option<set<nat>>)

  predicate LiveLink(db: Db, l: RowId, u: User) {
    && l in db.links && !db.links[l].deleted && db.links[l].user == u
    && db.links[l].role in db.roles && !db.roles[db.links[l].role].deleted
  }

  ghost function RolesOf(db: Db, u: User): set<RoleId> {
    set l | l in db.links && LiveLink(db, l, u) :: db.links[l].role
  }

  ghost function NamesOf(db: Db, u: User): set<string> {
    set l | l in db.links && LiveLink(db, l, u) :: db.roles[db.links[l].role].name
  }

  ghost function KeysOf(db: Db, u: User): set<Permission> {
    set l, g | l in db.links && LiveLink(db, l, u) && g in db.grants && db.grants[g].role == db.links[l].role
      :: db.grants[g].permission
  }

  ghost function ScopesOf(db: Db, u: User): set<Option<nat>> {
    set l | l in db.links && LiveLink(db, l, u) :: db.links[l].branch
  }

  // allowed_branch_ids(): from the scopes of the user's live assignments.
  ghost function BranchesOf(names: set<string>, scopes: set<Option<nat>>, isOwner: string -> bool, home: Option<nat>)
      : Option<set<nat>> {
    var scoped := set s | s in scopes && s.Some? :: s.value;
    if exists n :: n in names && isOwner(n) then None
    else if home.Some? then Some(scoped + {home.value})
    else if None in scopes || scoped == {} then None
    else Some(scoped)
  }

  ghost function RightsOf(db: Db, u: User, isOwner: string -> bool, home: Option<nat>): Rights {
    Rights(RolesOf(db, u), NamesOf(db, u), KeysOf(db, u), BranchesOf(NamesOf(db, u), ScopesOf(db, u), isOwner, home))
  }

  /**
   * All branches for an owner, and for a user with no branch of their own who has an assignment without a branch or
   * none with one; else exactly the user's own branch and those of the assignments.
   */
  lemma BranchScope(names: set<string>, scopes: set<Option<nat>>, isOwner: string -> bool, home: Option<nat>, b: nat)
    ensures BranchesOf(names, scopes, isOwner, home).None? <==>
      || (exists n :: n in names && isOwner(n))
      || (home.None? && (None in scopes || forall s :: s in scopes ==> s.None?))
    ensures BranchesOf(names, scopes, isOwner, home).Some? ==>
      (b in BranchesOf(names, scopes, isOwner, home).value <==> home == Some(b) || Some(b) in scopes)
  {
    var scoped := set s | s in scopes && s.Some? :: s.value;
    assert scoped == {} <==> forall s :: s in scopes ==> s.None? by {
      forall s | s in scopes && s.Some? ensures s.value in scoped {}
    }
    assert b in scoped <==> Some(b) in scopes;
  }

  lemma LiveIsEffective(db: Db, u: User, l: RowId)
    ensures l in db.links && LiveLink(db, l, u) <==> l in Access(db, u)
  {
  }

  lemma RolesFromAccess(db: Db, u: User)
    ensures RolesOf(db, u) == set l | l in Access(db, u) :: Access(db, u)[l].role
    ensures NamesOf(db, u) == set l | l in Access(db, u) :: Access(db, u)[l].name
    ensures ScopesOf(db, u) == set l | l in Access(db, u) :: Access(db, u)[l].branch
  {
    forall l { LiveIsEffective(db, u, l); }
  }

  lemma KeysFromAccess(db: Db, u: User)
    ensures KeysOf(db, u) == set l, p | l in Access(db, u) && p in Access(db, u)[l].permissions :: p
  {
    var access := Access(db, u);
    forall p ensures p in KeysOf(db, u) <==> exists l :: l in access && p in access[l].permissions {
      forall l | l in access ensures p in access[l].permissions <==> p in PermissionsOf(db, db.links[l].role) {}
      if l, g :| l in db.links && LiveLink(db, l, u) && g in db.grants && db.grants[g].role == db.links[l].role
                 && db.grants[g].permission == p {
        LiveIsEffective(db, u, l);
        assert p in PermissionsOf(db, db.links[l].role);
      }
      if l :| l in access && p in access[l].permissions {
        LiveIsEffective(db, u, l);
        var g :| g in db.grants && db.grants[g].role == db.links[l].role && db.grants[g].permission == p;
      }
    }
  }

  /** A user's rights depend on the user's access alone. */
  lemma AccessGivesRights(db: Db, now: Db, u: User, isOwner: string -> bool, home: Option<nat>)
    requires Access(db, u) == Access(now, u)
    ensures RightsOf(db, u, isOwner, home) == RightsOf(now, u, isOwner, home)
  {
    RolesFromAccess(db, u);
    RolesFromAccess(now, u);
    KeysFromAccess(db, u);
    KeysFromAccess(now, u);
  }

  // Only users named by the statement's assignment rows, or holding its role at COMMIT, are touched.
  lemma OnlyConcernedTouched(db: Db, st: Statement, now: Db, u: User)
    requires Applies(db, st) && u in Touches(db, st, now)
    ensures
      || ((st.InsertLink? || st.UpdateLink?) && u == st.link.user)
      || ((st.UpdateLink? || st.DeleteLink?) && u == db.links[st.id].user)
      || exists l :: l in now.links && now.links[l].user == u && !now.links[l].deleted
           && (((st.InsertGrant? || st.UpdateGrant?) && now.links[l].role == st.grant.role)
               || (st.DeleteGrant? && now.links[l].role == db.grants[st.id].role)
               || (st.UpdateRole? && now.links[l].role == st.role))
  {
  }

  // An UPDATE that moves a permission row to another role.
  ghost predicate MovesGrant(db: Db, st: Statement) {
    st.UpdateGrant? && st.id in db.grants && db.grants[st.id].role != st.grant.role
  }

  // Who holds, at COMMIT, a role that lost a permission row to another role.
  ghost function Bereft(db: Db, sts: seq<Statement>, now: Db): set<User>
    decreases |sts|
  {
    if sts == [] then {}
    else
      var bereft := if MovesGrant(db, sts[0]) then Holders(now, db.grants[sts[0].id].role) else {};
      bereft + Bereft(Execute(db, sts[0]), sts[1..], now)
  }

  // u's assignments are the same rows in both, and so are the rows of every role u holds at the end.
  ghost predicate Agree(db: Db, now: Db, u: User) {
    && (forall id :: (id in db.links && db.links[id].user == u) <==> (id in now.links && now.links[id].user == u))
    && (forall id :: id in now.links && now.links[id].user == u ==> id in db.links && db.links[id] == now.links[id])
    && (forall r :: u in Holders(now, r) ==>
          && (r in db.roles <==> r in now.roles)
          && (r in db.roles ==> db.roles[r] == now.roles[r])
          && PermissionsOf(db, r) == PermissionsOf(now, r))
  }

  lemma OtherRolesKeepPermissions(db: Db, st: Statement, r: RoleId)
    requires Applies(db, st) && !(MovesGrant(db, st) && db.grants[st.id].role == r)
    requires st.InsertGrant? || st.UpdateGrant? ==> st.grant.role != r
    requires st.DeleteGrant? ==> db.grants[st.id].role != r
    ensures PermissionsOf(Execute(db, st), r) == PermissionsOf(db, r)
  {
    var e := Execute(db, st);
    assert forall id :: (id in db.grants && db.grants[id].role == r) <==> (id in e.grants && e.grants[id].role == r);
    assert forall id :: id in db.grants && db.grants[id].role == r ==> e.grants[id] == db.grants[id];
  }

  lemma StepAgrees(db: Db, st: Statement, now: Db, u: User)
    requires Applies(db, st) && Agree(Execute(db, st), now, u) && u !in Touches(db, st, now)
    requires MovesGrant(db, st) ==> u !in Holders(now, db.grants[st.id].role)
    ensures Agree(db, now, u)
  {
    forall r | u in Holders(now, r)
      ensures PermissionsOf(Execute(db, st), r) == PermissionsOf(db, r)
    {
      OtherRolesKeepPermissions(db, st, r);
    }
  }

  lemma {:induction false} UntouchedAgrees(db: Db, sts: seq<Statement>, now: Db, u: User)
    requires Runs(db, sts) && now == Executed(db, sts)
    requires u !in Touched(db, sts, now) && u !in Bereft(db, sts, now)
    ensures Agree(db, now, u)
    decreases |sts|
  {
    if sts != [] {
      UntouchedAgrees(Execute(db, sts[0]), sts[1..], now, u);
      StepAgrees(db, sts[0], now, u);
    }
  }

  lemma AgreeOnAssignment(db: Db, now: Db, u: User, id: RowId)
    requires Agree(db, now, u)
    ensures Effective(db, id, u) <==> Effective(now, id, u)
    ensures Effective(now, id, u) ==> Access(db, u)[id] == Access(now, u)[id]
  {
    if id in now.links && now.links[id].user == u && !now.links[id].deleted {
      assert u in Holders(now, now.links[id].role);
    }
  }

  lemma AgreeSameAccess(db: Db, now: Db, u: User)
    requires Agree(db, now, u)
    ensures Access(db, u) == Access(now, u)
  {
    var a, b := Access(db, u), Access(now, u);
    forall id ensures (id in a <==> id in b) && (id in a ==> a[id] == b[id]) {
      AgreeOnAssignment(db, now, u, id);
    }
  }

  /**
   * A transaction that alters a user's derived access touches that user, also when it both edits a role and
   * takes it away, unless it moves a permission row away from a role the user still holds at the end.
   */
  lemma ChangedAccessIsTouched(db: Db, sts: seq<Statement>, now: Db, u: User)
    requires Runs(db, sts) && now == Executed(db, sts)
    requires Access(db, u) != Access(now, u)
    ensures u in Touched(db, sts, now) || u in Bereft(db, sts, now)
  {
    if u !in Touched(db, sts, now) && u !in Bereft(db, sts, now) {
      UntouchedAgrees(db, sts, now, u);
      AgreeSameAccess(db, now, u);
    }
  }

  // Another row grants the role the permission of row id as well.
  predicate GrantedTwice(db: Db, id: RowId)
    requires id in db.grants
  {
    exists other :: other in db.grants && other != id && db.grants[other] == db.grants[id]
  }

  // What must be checked before a permission row is rewritten: it leaves a live role that u holds and that has the
  // permission from no other row, and u does not hold the role it goes to.
  ghost predicate MoveMisses(db: Db, id: RowId, to: Grant, u: User)
    requires id in db.grants
  {
    && to.role != db.grants[id].role && !GrantedTwice(db, id) && u !in Holders(db, to.role)
    && exists l :: Effective(db, l, u) && db.links[l].role == db.grants[id].role
  }

  // Rewriting one permission row changes the role it leaves, unless another row grants the same.
  lemma LeftRole(db: Db, id: RowId, to: Grant)
    requires id in db.grants && to.role != db.grants[id].role
    ensures var now := Execute(db, UpdateGrant(id, to));
      PermissionsOf(now, db.grants[id].role) == PermissionsOf(db, db.grants[id].role) <==> GrantedTwice(db, id)
  {
    var now, was := Execute(db, UpdateGrant(id, to)), db.grants[id];
    assert was.permission in PermissionsOf(db, was.role);
    forall g | g in db.grants && g != id ensures now.grants[g] == db.grants[g] {}
    forall g | g in now.grants && now.grants[g] == was ensures GrantedTwice(db, id) {
      assert g != id && db.grants[g] == was;
    }
    if GrantedTwice(db, id) {
      var other :| other in db.grants && other != id && db.grants[other] == was;
      assert now.grants[other] == was;
      forall p ensures p in PermissionsOf(db, was.role) <==> p in PermissionsOf(now, was.role) {}
    }
  }

  lemma OtherRolesKept(db: Db, id: RowId, to: Grant, u: User)
    requires id in db.grants && u !in Holders(db, to.role)
    ensures var now := Execute(db, UpdateGrant(id, to));
      forall l :: Effective(db, l, u) && db.links[l].role != db.grants[id].role ==>
        PermissionsOf(now, db.links[l].role) == PermissionsOf(db, db.links[l].role)
  {
    forall l | Effective(db, l, u) && db.links[l].role != db.grants[id].role
      ensures PermissionsOf(Execute(db, UpdateGrant(id, to)), db.links[l].role) == PermissionsOf(db, db.links[l].role)
    {
      assert u in Holders(db, db.links[l].role);
      OtherRolesKeepPermissions(db, UpdateGrant(id, to), db.links[l].role);
    }
  }

  /** Exactly which users' access a rewritten permission row changes without touching them. */
  lemma MoveMissesIff(db: Db, id: RowId, to: Grant, u: User)
    requires id in db.grants
    ensures var now := Execute(db, UpdateGrant(id, to));
      (Access(db, u) != Access(now, u) && u !in Touches(db, UpdateGrant(id, to), now)) <==> MoveMisses(db, id, to, u)
  {
    var now := Execute(db, UpdateGrant(id, to));
    assert Holders(now, to.role) == Holders(db, to.role);
    assert forall l :: Effective(now, l, u) <==> Effective(db, l, u);
    if u !in Holders(db, to.role) {
      OtherRolesKept(db, id, to, u);
      if to.role != db.grants[id].role { LeftRole(db, id, to); }
      if l :| Effective(db, l, u) && db.links[l].role == db.grants[id].role {
        assert u in Holders(db, db.links[l].role);
        assert Access(db, u)[l].permissions == PermissionsOf(db, db.grants[id].role);
        assert Access(now, u)[l].permissions == PermissionsOf(now, db.grants[id].role);
      }
      if !MoveMisses(db, id, to, u) { SameAssignments(db, now, u); }
    }
  }

  lemma SameAssignments(db: Db, now: Db, u: User)
    requires now.links == db.links && now.roles == db.roles
    requires forall l :: Effective(db, l, u) ==>
      PermissionsOf(now, db.links[l].role) == PermissionsOf(db, db.links[l].role)
    ensures Access(db, u) == Access(now, u)
  {
    var a, b := Access(db, u), Access(now, u);
    forall l ensures (l in a <==> l in b) && (l in a ==> a[l] == b[l]) {
      assert Effective(now, l, u) <==> Effective(db, l, u);
    }
  }

  // Every permission row that is moved goes from the one role to the other.
  ghost predicate OnlyMoves(db: Db, sts: seq<Statement>, old_: RoleId, new_: RoleId)
    decreases |sts|
  {
    sts != [] ==>
      && (MovesGrant(db, sts[0]) ==> db.grants[sts[0].id].role == old_ && sts[0].grant.role == new_)
      && OnlyMoves(Execute(db, sts[0]), sts[1..], old_, new_)
  }

  ghost predicate NoneMissed(old_: RoleId, new_: RoleId) {
    forall db, sts, u :: Runs(db, sts) && OnlyMoves(db, sts, old_, new_) &&
      Access(db, u) != Access(Executed(db, sts), u)
      ==> u in Touched(db, sts, Executed(db, sts))
  }

  lemma {:induction false} SameRoleNoMoves(db: Db, sts: seq<Statement>, now: Db, r: RoleId)
    requires OnlyMoves(db, sts, r, r)
    ensures Bereft(db, sts, now) == {}
    decreases |sts|
  {
    if sts != [] { SameRoleNoMoves(Execute(db, sts[0]), sts[1..], now, r); }
  }

  /**
   * Touching is complete for transactions that move permission rows from one role to another only if the two
   * are one.
   */
  lemma NoneMissedIffSameRole(old_: RoleId, new_: RoleId)
    ensures NoneMissed(old_, new_) <==> old_ == new_
  {
    if old_ == new_ {
      forall db, sts, u | Runs(db, sts) && OnlyMoves(db, sts, old_, new_) &&
        Access(db, u) != Access(Executed(db, sts), u)
        ensures u in Touched(db, sts, Executed(db, sts))
      {
        SameRoleNoMoves(db, sts, Executed(db, sts), old_);
        ChangedAccessIsTouched(db, sts, Executed(db, sts), u);
      }
    } else {
      var db, sts := MovedAway(old_, new_);
    }
  }

  // One user holding old_, whose one permission row is moved.
  lemma MovedAway(old_: RoleId, new_: RoleId) returns (db: Db, sts: seq<Statement>)
    requires old_ != new_
    ensures Runs(db, sts) && OnlyMoves(db, sts, old_, new_)
    ensures Access(db, 0) != Access(Executed(db, sts), 0) && 0 !in Touched(db, sts, Executed(db, sts))
  {
    db := Db(map[0 := Link(0, old_, None, false)], map[0 := Grant(old_, 0)], map[old_ := Role("cashier", false)]);
    var st := UpdateGrant(0, Grant(new_, 0));
    var now := Execute(db, st);
    sts := [st];
    assert Effective(db, 0, 0) && MoveMisses(db, 0, st.grant, 0);
    MoveMissesIff(db, 0, st.grant, 0);
    assert sts[1..] == [] && Runs(now, []) && OnlyMoves(now, [], old_, new_) && Executed(now, []) == now;
    assert Touched(now, [], now) == {};
  }
}
