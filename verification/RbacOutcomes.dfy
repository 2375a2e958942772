/** What each administration request means: when it is answered Done, and what the
    rows and everybody's permissions then are. */
module RbacOutcomes {
  import opened Common
  import opened Rbac

  // ------------------------------------------------------- what a caller may hand on

  predicate ActorLive(s: State, session: Session) {
    session.actor in s.users && s.users[session.actor].active
  }

  /** A permission the caller has now and, as an API key, was also given by its scopes. */
  predicate MayGrant(s: State, session: Session, p: Permission) {
    && p in Permissions(s, session.actor)
    && (session.viaApiKey ==> p in session.permissions && (p in session.scopes || "*" in session.scopes))
  }

  predicate MayGrantAll(s: State, session: Session, ps: set<Permission>) {
    forall p :: p in ps ==> MayGrant(s, session, p)
  }

  /** Administrator is handed on by Administrators in a browser session only. */
  predicate MayGrantAdmin(s: State, session: Session) {
    !session.viaApiKey && session.actor in s.users && ADMIN in s.users[session.actor].roles
  }

  predicate Distinct<T(==)>(items: seq<T>) {
    forall i, k :: 0 <= i < k < |items| ==> items[i] != items[k]
  }

  predicate RolesGrantable(s: State, session: Session, roles: seq<RoleId>) {
    && ActorLive(s, session) && Distinct(roles)
    && forall r :: r in roles ==>
         && r in s.roles && MayGrantAll(s, session, s.roles[r].permissions)
         && (r == ADMIN ==> MayGrantAdmin(s, session))
  }

  predicate PermissionsGrantable(s: State, session: Session, ps: seq<Permission>) {
    && ActorLive(s, session) && Distinct(ps)
    && forall p :: p in ps ==> p in s.catalogue && MayGrant(s, session, p)
  }

  predicate UserManageable(s: State, session: Session, u: UserId) {
    && ActorLive(s, session) && u in s.users
    && (ADMIN in s.users[u].roles ==> MayGrantAdmin(s, session))
    && MayGrantAll(s, session, Permissions(s, u))
  }

  predicate RoleManageable(s: State, session: Session, r: RoleId) {
    ActorLive(s, session) && r in s.roles && r != ADMIN && MayGrantAll(s, session, s.roles[r].permissions)
  }

  predicate ActiveAdmin(s: State, u: UserId) {
    u in s.users && s.users[u].active && ADMIN in s.users[u].roles
  }

  /** The change leaves an active Administrator: this user, or another one. */
  ghost predicate LeavesAdmin(s: State, u: UserId, active: bool, admin: bool) {
    ActiveAdmin(s, u) && !(active && admin) ==> exists v :: v != u && ActiveAdmin(s, v)
  }

  // ------------------------------------------------------------- when it is answered Done

  ghost predicate Allowed(s: State, session: Session, e: Request) {
    match e
    case CreateUser(u, _, roles, wellFormed) => wellFormed && RolesGrantable(s, session, roles) && u !in s.users
    case PutUser(u, active, roles, passwordOk) =>
      && UserManageable(s, session, u) && RolesGrantable(s, session, roles) && passwordOk
      && (u == session.actor ==> active && (ADMIN in s.users[u].roles ==> ADMIN in roles))
      && LeavesAdmin(s, u, active, ADMIN in roles)
    case UpdateUser(u, active) =>
      && UserManageable(s, session, u) && (u == session.actor ==> active != Some(false))
      && LeavesAdmin(s, u, if active.Some? then active.value else s.users[u].active, ADMIN in s.users[u].roles)
    case ReplaceUserRoles(u, roles) =>
      && UserManageable(s, session, u) && RolesGrantable(s, session, roles)
      && (u == session.actor && ADMIN in s.users[u].roles ==> ADMIN in roles)
      && LeavesAdmin(s, u, s.users[u].active, ADMIN in roles)
    case CreateRole(r, ps) => r !in s.roles && r != ADMIN && PermissionsGrantable(s, session, ps)
    case PutRole(r, ps) => RoleManageable(s, session, r) && PermissionsGrantable(s, session, ps)
    case ReplaceRolePermissions(r, ps) => RoleManageable(s, session, r) && PermissionsGrantable(s, session, ps)
    case DeleteRole(r) => RoleManageable(s, session, r) && !s.roles[r].system
  }

  // ----------------------------------------------------------------- what Done means

  /** Nobody but u has another row. */
  ghost predicate OthersKeepRows(s: State, s': State, u: UserId) {
    forall v :: v != u ==> (v in s'.users <==> v in s.users) && (v in s.users ==> s'.users[v] == s.users[v])
  }

  ghost predicate OtherRolesKept(s: State, s': State, r: RoleId) {
    forall q :: q != r ==> (q in s'.roles <==> q in s.roles) && (q in s.roles ==> s'.roles[q] == s.roles[q])
  }

  /** The user has exactly the named roles, and so exactly their permissions. */
  ghost predicate HasExactly(s: State, u: UserId, active: bool, roles: seq<RoleId>) {
    && u in s.users && s.users[u].active == active
    && (forall r :: r in s.users[u].roles <==> r in roles)
    && (forall p :: p in Permissions(s, u) <==> exists r :: r in roles && r in s.roles && p in s.roles[r].permissions)
  }

  /** The role has exactly the listed permissions. */
  ghost predicate GivesExactly(s: State, r: RoleId, system: bool, ps: seq<Permission>) {
    r in s.roles && s.roles[r].system == system && forall p :: p in s.roles[r].permissions <==> p in ps
  }

  ghost predicate Means(s: State, s': State, e: Request) {
    && s'.catalogue == s.catalogue
    && match e
       case CreateUser(u, active, roles, _) =>
         HasExactly(s', u, active, roles) && OthersKeepRows(s, s', u) && s'.roles == s.roles
       case PutUser(u, active, roles, _) =>
         HasExactly(s', u, active, roles) && OthersKeepRows(s, s', u) && s'.roles == s.roles
       case UpdateUser(u, active) =>
         && u in s.users && u in s'.users && s'.users[u].roles == s.users[u].roles
         && s'.users[u].active == (if active.Some? then active.value else s.users[u].active)
         && Permissions(s', u) == Permissions(s, u)
         && OthersKeepRows(s, s', u) && s'.roles == s.roles
       case ReplaceUserRoles(u, roles) =>
         && u in s.users && HasExactly(s', u, s.users[u].active, roles)
         && OthersKeepRows(s, s', u) && s'.roles == s.roles
       case CreateRole(r, ps) => GivesExactly(s', r, false, ps) && OtherRolesKept(s, s', r) && s'.users == s.users
       case PutRole(r, ps) =>
         && r in s.roles && GivesExactly(s', r, s.roles[r].system, ps)
         && OtherRolesKept(s, s', r) && s'.users == s.users
       case ReplaceRolePermissions(r, ps) =>
         && r in s.roles && GivesExactly(s', r, s.roles[r].system, ps)
         && OtherRolesKept(s, s', r) && s'.users == s.users
       case DeleteRole(r) =>
         && r !in s'.roles && OtherRolesKept(s, s', r) && s'.users.Keys == s.users.Keys
         && forall u :: u in s.users ==>
              && s'.users[u].active == s.users[u].active
              && forall q :: q in s'.users[u].roles <==> q in s.users[u].roles && q != r
  }

  // --------------------------------------------------------------------- the checks

  lemma {:induction false} AuthorityMeans(s: State, session: Session)
    ensures ActorAuthority(s, session).Some? <==> ActorLive(s, session)
    ensures ActorLive(s, session) ==>
              var actor := ActorAuthority(s, session).value;
              && (forall ps: set<Permission> :: ps <= actor.permissions <==> MayGrantAll(s, session, ps))
              && (actor.admin <==> MayGrantAdmin(s, session))
  {
    hide Permissions;
    if ActorLive(s, session) {
      var actor := ActorAuthority(s, session).value;
      assert forall p :: p in actor.permissions <==> MayGrant(s, session, p);
      forall ps: set<Permission> ensures ps <= actor.permissions <==> MayGrantAll(s, session, ps) {}
    }
  }

  lemma {:induction false} RolesFromMeans(s: State, actor: Authority, roles: seq<RoleId>, k: nat)
    requires k <= |roles|
    ensures CheckRolesFrom(s, actor, roles, k).None? <==>
            forall i :: k <= i < |roles| ==>
              && roles[i] !in roles[..i] && roles[i] in s.roles && s.roles[roles[i]].permissions <= actor.permissions
              && (roles[i] == ADMIN ==> actor.admin)
    decreases |roles| - k
  {
    if k < |roles| {
      RolesFromMeans(s, actor, roles, k + 1);
      assert roles[k] in Elements(roles[..k]) <==> roles[k] in roles[..k];
    }
  }

  lemma {:induction false} DistinctMeans<T>(items: seq<T>)
    ensures Distinct(items) <==> forall i :: 0 <= i < |items| ==> items[i] !in items[..i]
  {
    if forall i :: 0 <= i < |items| ==> items[i] !in items[..i] {
      forall i, k | 0 <= i < k < |items| ensures items[i] != items[k] { assert items[i] in items[..k]; }
    }
  }

  lemma {:induction false} RolesMeans(s: State, session: Session, roles: seq<RoleId>)
    ensures CheckRoles(s, session, roles).None? <==> RolesGrantable(s, session, roles)
  {
    AuthorityMeans(s, session);
    if ActorLive(s, session) {
      var actor := ActorAuthority(s, session).value;
      RolesFromMeans(s, actor, roles, 0);
      DistinctMeans(roles);
      hide ActorAuthority, MayGrantAll, MayGrantAdmin, CheckRolesFrom, Distinct;
      if CheckRolesFrom(s, actor, roles, 0).None? {
        forall r | r in roles
          ensures r in s.roles && MayGrantAll(s, session, s.roles[r].permissions)
          ensures r == ADMIN ==> MayGrantAdmin(s, session)
        {
          var i :| 0 <= i < |roles| && roles[i] == r;
        }
      }
    }
  }

  lemma {:induction false} ElementsCount<T>(items: seq<T>)
    ensures |Elements(items)| <= |items|
    ensures |Elements(items)| == |items| <==> Distinct(items)
  {
    if |items| > 0 {
      var n := |items| - 1;
      var before := items[..n];
      ElementsCount(before);
      assert items == before + [items[n]];
      assert Elements(items) == Elements(before) + {items[n]};
      if items[n] in before {
        assert Elements(items) == Elements(before);
        var i :| 0 <= i < n && before[i] == items[n];
        assert items[i] == items[n];
      } else {
        assert |Elements(items)| == |Elements(before)| + 1;
        forall i | 0 <= i < n ensures items[i] != items[n] { assert before[i] in before; }
        if Distinct(before) {
          forall i, k | 0 <= i < k < |items| ensures items[i] != items[k] {
            if k < n { assert before[i] != before[k]; }
          }
        }
        if Distinct(items) {
          forall i, k | 0 <= i < k < n ensures before[i] != before[k] { assert items[i] != items[k]; }
        }
      }
    }
  }

  /** Counting the known ones finds unknown and repeated permissions alike. */
  lemma {:induction false} KnownCount<T>(items: seq<T>, known: set<T>)
    ensures |Elements(items) * known| == |items| <==> Distinct(items) && forall x :: x in items ==> x in known
  {
    ElementsCount(items);
    var all, both := Elements(items), Elements(items) * known;
    assert all == both + (all - both);
    if forall x :: x in items ==> x in known {
      assert both == all;
    } else {
      var x :| x in items && x !in known;
      assert x in all - both;
    }
  }

  lemma {:induction false} PermissionsMean(s: State, session: Session, ps: seq<Permission>)
    ensures CheckPermissions(s, session, ps).None? <==> PermissionsGrantable(s, session, ps)
  {
    AuthorityMeans(s, session);
    KnownCount(ps, s.catalogue);
    hide ActorAuthority, MayGrant, Distinct;
    assert MayGrantAll(s, session, Elements(ps)) <==> forall p :: p in ps ==> MayGrant(s, session, p);
  }

  lemma {:induction false} UserMeans(s: State, session: Session, u: UserId)
    ensures CheckTargetUser(s, session, u).None? <==> UserManageable(s, session, u)
  {
    AuthorityMeans(s, session);
    hide ActorAuthority, MayGrantAll, MayGrantAdmin, Permissions;
  }

  lemma {:induction false} RoleMeans(s: State, session: Session, r: RoleId)
    ensures CheckRoleTarget(s, session, r).None? <==> RoleManageable(s, session, r)
  {
    AuthorityMeans(s, session);
    hide ActorAuthority, MayGrantAll, MayGrantAdmin;
  }

  lemma {:induction false} LastMeans(s: State, u: UserId, active: bool, roles: set<RoleId>)
    ensures CheckLastAdmin(s, u, active, roles).None? <==> LeavesAdmin(s, u, active, ADMIN in roles)
  {
    var admins := ActiveAdmins(s);
    forall v ensures v in admins <==> ActiveAdmin(s, v) {}
    if u in admins {
      var rest := admins - {u};
      assert |rest| == |admins| - 1;
      if rest == {} {
        forall v | v != u ensures !ActiveAdmin(s, v) { assert v in rest <==> v in admins; }
      } else {
        var v :| v in rest;
        assert v != u && ActiveAdmin(s, v);
      }
    }
  }

  // -------------------------------------------------------------------- the requests

  lemma {:induction false} RowMeans(s: State, u: UserId, active: bool, roles: seq<RoleId>)
    ensures
      var s' := PutRow(s, u, User(active, Elements(roles)));
      HasExactly(s', u, active, roles) && OthersKeepRows(s, s', u) && s'.roles == s.roles && s'.catalogue == s.catalogue
  {
    var s' := PutRow(s, u, User(active, Elements(roles)));
    forall p ensures p in Permissions(s', u) <==>
                     exists r :: r in roles && r in s.roles && p in s.roles[r].permissions {
      if r :| r in roles && r in s.roles && p in s.roles[r].permissions { assert r in s'.users[u].roles; }
    }
  }

  ghost predicate Exact(s: State, session: Session, e: Request) {
    var (s', reply) := Handle(s, session, e);
    && (reply.Done? <==> Allowed(s, session, e))
    && (reply.Done? ==> Means(s, s', e))
    && (!reply.Done? ==> s' == s)
  }

  lemma {:induction false} CreateUserExact(s: State, session: Session, e: Request)
    requires e.CreateUser?
    ensures Exact(s, session, e)
  {
    RolesMeans(s, session, e.roles);
    RowMeans(s, e.user, e.active, e.roles);
    hide CheckRoles, RolesGrantable, HasExactly, OthersKeepRows, PutRow;
  }

  lemma {:induction false} PutUserExact(s: State, session: Session, e: Request)
    requires e.PutUser?
    ensures Exact(s, session, e)
  {
    RolesMeans(s, session, e.roles);
    UserMeans(s, session, e.user);
    LastMeans(s, e.user, e.active, Elements(e.roles));
    RowMeans(s, e.user, e.active, e.roles);
    hide CheckRoles, RolesGrantable, CheckTargetUser, CheckLastAdmin, LeavesAdmin, HasExactly, OthersKeepRows, PutRow;
  }

  lemma {:induction false} UpdateUserExact(s: State, session: Session, e: Request)
    requires e.UpdateUser?
    ensures Exact(s, session, e)
  {
    UserMeans(s, session, e.user);
    if e.user in s.users {
      var row := s.users[e.user];
      LastMeans(s, e.user, e.newActive.GetOr(row.active), row.roles);
      ActiveKeepsPermissions(s, e.user, e.newActive.GetOr(row.active));
    }
    hide CheckTargetUser, CheckLastAdmin, LeavesAdmin, Permissions;
  }

  lemma {:induction false} ActiveKeepsPermissions(s: State, u: UserId, active: bool)
    requires u in s.users
    ensures Permissions(PutRow(s, u, s.users[u].(active := active)), u) == Permissions(s, u)
  {
  }

  lemma {:induction false} ReplaceUserRolesExact(s: State, session: Session, e: Request)
    requires e.ReplaceUserRoles?
    ensures Exact(s, session, e)
  {
    RolesMeans(s, session, e.roles);
    UserMeans(s, session, e.user);
    if e.user in s.users {
      LastMeans(s, e.user, s.users[e.user].active, Elements(e.roles));
      RowMeans(s, e.user, s.users[e.user].active, e.roles);
    }
    hide CheckRoles, RolesGrantable, CheckTargetUser, CheckLastAdmin, LeavesAdmin, HasExactly, OthersKeepRows, PutRow;
  }

  lemma {:induction false} AssignMeans(s: State, session: Session, r: RoleId, ps: seq<Permission>)
    ensures
      var (s', reply) := AssignPermissions(s, session, r, ps);
      && (reply.Done? <==> RoleManageable(s, session, r) && PermissionsGrantable(s, session, ps))
      && (reply.Done? ==>
            && r in s.roles && GivesExactly(s', r, s.roles[r].system, ps)
            && OtherRolesKept(s, s', r) && s'.users == s.users && s'.catalogue == s.catalogue)
      && (!reply.Done? ==> s' == s)
  {
    RoleMeans(s, session, r);
    PermissionsMean(s, session, ps);
    hide CheckRoleTarget, CheckPermissions, PermissionsGrantable;
  }

  /** A role without permissions makes no difference to what anybody may hand on. */
  lemma {:induction false} EmptyRole(s: State, session: Session, r: RoleId, ps: seq<Permission>)
    requires r !in s.roles
    ensures
      var s' := s.(roles := s.roles[r := Role(false, {})]);
      && (RoleManageable(s', session, r) <==> ActorLive(s, session) && r != ADMIN)
      && (PermissionsGrantable(s', session, ps) <==> PermissionsGrantable(s, session, ps))
  {
    var s' := s.(roles := s.roles[r := Role(false, {})]);
    var u := session.actor;
    if u in s.users {
      forall p | p in Permissions(s, u) ensures p in Permissions(s', u) {
        var q :| q in s.users[u].roles && q in s.roles && p in s.roles[q].permissions;
        assert q in s'.roles && s'.roles[q] == s.roles[q];
      }
    }
    assert Permissions(s', u) == Permissions(s, u);
  }

  lemma {:induction false} CreateRoleExact(s: State, session: Session, e: Request)
    requires e.CreateRole?
    ensures Exact(s, session, e)
  {
    if e.role !in s.roles {
      EmptyRole(s, session, e.role, e.permissions);
      AssignMeans(s.(roles := s.roles[e.role := Role(false, {})]), session, e.role, e.permissions);
    }
    hide AssignPermissions, RoleManageable;
  }

  lemma {:induction false} ChangeRoleExact(s: State, session: Session, e: Request)
    requires e.PutRole? || e.ReplaceRolePermissions?
    ensures Exact(s, session, e)
  {
    AuthorityMeans(s, session);
    AssignMeans(s, session, e.role, e.permissions);
    hide AssignPermissions, PermissionsGrantable, GivesExactly, OtherRolesKept, ActorAuthority;
  }

  lemma {:induction false} DeleteRoleExact(s: State, session: Session, e: Request)
    requires e.DeleteRole?
    ensures Exact(s, session, e)
  {
    AuthorityMeans(s, session);
    RoleMeans(s, session, e.role);
    hide CheckRoleTarget, ActorAuthority, MayGrantAll;
  }

  /** Every request, exactly: when it is answered Done, what the tables then say, and
      that a refusal changes nothing. */
  lemma {:induction false} RequestsExact(s: State, session: Session, e: Request)
    ensures Exact(s, session, e)
  {
    hide Exact;
    match e
    case CreateUser(_, _, _, _) => CreateUserExact(s, session, e);
    case PutUser(_, _, _, _) => PutUserExact(s, session, e);
    case UpdateUser(_, _) => UpdateUserExact(s, session, e);
    case ReplaceUserRoles(_, _) => ReplaceUserRolesExact(s, session, e);
    case CreateRole(_, _) => CreateRoleExact(s, session, e);
    case DeleteRole(_) => DeleteRoleExact(s, session, e);
    case _ => ChangeRoleExact(s, session, e);
  }
}
