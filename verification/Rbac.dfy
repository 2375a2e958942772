/** Delegated administration: who may change users, roles and permissions, and
    how far authority can spread over whole runs. */
module Rbac {
  import opened Common

  type UserId = nat
  type RoleId = string
  type Permission = string

  /** The protected Administrator role. */
  const ADMIN := "role-admin"

  datatype User = User(active: bool, roles: set<RoleId>)

  datatype Role = Role(system: bool, permissions: set<Permission>)

  datatype State = State(users: map<UserId, User>, roles: map<RoleId, Role>, catalogue: set<Permission>)

  /** An authenticated caller: a browser session, or an API key with its scopes.
      `permissions` is what authentication loaded, possibly some time ago. */
  datatype Session = Session(actor: UserId, viaApiKey: bool, permissions: set<Permission>, scopes: set<string>)
  {
    predicate Has(p: Permission) {
      p in permissions && (!viaApiKey || p in scopes || "*" in scopes)
    }
  }

  datatype Code =
    | NotFound | Conflict | DelegationForbidden | ProtectedAdminOnly | ProtectedRole | TargetAuthority
    | UnknownPermission | UnknownRole | DuplicateRole | SystemRole | SelfDeactivation | SelfLockout
    | LastActiveAdmin | InvalidUser | InvalidPassword

  datatype Reply = Done | Refused(code: Code)

  // ------------------------------------------------------------------ authority

  function Permissions(s: State, u: UserId): set<Permission> {
    if u !in s.users then {}
    else set r, p | r in s.users[u].roles && r in s.roles && p in s.roles[r].permissions :: p
  }

  predicate IsAdmin(s: State, u: UserId) {
    u in s.users && ADMIN in s.users[u].roles
  }

  datatype Authority = Authority(permissions: set<Permission>, admin: bool)

  /** An API key keeps what its scopes allow and can never delegate Administrator. */
  function Attenuate(permissions: set<Permission>, admin: bool, session: Session): Authority {
    if !session.viaApiKey then Authority(permissions, admin)
    else Authority(set p | p in permissions && session.Has(p), false)
  }

  function ActorAuthority(s: State, session: Session): Option<Authority> {
    if session.actor !in s.users || !s.users[session.actor].active then None
    else Some(Attenuate(Permissions(s, session.actor), IsAdmin(s, session.actor), session))
  }

  function Elements<T>(items: seq<T>): set<T> { set x | x in items }

  // ------------------------------------------------------------------ the checks

  function CheckPermissions(s: State, session: Session, requested: seq<Permission>): Option<Code> {
    var actor := ActorAuthority(s, session);
    if actor.None? || !(Elements(requested) <= actor.value.permissions) then Some(DelegationForbidden)
    else if |Elements(requested) * s.catalogue| != |requested| then Some(UnknownPermission)
    else None
  }

  function CheckRole(s: State, actor: Authority, seen: set<RoleId>, role: RoleId): Option<Code> {
    if role in seen then Some(DuplicateRole)
    else if role == ADMIN && !actor.admin then Some(ProtectedAdminOnly)
    else if role !in s.roles then Some(UnknownRole)
    else if !(s.roles[role].permissions <= actor.permissions) then Some(DelegationForbidden)
    else None
  }

  function CheckRolesFrom(s: State, actor: Authority, roles: seq<RoleId>, k: nat): Option<Code>
    requires k <= |roles|
    decreases |roles| - k
  {
    if k == |roles| then None
    else
      var refusal := CheckRole(s, actor, Elements(roles[..k]), roles[k]);
      if refusal.Some? then refusal else CheckRolesFrom(s, actor, roles, k + 1)
  }

  function CheckRoles(s: State, session: Session, roles: seq<RoleId>): Option<Code> {
    var actor := ActorAuthority(s, session);
    if actor.None? then Some(DelegationForbidden) else CheckRolesFrom(s, actor.value, roles, 0)
  }

  function CheckRoleTarget(s: State, session: Session, role: RoleId): Option<Code> {
    var actor := ActorAuthority(s, session);
    if actor.None? then Some(DelegationForbidden)
    else if role !in s.roles then Some(NotFound)
    else if role == ADMIN then Some(ProtectedRole)
    else if !(s.roles[role].permissions <= actor.value.permissions) then Some(TargetAuthority)
    else None
  }

  function CheckTargetUser(s: State, session: Session, target: UserId): Option<Code> {
    var actor := ActorAuthority(s, session);
    if actor.None? || target !in s.users then Some(DelegationForbidden)
    else if IsAdmin(s, target) && !actor.value.admin then Some(ProtectedAdminOnly)
    else if !(Permissions(s, target) <= actor.value.permissions) then Some(TargetAuthority)
    else None
  }

  function ActiveAdmins(s: State): set<UserId> {
    set u | u in s.users && s.users[u].active && ADMIN in s.users[u].roles
  }

  function CheckLastAdmin(s: State, u: UserId, nextActive: bool, nextRoles: set<RoleId>): Option<Code> {
    if u !in ActiveAdmins(s) || (nextActive && ADMIN in nextRoles) then None
    else if |ActiveAdmins(s)| <= 1 then Some(LastActiveAdmin)
    else None
  }

  // ------------------------------------------------------------------ the requests

  datatype Request =
    | CreateUser(user: UserId, active: bool, roles: seq<RoleId>, wellFormed: bool)
    | PutUser(user: UserId, active: bool, roles: seq<RoleId>, passwordOk: bool)
    | UpdateUser(user: UserId, newActive: Option<bool>)
    | ReplaceUserRoles(user: UserId, roles: seq<RoleId>)
    | CreateRole(role: RoleId, permissions: seq<Permission>)
    | PutRole(role: RoleId, permissions: seq<Permission>)
    | ReplaceRolePermissions(role: RoleId, permissions: seq<Permission>)
    | DeleteRole(role: RoleId)

  /** A refused request rolls everything back. */
  function Either(refusal: Option<Code>, s: State, next: State): (State, Reply) {
    if refusal.Some? then (s, Refused(refusal.value)) else (next, Done)
  }

  function PutRow(s: State, u: UserId, row: User): State { s.(users := s.users[u := row]) }

  function AssignPermissions(s: State, session: Session, role: RoleId, permissions: seq<Permission>): (State, Reply) {
    var target := CheckRoleTarget(s, session, role);
    if target.Some? then (s, Refused(target.value))
    else
      Either(CheckPermissions(s, session, permissions), s,
             s.(roles := s.roles[role := s.roles[role].(permissions := Elements(permissions))]))
  }

  function CreateUserTx(s: State, session: Session, e: Request): (State, Reply)
    requires e.CreateUser?
  {
    if !e.wellFormed then (s, Refused(InvalidUser))
    else
      var refusal := CheckRoles(s, session, e.roles);
      if refusal.None? && e.user in s.users then (s, Refused(Conflict))
      else Either(refusal, s, PutRow(s, e.user, User(e.active, Elements(e.roles))))
  }

  function PutUserTx(s: State, session: Session, e: Request): (State, Reply)
    requires e.PutUser?
  {
    if e.user == session.actor && !e.active then (s, Refused(SelfDeactivation))
    else
      var roles := CheckRoles(s, session, e.roles);
      var target := CheckTargetUser(s, session, e.user);
      var last := CheckLastAdmin(s, e.user, e.active, Elements(e.roles));
      if roles.Some? then (s, Refused(roles.value))
      else if e.user !in s.users then (s, Refused(NotFound))
      else if target.Some? then (s, Refused(target.value))
      else if e.user == session.actor && IsAdmin(s, e.user) && ADMIN !in e.roles then (s, Refused(SelfLockout))
      else if last.Some? then (s, Refused(last.value))
      else if !e.passwordOk then (s, Refused(InvalidPassword))
      else (PutRow(s, e.user, User(e.active, Elements(e.roles))), Done)
  }

  function UpdateUserTx(s: State, session: Session, e: Request): (State, Reply)
    requires e.UpdateUser?
  {
    if e.user == session.actor && e.newActive == Some(false) then (s, Refused(SelfDeactivation))
    else if e.user !in s.users then (s, Refused(NotFound))
    else
      var row := s.users[e.user];
      var next := e.newActive.GetOr(row.active);
      Either(CheckTargetUser(s, session, e.user).OrElse(CheckLastAdmin(s, e.user, next, row.roles)), s,
             PutRow(s, e.user, row.(active := next)))
  }

  function ReplaceUserRolesTx(s: State, session: Session, e: Request): (State, Reply)
    requires e.ReplaceUserRoles?
  {
    if e.user !in s.users then (s, Refused(NotFound))
    else
      var row := s.users[e.user];
      var refusal := CheckTargetUser(s, session, e.user).OrElse(CheckRoles(s, session, e.roles));
      if refusal.Some? then (s, Refused(refusal.value))
      else if e.user == session.actor && IsAdmin(s, e.user) && ADMIN !in e.roles then (s, Refused(SelfLockout))
      else
        Either(CheckLastAdmin(s, e.user, row.active, Elements(e.roles)), s,
          PutRow(s, e.user, row.(roles := Elements(e.roles))))
  }

  function DeleteRoleTx(s: State, session: Session, role: RoleId): (State, Reply) {
    var target := CheckRoleTarget(s, session, role);
    if ActorAuthority(s, session).None? then (s, Refused(NotFound))
    else if target.Some? then (s, Refused(target.value))
    else if s.roles[role].system then (s, Refused(SystemRole))
    else
      (s.(roles := s.roles - {role}, users := map u | u in s.users :: s.users[u].(roles := s.users[u].roles - {role})),
        Done)
  }

  /** Each request is one serializable transaction under the delegation lock. */
  function Handle(s: State, session: Session, e: Request): (State, Reply) {
    match e
    case CreateUser(_, _, _, _) => CreateUserTx(s, session, e)
    case PutUser(_, _, _, _) => PutUserTx(s, session, e)
    case UpdateUser(_, _) => UpdateUserTx(s, session, e)
    case ReplaceUserRoles(_, _) => ReplaceUserRolesTx(s, session, e)
    case CreateRole(role, permissions) =>
      if role in s.roles then (s, Refused(Conflict))
      else
        var (next, reply) := AssignPermissions(s.(roles := s.roles[role := Role(false, {})]), session, role,
          permissions);
        if reply.Done? then (next, Done) else (s, reply)
    case PutRole(role, permissions) =>
      if role == ADMIN then (s, Refused(ProtectedRole))
      else if role !in s.roles then (s, Refused(NotFound))
      else AssignPermissions(s, session, role, permissions)
    case ReplaceRolePermissions(role, permissions) =>
      if role == ADMIN then (s, Refused(ProtectedRole))
      else if ActorAuthority(s, session).None? then (s, Refused(NotFound))
      else AssignPermissions(s, session, role, permissions)
    case DeleteRole(role) => DeleteRoleTx(s, session, role)
  }

  datatype Call = Call(session: Session, request: Request)

  function Run(s: State, calls: seq<Call>): State
    decreases |calls|
  {
    if |calls| == 0 then s else Run(Handle(s, calls[0].session, calls[0].request).0, calls[1..])
  }

  // ------------------------------------------------------- how authority can spread

  /** Every role a user has now gives at most `bound`, or at most what the same
      role gave the same user at the start. */
  ghost predicate UserBound(start: State, s: State, bound: set<Permission>, u: UserId)
    requires u in s.users
  {
    forall r :: r in s.users[u].roles && r in s.roles ==>
      || s.roles[r].permissions <= bound
      || (u in start.users && r in start.users[u].roles && r in start.roles &&
         s.roles[r].permissions <= start.roles[r].permissions)
  }

  ghost predicate Bounded(start: State, s: State, bound: set<Permission>) {
    forall u {:trigger UserBound(start, s, bound, u)} :: u in s.users ==> UserBound(start, s, bound, u)
  }

  /** Nobody has become Administrator. */
  ghost predicate NoNewAdmin(start: State, s: State) {
    forall u {:trigger IsAdmin(s, u)} :: IsAdmin(s, u) ==> IsAdmin(start, u)
  }

  lemma {:induction false} BoundMeans(start: State, s: State, bound: set<Permission>, u: UserId)
    requires Bounded(start, s, bound) && u in s.users
    ensures Permissions(s, u) <= Permissions(start, u) + bound
  {
    assert UserBound(start, s, bound, u);
    forall p | p in Permissions(s, u) ensures p in Permissions(start, u) + bound {
      var r :| r in s.users[u].roles && r in s.roles && p in s.roles[r].permissions;
    }
  }

  lemma {:induction false} CheckedRoles(s: State, actor: Authority, roles: seq<RoleId>, k: nat)
    requires k <= |roles| && CheckRolesFrom(s, actor, roles, k).None?
    ensures forall i :: k <= i < |roles| ==>
              && roles[i] !in roles[..i] && roles[i] in s.roles && s.roles[roles[i]].permissions <= actor.permissions
              && (roles[i] == ADMIN ==> actor.admin)
    decreases |roles| - k
  {
    if k < |roles| {
      CheckedRoles(s, actor, roles, k + 1);
      assert CheckRole(s, actor, Elements(roles[..k]), roles[k]).None?;
    }
  }

  /** A user row with delegated roles. */
  lemma {:induction false} DelegatedRow(
      start: State, s: State, session: Session, u: UserId, active: bool, roles: seq<RoleId>, bound: set<Permission>)
    requires Bounded(start, s, bound) && CheckRoles(s, session, roles).None?
    requires ActorAuthority(s, session).value.permissions <= bound
    ensures Bounded(start, PutRow(s, u, User(active, Elements(roles))), bound)
    ensures NoNewAdmin(start, s) && !ActorAuthority(s, session).value.admin ==>
            NoNewAdmin(start, PutRow(s, u, User(active, Elements(roles))))
  {
    hide ActorAuthority;
    CheckedRoles(s, ActorAuthority(s, session).value, roles, 0);
    var next := PutRow(s, u, User(active, Elements(roles)));
    forall v | v in next.users ensures UserBound(start, next, bound, v) {
      if v != u { assert UserBound(start, s, bound, v); }
    }
    forall v | IsAdmin(next, v) && NoNewAdmin(start, s) && !ActorAuthority(s, session).value.admin
      ensures IsAdmin(start, v) {
      assert v != u ==> IsAdmin(s, v);
    }
  }

  lemma {:induction false} SameRolesRow(start: State, s: State, u: UserId, active: bool, bound: set<Permission>)
    requires Bounded(start, s, bound) && u in s.users
    ensures Bounded(start, PutRow(s, u, s.users[u].(active := active)), bound)
    ensures NoNewAdmin(start, s) ==> NoNewAdmin(start, PutRow(s, u, s.users[u].(active := active)))
  {
    var next := PutRow(s, u, s.users[u].(active := active));
    forall v | v in next.users ensures UserBound(start, next, bound, v) { assert UserBound(start, s, bound, v); }
    forall v | IsAdmin(next, v) && NoNewAdmin(start, s) ensures IsAdmin(start, v) { assert IsAdmin(s, v); }
  }

  lemma {:induction false} RoleRow(start: State, s: State, role: RoleId, row: Role, bound: set<Permission>)
    requires Bounded(start, s, bound) && row.permissions <= bound
    ensures Bounded(start, s.(roles := s.roles[role := row]), bound)
    ensures NoNewAdmin(start, s) ==> NoNewAdmin(start, s.(roles := s.roles[role := row]))
  {
    var next := s.(roles := s.roles[role := row]);
    forall v | v in next.users ensures UserBound(start, next, bound, v) { assert UserBound(start, s, bound, v); }
    forall v | IsAdmin(next, v) && NoNewAdmin(start, s) ensures IsAdmin(start, v) { assert IsAdmin(s, v); }
  }

  lemma {:induction false} AssignBounded(
      start: State, s: State, session: Session, role: RoleId, permissions: seq<Permission>, bound: set<Permission>)
    requires Bounded(start, s, bound)
    requires ActorAuthority(s, session).Some? ==> ActorAuthority(s, session).value.permissions <= bound
    ensures Bounded(start, AssignPermissions(s, session, role, permissions).0, bound)
    ensures NoNewAdmin(start, s) ==> NoNewAdmin(start, AssignPermissions(s, session, role, permissions).0)
  {
    hide ActorAuthority, Bounded, NoNewAdmin;
    if AssignPermissions(s, session, role, permissions).1.Done? {
      RoleRow(start, s, role, s.roles[role].(permissions := Elements(permissions)), bound);
    }
  }

  lemma {:induction false} DeleteBounded(start: State, s: State, session: Session, role: RoleId, bound: set<Permission>)
    requires Bounded(start, s, bound)
    ensures Bounded(start, DeleteRoleTx(s, session, role).0, bound)
    ensures NoNewAdmin(start, s) ==> NoNewAdmin(start, DeleteRoleTx(s, session, role).0)
  {
    var next := DeleteRoleTx(s, session, role).0;
    hide CheckRoleTarget;
    forall v | v in next.users ensures UserBound(start, next, bound, v) { assert UserBound(start, s, bound, v); }
    forall v | IsAdmin(next, v) && NoNewAdmin(start, s) ensures IsAdmin(start, v) { assert IsAdmin(s, v); }
  }

  /** A new role with no permissions is nobody's yet, and grants nothing. */
  lemma {:induction false} SameAuthority(s: State, role: RoleId, session: Session)
    requires role !in s.roles
    ensures
      var next := s.(roles := s.roles[role := Role(false, {})]);
      ActorAuthority(next, session) == ActorAuthority(s, session)
  {
    var next := s.(roles := s.roles[role := Role(false, {})]);
    if session.actor in s.users {
      var roles := s.users[session.actor].roles;
      forall p | p in Permissions(next, session.actor) ensures p in Permissions(s, session.actor) {
        var r :| r in roles && r in next.roles && p in next.roles[r].permissions;
        assert r in s.roles && p in s.roles[r].permissions;
      }
      forall p | p in Permissions(s, session.actor) ensures p in Permissions(next, session.actor) {
        var r :| r in roles && r in s.roles && p in s.roles[r].permissions;
        assert r in next.roles && p in next.roles[r].permissions;
      }
      assert Permissions(next, session.actor) == Permissions(s, session.actor);
    }
  }

  /** One request spreads at most the effective authority of its session. */
  lemma {:induction false} HandleBounded(start: State, s: State, session: Session, e: Request, bound: set<Permission>)
    requires Bounded(start, s, bound)
    requires ActorAuthority(s, session).Some? ==> ActorAuthority(s, session).value.permissions <= bound
    ensures Bounded(start, Handle(s, session, e).0, bound)
    ensures NoNewAdmin(start, s) && (ActorAuthority(s, session).Some? ==> !ActorAuthority(s, session).value.admin) ==>
              NoNewAdmin(start, Handle(s, session, e).0)
  {
    hide ActorAuthority, Bounded, NoNewAdmin, CheckTargetUser, CheckLastAdmin, CheckRolesFrom, PutRow,
         AssignPermissions, DeleteRoleTx;
    var (next, reply) := Handle(s, session, e);
    match e
    case CreateUser(u, active, roles, _) =>
      if reply.Done? { DelegatedRow(start, s, session, u, active, roles, bound); }
    case PutUser(u, active, roles, _) =>
      if reply.Done? { DelegatedRow(start, s, session, u, active, roles, bound); }
    case UpdateUser(u, active) =>
      if reply.Done? { SameRolesRow(start, s, u, active.GetOr(s.users[u].active), bound); }
    case ReplaceUserRoles(u, roles) =>
      if reply.Done? { DelegatedRow(start, s, session, u, s.users[u].active, roles, bound); }
    case CreateRole(role, permissions) =>
      if role !in s.roles {
        RoleRow(start, s, role, Role(false, {}), bound);
        SameAuthority(s, role, session);
        AssignBounded(start, s.(roles := s.roles[role := Role(false, {})]), session, role, permissions, bound);
      }
    case PutRole(role, permissions) => AssignBounded(start, s, session, role, permissions, bound);
    case ReplaceRolePermissions(role, permissions) => AssignBounded(start, s, session, role, permissions, bound);
    case DeleteRole(role) => DeleteBounded(start, s, session, role, bound);
  }

  /** Only members act, and whoever a member creates becomes a member. */
  ghost predicate ActedBy(s: State, group: set<UserId>, calls: seq<Call>)
    decreases |calls|
  {
    |calls| > 0 ==>
      && calls[0].session.actor in group
      && ActedBy(Handle(s, calls[0].session, calls[0].request).0, Grown(s, group, calls[0]), calls[1..])
  }

  function Grown(s: State, group: set<UserId>, call: Call): set<UserId> {
    if call.request.CreateUser? && Handle(s, call.session, call.request).1.Done? then group + {call.request.user}
      else group
  }

  function FinalGroup(s: State, group: set<UserId>, calls: seq<Call>): set<UserId>
    decreases |calls|
  {
    if |calls| == 0 then group
    else FinalGroup(Handle(s, calls[0].session, calls[0].request).0, Grown(s, group, calls[0]), calls[1..])
  }

  /** Every call of the run comes from an API key whose scopes lie in the set. */
  ghost predicate OnlyKeys(calls: seq<Call>, scopes: set<string>) {
    "*" !in scopes && forall i :: 0 <= i < |calls| ==> calls[i].session.viaApiKey && calls[i].session.scopes <= scopes
  }

  /** The members have only start permissions within `union`. */
  ghost predicate Within(start: State, group: set<UserId>, union: set<Permission>) {
    forall u :: u in group ==> Permissions(start, u) <= union
  }

  /** What a session may pass on: at most the union, at most its scopes. */
  lemma {:induction false} AuthorityWithin(
      start: State, s: State, session: Session, group: set<UserId>, union: set<Permission>, bound: set<Permission>,
      scopes: set<string>)
    requires Bounded(start, s, bound) && bound <= union && Within(start, group, union) && session.actor in group
    requires bound == union ||
             (bound == union * scopes && session.viaApiKey && session.scopes <= scopes && "*" !in scopes)
    ensures ActorAuthority(s, session).Some? ==> ActorAuthority(s, session).value.permissions <= bound
  {
    if session.actor in s.users { BoundMeans(start, s, bound, session.actor); }
  }

  lemma {:induction false} UsersStay(s: State, session: Session, e: Request)
    ensures s.users.Keys <= Handle(s, session, e).0.users.Keys
    ensures e.CreateUser? && Handle(s, session, e).1.Done? ==> e.user !in s.users
  {
    hide ActorAuthority, CheckTargetUser, CheckLastAdmin, CheckRolesFrom, CheckRoleTarget, CheckPermissions;
  }

  lemma {:induction false} RunBounded(
      start: State, s: State, group: set<UserId>, calls: seq<Call>, union: set<Permission>, bound: set<Permission>,
      scopes: set<string>)
    requires Bounded(start, s, bound) && bound <= union && Within(start, group, union) && ActedBy(s, group, calls)
    requires start.users.Keys <= s.users.Keys
    requires bound == union || (bound == union * scopes && OnlyKeys(calls, scopes))
    ensures Bounded(start, Run(s, calls), bound)
    ensures Within(start, FinalGroup(s, group, calls), union)
    decreases |calls|
  {
    hide Bounded, Handle, ActorAuthority;
    if |calls| > 0 {
      var call := calls[0];
      var next := Handle(s, call.session, call.request).0;
      AuthorityWithin(start, s, call.session, group, union, bound, scopes);
      HandleBounded(start, s, call.session, call.request, bound);
      UsersStay(s, call.session, call.request);
      RunBounded(start, next, Grown(s, group, call), calls[1..], union, bound, scopes);
    }
  }

  lemma {:induction false} StartBounded(s: State, bound: set<Permission>)
    ensures Bounded(s, s, bound) && NoNewAdmin(s, s)
  {
    forall u | u in s.users ensures UserBound(s, s, bound, u) {}
  }

  /** Non-escalation: while only a group and the users it creates act, no user's
      permissions ever exceed what the user started with plus the union the group
      started with; so no member's, old or new, exceed that union. */
  lemma {:induction false} GroupCannotEscalate(
      s: State, group: set<UserId>, calls: seq<Call>, union: set<Permission>, u: UserId)
    requires Within(s, group, union) && ActedBy(s, group, calls)
    ensures Permissions(Run(s, calls), u) <= Permissions(s, u) + union
    ensures u in FinalGroup(s, group, calls) ==> Permissions(Run(s, calls), u) <= union
  {
    hide Run, ActedBy, FinalGroup;
    StartBounded(s, union);
    RunBounded(s, s, group, calls, union, union, {});
    if u in Run(s, calls).users { BoundMeans(s, Run(s, calls), union, u); }
  }

  /** When moreover every call comes from API keys, nothing outside their scopes
      is added to anybody. */
  lemma {:induction false} KeysCannotExceedScopes(
      s: State, group: set<UserId>, calls: seq<Call>, union: set<Permission>, scopes: set<string>, u: UserId)
    requires Within(s, group, union) && ActedBy(s, group, calls) && OnlyKeys(calls, scopes)
    ensures Permissions(Run(s, calls), u) <= Permissions(s, u) + union * scopes
  {
    hide Run, ActedBy, FinalGroup;
    StartBounded(s, union * scopes);
    RunBounded(s, s, group, calls, union, union * scopes, scopes);
    if u in Run(s, calls).users { BoundMeans(s, Run(s, calls), union * scopes, u); }
  }

  // ------------------------------------------------------------- who is Administrator

  /** No call of the run may delegate Administrator: it is by an API key, or by a
      member of a group none of which is Administrator. */
  lemma {:induction false} RunMakesNoAdmin(start: State, s: State, group: set<UserId>, calls: seq<Call>)
    requires NoNewAdmin(start, s) && start.users.Keys <= s.users.Keys && ActedBy(s, group, calls)
    requires (forall u :: u in group ==> !IsAdmin(start, u)) ||
             forall i :: 0 <= i < |calls| ==> calls[i].session.viaApiKey
    ensures NoNewAdmin(start, Run(s, calls))
    decreases |calls|
  {
    hide Handle, Bounded, Permissions;
    if |calls| > 0 {
      var call := calls[0];
      var next := Handle(s, call.session, call.request).0;
      NoAdminStep(start, s, call);
      UsersStay(s, call.session, call.request);
      RunMakesNoAdmin(start, next, Grown(s, group, call), calls[1..]);
    }
  }

  function AllPermissions(s: State): set<Permission> {
    set r, p | r in s.roles && p in s.roles[r].permissions :: p
  }

  lemma {:induction false} NoAdminStep(start: State, s: State, call: Call)
    requires NoNewAdmin(start, s)
    requires call.session.viaApiKey || !IsAdmin(s, call.session.actor)
    ensures NoNewAdmin(start, Handle(s, call.session, call.request).0)
  {
    var session, e := call.session, call.request;
    var all := AllPermissions(s);
    var big := if ActorAuthority(s, session).Some? then ActorAuthority(s, session).value.permissions + all else all;
    StartBounded(s, big);
    hide Permissions, Bounded, CheckRoles, CheckTargetUser, CheckRoleTarget, CheckPermissions, CheckLastAdmin;
    HandleBounded(s, s, session, e, big);
    var next := Handle(s, session, e).0;
    hide Handle;
    forall u | IsAdmin(next, u) ensures IsAdmin(start, u) { assert IsAdmin(s, u); }
  }

  /** None of a group without Administrators, nobody at all in fact, becomes one;
      and no API key ever makes one. */
  lemma {:induction false} NobodyBecomesAdmin(s: State, group: set<UserId>, calls: seq<Call>, u: UserId)
    requires ActedBy(s, group, calls)
    requires (forall v :: v in group ==> !IsAdmin(s, v)) || forall i :: 0 <= i < |calls| ==> calls[i].session.viaApiKey
    ensures IsAdmin(Run(s, calls), u) ==> IsAdmin(s, u)
  {
    hide Run, ActedBy;
    StartBounded(s, {});
    RunMakesNoAdmin(s, s, group, calls);
  }

  // ------------------------------------------------------------ the last Administrator

  lemma {:induction false} AdminRowStays(s: State, u: UserId, row: User)
    requires ActiveAdmins(s) != {} && (u in s.users ==> CheckLastAdmin(s, u, row.active, row.roles).None?)
    ensures ActiveAdmins(PutRow(s, u, row)) != {}
  {
    var admins, next := ActiveAdmins(s), PutRow(s, u, row);
    if u in admins && !(row.active && ADMIN in row.roles) {
      var rest := admins - {u};
      assert |rest| == |admins| - 1;
      var v :| v in rest;
      assert v in ActiveAdmins(next);
    } else if u in admins {
      assert u in ActiveAdmins(next);
    } else {
      var v :| v in admins;
      assert v in ActiveAdmins(next);
    }
  }

  lemma {:induction false} AssignKeepsAdmins(s: State, session: Session, role: RoleId, permissions: seq<Permission>)
    ensures AssignPermissions(s, session, role, permissions).0.users == s.users
  {
  }

  lemma {:induction false} HandleKeepsAdmin(s: State, session: Session, e: Request)
    requires ActiveAdmins(s) != {}
    ensures ActiveAdmins(Handle(s, session, e).0) != {}
  {
    hide ActorAuthority, CheckTargetUser, CheckLastAdmin, CheckRoles, CheckPermissions, ActiveAdmins, PutRow,
         AssignPermissions, DeleteRoleTx;
    var (next, reply) := Handle(s, session, e);
    match e
    case CreateUser(u, active, roles, _) => if reply.Done? { AdminRowStays(s, u, User(active, Elements(roles))); }
    case PutUser(u, active, roles, _) => if reply.Done? { AdminRowStays(s, u, User(active, Elements(roles))); }
    case UpdateUser(u, active) =>
      if reply.Done? { AdminRowStays(s, u, s.users[u].(active := active.GetOr(s.users[u].active))); }
    case ReplaceUserRoles(u, roles) => if reply.Done? { AdminRowStays(s, u, s.users[u].(roles := Elements(roles))); }
    case CreateRole(role, permissions) =>
      AssignKeepsAdmins(s.(roles := s.roles[role := Role(false, {})]), session, role, permissions);
      SameUsersSameAdmins(s, next);
    case PutRole(role, permissions) => AssignKeepsAdmins(s, session, role, permissions); SameUsersSameAdmins(s, next);
    case ReplaceRolePermissions(role, permissions) =>
      AssignKeepsAdmins(s, session, role, permissions);
      SameUsersSameAdmins(s, next);
    case DeleteRole(role) => DeleteKeepsAdmins(s, session, role);
  }

  lemma {:induction false} SameUsersSameAdmins(s: State, next: State)
    requires next.users == s.users
    ensures ActiveAdmins(next) == ActiveAdmins(s)
  {
  }

  lemma {:induction false} DeleteKeepsAdmins(s: State, session: Session, role: RoleId)
    ensures ActiveAdmins(DeleteRoleTx(s, session, role).0) == ActiveAdmins(s)
  {
  }

  /** Whoever acts, an active Administrator always remains. */
  lemma {:induction false} SomeAdministratorRemains(s: State, calls: seq<Call>)
    requires ActiveAdmins(s) != {}
    ensures ActiveAdmins(Run(s, calls)) != {}
    decreases |calls|
  {
    hide Handle, ActiveAdmins;
    if |calls| > 0 {
      HandleKeepsAdmin(s, calls[0].session, calls[0].request);
      SomeAdministratorRemains(Handle(s, calls[0].session, calls[0].request).0, calls[1..]);
    }
  }
}
