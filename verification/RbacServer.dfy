/** The administration handlers as they run: loops over requested permissions and
    roles, rows deleted and inserted again, everything rolled back on a refusal. */
module RbacServer {
  import opened Common
  import opened Rbac

  lemma {:induction false} NextElement<T>(items: seq<T>, k: nat)
    requires k < |items|
    ensures Elements(items[..k + 1]) == Elements(items[..k]) + {items[k]}
  {
    assert items[..k + 1] == items[..k] + [items[k]];
  }

  method PermissionSubset(granted: seq<Permission>, requested: seq<Permission>) returns (subset: bool)
    ensures subset <==> Elements(requested) <= Elements(granted)
  {
    var allowed: set<Permission> := {};
    for k := 0 to |granted|
      invariant allowed == Elements(granted[..k])
    {
      NextElement(granted, k);
      allowed := allowed + {granted[k]};
    }
    assert granted[..|granted|] == granted;
    for k := 0 to |requested|
      invariant forall i :: 0 <= i < k ==> requested[i] in allowed
    {
      if requested[k] !in allowed {
        assert requested[k] in Elements(requested);
        return false;
      }
    }
    return true;
  }

  method AttenuateDelegatedAuthority(permissions: seq<Permission>, admin: bool, session: Session)
    returns (effective: seq<Permission>, effectiveAdmin: bool)
    ensures Authority(Elements(effective), effectiveAdmin) == Attenuate(Elements(permissions), admin, session)
    ensures session.viaApiKey ==> !effectiveAdmin && forall p :: p in effective ==> session.Has(p)
  {
    if !session.viaApiKey {
      return permissions, admin;
    }
    effective := [];
    for k := 0 to |permissions|
      invariant Elements(effective) == set p | p in permissions[..k] && session.Has(p)
    {
      NextElement(permissions, k);
      var p := permissions[k];
      assert forall q :: q in permissions[..k + 1] <==> q in permissions[..k] || q == p;
      if session.Has(p) {
        assert Elements(effective + [p]) == Elements(effective) + {p};
        effective := effective + [p];
      }
    }
    assert permissions[..|permissions|] == permissions;
    forall p | p in effective ensures session.Has(p) { assert p in Elements(effective); }
    return effective, false;
  }

  class AdminServer {
    const catalogue: set<Permission>
    var users: map<UserId, User>
    var roles: map<RoleId, Role>

    constructor (catalogue: set<Permission>, users: map<UserId, User>, roles: map<RoleId, Role>)
      ensures Tables() == State(users, roles, catalogue)
    {
      this.catalogue, this.users, this.roles := catalogue, users, roles;
    }

    function Tables(): State
      reads this
    {
      State(users, roles, catalogue)
    }

    method ValidateDelegatedRoles(session: Session, ids: seq<RoleId>) returns (refusal: Option<Code>)
      ensures refusal == CheckRoles(Tables(), session, ids)
    {
      var actor := ActorAuthority(Tables(), session);
      if actor.None? {
        return Some(DelegationForbidden);
      }
      var seen: set<RoleId> := {};
      var k := 0;
      while k < |ids|
        invariant 0 <= k <= |ids| && seen == Elements(ids[..k])
        invariant CheckRolesFrom(Tables(), actor.value, ids, k) == CheckRolesFrom(Tables(), actor.value, ids, 0)
      {
        var id := ids[k];
        if id in seen {
          return Some(DuplicateRole);
        }
        NextElement(ids, k);
        seen := seen + {id};
        if id == ADMIN && !actor.value.admin {
          return Some(ProtectedAdminOnly);
        }
        if id !in roles {
          return Some(UnknownRole);
        }
        if !(roles[id].permissions <= actor.value.permissions) {
          return Some(DelegationForbidden);
        }
        k := k + 1;
      }
      return None;
    }

    /** Deletes the role's permission rows and inserts the requested ones. */
    method AssignRolePermissions(session: Session, role: RoleId, permissions: seq<Permission>) returns (reply: Reply)
      modifies this`roles
      ensures (Tables(), reply) == AssignPermissions(old(Tables()), session, role, permissions)
    {
      hide ActorAuthority;
      var target := CheckRoleTarget(Tables(), session, role);
      if target.Some? {
        return Refused(target.value);
      }
      var refusal := CheckPermissions(Tables(), session, permissions);
      if refusal.Some? {
        return Refused(refusal.value);
      }
      roles := roles[role := roles[role].(permissions := {})];
      assert Elements(permissions[..0]) == {};
      for k := 0 to |permissions|
        invariant role in roles
        invariant roles == old(roles)[role := old(roles)[role].(permissions := Elements(permissions[..k]))]
      {
        NextElement(permissions, k);
        roles := roles[role := roles[role].(permissions := roles[role].permissions + {permissions[k]})];
      }
      assert permissions[..|permissions|] == permissions;
      return Done;
    }

    method CreateRoleCompat(session: Session, role: RoleId, permissions: seq<Permission>) returns (reply: Reply)
      modifies this`roles
      ensures (Tables(), reply) == Handle(old(Tables()), session, CreateRole(role, permissions))
    {
      hide AssignPermissions;
      if role in roles {
        return Refused(Conflict);
      }
      var before := roles;
      roles := roles[role := Role(false, {})];
      reply := AssignRolePermissions(session, role, permissions);
      if !reply.Done? {
        roles := before;
      }
    }

    method PutRole(session: Session, role: RoleId, permissions: seq<Permission>) returns (reply: Reply)
      modifies this`roles
      ensures (Tables(), reply) == Handle(old(Tables()), session, Request.PutRole(role, permissions))
    {
      hide AssignPermissions;
      if role == ADMIN {
        return Refused(ProtectedRole);
      }
      if role !in roles {
        return Refused(NotFound);
      }
      reply := AssignRolePermissions(session, role, permissions);
    }

    /** An actor that is gone or inactive is answered like a missing role. */
    method ReplaceRolePermissions(session: Session, role: RoleId, permissions: seq<Permission>) returns (reply: Reply)
      modifies this`roles
      ensures (Tables(), reply) == Handle(old(Tables()), session, Request.ReplaceRolePermissions(role, permissions))
    {
      hide AssignPermissions;
      if role == ADMIN {
        return Refused(ProtectedRole);
      }
      if ActorAuthority(Tables(), session).None? {
        return Refused(NotFound);
      }
      reply := AssignRolePermissions(session, role, permissions);
    }

    method DeleteRole(session: Session, role: RoleId) returns (reply: Reply)
      modifies this
      ensures (Tables(), reply) == Handle(old(Tables()), session, Request.DeleteRole(role))
    {
      hide ActorAuthority;
      var target := CheckRoleTarget(Tables(), session, role);
      if ActorAuthority(Tables(), session).None? {
        return Refused(NotFound);
      }
      if target.Some? {
        return Refused(target.value);
      }
      if roles[role].system {
        return Refused(SystemRole);
      }
      roles := roles - {role};
      users := map u | u in users :: users[u].(roles := users[u].roles - {role});
      return Done;
    }

    /** The user_roles rows of a user, deleted and inserted one by one. */
    method InsertUserRoles(user: UserId, active: bool, ids: seq<RoleId>)
      modifies this`users
      ensures Tables() == PutRow(old(Tables()), user, User(active, Elements(ids)))
    {
      users := users[user := User(active, {})];
      assert Elements(ids[..0]) == {};
      for k := 0 to |ids|
        invariant users == old(users)[user := User(active, Elements(ids[..k]))]
      {
        NextElement(ids, k);
        users := users[user := users[user].(roles := users[user].roles + {ids[k]})];
      }
      assert ids[..|ids|] == ids;
    }

    method CreateUser(
        session: Session, user: UserId, active: bool, ids: seq<RoleId>, wellFormed: bool) returns (reply: Reply)
      modifies this`users
      ensures (Tables(), reply) == Handle(old(Tables()), session, Request.CreateUser(user, active, ids, wellFormed))
    {
      hide CheckRoles;
      if !wellFormed {
        return Refused(InvalidUser);
      }
      var refusal := ValidateDelegatedRoles(session, ids);
      if refusal.Some? {
        return Refused(refusal.value);
      }
      if user in users {
        return Refused(Conflict);
      }
      InsertUserRoles(user, active, ids);
      return Done;
    }

    method PutUser(
        session: Session, user: UserId, active: bool, ids: seq<RoleId>, passwordOk: bool) returns (reply: Reply)
      modifies this`users
      ensures (Tables(), reply) == Handle(old(Tables()), session, Request.PutUser(user, active, ids, passwordOk))
    {
      hide CheckRoles, CheckTargetUser, CheckLastAdmin;
      if user == session.actor && !active {
        return Refused(SelfDeactivation);
      }
      var refusal := ValidateDelegatedRoles(session, ids);
      if refusal.Some? {
        return Refused(refusal.value);
      }
      if user !in users {
        return Refused(NotFound);
      }
      var currentlyAdmin := ADMIN in users[user].roles;
      refusal := CheckTargetUser(Tables(), session, user);
      if refusal.Some? {
        return Refused(refusal.value);
      }
      if user == session.actor && currentlyAdmin && ADMIN !in ids {
        return Refused(SelfLockout);
      }
      refusal := CheckLastAdmin(Tables(), user, active, Elements(ids));
      if refusal.Some? {
        return Refused(refusal.value);
      }
      if !passwordOk {
        return Refused(InvalidPassword);
      }
      InsertUserRoles(user, active, ids);
      return Done;
    }

    method UpdateUser(session: Session, user: UserId, newActive: Option<bool>) returns (reply: Reply)
      modifies this`users
      ensures (Tables(), reply) == Handle(old(Tables()), session, Request.UpdateUser(user, newActive))
    {
      hide CheckTargetUser, CheckLastAdmin;
      if user == session.actor && newActive == Some(false) {
        return Refused(SelfDeactivation);
      }
      if user !in users {
        return Refused(NotFound);
      }
      var refusal := CheckTargetUser(Tables(), session, user);
      if refusal.Some? {
        return Refused(refusal.value);
      }
      var nextActive := users[user].active;
      if newActive.Some? {
        nextActive := newActive.value;
      }
      refusal := CheckLastAdmin(Tables(), user, nextActive, users[user].roles);
      if refusal.Some? {
        return Refused(refusal.value);
      }
      users := users[user := users[user].(active := nextActive)];
      return Done;
    }

    method ReplaceUserRoles(session: Session, user: UserId, ids: seq<RoleId>) returns (reply: Reply)
      modifies this`users
      ensures (Tables(), reply) == Handle(old(Tables()), session, Request.ReplaceUserRoles(user, ids))
    {
      hide CheckRoles, CheckTargetUser, CheckLastAdmin;
      if user !in users {
        return Refused(NotFound);
      }
      var active, currentlyAdmin := users[user].active, ADMIN in users[user].roles;
      var refusal := CheckTargetUser(Tables(), session, user);
      if refusal.Some? {
        return Refused(refusal.value);
      }
      refusal := ValidateDelegatedRoles(session, ids);
      if refusal.Some? {
        return Refused(refusal.value);
      }
      if user == session.actor && currentlyAdmin && ADMIN !in ids {
        return Refused(SelfLockout);
      }
      refusal := CheckLastAdmin(Tables(), user, active, Elements(ids));
      if refusal.Some? {
        return Refused(refusal.value);
      }
      InsertUserRoles(user, active, ids);
      return Done;
    }
  }
}
