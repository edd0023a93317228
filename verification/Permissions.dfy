/** The permission catalog, permission sets, roles as the service sees them, and a caller's authority. */
module Permissions {
  import opened Prelude

  datatype Permission =
    | UsersRead | UsersUpdate
    | InvitationsRead | InvitationsCreate | InvitationsDelete
    | RolesRead | RolesCreate | RolesUpdate | RolesDelete
    | AuditRead
    | ApiKeysRead | ApiKeysCreate | ApiKeysDelete
    | Uncatalogued(name: string)

  const CATALOG: set<Permission> := {
    UsersRead, UsersUpdate, InvitationsRead, InvitationsCreate, InvitationsDelete,
    RolesRead, RolesCreate, RolesUpdate, RolesDelete, AuditRead,
    ApiKeysRead, ApiKeysCreate, ApiKeysDelete
  }

  const ADMIN_KEY := "admin"
  const MEMBER_KEY := "member"

  /** A role row together with the permissions it grants. */
  datatype RoleView = RoleView(id: Id, key: string, name: string, isSystem: bool, permissions: set<Permission>)

  /** What the authorization middleware puts on a request. */
  datatype Access = Access(roles: set<RoleView>, permissions: set<Permission>, viaSuperuser: bool, viaApiKey: bool)
  {
    predicate Can(p: Permission) {
      p in permissions
    }
  }

  predicate AllCatalogued(perms: seq<Permission>) {
    forall p :: p in perms ==> p in CATALOG
  }

  function PermissionSet(perms: seq<Permission>): set<Permission> {
    set p | p in perms
  }

  /** The combined permissions of a set of roles. */
  ghost function UnionPermissions(roles: set<RoleView>): set<Permission> {
    set r, p | r in roles && p in r.permissions :: p
  }

  /** Whether one of the roles is the system role with the given key. */
  ghost predicate HasRole(roles: set<RoleView>, key: string) {
    exists r :: r in roles && r.isSystem && r.key == key
  }

  function RoleKeys(roles: set<RoleView>): set<string> {
    set r | r in roles :: r.key
  }

  /** The authority of an authenticated superuser: the whole catalog and no roles. */
  function SuperuserAccess(): Access {
    Access({}, CATALOG, true, false)
  }

  /** The authority of an API key: its frozen scope and no roles. */
  function KeyAccess(scope: set<Permission>): Access {
    Access({}, scope, false, true)
  }

  /** Loop form of the escalation guard: scans the permissions being granted. */
  method Superset(held: set<Permission>, granting: set<Permission>) returns (ok: bool)
    ensures ok <==> granting <= held
  {
    var rest := granting;
    while rest != {}
      invariant rest <= granting
      invariant forall p :: p in granting - rest ==> p in held
      decreases rest
    {
      var p :| p in rest;
      if p !in held {
        return false;
      }
      rest := rest - {p};
    }
    return true;
  }

  /** Loop form of `UnionPermissions`. */
  method CollectPermissions(roles: set<RoleView>) returns (out: set<Permission>)
    ensures out == UnionPermissions(roles)
  {
    out := {};
    var rest := roles;
    while rest != {}
      invariant rest <= roles
      invariant out == UnionPermissions(roles - rest)
      decreases rest
    {
      var r :| r in rest;
      assert roles - (rest - {r}) == (roles - rest) + {r};
      out := out + r.permissions;
      rest := rest - {r};
    }
    assert roles - rest == roles;
  }

  /** Loop form of `HasRole`. */
  method FindRole(roles: set<RoleView>, key: string) returns (found: bool)
    ensures found <==> HasRole(roles, key)
  {
    var rest := roles;
    while rest != {}
      invariant rest <= roles
      invariant !HasRole(roles - rest, key)
      decreases rest
    {
      var r :| r in rest;
      if r.isSystem && r.key == key {
        return true;
      }
      assert roles - (rest - {r}) == (roles - rest) + {r};
      rest := rest - {r};
    }
    assert roles - rest == roles;
    return false;
  }

  /** Loop form of the input check: every requested permission must be catalogued. */
  method ValidatePermissions(perms: seq<Permission>) returns (granting: Option<set<Permission>>)
    ensures granting.Some? <==> perms != [] && AllCatalogued(perms)
    ensures granting.Some? ==> granting.value == PermissionSet(perms)
  {
    if perms == [] {
      return None;
    }
    var s := {};
    for i := 0 to |perms|
      invariant s == PermissionSet(perms[..i])
      invariant AllCatalogued(perms[..i])
    {
      assert perms[..i + 1] == perms[..i] + [perms[i]];
      if perms[i] !in CATALOG {
        return None;
      }
      s := s + {perms[i]};
    }
    assert perms[..|perms|] == perms;
    return Some(s);
  }
}
