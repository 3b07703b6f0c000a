/** Roles and the permission check evaluated over them. */
module Roles {
  import opened Wrappers
  import opened Scopes

  /** An opaque point in time; the model never inspects it. */
  datatype Timestamp = Timestamp(iso: string)

  /** A named, identified bundle of scopes. `permissions` is kept as the
      ordered list the record stores; `createdAt` is absent for the built-in
      roles. */
  datatype Role = Role(
    roleId: string,
    name: string,
    description: string,
    isSystem: bool,
    permissions: seq<Scope>,
    createdAt: Option<Timestamp>
  )

  /** What a caller may pass to the check: a scope member or a raw string. */
  datatype Request = ByScope(scope: Scope) | ByName(text: string)

  /** The scope a request denotes, if any: a member stands for itself, a
      string for the scope whose wire string it is. */
  function Resolve(req: Request): (r: Option<Scope>)
    ensures req.ByScope? ==> r == Some(req.scope)
    ensures req.ByName? && r.Some? ==> Value(r.value) == req.text
    ensures req.ByName? && r.None? ==> forall s: Scope :: Value(s) != req.text
  {
    match req
    case ByScope(s) => Some(s)
    case ByName(text) => Parse(text)
  }

  /** The permission check: an unresolvable string is refused before the
      wildcard is consulted; `SystemAdmin` in the list grants every scope;
      otherwise the scope must literally occur in the list. The contract
      states the fail-closed rule; the other lemmas below characterise the
      rest. */
  function HasPermission(role: Role, req: Request): (granted: bool)
    ensures granted ==> Resolve(req).Some?
  {
    match Resolve(req)
    case None => false
    case Some(s) => SystemAdmin in role.permissions || s in role.permissions
  }

  /** What a single list entry grants on its own: the wildcard grants every
      scope, any other entry grants itself. */
  predicate Grants(entry: Scope, s: Scope)
  {
    entry == SystemAdmin || entry == s
  }

  /** Reference semantics: a role grants the union of what its entries grant,
      defined entry by entry and without looking at any request. */
  function GrantSet(role: Role): set<Scope>
  {
    set s | s in AllScopes && exists p :: p in role.permissions && Grants(p, s)
  }

  /** A string that is no scope's wire string is refused by every role,
      including one holding the wildcard. */
  lemma FailClosed(role: Role, text: string)
    requires forall s: Scope :: Value(s) != text
    ensures !HasPermission(role, ByName(text))
  {
    ParseUnknown(text);
  }

  /** The scenario "not.a.real.scope": refused by every role, even one
      holding the wildcard. */
  lemma UnknownRefused(role: Role)
    ensures !HasPermission(role, ByName("not.a.real.scope"))
  {
    // Every wire string is at most 15 characters long; this one has 16.
    forall s: Scope ensures Value(s) != "not.a.real.scope" {
      assert |Value(s)| <= 15;
    }
    FailClosed(role, "not.a.real.scope");
  }

  /** Asking by a scope's wire string and asking by the scope itself give the
      same answer. */
  lemma NameAndScopeAgree(role: Role, s: Scope)
    ensures HasPermission(role, ByName(Value(s))) == HasPermission(role, ByScope(s))
  {
    ParseValue(s);
  }

  /** A role holding `SystemAdmin` is granted every scope, whether asked by
      member or by wire string, listed or not. */
  lemma Wildcard(role: Role)
    requires SystemAdmin in role.permissions
    ensures forall s: Scope :: HasPermission(role, ByScope(s))
    ensures forall s: Scope :: HasPermission(role, ByName(Value(s)))
  {
    forall s: Scope ensures HasPermission(role, ByName(Value(s))) {
      NameAndScopeAgree(role, s);
    }
  }

  /** Without `SystemAdmin` the check is literal list membership: no prefix
      or domain inference. */
  lemma ExactMembership(role: Role, s: Scope)
    requires SystemAdmin !in role.permissions
    ensures HasPermission(role, ByScope(s)) <==> s in role.permissions
    ensures HasPermission(role, ByName(Value(s))) <==> s in role.permissions
  {
    NameAndScopeAgree(role, s);
  }

  /** Holding one scope of a domain implies nothing about its siblings:
      a role holding only "player.control" is refused "player.volume". */
  lemma NoDomainInference(role: Role)
    requires role.permissions == [PlayerControl]
    ensures HasPermission(role, ByScope(PlayerControl))
    ensures !HasPermission(role, ByScope(PlayerVolume))
    ensures !HasPermission(role, ByName(Value(PlayerVolume)))
  {
    NameAndScopeAgree(role, PlayerVolume);
  }

  /** The check agrees with the entry-by-entry reference grant set, for
      every request, in both directions. */
  lemma AgreesWithGrantSet(role: Role, req: Request)
    ensures HasPermission(role, req) <==> Resolve(req).Some? && Resolve(req).value in GrantSet(role)
  {
    AllScopesComplete();
    match Resolve(req)
    case None =>
    case Some(s) =>
      if SystemAdmin in role.permissions {
        assert Grants(SystemAdmin, s);
      } else if s in role.permissions {
        assert Grants(s, s);
      } else {
        forall p | p in role.permissions
          ensures !Grants(p, s)
        {
        }
      }
  }

  /** Only the set of listed scopes matters: roles whose lists hold the same
      scopes (in any order, with any repetition) answer every request alike. */
  lemma OnlyScopeSetMatters(r1: Role, r2: Role, req: Request)
    requires forall s: Scope :: s in r1.permissions <==> s in r2.permissions
    ensures HasPermission(r1, req) == HasPermission(r2, req)
  {
  }

  /** A role with an empty list is refused every request. */
  lemma EmptyDeniesAll(role: Role, req: Request)
    requires role.permissions == []
    ensures !HasPermission(role, req)
  {
  }

  /** Granting more scopes never takes a permission away. */
  lemma Monotone(r1: Role, r2: Role, req: Request)
    requires forall s: Scope :: s in r1.permissions ==> s in r2.permissions
    ensures HasPermission(r1, req) ==> HasPermission(r2, req)
  {
  }

  /** Linear scan of a permission list for one scope, as list membership in
      the source does. */
  method Contains(perms: seq<Scope>, target: Scope) returns (found: bool)
    ensures found <==> target in perms
  {
    found := false;
    var i := 0;
    while i < |perms|
      invariant 0 <= i <= |perms|
      invariant found <==> target in perms[..i]
    {
      if perms[i] == target {
        found := true;
      }
      i := i + 1;
    }
    assert perms[..i] == perms;
  }

  /** The check in the source's order of steps: resolve, then scan for the
      wildcard, then scan for the requested scope. The role is a value, so
      the check cannot change it. */
  method CheckPermission(role: Role, req: Request) returns (granted: bool)
    ensures granted == HasPermission(role, req)
  {
    var scope: Scope;
    match req {
      case ByScope(s) =>
        scope := s;
      case ByName(text) =>
        var parsed := Parse(text);
        if parsed.None? {
          return false;
        }
        scope := parsed.value;
    }
    var isAdmin := Contains(role.permissions, SystemAdmin);
    if isAdmin {
      return true;
    }
    granted := Contains(role.permissions, scope);
  }
}
