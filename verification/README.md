# Role-based permission check of the Music Assistant auth models

This project models the role-based access control core of
`music_assistant_models/auth.py`:

- **Permission scopes** (`Scopes`): the datatype `Scope` stands for the
  `PermissionScope` enumeration (auth.py lines 20-51), the closed set of 18
  scopes with their dotted wire strings (`"player.control"`, …), and the lookup
  `PermissionScope(text)` as `Parse(text): Option<Scope>`, a search by value
  over the members in declaration order that yields `None` where Python
  raises `ValueError`.
- **Roles and the check** (`Roles`): the datatype `Role` stands for the `Role`
  dataclass (lines 113-122: id, name, description, system flag, ordered
  permission list, optional creation time)
  and `has_permission` as the pure function `HasPermission(role, req)`, where
  a request is either a scope member or a raw string. A string that resolves
  to no scope is refused before the `SYSTEM_ADMIN` wildcard is consulted;
  the wildcard grants everything; otherwise the answer is literal list
  membership. `CheckPermission` performs the same steps as the source does,
  with the two list scans written out as loops. `GrantSet` gives a second
  reading of the check, entry by entry: each listed entry grants itself,
  the wildcard entry grants every scope, and a role grants the union.
- **Default roles** (`DefaultRoles`): the constant map `Table` stands for
  `DEFAULT_ROLES` (lines 145-194), the four system roles `admin`, `user`,
  `guest` and `dj`, named individually as `Admin`, `StandardUser`, `Guest`
  and `Dj`, with its structural facts proved.

Timestamps are opaque values (`Timestamp`); the model never reads them. The
check does not change the role: roles are immutable values and
`HasPermission` is a function, so this holds by construction rather than by
a contract.

A user's role is a free-form role id (line 67), resolved to a `Role` by
callers outside this file. The two-value `UserRole` enumeration (lines
13-17) is marked legacy in the source and carries no logic.

## Model

| member | source | states |
|---|---|---|
| Scopes.Value | music_assistant_models/auth.py:20-51 | the wire string of each scope, as its enumeration value; the contract states that every one is between 9 and 15 characters long |
| Scopes.Parse | music_assistant_models/auth.py:131-135 | `PermissionScope(text)`: a result is a scope whose wire string is `text`, and there is no result exactly when no scope has that wire string (the `ValueError` path) |
| Scopes.AllScopesComplete | music_assistant_models/auth.py:20-51 | the registry lists all 18 scopes, each exactly once |
| Scopes.ValueInjective | music_assistant_models/auth.py:20-51 | distinct scopes have distinct wire strings |
| Scopes.FindByValue | music_assistant_models/auth.py:131-135 | the lookup by value is sound (a hit is a candidate whose wire string is the input) and complete (a miss means no candidate has that wire string) |
| Scopes.ParseIff | music_assistant_models/auth.py:131-135 | a string resolves to scope `s` if and only if it is `s`'s wire string |
| Scopes.ParseValue | music_assistant_models/auth.py:131-133 | resolving a scope's own wire string gives back that scope |
| Scopes.ParseUnknown | music_assistant_models/auth.py:131-135 | resolution fails exactly when no scope has the string as its wire string |
| Roles.Resolve | music_assistant_models/auth.py:131-135 | a member request denotes that member; a string request denotes a scope whose wire string it is, or nothing when no scope has it |
| Roles.HasPermission | music_assistant_models/auth.py:124-141 | `has_permission`; its own contract states that a grant implies the request resolved (fail closed); `Wildcard`, `ExactMembership` and `AgreesWithGrantSet` characterise the rest |
| Roles.UnknownRefused | music_assistant_models/auth.py:131-135 | every role, even one holding the wildcard, is refused the string `"not.a.real.scope"` |
| Roles.FailClosed | music_assistant_models/auth.py:131-135 | a string that is no scope's wire string is refused by every role, including one holding the wildcard |
| Roles.NameAndScopeAgree | music_assistant_models/auth.py:131-133 | asking by a scope's wire string and asking by the scope give the same answer |
| Roles.Wildcard | music_assistant_models/auth.py:137-139 | a role holding `SystemAdmin` is granted every scope, by member and by wire string, listed or not |
| Roles.ExactMembership | music_assistant_models/auth.py:141 | without `SystemAdmin` the answer is true if and only if the scope is in the list |
| Roles.NoDomainInference | music_assistant_models/auth.py:141 | a role holding only `player.control` is granted it and refused `player.volume` |
| Roles.AgreesWithGrantSet | music_assistant_models/auth.py:124-141 | the check grants a request if and only if it resolves to a scope that some listed entry grants on its own (the wildcard granting all, any other entry granting itself) |
| Roles.OnlyScopeSetMatters | music_assistant_models/auth.py:138-141 | roles whose lists hold the same scopes, in any order and with any repetition, answer every request alike |
| Roles.EmptyDeniesAll | music_assistant_models/auth.py:121-141 | a role with an empty permission list is refused every request |
| Roles.Monotone | music_assistant_models/auth.py:138-141 | listing more scopes never withdraws a permission |
| Roles.Contains | music_assistant_models/auth.py:138-141 | the list scan reports true if and only if the scope occurs in the list |
| Roles.CheckPermission | music_assistant_models/auth.py:124-141 | the step-by-step check (resolve, scan for the wildcard, scan for the scope) computes `HasPermission` |
| DefaultRoles.TableWellFormed | music_assistant_models/auth.py:145-194 | the table has exactly the keys admin, user, guest and dj, holding `Admin`, `StandardUser`, `Guest` and `Dj`; each entry is a system role stored under its own id with no creation time |
| DefaultRoles.AdminIsWildcardOnly | music_assistant_models/auth.py:146-152 | admin lists exactly `[SystemAdmin]` and is granted every scope |
| DefaultRoles.RolesNested | music_assistant_models/auth.py:153-192 | guest's scopes lie within dj's and dj's within user's; guest's are a strict subset of user's; none of the three holds the wildcard |
| DefaultRoles.GrantsNested | music_assistant_models/auth.py:153-192 | every request guest is granted, dj is granted, and every request dj is granted, user is granted |
| DefaultRoles.DjMayQueue | music_assistant_models/auth.py:180-192 | dj is granted `player.queue`, by member and by wire string |
| DefaultRoles.DjMayNotWritePlaylists | music_assistant_models/auth.py:180-192 | dj is refused `playlist.write`, by member and by wire string |
| DefaultRoles.WriteOrDeleteScopes | music_assistant_models/auth.py:30-51 | the scopes whose wire string ends in `.write` or `.delete` are exactly the six library, playlist and user write/delete scopes |
| DefaultRoles.NoWriteOutsideAdmin | music_assistant_models/auth.py:146-192 | apart from admin, the only write or delete scope any default role lists is user's `playlist.write` |

## Left out

- Scopes.Value: its contract states only the length bound of the wire strings; that they are pairwise distinct is `ValueInjective`, and that they are what parsing inverts is `ParseIff`.
- Serialisation to and from JSON is done by an external mixin library whose behaviour is not visible in this file, so round-trip properties of the records are not stated.
- `created_at` defaults read the wall clock; timestamps are opaque optional values here.
- `User`, `UserAuthProvider`, `AuthToken` and `Permission` are plain records with no behaviour; they are not modelled.
- `UserRole` and `AuthProviderType` are enumerations with no logic; they are not modelled.
- Refusing to delete system roles, token expiry and hashing, looking up a user's role, and interpreting `player_filter` and `provider_filter` are done outside this file and are not modelled.
- The check's input is limited to its annotated type, a scope or a string. A Python caller could pass some other value such as `None`. Such a value skips resolution (line 131), so any role holding the wildcard grants it (lines 138-139): the check fails open there. That case is outside the model.
- The permission list is assumed to hold scope members only, as its type says; Python does not enforce this at run time.
- `Role` is a mutable dataclass holding a mutable list, and `DEFAULT_ROLES` is a module-level mutable dict shared by every caller. The model takes the table and its roles as never mutated after import; a caller that changed them would change later answers and void the facts proved about the table.
- The check does not modify the role. This is not stated as a contract because the model's roles are immutable values.
