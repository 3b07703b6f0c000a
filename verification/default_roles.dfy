/** The four built-in system roles, keyed by role id. */
module DefaultRoles {
  import opened Wrappers
  import opened Scopes
  import opened Roles

  const Admin: Role := Role(
    "admin", "Administrator", "Full system access with all permissions",
    true, [SystemAdmin], None)

  const StandardUser: Role := Role(
    "user", "Standard User", "Standard user with basic playback and library access",
    true,
    [PlayerControl, PlayerVolume, PlayerQueue, PlayerView,
     LibraryRead, PlaylistRead, PlaylistWrite, ProviderView],
    None)

  const Guest: Role := Role(
    "guest", "Guest", "Limited read-only access",
    true, [PlayerView, LibraryRead, PlaylistRead], None)

  const Dj: Role := Role(
    "dj", "DJ", "Playback control and queue management without library modifications",
    true,
    [PlayerControl, PlayerVolume, PlayerQueue, PlayerView, LibraryRead, PlaylistRead],
    None)

  const Table: map<string, Role> :=
    map["admin" := Admin, "user" := StandardUser, "guest" := Guest, "dj" := Dj]

  /** A wire string that ends in ".write" or ".delete". */
  predicate WriteOrDeleteName(v: string)
  {
    (|v| >= 6 && v[|v| - 6..] == ".write") || (|v| >= 7 && v[|v| - 7..] == ".delete")
  }

  /** A scope whose wire string ends in ".write" or ".delete". */
  predicate IsWriteOrDelete(s: Scope)
  {
    WriteOrDeleteName(Value(s))
  }

  /** Every entry is a system role, stored under its own id, with no
      creation time; the four named roles are the table's entries. */
  lemma TableWellFormed()
    ensures Table.Keys == {"admin", "user", "guest", "dj"}
    ensures Table["admin"] == Admin && Table["user"] == StandardUser
    ensures Table["guest"] == Guest && Table["dj"] == Dj
    ensures forall k :: k in Table ==> Table[k].roleId == k
    ensures forall k :: k in Table ==> Table[k].isSystem && Table[k].createdAt.None?
  {
  }

  /** The admin role lists the wildcard and nothing else, and so is granted
      every scope. */
  lemma AdminIsWildcardOnly()
    ensures Table["admin"].permissions == [SystemAdmin]
    ensures forall s: Scope :: HasPermission(Table["admin"], ByScope(s))
    ensures forall s: Scope :: HasPermission(Table["admin"], ByName(Value(s)))
  {
    Wildcard(Admin);
  }

  /** guest's scopes lie within dj's, and dj's within user's; guest's are a
      strict subset of user's. None of the three holds the wildcard. */
  lemma RolesNested()
    ensures forall s :: s in Guest.permissions ==> s in Dj.permissions
    ensures forall s :: s in Dj.permissions ==> s in StandardUser.permissions
    ensures (set s | s in Guest.permissions) < (set s | s in StandardUser.permissions)
    ensures SystemAdmin !in Guest.permissions + Dj.permissions + StandardUser.permissions
  {
    var g := set s | s in Guest.permissions;
    var u := set s | s in StandardUser.permissions;
    assert StandardUser.permissions[0] == PlayerControl;
    assert PlayerControl in u && PlayerControl !in g;
  }

  /** The nesting carries over to answers: whatever guest may do, dj may do,
      and whatever dj may do, user may do. */
  lemma GrantsNested(req: Request)
    ensures HasPermission(Guest, req) ==> HasPermission(Dj, req)
    ensures HasPermission(Dj, req) ==> HasPermission(StandardUser, req)
  {
    RolesNested();
    Monotone(Guest, Dj, req);
    Monotone(Dj, StandardUser, req);
  }

  /** dj may manage the queue, asked by member or by wire string. */
  lemma DjMayQueue()
    ensures HasPermission(Dj, ByScope(PlayerQueue))
    ensures HasPermission(Dj, ByName("player.queue"))
  {
    var v := Value(PlayerQueue);
    assert v == "player.queue";
    assert HasPermission(Dj, ByScope(PlayerQueue));
    NameAndScopeAgree(Dj, PlayerQueue);
    assert HasPermission(Dj, ByName(v));
  }

  /** dj may not edit playlists, asked by member or by wire string. */
  lemma DjMayNotWritePlaylists()
    ensures !HasPermission(Dj, ByScope(PlaylistWrite))
    ensures !HasPermission(Dj, ByName("playlist.write"))
  {
    var v := Value(PlaylistWrite);
    assert v == "playlist.write";
    assert !HasPermission(Dj, ByScope(PlaylistWrite));
    NameAndScopeAgree(Dj, PlaylistWrite);
    assert !HasPermission(Dj, ByName(v));
  }

  /** Which "player." wire strings end in ".write" or ".delete". */
  lemma PlayerWriteOrDeleteNames()
    ensures !WriteOrDeleteName("player.control")
    ensures !WriteOrDeleteName("player.volume")
    ensures !WriteOrDeleteName("player.queue")
    ensures !WriteOrDeleteName("player.power")
    ensures !WriteOrDeleteName("player.view")
  {
  }

  /** Which "library." wire strings end in ".write" or ".delete". */
  lemma LibraryWriteOrDeleteNames()
    ensures !WriteOrDeleteName("library.read")
    ensures WriteOrDeleteName("library.write")
    ensures WriteOrDeleteName("library.delete")
  {
  }

  /** Which "playlist." wire strings end in ".write" or ".delete". */
  lemma PlaylistWriteOrDeleteNames()
    ensures !WriteOrDeleteName("playlist.read")
    ensures WriteOrDeleteName("playlist.write")
    ensures WriteOrDeleteName("playlist.delete")
  {
  }

  /** Which "provider." wire strings end in ".write" or ".delete". */
  lemma ProviderWriteOrDeleteNames()
    ensures !WriteOrDeleteName("provider.view")
    ensures !WriteOrDeleteName("provider.manage")
  {
  }

  /** Which "system." wire strings end in ".write" or ".delete". */
  lemma SystemWriteOrDeleteNames()
    ensures !WriteOrDeleteName("system.settings")
    ensures !WriteOrDeleteName("system.admin")
  {
  }

  /** Which "user." wire strings end in ".write" or ".delete". */
  lemma UserWriteOrDeleteNames()
    ensures !WriteOrDeleteName("user.read")
    ensures WriteOrDeleteName("user.write")
    ensures WriteOrDeleteName("user.delete")
  {
  }

  /** The write and delete scopes, read off their wire strings. */
  lemma WriteOrDeleteScopes(s: Scope)
    ensures IsWriteOrDelete(s) <==>
      s in {LibraryWrite, LibraryDelete, PlaylistWrite, PlaylistDelete, UserWrite, UserDelete}
  {
    PlayerWriteOrDeleteNames();
    LibraryWriteOrDeleteNames();
    PlaylistWriteOrDeleteNames();
    ProviderWriteOrDeleteNames();
    SystemWriteOrDeleteNames();
    UserWriteOrDeleteNames();
    match s
    case PlayerControl => assert Value(s) == "player.control";
    case PlayerVolume => assert Value(s) == "player.volume";
    case PlayerQueue => assert Value(s) == "player.queue";
    case PlayerPower => assert Value(s) == "player.power";
    case PlayerView => assert Value(s) == "player.view";
    case LibraryRead => assert Value(s) == "library.read";
    case LibraryWrite => assert Value(s) == "library.write";
    case LibraryDelete => assert Value(s) == "library.delete";
    case PlaylistRead => assert Value(s) == "playlist.read";
    case PlaylistWrite => assert Value(s) == "playlist.write";
    case PlaylistDelete => assert Value(s) == "playlist.delete";
    case ProviderView => assert Value(s) == "provider.view";
    case ProviderManage => assert Value(s) == "provider.manage";
    case SystemSettings => assert Value(s) == "system.settings";
    case SystemAdmin => assert Value(s) == "system.admin";
    case UserRead => assert Value(s) == "user.read";
    case UserWrite => assert Value(s) == "user.write";
    case UserDelete => assert Value(s) == "user.delete";
  }

  /** Apart from admin's wildcard, the only write or delete scope any default
      role holds is user's "playlist.write". */
  lemma NoWriteOutsideAdmin()
    ensures forall k, s :: k in Table && k != "admin" && s in Table[k].permissions && IsWriteOrDelete(s)
              ==> k == "user" && s == PlaylistWrite
    ensures IsWriteOrDelete(PlaylistWrite)
  {
    forall s: Scope { WriteOrDeleteScopes(s); }
  }
}
