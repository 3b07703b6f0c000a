/** The permission scope registry: the closed, string-valued enumeration of
    grantable capabilities, and the lookup from a raw string to a scope. */
module Scopes {
  import opened Wrappers

  /** One constructor per member of the enumeration, in declaration order. */
  datatype Scope =
    | PlayerControl | PlayerVolume | PlayerQueue | PlayerPower | PlayerView
    | LibraryRead | LibraryWrite | LibraryDelete
    | PlaylistRead | PlaylistWrite | PlaylistDelete
    | ProviderView | ProviderManage
    | SystemSettings | SystemAdmin
    | UserRead | UserWrite | UserDelete

  /** The canonical wire string of a scope: a lower-case domain and action
      joined by a dot, between 9 and 15 characters long. */
  function Value(s: Scope): (r: string)
    ensures 9 <= |r| <= 15
  {
    match s
    case PlayerControl => "player.control"
    case PlayerVolume => "player.volume"
    case PlayerQueue => "player.queue"
    case PlayerPower => "player.power"
    case PlayerView => "player.view"
    case LibraryRead => "library.read"
    case LibraryWrite => "library.write"
    case LibraryDelete => "library.delete"
    case PlaylistRead => "playlist.read"
    case PlaylistWrite => "playlist.write"
    case PlaylistDelete => "playlist.delete"
    case ProviderView => "provider.view"
    case ProviderManage => "provider.manage"
    case SystemSettings => "system.settings"
    case SystemAdmin => "system.admin"
    case UserRead => "user.read"
    case UserWrite => "user.write"
    case UserDelete => "user.delete"
  }

  /** The members in declaration order, as the enumeration iterates them. */
  const AllScopes: seq<Scope> := [
    PlayerControl, PlayerVolume, PlayerQueue, PlayerPower, PlayerView,
    LibraryRead, LibraryWrite, LibraryDelete,
    PlaylistRead, PlaylistWrite, PlaylistDelete,
    ProviderView, ProviderManage,
    SystemSettings, SystemAdmin,
    UserRead, UserWrite, UserDelete
  ]

  /** The position of a scope in declaration order. */
  function ScopeIndex(s: Scope): (i: nat)
    ensures i < |AllScopes| && AllScopes[i] == s
  {
    match s
    case PlayerControl => 0
    case PlayerVolume => 1
    case PlayerQueue => 2
    case PlayerPower => 3
    case PlayerView => 4
    case LibraryRead => 5
    case LibraryWrite => 6
    case LibraryDelete => 7
    case PlaylistRead => 8
    case PlaylistWrite => 9
    case PlaylistDelete => 10
    case ProviderView => 11
    case ProviderManage => 12
    case SystemSettings => 13
    case SystemAdmin => 14
    case UserRead => 15
    case UserWrite => 16
    case UserDelete => 17
  }

  /** The registry lists every scope, once each. */
  lemma AllScopesComplete()
    ensures |AllScopes| == 18
    ensures forall s: Scope :: s in AllScopes
    ensures forall i, j :: 0 <= i < j < |AllScopes| ==> AllScopes[i] != AllScopes[j]
  {
    forall s: Scope ensures s in AllScopes {
      assert s == AllScopes[ScopeIndex(s)];
    }
  }

  /** Distinct scopes have distinct wire strings, so a wire string names at
      most one scope. */
  lemma ValueInjective(a: Scope, b: Scope)
    ensures Value(a) == Value(b) ==> a == b
  {
  }

  /** The first member of `candidates` whose wire string is `text`. */
  function FindByValue(candidates: seq<Scope>, text: string): (r: Option<Scope>)
    ensures r.Some? ==> r.value in candidates && Value(r.value) == text
    ensures r.None? <==> forall s :: s in candidates ==> Value(s) != text
  {
    if |candidates| == 0 then None
    else if Value(candidates[0]) == text then Some(candidates[0])
    else FindByValue(candidates[1..], text)
  }

  /** Resolving a raw string to a scope by value: `PermissionScope(text)`,
      with `None` where the enumeration raises `ValueError`. */
  function Parse(text: string): (r: Option<Scope>)
    ensures r.Some? ==> Value(r.value) == text
    ensures r.None? <==> forall s: Scope :: Value(s) != text
  {
    AllScopesComplete();
    FindByValue(AllScopes, text)
  }

  /** A string resolves to `s` exactly when it is `s`'s wire string. */
  lemma ParseIff(text: string, s: Scope)
    ensures Parse(text) == Some(s) <==> Value(s) == text
  {
    AllScopesComplete();
    var r := Parse(text);
    if Value(s) == text {
      assert r.Some?;
      ValueInjective(r.value, s);
    }
  }

  /** Parsing a scope's own wire string gives back that scope. */
  lemma ParseValue(s: Scope)
    ensures Parse(Value(s)) == Some(s)
  {
    ParseIff(Value(s), s);
  }

  /** A string fails to resolve exactly when no scope has it as its wire
      string. */
  lemma ParseUnknown(text: string)
    ensures Parse(text).None? <==> forall s: Scope :: Value(s) != text
  {
    AllScopesComplete();
  }
}
