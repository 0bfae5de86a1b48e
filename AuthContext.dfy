/**
 * The session guard behind `useAuth()`: the token, user name and role held in
 * React state and mirrored in three `localStorage` keys, the start-up
 * rehydration from storage, the automatic logout at token expiry, and the
 * three-valued `isAuthenticated()`.
 *
 * `jwtDecode` is the session's `decode` function: `Some(exp)` is the token's
 * `exp` claim in seconds, `None` means decoding threw. Clock readings are
 * integer milliseconds passed in by the caller; navigation is a log of the
 * paths passed to `navigate`; the expiry `setTimeout` is a pending delay.
 */
module AuthContext {
  import opened Options
  import opened Text

  const TokenKey: string := "authToken"
  const UsernameKey: string := "authUsername"
  const RoleKey: string := "authRole"
  /** The public entry point every forced logout navigates to. */
  const Home: string := "/"

  /** The optional `user` argument of `setToken`. */
  datatype User = User(username: string, role: string)

  /** `localStorage.getItem(key)`: `null` when the key is missing. */
  function Get(m: map<string, string>, key: string): (r: Option<string>)
    ensures r.None? <==> key !in m
    ensures r.Some? ==> key in m && r.value == m[key]
  {
    if key in m then Some(m[key]) else None
  }

  /** The storage write of `setUsername`/`setRole`: `setItem` for a truthy value, `removeItem` otherwise. */
  function Store(m: map<string, string>, key: string, v: Option<string>): (r: map<string, string>)
    ensures key in r <==> Truthy(v)
    ensures Truthy(v) ==> r[key] == v.value
    ensures forall k :: k != key ==> (k in r <==> k in m)
    ensures forall k :: k != key && k in r ==> r[k] == m[k]
  {
    if Truthy(v) then m[key := v.value] else m - {key}
  }

  /**
   * `isAuthenticated()` over a session's loading flag and token at time `nowMs`:
   * `None` (JavaScript `null`) while loading; otherwise whether the token is
   * present, decodes, and expires strictly after now (`exp > Date.now() / 1000`).
   */
  function Authenticated(isLoading: bool, token: Option<string>, decode: string -> Option<int>, nowMs: int): (r: Option<bool>)
    ensures r == None <==> isLoading
    ensures r == Some(true) <==>
      !isLoading && Truthy(token) && decode(token.value).Some? && decode(token.value).value * 1000 > nowMs
    ensures r == Some(false) <==>
      !isLoading && (!Truthy(token) || decode(token.value).None? || decode(token.value).value * 1000 <= nowMs)
  {
    if isLoading then None
    else if !Truthy(token) then Some(false)
    else match decode(token.value)
      case None => Some(false)
      case Some(exp) => Some(exp * 1000 > nowMs)
  }

  /** A token that has stopped being valid never becomes valid again as time goes on. */
  lemma ExpiryIsFinal(token: Option<string>, decode: string -> Option<int>, t0: int, t1: int)
    requires t0 <= t1
    requires Authenticated(false, token, decode, t0) == Some(false)
    ensures Authenticated(false, token, decode, t1) == Some(false)
  {
  }

  class AuthSession {
    var token: Option<string>
    var username: Option<string>
    var role: Option<string>
    var isLoading: bool
    /** The browser's `localStorage`, which may hold keys of its own besides the three above. */
    var storage: map<string, string>
    /** The delay in ms of the scheduled automatic logout, if one is armed. */
    var expiryTimer: Option<int>
    /** The paths passed to `navigate`, oldest first. */
    var navigations: seq<string>
    const decode: string -> Option<int>

    /** The provider's first render: nothing in state, still loading, storage as the browser kept it. */
    constructor (saved: map<string, string>, decode: string -> Option<int>)
      ensures token == None && username == None && role == None && isLoading
      ensures storage == saved && expiryTimer == None && navigations == []
      ensures this.decode == decode
    {
      token, username, role, isLoading := None, None, None, true;
      storage, expiryTimer, navigations := saved, None, [];
      this.decode := decode;
    }

    function IsAuthenticated(nowMs: int): (r: Option<bool>)
      reads this
      ensures r == None <==> isLoading
      ensures r == Some(true) <==>
        !isLoading && Truthy(token) && decode(token.value).Some? && decode(token.value).value * 1000 > nowMs
      ensures r == Some(false) <==>
        !isLoading && (!Truthy(token) || decode(token.value).None? || decode(token.value).value * 1000 <= nowMs)
    {
      Authenticated(isLoading, token, decode, nowMs)
    }

    /** No token, user name or role, in state or in storage. */
    ghost predicate SignedOut()
      reads this
    {
      token == None && username == None && role == None &&
      TokenKey !in storage && UsernameKey !in storage && RoleKey !in storage
    }

    method SetUsername(newUsername: Option<string>)
      modifies this
      ensures username == newUsername
      ensures storage == Store(old(storage), UsernameKey, newUsername)
      ensures token == old(token) && role == old(role) && isLoading == old(isLoading)
      ensures expiryTimer == old(expiryTimer) && navigations == old(navigations)
    {
      username := newUsername;
      storage := Store(storage, UsernameKey, newUsername);
    }

    method SetRole(newRole: Option<string>)
      modifies this
      ensures role == newRole
      ensures storage == Store(old(storage), RoleKey, newRole)
      ensures token == old(token) && username == old(username) && isLoading == old(isLoading)
      ensures expiryTimer == old(expiryTimer) && navigations == old(navigations)
    {
      role := newRole;
      storage := Store(storage, RoleKey, newRole);
    }

    /**
     * `setToken(newToken, user?)`: a truthy token is stored and, when `user` is
     * given, user name and role follow it; a falsy one clears all three.
     */
    method SetToken(newToken: Option<string>, user: Option<User>)
      modifies this
      ensures token == newToken
      ensures Truthy(newToken) && user.Some? ==>
        && username == Some(user.value.username) && role == Some(user.value.role)
        && storage == Store(Store(old(storage)[TokenKey := newToken.value],
                                  UsernameKey, Some(user.value.username)),
                            RoleKey, Some(user.value.role))
      ensures Truthy(newToken) && user.None? ==>
        username == old(username) && role == old(role) && storage == old(storage)[TokenKey := newToken.value]
      ensures !Truthy(newToken) ==>
        username == None && role == None && storage == old(storage) - {TokenKey, UsernameKey, RoleKey}
      ensures newToken == None ==> SignedOut()
      ensures isLoading == old(isLoading) && expiryTimer == old(expiryTimer) && navigations == old(navigations)
    {
      token := newToken;
      if Truthy(newToken) {
        storage := storage[TokenKey := newToken.value];
        if user.Some? {
          SetUsername(Some(user.value.username));
          SetRole(Some(user.value.role));
        }
      } else {
        ghost var before := storage;
        storage := storage - {TokenKey};
        SetUsername(None);
        SetRole(None);
        assert storage == before - {TokenKey, UsernameKey, RoleKey};
      }
    }

    /** `useLogout()`: clear the session, whatever it held, and go to the entry point. */
    method Logout()
      modifies this
      ensures SignedOut()
      ensures storage == old(storage) - {TokenKey, UsernameKey, RoleKey}
      ensures forall nowMs :: IsAuthenticated(nowMs) == if isLoading then None else Some(false)
      ensures isLoading == old(isLoading) && expiryTimer == old(expiryTimer)
      ensures navigations == old(navigations) + [Home]
    {
      SetToken(None, None);
      navigations := navigations + [Home];
    }

    /**
     * The mount effect. With no truthy saved token it only ends loading. With
     * one it restores state from storage and decodes the token: an undecodable
     * or expired token clears the session and LEAVES `isLoading` true; a valid
     * one ends loading and arms the automatic logout for the remaining lifetime,
     * kept as an unbounded number of milliseconds.
     */
    method Rehydrate(nowMs: int)
      modifies this
      ensures !Truthy(Get(old(storage), TokenKey)) ==>
        && !isLoading
        && token == old(token) && username == old(username) && role == old(role)
        && storage == old(storage) && expiryTimer == old(expiryTimer) && navigations == old(navigations)
      ensures Truthy(Get(old(storage), TokenKey)) && decode(old(storage)[TokenKey]).None? ==>
        && SignedOut() && isLoading == old(isLoading)
        && storage == old(storage) - {TokenKey, UsernameKey, RoleKey}
        && expiryTimer == old(expiryTimer) && navigations == old(navigations)
      ensures Truthy(Get(old(storage), TokenKey)) && decode(old(storage)[TokenKey]).Some? &&
              decode(old(storage)[TokenKey]).value * 1000 <= nowMs ==>
        && SignedOut() && isLoading == old(isLoading)
        && storage == old(storage) - {TokenKey, UsernameKey, RoleKey}
        && expiryTimer == old(expiryTimer) && navigations == old(navigations) + [Home]
      ensures Truthy(Get(old(storage), TokenKey)) && decode(old(storage)[TokenKey]).Some? &&
              decode(old(storage)[TokenKey]).value * 1000 > nowMs ==>
        && token == Get(old(storage), TokenKey)
        && username == Get(old(storage), UsernameKey) && role == Get(old(storage), RoleKey)
        && storage == old(storage) && !isLoading && navigations == old(navigations)
        && expiryTimer == Some(decode(old(storage)[TokenKey]).value * 1000 - nowMs)
      // the armed logout fires exactly when the token stops being valid
      ensures expiryTimer != old(expiryTimer) ==>
        && expiryTimer.Some? && expiryTimer.value > 0
        && (forall t :: nowMs <= t ==> (IsAuthenticated(t) == Some(true) <==> t < nowMs + expiryTimer.value))
      // whenever loading is not over, no truthy token is left in storage
      ensures isLoading ==> !Truthy(Get(storage, TokenKey))
    {
      var savedToken := Get(storage, TokenKey);
      var savedUsername := Get(storage, UsernameKey);
      var savedRole := Get(storage, RoleKey);
      if Truthy(savedToken) {
        token, username, role := savedToken, savedUsername, savedRole;
        match decode(savedToken.value)
        case None =>
          SetToken(None, None);
        case Some(exp) =>
          if exp * 1000 <= nowMs {
            SetToken(None, None);
            navigations := navigations + [Home];
          } else {
            expiryTimer := Some(exp * 1000 - nowMs);
            isLoading := false;
          }
      } else {
        isLoading := false;
      }
    }

    /** The armed automatic logout fires: `setToken(null)` and go to the entry point. */
    method FireExpiryTimer()
      modifies this
      ensures old(expiryTimer) == None ==>
        && token == old(token) && username == old(username) && role == old(role)
        && storage == old(storage) && navigations == old(navigations)
      ensures old(expiryTimer) != None ==>
        SignedOut() && storage == old(storage) - {TokenKey, UsernameKey, RoleKey} &&
        navigations == old(navigations) + [Home]
      ensures expiryTimer == None && isLoading == old(isLoading)
    {
      if expiryTimer.Some? {
        expiryTimer := None;
        SetToken(None, None);
        navigations := navigations + [Home];
      }
    }

    /** The provider is torn down: the effect's cleanup cancels the armed logout. */
    method Unmount()
      modifies this
      ensures expiryTimer == None
      ensures token == old(token) && username == old(username) && role == old(role)
      ensures storage == old(storage) && isLoading == old(isLoading) && navigations == old(navigations)
    {
      expiryTimer := None;
    }
  }

  /**
   * A production start-up: the provider mounts and the effect runs once. After
   * this single run of the effect, an expired or undecodable saved token leaves
   * `isAuthenticated()` at `null` at every time; only a later run of the effect
   * (a new `navigate` or `setToken` identity, or a remount) can end loading.
   */
  method Mount(saved: map<string, string>, decode: string -> Option<int>, nowMs: int) returns (s: AuthSession)
    ensures fresh(s)
    ensures TokenKey in saved && saved[TokenKey] != "" &&
            (decode(saved[TokenKey]).None? || decode(saved[TokenKey]).value * 1000 <= nowMs) ==>
      s.SignedOut() && forall t :: s.IsAuthenticated(t) == None
    ensures !(TokenKey in saved && saved[TokenKey] != "") ==> s.IsAuthenticated(nowMs) == Some(false)
    ensures TokenKey in saved && saved[TokenKey] != "" &&
            decode(saved[TokenKey]).Some? && decode(saved[TokenKey]).value * 1000 > nowMs ==>
      s.IsAuthenticated(nowMs) == Some(true)
  {
    s := new AuthSession(saved, decode);
    s.Rehydrate(nowMs);
  }

  /**
   * A development start-up under React's StrictMode: the effect runs, is
   * cleaned up, and runs again. The second run finds no truthy token left
   * behind by a clearing first run, so loading always ends.
   */
  method StrictMount(saved: map<string, string>, decode: string -> Option<int>, nowMs: int) returns (s: AuthSession)
    ensures fresh(s)
    ensures !s.isLoading
    ensures s.IsAuthenticated(nowMs) == Some(
      TokenKey in saved && saved[TokenKey] != "" &&
      decode(saved[TokenKey]).Some? && decode(saved[TokenKey]).value * 1000 > nowMs)
  {
    s := new AuthSession(saved, decode);
    s.Rehydrate(nowMs);
    s.Unmount();
    s.Rehydrate(nowMs);
  }
}
