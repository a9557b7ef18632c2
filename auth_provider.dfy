/**
 * The client auth provider (components/auth/auth-provider.tsx): the user and
 * loading state, the tokens it keeps in local storage, its handler for the
 * authentication service's events, and the effect that redirects by auth
 * state.
 */
module AuthProvider {

  import opened Types
  import opened Navigation
  import Middleware

  const AccessTokenKey := "sb-access-token"
  const RefreshTokenKey := "sb-refresh-token"
  const LegacyTokenKey := "supabase.auth.token"

  /** A session as the service hands it to the handler; an empty token is absent. */
  datatype Session = Session(user: AuthUser, accessToken: string, refreshToken: string)

  /**
   * The events the handler tells apart (lines 70, 77, 88); `OtherEvent` keeps
   * the name of any other event.
   */
  datatype AuthEvent = SignedIn | SignedOut | UserDeleted | TokenRefreshed | OtherEvent(name: OtherEventName)

  /** An event name other than the four the handler tests for. */
  type OtherEventName = s: string | s !in {"SIGNED_IN", "SIGNED_OUT", "USER_DELETED", "TOKEN_REFRESHED"} witness ""

  /** What the initial `getSession` gave: it threw, it returned an error, or it returned a session or none. */
  datatype InitResult = InitThrew | InitError | InitSession(session: Option<Session>)

  /** Lines 60-68 (and 91-96): store the access token when there is one, and the refresh token with it when present. */
  function StoreTokens(storage: map<string, string>, session: Option<Session>): (r: map<string, string>)
    ensures session.Some? && session.value.accessToken != "" ==>
      AccessTokenKey in r && r[AccessTokenKey] == session.value.accessToken
    ensures session.Some? && session.value.accessToken != "" && session.value.refreshToken != "" ==>
      RefreshTokenKey in r && r[RefreshTokenKey] == session.value.refreshToken
    ensures forall k :: k in storage && k != AccessTokenKey && k != RefreshTokenKey ==> k in r && r[k] == storage[k]
    ensures session.None? || session.value.accessToken == "" ==> r == storage
    ensures r.Keys == storage.Keys + (if session.Some? && session.value.accessToken != "" then {AccessTokenKey} else {})
      + (if session.Some? && session.value.accessToken != "" && session.value.refreshToken != "" then {RefreshTokenKey} else {})
  {
    if session.Some? && session.value.accessToken != "" then
      var s := storage[AccessTokenKey := session.value.accessToken];
      if session.value.refreshToken != "" then s[RefreshTokenKey := session.value.refreshToken] else s
    else storage
  }

  /** Storing the same session's tokens twice changes nothing: the refresh event's second write is a no-op. */
  lemma StoreTokensIdempotent(storage: map<string, string>, session: Option<Session>)
    ensures StoreTokens(StoreTokens(storage, session), session) == StoreTokens(storage, session)
  {
  }

  /** The effect of one event on the user, the storage and the router (lines 53-98). */
  datatype EventEffect = EventEffect(user: Option<AuthUser>, storage: map<string, string>, redirect: Option<Redirect>)

  function OnAuthEvent(event: AuthEvent, session: Option<Session>, pathname: string,
                       user: Option<AuthUser>, storage: map<string, string>): (e: EventEffect)
    ensures event == SignedIn && session.Some? ==>
      e.user == Some(session.value.user) && (e.redirect == Some(ToHome) <==> IsAuthPage(pathname))
    ensures event == SignedOut || event == UserDeleted ==>
      e.user == None && e.redirect == Some(ToLogin(None))
      && AccessTokenKey !in e.storage && RefreshTokenKey !in e.storage && LegacyTokenKey !in e.storage
    ensures event == TokenRefreshed && session.Some? ==> e.user == Some(session.value.user) && e.redirect == None
    ensures event in {SignedIn, TokenRefreshed} && session.Some? ==> e.storage == StoreTokens(storage, session)
    ensures event in {SignedOut, UserDeleted} ==>
      e.storage == StoreTokens(storage, session) - {AccessTokenKey, RefreshTokenKey, LegacyTokenKey}
    ensures e.redirect.Some? ==> event in {SignedIn, SignedOut, UserDeleted}
    ensures !(event in {SignedIn, TokenRefreshed} && session.Some?) && !(event in {SignedOut, UserDeleted}) ==>
      e == EventEffect(user, StoreTokens(storage, session), None)
  {
    var stored := StoreTokens(storage, session);
    if event == SignedIn && session.Some? then
      EventEffect(Some(session.value.user), stored, if IsAuthPage(pathname) then Some(ToHome) else None)
    else if event == SignedOut || event == UserDeleted then
      EventEffect(None, stored - {AccessTokenKey, RefreshTokenKey, LegacyTokenKey}, Some(ToLogin(None)))
    else if event == TokenRefreshed && session.Some? then
      StoreTokensIdempotent(storage, session);
      EventEffect(Some(session.value.user), StoreTokens(stored, session), None)
    else EventEffect(user, stored, None)
  }

  /**
   * Any event other than a sign-out that carries an access token leaves it in
   * storage; a sign-out removes it even when the event carried one.
   */
  lemma TokenStoredUnlessSignedOut(event: AuthEvent, s: Session, pathname: string,
                                   user: Option<AuthUser>, storage: map<string, string>)
    requires s.accessToken != ""
    ensures var e := OnAuthEvent(event, Some(s), pathname, user, storage);
      if event in {SignedOut, UserDeleted} then AccessTokenKey !in e.storage
      else AccessTokenKey in e.storage && e.storage[AccessTokenKey] == s.accessToken
  {
    if event == TokenRefreshed {
      StoreTokensIdempotent(storage, Some(s));
    }
  }

  /** The navigation effect (lines 106-124): the redirect it pushes, if any. */
  function NavigationTarget(signedIn: bool, loading: bool, pathname: string): (r: Option<Redirect>)
    ensures loading ==> r == None
    ensures !loading && !signedIn && !IsAuthPage(pathname) ==> r == Some(ToLogin(Some(pathname)))
    ensures !loading && signedIn && IsAuthPage(pathname) ==> r == Some(ToHome)
    ensures r.Some? <==> !loading && (signedIn <==> IsAuthPage(pathname))
  {
    if loading then None
    else if !signedIn && !IsAuthPage(pathname) then Some(ToLogin(Some(pathname)))
    else if signedIn && IsAuthPage(pathname) then Some(ToHome)
    else None
  }

  /** Following the effect's redirect lands on a page where the effect does nothing more: it cannot loop. */
  lemma NavigationSettles(signedIn: bool, pathname: string)
    requires NavigationTarget(signedIn, false, pathname).Some?
    ensures NavigationTarget(signedIn, false, TargetPath(NavigationTarget(signedIn, false, pathname).value)) == None
  {
  }

  /**
   * The server middleware's prefix test and the provider's exact test differ:
   * `/login/reset` without a session passes the middleware, and the provider
   * then sends the visitor to the login page.
   */
  lemma PrefixAndExactTestsDisagree()
    ensures Middleware.Decide("/login/reset", Middleware.LookupReturned(false, None)) == Middleware.PassThrough
    ensures NavigationTarget(false, false, "/login/reset") == Some(ToLogin(Some("/login/reset")))
  {
    Middleware.LoginSubpagePasses();
  }

  /**
   * A sign-in on the login page is sent home twice: by the event handler and
   * again by the navigation effect once the user is set.
   */
  lemma SignInOnLoginPageRedirectsTwice(s: Session, user: Option<AuthUser>, storage: map<string, string>)
    ensures OnAuthEvent(SignedIn, Some(s), "/login", user, storage).redirect == Some(ToHome)
    ensures NavigationTarget(OnAuthEvent(SignedIn, Some(s), "/login", user, storage).user.Some?, false, "/login") == Some(ToHome)
  {
  }

  /** The provider's state. */
  class Provider {
    var user: Option<AuthUser>
    var loading: bool
    var storage: map<string, string>
    /** The targets pushed onto the router, oldest first. */
    var pushed: seq<Redirect>

    constructor(storage: map<string, string>)
      ensures user == None && loading && this.storage == storage && pushed == []
    {
      user := None;
      loading := true;
      this.storage := storage;
      pushed := [];
    }

    /** `initializeAuth` once `getSession` has returned or thrown (lines 19-46). */
    method Initialize(result: InitResult)
      modifies this
      ensures !loading
      ensures user == (if result.InitSession? && result.session.Some? then Some(result.session.value.user) else None)
      ensures storage == old(storage) && pushed == old(pushed)
    {
      match result {
        case InitThrew =>
          user := None;
        case InitError =>
          user := None;
        case InitSession(session) =>
          if session.Some? {
            user := Some(session.value.user);
          } else {
            user := None;
          }
      }
      loading := false;
    }

    /** The `onAuthStateChange` callback (lines 53-98), on the current path. */
    method HandleAuthEvent(event: AuthEvent, session: Option<Session>, pathname: string)
      modifies this
      ensures var e := OnAuthEvent(event, session, pathname, old(user), old(storage));
        && user == e.user && storage == e.storage
        && pushed == old(pushed) + (if e.redirect.Some? then [e.redirect.value] else [])
      ensures loading == old(loading)
    {
      storage := StoreTokens(storage, session);
      if event == SignedIn && session.Some? {
        user := Some(session.value.user);
        if pathname == "/login" || pathname == "/signup" {
          pushed := pushed + [ToHome];
        }
      } else if event == SignedOut || event == UserDeleted {
        user := None;
        storage := storage - {AccessTokenKey, RefreshTokenKey, LegacyTokenKey};
        pushed := pushed + [ToLogin(None)];
      } else if event == TokenRefreshed && session.Some? {
        user := Some(session.value.user);
        storage := StoreTokens(storage, session);
      }
    }

    /** The navigation effect (lines 106-124), run on the current path. */
    method Navigate(pathname: string)
      modifies this
      ensures var target := NavigationTarget(user.Some?, loading, pathname);
        pushed == old(pushed) + (if target.Some? then [target.value] else [])
      ensures user == old(user) && loading == old(loading) && storage == old(storage)
    {
      if !loading {
        var isAuthPage := pathname == "/login" || pathname == "/signup";
        if user.None? && !isAuthPage {
          pushed := pushed + [ToLogin(Some(pathname))];
        } else if user.Some? && isAuthPage {
          pushed := pushed + [ToHome];
        }
      }
    }
  }
}
