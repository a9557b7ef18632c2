/**
 * The server middleware (middleware.ts): for each request path, whether to let
 * it through or redirect to the login page, decided from the path and the
 * outcome of the session lookup.
 */
module Middleware {

  import opened Types
  import opened Text
  import opened Navigation

  /** What `getSession` gave: it threw, or it returned a session flag and an error message. */
  datatype SessionLookup = LookupThrew | LookupReturned(hasSession: bool, errorMessage: Option<string>)

  /** The response: let the request through, or redirect, deleting the named cookies. */
  datatype Response = PassThrough | RedirectTo(target: Redirect, deletedCookies: seq<string>)

  const RefreshTokenCookie := "sb-refresh-token"
  const AccessTokenCookie := "sb-access-token"

  /** Static files and API routes (lines 8-14). */
  predicate IsExcluded(path: string)
  {
    "/_next" <= path || "/api" <= path || "/static" <= path
    || Includes(path, "favicon.ico") || Includes(path, ".png")
  }

  /** The prefix test of line 46. */
  predicate HasAuthPrefix(path: string)
  {
    "/login" <= path || "/signup" <= path
  }

  predicate IsInvalidRefreshToken(lookup: SessionLookup)
  {
    lookup.LookupReturned? && lookup.errorMessage.Some? && Includes(lookup.errorMessage.value, "Invalid Refresh Token")
  }

  /** `middleware` (lines 5-59). */
  function Decide(path: string, lookup: SessionLookup): (r: Response)
    ensures IsExcluded(path) ==> r == PassThrough
    ensures !IsExcluded(path) && lookup.LookupThrew? ==> r == RedirectTo(ToLogin(None), [])
    ensures !IsExcluded(path) && IsInvalidRefreshToken(lookup) ==>
      r == RedirectTo(ToLogin(None), [RefreshTokenCookie, AccessTokenCookie])
    ensures !IsExcluded(path) && lookup.LookupReturned? && !IsInvalidRefreshToken(lookup) ==>
      r == (if !lookup.hasSession && !HasAuthPrefix(path) then RedirectTo(ToLogin(Some(path)), []) else PassThrough)
  {
    if IsExcluded(path) then PassThrough
    else match lookup
      case LookupThrew => RedirectTo(ToLogin(None), [])
      case LookupReturned(hasSession, errorMessage) =>
        if errorMessage.Some? && Includes(errorMessage.value, "Invalid Refresh Token") then
          RedirectTo(ToLogin(None), [RefreshTokenCookie, AccessTokenCookie])
        else if !hasSession && !HasAuthPrefix(path) then RedirectTo(ToLogin(Some(path)), [])
        else PassThrough
  }

  /** Every redirect goes to the login page; only the invalid-refresh-token case deletes cookies. */
  lemma RedirectsGoToLogin(path: string, lookup: SessionLookup)
    ensures Decide(path, lookup).RedirectTo? ==> Decide(path, lookup).target.ToLogin?
    ensures Decide(path, lookup).RedirectTo? && Decide(path, lookup).deletedCookies != [] <==>
      !IsExcluded(path) && IsInvalidRefreshToken(lookup)
  {
  }

  /** An excluded path is let through whatever the session lookup would give: the lookup is not made. */
  lemma ExcludedIgnoresSession(path: string, a: SessionLookup, b: SessionLookup)
    requires IsExcluded(path)
    ensures Decide(path, a) == Decide(path, b) == PassThrough
  {
  }

  /**
   * A path starting with `/login` or `/signup` (`/login/anything` too) is
   * never redirected for want of a session.
   */
  lemma AuthPrefixNeverNeedsSession(path: string, errorMessage: Option<string>)
    requires HasAuthPrefix(path) && !IsInvalidRefreshToken(LookupReturned(false, errorMessage))
    ensures Decide(path, LookupReturned(false, errorMessage)) == PassThrough
  {
  }

  /** A session error other than an invalid refresh token decides nothing by itself. */
  lemma OtherErrorsIgnored(path: string, hasSession: bool, message: string)
    requires !Includes(message, "Invalid Refresh Token")
    ensures Decide(path, LookupReturned(hasSession, Some(message))) == Decide(path, LookupReturned(hasSession, None))
  {
  }

  /** A request that is redirected for want of a session carries its own path as `from`. */
  lemma NoSessionKeepsFrom(path: string, lookup: SessionLookup)
    requires Decide(path, lookup).RedirectTo? && Decide(path, lookup).target.from.Some?
    ensures Decide(path, lookup).target.from == Some(path)
    ensures lookup.LookupReturned? && !lookup.hasSession && !HasAuthPrefix(path) && !IsExcluded(path)
  {
  }

  /** A page under `/login` passes without a session. */
  lemma LoginSubpagePasses()
    ensures Decide("/login/reset", LookupReturned(false, None)) == PassThrough
  {
    var p := "/login/reset";
    assert "/login" <= p;
    assert forall j :: 0 <= j < |p| ==> p[j] != '.';
    forall i ensures !OccursAt(p, ".png", i) && !OccursAt(p, "favicon.ico", i) {
      if 0 <= i && i + 4 <= |p| {
        assert p[i..i + 4][0] == p[i];
      }
      if 0 <= i && i + 11 <= |p| {
        assert p[i..i + 11][7] == p[i + 7];
      }
    }
    IncludesIffOccurs(p, "favicon.ico");
    IncludesIffOccurs(p, ".png");
  }

  /** A picture passes even when the session lookup throws. */
  lemma PicturePasses()
    ensures Decide("/img/logo.png", LookupThrew) == PassThrough
  {
    assert OccursAt("/img/logo.png", ".png", 9);
    IncludesIffOccurs("/img/logo.png", ".png");
  }

  /** The home page without a session is sent to the login page, with `from` set to `/`. */
  lemma HomeNeedsSession()
    ensures Decide("/", LookupReturned(false, None)) == RedirectTo(ToLogin(Some("/")), [])
  {
    assert !Includes("/", "favicon.ico") && !Includes("/", ".png");
  }
}
