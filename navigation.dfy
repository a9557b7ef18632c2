/**
 * Where the application sends the browser. Both the server middleware
 * (middleware.ts) and the client auth provider
 * (components/auth/auth-provider.tsx) redirect to the login page, with or
 * without the path the visitor came from, or to the home page.
 */
module Navigation {

  import opened Types

  /** A redirect target: `/login`, `/login?from=<path>`, or `/`. */
  datatype Redirect = ToLogin(from: Option<string>) | ToHome

  /** The path part of the target. */
  function TargetPath(r: Redirect): (p: string)
    ensures p == "/login" <==> r.ToLogin?
    ensures p == "/" <==> r.ToHome?
  {
    match r
    case ToLogin(_) => "/login"
    case ToHome => "/"
  }

  /** The two pages a visitor without a session may open (auth-provider.tsx:108). */
  predicate IsAuthPage(path: string)
  {
    path == "/login" || path == "/signup"
  }
}
