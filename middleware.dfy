/** The admin gate (src/middleware.ts) and how the login page reads its redirect back
    (src/app/login/page.tsx). */
module Middleware {
  import opened Wrappers
  import opened JsString

  /** What the middleware answers: let the request through, or redirect to /login with the
      `redirect` search parameter set. */
  datatype Response = Next | Redirect(location: string, redirect: string)

  /** `middleware`. `authToken` is the value of the auth-token cookie when the request carries
      one; its value is never looked at. */
  function Gate(pathname: string, authToken: Option<string>): (r: Response)
    ensures r.Redirect? <==> StartsWith(pathname, "/admin") && authToken == None
    ensures r.Redirect? ==> r.location == "/login" && r.redirect == pathname
  {
    if StartsWith(pathname, "/admin") && authToken.None? then Redirect("/login", pathname)
    else Next
  }

  /** The route matcher `/admin/:path*`: "/admin" itself or any path below "/admin/". */
  predicate MatcherApplies(pathname: string) {
    pathname == "/admin" || StartsWith(pathname, "/admin/")
  }

  /** A request as the framework handles it: the middleware runs only where the matcher applies. */
  function Handle(pathname: string, authToken: Option<string>): (r: Response)
    ensures r.Redirect? <==> MatcherApplies(pathname) && authToken == None
    ensures r.Redirect? ==> r.redirect == pathname
  {
    if MatcherApplies(pathname) then Gate(pathname, authToken) else Next
  }

  /** Every path the matcher lets in starts with "/admin", so the middleware's own test adds
      nothing to the matcher's. */
  lemma MatchedPathsAreAdmin(pathname: string)
    requires MatcherApplies(pathname)
    ensures StartsWith(pathname, "/admin")
  {
    if pathname != "/admin" {
      assert "/admin/"[..6] == "/admin";
      assert pathname[..6] == "/admin";
    }
  }

  /** Any cookie, whatever its value, opens the admin pages. */
  lemma AnyTokenPasses(pathname: string, token: string)
    ensures Handle(pathname, Some(token)) == Next
  {
  }

  /** `searchParams.get('redirect') || '/admin'`: where the login page sends the user. */
  function LoginTarget(redirect: Option<string>): (r: string)
    ensures redirect.Some? && redirect.value != "" ==> r == redirect.value
    ensures redirect == None || redirect == Some("") ==> r == "/admin"
  {
    if redirect.Some? && redirect.value != "" then redirect.value else "/admin"
  }

  /** A redirected request comes back, after logging in, to the page it asked for. */
  lemma RedirectRoundTrip(pathname: string)
    requires MatcherApplies(pathname)
    ensures Handle(pathname, None).Redirect?
    ensures LoginTarget(Some(Handle(pathname, None).redirect)) == pathname
  {
  }
}
