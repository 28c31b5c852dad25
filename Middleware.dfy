/** `src/middleware.ts`: the redirect decision taken before every page
    request. Reading and decrypting the session cookie is reduced to whether a
    valid session payload was obtained. */
module Middleware {
  import opened JsText

  datatype Decision = Next | Redirect(pathname: string)

  predicate IsLoginRoute(pathname: string) {
    StartsWith(pathname, "/login")
  }

  predicate IsProtectedRoute(pathname: string) {
    !StartsWith(pathname, "/login") && !StartsWith(pathname, "/setup")
  }

  function Decide(pathname: string, hasPayload: bool): Decision {
    if IsProtectedRoute(pathname) && !hasPayload then Redirect("/login")
    else if IsLoginRoute(pathname) && hasPayload then Redirect("/")
    else Next
  }

  /** Visitors without a session are sent to the login page from every
      protected page, and signed-in users away from it; setup pages pass
      untouched; a request is sent to at most one place. */
  lemma DecideCases(pathname: string, hasPayload: bool)
    ensures IsProtectedRoute(pathname) && !hasPayload ==> Decide(pathname, hasPayload) == Redirect("/login")
    ensures StartsWith(pathname, "/login") && hasPayload ==> Decide(pathname, hasPayload) == Redirect("/")
    ensures StartsWith(pathname, "/setup") ==> Decide(pathname, hasPayload) == Next
    ensures Decide(pathname, hasPayload) == Redirect("/login") ==> !hasPayload && IsProtectedRoute(pathname)
    ensures Decide(pathname, hasPayload) == Redirect("/") ==> hasPayload && StartsWith(pathname, "/login")
    ensures hasPayload && !StartsWith(pathname, "/login") ==> Decide(pathname, hasPayload) == Next
  {
    if StartsWith(pathname, "/setup") {
      assert pathname[..6] == "/setup";
      assert !StartsWith(pathname, "/login") by {
        if |pathname| >= 6 { assert pathname[..6][1] == 's'; }
      }
    }
  }

  /** A route is protected iff it starts with neither prefix; as a prefix test,
      "/loginx" counts as the login route too, and "/setup" is neither
      protected nor a login route. */
  lemma ProtectedExactly(pathname: string)
    ensures IsProtectedRoute(pathname) <==> !StartsWith(pathname, "/login") && !StartsWith(pathname, "/setup")
    ensures !IsProtectedRoute("/loginx") && IsLoginRoute("/loginx")
    ensures IsProtectedRoute("/") && IsProtectedRoute("/sales")
    ensures !IsProtectedRoute("/setup") && !IsLoginRoute("/setup")
  {
    assert "/setup"[..6] == "/setup";
    assert "/setup"[2] != "/login"[2];
    assert "/loginx"[..6] == "/login";
    assert "/sales"[..6] == "/sales";
    assert "/sales"[1] != "/login"[1] && "/sales"[2] != "/setup"[2];
  }
}
