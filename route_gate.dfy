/** The route-level request gate (middleware.ts): a pure allow/redirect decision
    over the request path, two prefix lists and the `access_token` cookie. */
module RouteGate {
  import opened Types

  /** What the gate needs of a request: its full URL, the path part of it and the
      cookies sent with it. */
  datatype Request = Request(url: string, pathname: string, cookies: map<string, string>)

  /** `NextResponse.next()` or a redirect to `location` whose `callbackUrl` query
      parameter carries the original request URL. */
  datatype Response = Next | Redirect(location: string, callbackUrl: string)

  const LoginPath := "/login"
  const AccessTokenCookie := "access_token"
  const HomePath := "/"

  const ProtectedPaths: seq<string> := ["/dashboard", "/profile", "/settings", "/api/user"]

  /** The entries of the public list other than the home path. */
  const PublicPrefixes: seq<string> :=
    ["/login", "/register", "/forgot-password", "/reset-password", "/api/auth"]

  /** The public list as shipped: the prefixes above, then "/". */
  const PublicPaths: seq<string> := PublicPrefixes + [HomePath]

  /** `s.startsWith(prefix)`: plain string prefix, no path-segment boundary. */
  predicate StartsWith(s: string, prefix: string) {
    prefix <= s
  }

  /** `prefixes.some(p => pathname.startsWith(p))`, scanning left to right. */
  function AnyStartsWith(pathname: string, prefixes: seq<string>): (r: bool)
    ensures r <==> exists i :: 0 <= i < |prefixes| && StartsWith(pathname, prefixes[i])
  {
    if prefixes == [] then false
    else if StartsWith(pathname, prefixes[0]) then true
    else
      var rest := AnyStartsWith(pathname, prefixes[1..]);
      assert forall i :: 1 <= i < |prefixes| ==> prefixes[i] == prefixes[1..][i - 1];
      rest
  }

  /** `request.cookies.get('access_token')?.value`: `None` when the cookie is absent. */
  function AccessToken(request: Request): (r: Option<string>)
    ensures r.Some? <==> AccessTokenCookie in request.cookies
    ensures r.Some? ==> r.value == request.cookies[AccessTokenCookie]
  {
    if AccessTokenCookie in request.cookies then Some(request.cookies[AccessTokenCookie]) else None
  }

  /** `!!accessToken`: the cookie is sent and is not the empty string. */
  predicate HasAccessToken(request: Request)
    ensures HasAccessToken(request) <==>
      AccessTokenCookie in request.cookies && request.cookies[AccessTokenCookie] != ""
  {
    Truthy(AccessToken(request))
  }

  /** The gate, parameterised on its two lists. Public paths are checked first;
      only a protected path without a token is redirected; everything else passes. */
  function Decide(protectedPaths: seq<string>, publicPaths: seq<string>, request: Request): (r: Response)
    ensures r.Redirect? <==>
      && (forall i :: 0 <= i < |publicPaths| ==> !StartsWith(request.pathname, publicPaths[i]))
      && (exists j :: 0 <= j < |protectedPaths| && StartsWith(request.pathname, protectedPaths[j]))
      && !HasAccessToken(request)
    ensures r.Redirect? ==> r.location == LoginPath && r.callbackUrl == request.url
  {
    var isProtectedPath := AnyStartsWith(request.pathname, protectedPaths);
    var isPublicPath := AnyStartsWith(request.pathname, publicPaths);
    if isPublicPath then Next
    else if isProtectedPath && !HasAccessToken(request) then Redirect(LoginPath, request.url)
    else Next
  }

  /** `middleware` with the shipped lists: no request is ever redirected (see
      `ShippedGateNeverRedirects`). */
  function Middleware(request: Request): (r: Response)
    ensures r == Next
  {
    ShippedGateNeverRedirects(request);
    Decide(ProtectedPaths, PublicPaths, request)
  }

  /** A path under any public prefix passes, whatever the cookies say. */
  lemma PublicPathPasses(protectedPaths: seq<string>, publicPaths: seq<string>, request: Request, i: int)
    requires 0 <= i < |publicPaths| && StartsWith(request.pathname, publicPaths[i])
    ensures Decide(protectedPaths, publicPaths, request) == Next
    ensures Decide(protectedPaths, publicPaths, request.(cookies := map[])) == Next
  {
  }

  /** A non-empty `access_token` cookie is never redirected. */
  lemma TokenHolderPasses(protectedPaths: seq<string>, publicPaths: seq<string>, request: Request)
    requires AccessTokenCookie in request.cookies && request.cookies[AccessTokenCookie] != ""
    ensures Decide(protectedPaths, publicPaths, request) == Next
  {
  }

  /** Default-open: a path matching neither list passes, token or not. */
  lemma UnmatchedPathPasses(protectedPaths: seq<string>, publicPaths: seq<string>, request: Request)
    requires forall j :: 0 <= j < |protectedPaths| ==> !StartsWith(request.pathname, protectedPaths[j])
    ensures Decide(protectedPaths, publicPaths, request) == Next
  {
  }

  /** Matching is by raw prefix: "/dashboardX" counts as under "/dashboard", so
      without "/" in the public list it is redirected like "/dashboard" itself. */
  lemma RawPrefixMatching()
    ensures AnyStartsWith("/dashboardX", ProtectedPaths)
    ensures Decide(ProtectedPaths, PublicPrefixes, Request("https://example.org/dashboardX", "/dashboardX", map[]))
      == Redirect(LoginPath, "https://example.org/dashboardX")
  {
    assert StartsWith("/dashboardX", ProtectedPaths[0]);
    assert forall i :: 0 <= i < |PublicPrefixes| ==> !StartsWith("/dashboardX", PublicPrefixes[i]) by {
      forall i | 0 <= i < |PublicPrefixes|
        ensures !StartsWith("/dashboardX", PublicPrefixes[i])
      {
        assert PublicPrefixes[i][1] != "/dashboardX"[1];
      }
    }
  }

  /** More specific public entries win over protected ones, since public
      prefixes are consulted first. */
  lemma PublicOverridesProtected()
    ensures Decide(["/dashboard"], ["/dashboard/public"], Request("/dashboard/public", "/dashboard/public", map[])) == Next
    ensures Decide(["/dashboard"], ["/dashboard/public"], Request("/dashboard/secret", "/dashboard/secret", map[]))
      == Redirect(LoginPath, "/dashboard/secret")
    ensures Decide(["/dashboard"], ["/dashboard/public"],
                   Request("/dashboard/secret", "/dashboard/secret", map[AccessTokenCookie := "t"])) == Next
  {
    assert StartsWith("/dashboard/public", ["/dashboard/public"][0]);
    assert "/dashboard/secret"[11] != "/dashboard/public"[11];
    assert StartsWith("/dashboard/secret", ["/dashboard"][0]);
  }

  /** Every protected entry starts with "/". */
  lemma ProtectedPathsAreRooted(j: int)
    requires 0 <= j < |ProtectedPaths|
    ensures HomePath <= ProtectedPaths[j]
  {
  }

  /** With the shipped lists the gate never redirects: a path starting with "/"
      falls under the public entry "/", and any other path under no protected
      entry (they all start with "/"). */
  lemma ShippedGateNeverRedirects(request: Request)
    ensures Decide(ProtectedPaths, PublicPaths, request) == Next
  {
    var p := request.pathname;
    if StartsWith(p, HomePath) {
      assert StartsWith(p, PublicPaths[5]);
    } else {
      forall j | 0 <= j < |ProtectedPaths|
        ensures !StartsWith(p, ProtectedPaths[j])
      {
        ProtectedPathsAreRooted(j);
      }
    }
  }

  // ---------------------------------------------------------------------------
  // The gate as evidently intended: "/" admits the home page only.

  /** The home path is public by exact match; the other public entries and the
      protected entries keep their prefix matching. */
  function DecideIntended(request: Request): (r: Response)
    ensures r.Redirect? <==>
      && request.pathname != HomePath
      && (forall i :: 0 <= i < |PublicPrefixes| ==> !StartsWith(request.pathname, PublicPrefixes[i]))
      && (exists j :: 0 <= j < |ProtectedPaths| && StartsWith(request.pathname, ProtectedPaths[j]))
      && !HasAccessToken(request)
    ensures r.Redirect? ==> r.location == LoginPath && r.callbackUrl == request.url
  {
    if request.pathname == HomePath then Next
    else Decide(ProtectedPaths, PublicPrefixes, request)
  }

  /** The shipped gate lets an anonymous request for "/dashboard" through; the
      intended one sends it to the login page with the callback. */
  lemma DashboardExposed()
    ensures Middleware(Request("https://example.org/dashboard", "/dashboard", map[])) == Next
    ensures DecideIntended(Request("https://example.org/dashboard", "/dashboard", map[]))
      == Redirect(LoginPath, "https://example.org/dashboard")
    ensures DecideIntended(Request("https://example.org/", HomePath, map[])) == Next
  {
    assert StartsWith("/dashboard", ProtectedPaths[0]);
    forall i | 0 <= i < |PublicPrefixes|
      ensures !StartsWith("/dashboard", PublicPrefixes[i])
    {
      assert PublicPrefixes[i][1] != "/dashboard"[1];
    }
  }
}
