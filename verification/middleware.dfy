/** Tenant resolution at the edge (`handleMultiTenant` in middleware.ts).
    From the request's host and path it decides whether to rewrite the
    request; a rewrite sets `_tenant` and `_subdomain` in the query and, when
    the worker API answers the tenant lookup, a validated `_theme`.

    The lookup is an input: `LookupUrl` says which URL is fetched (if any),
    and the caller passes what that fetch produced. */
module Middleware {
  import opened Options
  import opened Strings
  import opened Platform
  import MultiTenant

  /** First labels that never name a tenant at the edge. */
  const EdgeReserved: seq<string> := ["www", "api", "admin", "blog", "app"]

  /** Themes a tenant record may select. */
  const TenantThemes: seq<string> := ["heo", "gitbook", "typography"]

  /** The theme used when a record's theme is missing or not allowed. */
  const DefaultTheme: string := "heo"

  /** Query parameters the rewrite injects. */
  const TenantParam: string := "_tenant"
  const SubdomainParam: string := "_subdomain"
  const ThemeParam: string := "_theme"

  /** A host mentioning `localhost` or `127.0.0.1` anywhere is local. */
  predicate IsLocalhost(host: string) {
    Contains(host, "localhost") || Contains(host, "127.0.0.1")
  }

  /** The `subdomain` of a host: the first label of a non-local host with at
      least three labels, when that label is non-empty. */
  function Subdomain(host: string): (sub: Option<string>)
    ensures sub.Some? <==>
              !IsLocalhost(host) && |Split(host, '.')| >= 3 && Split(host, '.')[0] != ""
    ensures sub.Some? ==> sub.value == Split(host, '.')[0] && '.' !in sub.value
  {
    var parts := Split(host, '.');
    if !IsLocalhost(host) && |parts| >= 3 && parts[0] != "" then Some(parts[0]) else None
  }

  /** The `tenantId` of a host: its subdomain, unless that is reserved. */
  function EdgeTenant(host: string): (tenant: Option<string>)
    ensures tenant.Some? <==> Subdomain(host).Some? && Subdomain(host).value !in EdgeReserved
    ensures tenant.Some? ==> tenant == Subdomain(host)
  {
    match Subdomain(host)
    case Some(sub) => if sub !in EdgeReserved then Some(sub) else None
    case None => None
  }

  /** A record's theme, coerced into the allowed list: a missing theme and an
      unknown one both become the default theme. */
  function CoerceTheme(theme: string): (t: string)
    ensures t in TenantThemes
    ensures theme in TenantThemes ==> t == theme
    ensures theme !in TenantThemes ==> t == DefaultTheme
  {
    var chosen := if theme != "" then theme else DefaultTheme;
    if chosen in TenantThemes then chosen else DefaultTheme
  }

  /** Paths under `/api/` are never rewritten. */
  predicate IsApiRoute(pathname: string) {
    StartsWith(pathname, "/api/")
  }

  /** The tenant lookup the middleware issues, if any: only for a rewritten
      request whose host names a tenant, and only when the worker API is
      configured. A bare custom domain is never looked up. */
  function LookupUrl(host: string, pathname: string, workerApi: string): (url: Option<string>)
    ensures url.Some? <==> !IsApiRoute(pathname) && workerApi != "" && EdgeTenant(host).Some?
    ensures url.Some? ==> url.value == workerApi + "/api/tenants/by-subdomain/" + EdgeTenant(host).value
  {
    if !IsApiRoute(pathname) && workerApi != "" && EdgeTenant(host).Some?
    then Some(workerApi + "/api/tenants/by-subdomain/" + EdgeTenant(host).value)
    else None
  }

  /** What the middleware does with a request. */
  datatype EdgeOutcome =
    | PassThrough                          // `null`: the request continues as it came
    | Rewrite(query: map<string, string>)  // `NextResponse.rewrite(url)` with this query

  /** The lookup answered with a tenant record, so a theme is injected. */
  predicate ThemeInjected(host: string, pathname: string, workerApi: string, lookup: Response<TenantRecord>) {
    LookupUrl(host, pathname, workerApi).Some? && OkBody(lookup).Some?
  }

  /** `handleMultiTenant` for a request with this host (`""` when there is no
      Host header), path and query, where `lookup` is what fetching
      `LookupUrl` produced. A failed, non-ok or malformed lookup is caught:
      it only leaves `_theme` as it was. */
  function HandleMultiTenant(host: string, pathname: string, query: map<string, string>,
                             workerApi: string, lookup: Response<TenantRecord>): (out: EdgeOutcome)
    ensures IsApiRoute(pathname) || Subdomain(host).None? ==> out == PassThrough
    ensures !IsApiRoute(pathname) && Subdomain(host).Some? ==>
              && out.Rewrite?
              && TenantParam in out.query && SubdomainParam in out.query
              && out.query[SubdomainParam] == Subdomain(host).value
              && out.query[TenantParam] == (if EdgeTenant(host).Some? then EdgeTenant(host).value
                                            else MultiTenant.DefaultTenant)
    ensures out.Rewrite? && ThemeInjected(host, pathname, workerApi, lookup) ==>
              ThemeParam in out.query && out.query[ThemeParam] == CoerceTheme(OkBody(lookup).value.theme)
    ensures out.Rewrite? && !ThemeInjected(host, pathname, workerApi, lookup) ==>
              (ThemeParam in out.query <==> ThemeParam in query) &&
              (ThemeParam in query ==> out.query[ThemeParam] == query[ThemeParam])
    ensures out.Rewrite? ==>
              forall p :: p != TenantParam && p != SubdomainParam && p != ThemeParam ==>
                (p in out.query <==> p in query) && (p in query ==> out.query[p] == query[p])
  {
    if IsApiRoute(pathname) then PassThrough
    else
      match Subdomain(host)
      case None => PassThrough
      case Some(subdomain) =>
        var tenantId := EdgeTenant(host);
        var q1 := query[TenantParam := tenantId.GetOr(MultiTenant.DefaultTenant)][SubdomainParam := subdomain];
        var q2 :=
          if workerApi != "" && tenantId.Some? then
            match OkBody(lookup)
            case Some(tenantConfig) => q1[ThemeParam := CoerceTheme(tenantConfig.theme)]
            case None => q1
          else q1;
        Rewrite(q2)
  }

  /** Whatever the lookup produced, the request is rewritten the same way
      apart from `_theme`: a failing lookup never blocks resolution. */
  lemma LookupNeverBlocksRewrite(host: string, pathname: string, query: map<string, string>,
                                 workerApi: string, a: Response<TenantRecord>, b: Response<TenantRecord>)
    ensures var outA := HandleMultiTenant(host, pathname, query, workerApi, a);
            var outB := HandleMultiTenant(host, pathname, query, workerApi, b);
            && outA.Rewrite? == outB.Rewrite?
            && (outA.Rewrite? ==> outA.query - {ThemeParam} == outB.query - {ThemeParam})
  {
    var outA := HandleMultiTenant(host, pathname, query, workerApi, a);
    var outB := HandleMultiTenant(host, pathname, query, workerApi, b);
    if outA.Rewrite? {
      assert (outA.query - {ThemeParam}).Keys == (outB.query - {ThemeParam}).Keys;
    }
  }

  /** A theme the middleware puts in the query is always an allowed one;
      any other `_theme` in a rewritten query came in with the request. */
  lemma InjectedThemeAllowed(host: string, pathname: string, query: map<string, string>,
                             workerApi: string, lookup: Response<TenantRecord>)
    ensures var out := HandleMultiTenant(host, pathname, query, workerApi, lookup);
            out.Rewrite? && ThemeParam in out.query ==>
              out.query[ThemeParam] in TenantThemes ||
              (ThemeParam in query && out.query[ThemeParam] == query[ThemeParam])
  {
  }

  /** Where both apply (no environment override, browser at the same host,
      first label not reserved at the edge), the tenant the edge injects is
      the tenant the browser derives from its hostname. */
  lemma EdgeAgreesWithBrowser(host: string, search: map<string, string>, env: ProcessEnv)
    requires EdgeTenant(host).Some?
    requires env.tenantId == ""
    ensures MultiTenant.GetTenantId(env, Browser(host, search)) == EdgeTenant(host).value
  {
    var first := EdgeTenant(host).value;
    assert first !in MultiTenant.ClientReserved by {
      assert forall x :: x in MultiTenant.ClientReserved ==> x in EdgeReserved;
    }
  }

  /** `blog.example.com` is not local. */
  lemma BlogExampleNotLocal()
    ensures !IsLocalhost("blog.example.com")
  {
    MissingCharNotContained("blog.example.com", "localhost", 5);
    MissingCharNotContained("blog.example.com", "127.0.0.1", 0);
  }

  /** `blog.example.com` has three labels. */
  lemma BlogExampleLabels()
    ensures Split("blog.example.com", '.') == ["blog", "example", "com"]
  {
    var parts := ["blog", "example", "com"];
    assert parts[1..] == ["example", "com"];
    assert parts[1..][1..] == ["com"];
    assert Join(parts, '.') == "blog.example.com";
    SplitJoin(parts, '.');
  }

  /** At the edge `blog.example.com` has the reserved subdomain `blog`. */
  lemma BlogExampleReserved()
    ensures Subdomain("blog.example.com") == Some("blog")
    ensures EdgeTenant("blog.example.com").None?
  {
    BlogExampleNotLocal();
    BlogExampleLabels();
  }

  /** The two reserved lists differ: for `blog.example.com` the edge
      injects the default tenant while the browser derives `blog`. */
  lemma ReservedListsDiverge(host: string, pathname: string, query: map<string, string>,
                             workerApi: string, lookup: Response<TenantRecord>)
    requires host == "blog.example.com"
    requires !IsApiRoute(pathname)
    ensures var out := HandleMultiTenant(host, pathname, query, workerApi, lookup);
            && out.Rewrite?
            && out.query[TenantParam] == MultiTenant.DefaultTenant
            && out.query[SubdomainParam] == "blog"
            && LookupUrl(host, pathname, workerApi).None?
    ensures MultiTenant.HostTenant(host) == "blog"
  {
    BlogExampleReserved();
    BlogExampleLabels();
  }
}
