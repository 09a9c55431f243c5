/** The Notion client set-up of lib/notion/getNotionAPI.js: the base URL the
    client is built with and the
    `beforeRequest` hook that stamps tenant headers on every outgoing request
    and redirects one endpoint. */
module NotionApi {
  import opened Options
  import opened Strings
  import opened Platform
  import opened MultiTenant

  /** `getAPIBaseUrl`: the custom base URL only when custom mode and the URL
      are both truthy, otherwise the configured API base URL, otherwise the
      public Notion API. */
  function GetAPIBaseUrl(cfg: BlogConfig): (url: string)
    ensures url != ""
    ensures Truthy(cfg.useCustomApi) && cfg.customApiBaseUrl != "" ==> url == cfg.customApiBaseUrl
    ensures !(Truthy(cfg.useCustomApi) && cfg.customApiBaseUrl != "") && cfg.apiBaseUrl != "" ==> url == cfg.apiBaseUrl
    ensures !(Truthy(cfg.useCustomApi) && cfg.customApiBaseUrl != "") && cfg.apiBaseUrl == "" ==> url == NotionApiUrl
    ensures url in {cfg.customApiBaseUrl, cfg.apiBaseUrl, NotionApiUrl}
  {
    if Truthy(cfg.useCustomApi) && cfg.customApiBaseUrl != "" then cfg.customApiBaseUrl
    else if cfg.apiBaseUrl != "" then cfg.apiBaseUrl
    else NotionApiUrl
  }

  /** In multi-tenant mode with a custom base URL, the Notion client and the
      worker helpers talk to the same server. */
  lemma BaseUrlsAgreeInWorkerMode(cfg: BlogConfig, env: ProcessEnv)
    requires UseWorkerAPI(cfg) && cfg.customApiBaseUrl != ""
    ensures GetAPIBaseUrl(cfg) == GetWorkerAPIUrl(cfg, env) == cfg.customApiBaseUrl
  {
  }

  /** A truthy non-boolean `USE_CUSTOM_API` (the string "true") sends the
      Notion client to the custom base URL while the headers stay those of
      single-tenant mode. */
  lemma StringFlagSplitsModes(cfg: BlogConfig, env: ProcessEnv, rt: Runtime)
    requires cfg.useCustomApi == Str("true") && cfg.customApiBaseUrl != ""
    ensures GetAPIBaseUrl(cfg) == cfg.customApiBaseUrl
    ensures TenantHeader !in GetAPIHeaders(cfg, env, rt)
  {
  }

  /** The endpoint the hook redirects, and where it redirects it to. */
  const SyncRecordValues: string := "/api/v3/syncRecordValues"
  const SyncRecordValuesMain: string := "/api/v3/syncRecordValuesMain"

  /** The URL part of the hook: the first occurrence of the sync endpoint
      path is replaced by its `Main` variant; any other URL is unchanged. */
  function RewriteUrl(url: string): (r: string)
    ensures !Contains(url, SyncRecordValues) ==> r == url
    ensures Contains(url, SyncRecordValues) ==>
              var i := IndexOf(url, SyncRecordValues).value;
              r == url[..i] + SyncRecordValuesMain + url[i + |SyncRecordValues|..]
  {
    ReplaceFirst(url, SyncRecordValues, SyncRecordValuesMain)
  }

  /** The rewritten URL still contains the endpoint path (the replacement
      begins with it) and is four characters longer, so the rewrite is not
      idempotent: a second pass appends another "Main". */
  lemma RewriteUrlNotIdempotent(url: string)
    requires Contains(url, SyncRecordValues)
    ensures |RewriteUrl(url)| == |url| + 4
    ensures Contains(RewriteUrl(url), SyncRecordValues)
    ensures RewriteUrl(RewriteUrl(url)) != RewriteUrl(url)
  {
    var i := IndexOf(url, SyncRecordValues).value;
    var r := RewriteUrl(url);
    assert r[i..i + |SyncRecordValuesMain|] == SyncRecordValuesMain;
    assert r[i..i + |SyncRecordValues|] == SyncRecordValues;
    OccursAtContains(r, SyncRecordValues, i);
  }

  /** An outgoing request as the hook sees it. */
  datatype Request = Request(url: string, headers: map<string, string>)

  /** The `_tenant` query parameter of the browser location, when truthy. */
  function BrowserTenantParam(rt: Runtime): (t: Option<string>)
    ensures t.Some? <==> rt.Browser? && "_tenant" in rt.search && rt.search["_tenant"] != ""
    ensures t.Some? ==> t.value == rt.search["_tenant"]
  {
    if rt.Browser? && "_tenant" in rt.search && rt.search["_tenant"] != ""
    then Some(rt.search["_tenant"]) else None
  }

  /** The `beforeRequest` hook. In multi-tenant mode it sets X-Tenant-ID to
      `getTenantId()` and X-API-Key when a key is configured; in a browser a
      truthy `_tenant` query parameter then overwrites X-Tenant-ID whatever
      the mode; the URL goes through `RewriteUrl`; no other header changes. */
  function BeforeRequest(cfg: BlogConfig, env: ProcessEnv, rt: Runtime, req: Request): (out: Request)
    ensures out.url == RewriteUrl(req.url)
    ensures BrowserTenantParam(rt).Some? ==>
              TenantHeader in out.headers && out.headers[TenantHeader] == BrowserTenantParam(rt).value
    ensures BrowserTenantParam(rt).None? && UseWorkerAPI(cfg) ==>
              TenantHeader in out.headers && out.headers[TenantHeader] == GetTenantId(env, rt)
    ensures BrowserTenantParam(rt).None? && !UseWorkerAPI(cfg) ==>
              (TenantHeader in out.headers <==> TenantHeader in req.headers) &&
              (TenantHeader in req.headers ==> out.headers[TenantHeader] == req.headers[TenantHeader])
    ensures UseWorkerAPI(cfg) && env.apiKey != "" ==>
              ApiKeyHeader in out.headers && out.headers[ApiKeyHeader] == env.apiKey
    ensures !(UseWorkerAPI(cfg) && env.apiKey != "") ==>
              (ApiKeyHeader in out.headers <==> ApiKeyHeader in req.headers) &&
              (ApiKeyHeader in req.headers ==> out.headers[ApiKeyHeader] == req.headers[ApiKeyHeader])
    ensures forall h :: h != TenantHeader && h != ApiKeyHeader ==>
              (h in out.headers <==> h in req.headers) &&
              (h in req.headers ==> out.headers[h] == req.headers[h])
  {
    var h0 := req.headers;
    var h1 := if UseWorkerAPI(cfg) then h0[TenantHeader := GetTenantId(env, rt)] else h0;
    var h2 := if UseWorkerAPI(cfg) && env.apiKey != "" then h1[ApiKeyHeader := env.apiKey] else h1;
    var h3 := match BrowserTenantParam(rt)
              case Some(t) => h2[TenantHeader := t]
              case None => h2;
    Request(RewriteUrl(req.url), h3)
  }

  /** Without a `_tenant` override, the tenant and key headers the hook adds
      are exactly the ones `getAPIHeaders` builds for the worker API: it sets
      those, and leaves the request's own tenant and key headers alone where
      `getAPIHeaders` has none. */
  lemma HookAgreesWithApiHeaders(cfg: BlogConfig, env: ProcessEnv, rt: Runtime, req: Request)
    requires BrowserTenantParam(rt).None?
    ensures var out := BeforeRequest(cfg, env, rt, req);
            var api := GetAPIHeaders(cfg, env, rt);
            && (forall h :: h in api && h != ContentType ==> h in out.headers && out.headers[h] == api[h])
            && (TenantHeader !in api ==>
                  (TenantHeader in out.headers <==> TenantHeader in req.headers) &&
                  (TenantHeader in req.headers ==> out.headers[TenantHeader] == req.headers[TenantHeader]))
            && (ApiKeyHeader !in api ==>
                  (ApiKeyHeader in out.headers <==> ApiKeyHeader in req.headers) &&
                  (ApiKeyHeader in req.headers ==> out.headers[ApiKeyHeader] == req.headers[ApiKeyHeader]))
  {
  }
}
