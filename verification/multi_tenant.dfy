/** The multi-tenant adapter of lib/api/multi-tenant.js: how the running code
    decides which tenant it serves, which worker API it talks to, which
    headers it sends, which Notion page it renders, and how it proxies a
    request to the worker. */
module MultiTenant {
  import opened Options
  import opened Strings
  import opened Platform

  /** First labels that the browser never takes as a tenant name. */
  const ClientReserved: seq<string> := ["www", "api", "admin"]

  /** The tenant served when nothing else identifies one. */
  const DefaultTenant: string := "default"

  /** The public Notion API, the last fallback for every base URL. */
  const NotionApiUrl: string := "https://www.notion.so/api/v3"

  /** The hostname-derived tenant in the browser: the first label of a host
      with at least three labels unless it is reserved, else the whole host. */
  function HostTenant(hostname: string): (id: string)
    ensures var parts := Split(hostname, '.');
            if |parts| >= 3 && parts[0] !in ClientReserved
            then id == parts[0] && '.' !in id && StartsWith(hostname, id + ".")
            else id == hostname
  {
    var parts := Split(hostname, '.');
    SplitFirstField(hostname, '.');
    if |parts| >= 3 && parts[0] !in ClientReserved then
      JoinSplit(hostname, '.');
      assert Join(parts, '.') == parts[0] + ['.'] + Join(parts[1..], '.');
      assert hostname[..|parts[0]| + 1] == parts[0] + ".";
      parts[0]
    else hostname
  }

  /** `getTenantId`: the environment override wins, then the browser's
      hostname, and on the server the default tenant. */
  function GetTenantId(env: ProcessEnv, rt: Runtime): (id: string)
    ensures env.tenantId != "" ==> id == env.tenantId
    ensures env.tenantId == "" && rt.Server? ==> id == DefaultTenant
    ensures env.tenantId == "" && rt.Browser? ==> id == HostTenant(rt.hostname)
  {
    if env.tenantId != "" then env.tenantId
    else
      match rt
      case Server => DefaultTenant
      case Browser(hostname, _) => HostTenant(hostname)
  }

  /** `getWorkerAPIUrl`: the configured custom base URL, then the worker
      variable, then the public Notion API; never empty. */
  function GetWorkerAPIUrl(cfg: BlogConfig, env: ProcessEnv): (url: string)
    ensures url != ""
    ensures cfg.customApiBaseUrl != "" ==> url == cfg.customApiBaseUrl
    ensures cfg.customApiBaseUrl == "" && env.workerApi != "" ==> url == env.workerApi
    ensures url in {cfg.customApiBaseUrl, env.workerApi, NotionApiUrl}
  {
    if cfg.customApiBaseUrl != "" then cfg.customApiBaseUrl
    else if env.workerApi != "" then env.workerApi
    else NotionApiUrl
  }

  /** `useWorkerAPI`: only the boolean `true` switches multi-tenant mode on;
      a truthy string such as "true" does not. */
  predicate UseWorkerAPI(cfg: BlogConfig) {
    cfg.useCustomApi == Bool(true)
  }

  /** Multi-tenant mode implies a truthy flag, and the only truthy flags
      that leave it off are non-empty strings. */
  lemma WorkerModeIsStrict(cfg: BlogConfig)
    ensures UseWorkerAPI(cfg) ==> Truthy(cfg.useCustomApi)
    ensures Truthy(cfg.useCustomApi) && !UseWorkerAPI(cfg) <==> cfg.useCustomApi.Str? && cfg.useCustomApi.s != ""
  {
  }

  /** The header names the core sets. */
  const ContentType: string := "Content-Type"
  const TenantHeader: string := "X-Tenant-ID"
  const ApiKeyHeader: string := "X-API-Key"

  /** `getAPIHeaders`: the JSON content type always; the tenant and the API
      key only in multi-tenant mode, the key only when configured. */
  function GetAPIHeaders(cfg: BlogConfig, env: ProcessEnv, rt: Runtime): (h: map<string, string>)
    ensures ContentType in h && h[ContentType] == "application/json"
    ensures TenantHeader in h <==> UseWorkerAPI(cfg)
    ensures TenantHeader in h ==> h[TenantHeader] == GetTenantId(env, rt)
    ensures ApiKeyHeader in h <==> UseWorkerAPI(cfg) && env.apiKey != ""
    ensures ApiKeyHeader in h ==> h[ApiKeyHeader] == env.apiKey
    ensures h.Keys <= {ContentType, TenantHeader, ApiKeyHeader}
  {
    var base := map[ContentType := "application/json"];
    if !UseWorkerAPI(cfg) then base
    else
      var withTenant := base[TenantHeader := GetTenantId(env, rt)];
      if env.apiKey != "" then withTenant[ApiKeyHeader := env.apiKey] else withTenant
  }

  /** The URL `getNotionPageId` fetches the current tenant's record from:
      the worker API's tenant route for `getTenantId()`. */
  function TenantInfoUrl(cfg: BlogConfig, env: ProcessEnv, rt: Runtime): (url: string)
    ensures StartsWith(url, GetWorkerAPIUrl(cfg, env))
    ensures url[|GetWorkerAPIUrl(cfg, env)|..] == "/api/tenants/" + GetTenantId(env, rt)
  {
    GetWorkerAPIUrl(cfg, env) + "/api/tenants/" + GetTenantId(env, rt)
  }

  /** `getNotionPageId`, where `fetch` gives what fetching a URL produces.
      Outside multi-tenant mode nothing is fetched. Otherwise the tenant
      record is fetched from `TenantInfoUrl`, and the call never throws: on
      a non-ok status, on a rejected fetch or body, and on a record without
      a page id it falls back to the configured page id. */
  function GetNotionPageId(cfg: BlogConfig, env: ProcessEnv, rt: Runtime,
                           fetch: string -> Response<TenantRecord>): (id: string)
    ensures !UseWorkerAPI(cfg) ==> id == cfg.notionPageId
    ensures UseWorkerAPI(cfg) && OkBody(fetch(TenantInfoUrl(cfg, env, rt))).None? ==> id == cfg.notionPageId
    ensures UseWorkerAPI(cfg) && OkBody(fetch(TenantInfoUrl(cfg, env, rt))).Some? ==>
              var tenant := OkBody(fetch(TenantInfoUrl(cfg, env, rt))).value;
              id == (if tenant.notionPageId != "" then tenant.notionPageId else cfg.notionPageId)
  {
    if !UseWorkerAPI(cfg) then cfg.notionPageId
    else
      match fetch(TenantInfoUrl(cfg, env, rt))
      case Failed(_) => cfg.notionPageId
      case Fetched(ok, _, body) =>
        if !ok then cfg.notionPageId
        else
          match body
          case Malformed(_) => cfg.notionPageId
          case Json(tenant) => if tenant.notionPageId != "" then tenant.notionPageId else cfg.notionPageId
  }

  /** `getNotionPageId` only ever answers the configured page id or the one
      the worker sent back. */
  lemma NotionPageIdSource(cfg: BlogConfig, env: ProcessEnv, rt: Runtime, fetch: string -> Response<TenantRecord>)
    ensures var id := GetNotionPageId(cfg, env, rt, fetch);
            var response := fetch(TenantInfoUrl(cfg, env, rt));
            id == cfg.notionPageId ||
            (&& response.Fetched? && response.ok && response.body.Json?
             && id == response.body.value.notionPageId && id != "")
  {
  }

  /** The message `proxyNotionAPI` throws for a non-ok status. */
  function RequestFailedMessage(statusText: string): string {
    "API request failed: " + statusText
  }

  /** The URL `proxyNotionAPI` posts to: the worker API followed by the
      endpoint path. */
  function ProxyUrl(cfg: BlogConfig, env: ProcessEnv, endpoint: string): (url: string)
    ensures StartsWith(url, GetWorkerAPIUrl(cfg, env))
    ensures url[|GetWorkerAPIUrl(cfg, env)|..] == endpoint
  {
    GetWorkerAPIUrl(cfg, env) + endpoint
  }

  /** `proxyNotionAPI(endpoint, body)`, where `fetch` gives what posting to
      a URL produces: the parsed body of the response from `ProxyUrl` on
      success; otherwise it throws, rethrowing whatever was caught, so no
      failure is turned into a value. */
  function ProxyNotionAPI<T>(cfg: BlogConfig, env: ProcessEnv, endpoint: string,
                             fetch: string -> Response<T>): (r: Result<T, string>)
    ensures var response := fetch(ProxyUrl(cfg, env, endpoint));
            && (r.Success? <==> OkBody(response).Some?)
            && (r.Success? ==> r.value == OkBody(response).value)
            && (response.Failed? ==> r == Failure(response.error))
            && (response.Fetched? && !response.ok ==> r == Failure(RequestFailedMessage(response.statusText)))
            && (response.Fetched? && response.ok && response.body.Malformed? ==> r == Failure(response.body.error))
  {
    match fetch(ProxyUrl(cfg, env, endpoint))
    case Failed(e) => Failure(e)
    case Fetched(ok, statusText, body) =>
      if !ok then Failure(RequestFailedMessage(statusText))
      else
        match body
        case Json(v) => Success(v)
        case Malformed(e) => Failure(e)
  }

  /** In multi-tenant mode, proxying the tenant route reads the very response
      `getNotionPageId` reads, and throws exactly where `getNotionPageId`
      swallows a failure: a rejected fetch, a non-ok status or a malformed
      body. Where the proxy succeeds, `getNotionPageId` answers the record's
      page id when it has one. */
  lemma ProxyThrowsWherePageIdFallsBack(cfg: BlogConfig, env: ProcessEnv, rt: Runtime,
                                        fetch: string -> Response<TenantRecord>)
    requires UseWorkerAPI(cfg)
    ensures var endpoint := "/api/tenants/" + GetTenantId(env, rt);
            var r := ProxyNotionAPI(cfg, env, endpoint, fetch);
            var id := GetNotionPageId(cfg, env, rt, fetch);
            && ProxyUrl(cfg, env, endpoint) == TenantInfoUrl(cfg, env, rt)
            && (r.Failure? ==> id == cfg.notionPageId)
            && (r.Success? ==> id == (if r.value.notionPageId != "" then r.value.notionPageId else cfg.notionPageId))
  {
    var endpoint := "/api/tenants/" + GetTenantId(env, rt);
    assert ProxyUrl(cfg, env, endpoint) == TenantInfoUrl(cfg, env, rt);
  }
}
