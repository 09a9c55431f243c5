/** The inputs the core reads from its surroundings: `blog.config` entries,
    `process.env`, the browser window (if any) and the responses of `fetch`.
    Each becomes an explicit value so that every operation is a pure function
    of them. Throughout, an environment string is `""` when the variable is
    unset or empty, the two cases JavaScript treats alike as falsy. */
module Platform {
  import opened Options

  /** A configuration value whose JavaScript type is not fixed: the code
      tests it both for truthiness and for strict equality with `true`. */
  datatype JsValue = Undefined | Bool(b: bool) | Str(s: string)

  /** JavaScript truthiness of a configuration value. */
  predicate Truthy(v: JsValue) {
    match v
    case Undefined => false
    case Bool(b) => b
    case Str(s) => s != ""
  }

  /** The `blog.config` entries the core reads. */
  datatype BlogConfig = BlogConfig(
    useCustomApi: JsValue,       // BLOG.USE_CUSTOM_API
    customApiBaseUrl: string,    // BLOG.CUSTOM_API_BASE_URL
    apiBaseUrl: string,          // BLOG.API_BASE_URL
    notionPageId: string)        // BLOG.NOTION_PAGE_ID

  /** The `process.env` variables the core reads. */
  datatype ProcessEnv = ProcessEnv(
    tenantId: string,            // NEXT_PUBLIC_TENANT_ID
    apiKey: string,              // NEXT_PUBLIC_API_KEY
    workerApi: string,           // NEXT_PUBLIC_WORKER_API
    buildMode: string,           // BUILD_MODE
    exportMode: string)          // EXPORT

  /** Where the code runs: on the server, where `window` is undefined, or in
      a browser tab with its location's hostname and query parameters (the
      first value of each name, as `URLSearchParams.get` returns it). */
  datatype Runtime = Server | Browser(hostname: string, search: map<string, string>)

  /** The parsed body of a response: `response.json()` resolved, or it
      rejected (not JSON, or a shape the caller dereferences and fails on). */
  datatype Body<T> = Json(value: T) | Malformed(error: string)

  /** What a `fetch` produced: a response with its `ok` flag, status text and
      body, or a rejection (network failure). */
  datatype Response<T> = Fetched(ok: bool, statusText: string, body: Body<T>) | Failed(error: string)

  /** A tenant record served by the worker API. A field that is missing or
      falsy is `""`; `theme` stands for any value other than a non-empty
      string by a string outside every theme list. */
  datatype TenantRecord = TenantRecord(notionPageId: string, theme: string)

  /** The value `JSON.parse` gives back for a response `r` that is ok, if any. */
  function OkBody<T>(r: Response<T>): (b: Option<T>)
    ensures b.Some? <==> r.Fetched? && r.ok && r.body.Json?
    ensures b.Some? ==> b.value == r.body.value
  {
    match r
    case Fetched(ok, _, Json(v)) => if ok then Some(v) else None
    case _ => None
  }
}
