# Multi-tenant Notion access layer — a Dafny model

This project models the decision logic of a multi-tenant NotionNext front end.
Many sites ("tenants") share one deployment. Each request is mapped to a
tenant. Content is fetched from the Notion API, or from a worker API that
serves many tenants, through one client. The model covers five pieces:

- **The Notion client** (`lib/notion/getNotionAPI.js`):
  - the base URL the client is built with;
  - whether calls are queued through the rate limiter;
  - the `beforeRequest` hook, which stamps `X-Tenant-ID` / `X-API-Key` and redirects `syncRecordValues`;
  - the request coalescer `callNotion`. It keeps an in-flight map from `methodName-JSON(args)` to the pending promise.
- **Edge tenant resolution** (`middleware.ts`, `handleMultiTenant`). It splits the host into labels, skips `/api/` paths and local hosts, and handles reserved first labels. It rewrites the query with `_tenant`, `_subdomain` and a validated `_theme`.
- **The tenant adapter** (`lib/api/multi-tenant.js`): `getTenantId`, `getWorkerAPIUrl`, `useWorkerAPI`, `getAPIHeaders`, the never-throwing `getNotionPageId`, and `proxyNotionAPI`, which never swallows an error.
- **Theme and display state** (`lib/global.js`):
  - initial-theme precedence and allow-list validation;
  - `switchTheme` cycling;
  - how `handleStart` carries `theme=` to the next route;
  - the lite-mode and dark-mode flags.
- **The migration script** (`scripts/migrate-notion-to-d1.js`): argument parsing, the `analyzeData` statistics, and the backup file name.

Every operation is a pure function of explicit inputs. Configuration
(`blog.config`), `process.env`, the browser window and every `fetch` result
are inputs (module `Platform`). An environment string is `""` when the
variable is unset or empty. JavaScript treats both as falsy, and so does
the code. `BLOG.USE_CUSTOM_API` is a `JsValue` (`Undefined | Bool | Str`)
because the code treats it in two ways. `getAPIBaseUrl` tests it for
truthiness. `useWorkerAPI` tests `=== true`. The coalescer is a state
machine: `Call` and `Settle` events act on a map from key to execution id.
The rate limiter is an opaque pass-through. The model records only which
route each execution took. The `finally` at line 91 of `getNotionAPI.js`
returns a new promise that nobody handles. It rejects whenever the
execution rejects, so the store counts one unhandled rejection for every
rejected execution.

Modules follow the source files: `Options` (Option/Result), `Strings`
(JavaScript `split`, `includes`, `indexOf`, `replace`, `startsWith`, with
`split`/`join` proved mutually inverse), `Platform`, `MultiTenant`,
`NotionApi`, `Coalescer`, `Middleware`, `GlobalContext`, `Migration`, and
`Resolution`, which links the edge and the page.

Some facts about the code that the model keeps:

- The edge reserves `www, api, admin, blog, app`. The browser-side `getTenantId` reserves only `www, api, admin`.
  - `Middleware.EdgeAgreesWithBrowser` proves the two agree wherever the edge names a tenant.
  - `Middleware.ReservedListsDiverge` shows they part ways on `blog.example.com`: the edge gives `default`, the browser gives `blog`.
- The middleware has no domain-mapping cache with a TTL. The only related code is a `revalidate: 60` fetch hint.
- A bare custom domain is never looked up: two labels mean no rewrite (`Middleware.LookupUrl`).
- The lookup URL uses the `by-subdomain` route.
- `handleMultiTenant` runs only in the middleware used when `NEXT_PUBLIC_CLERK_PUBLISHABLE_KEY` is unset (middleware.ts:36-40, 135-161). With Clerk configured, no edge tenant resolution runs and no `_tenant`, `_subdomain` or `_theme` is injected. `Resolution.EdgeThemeSurvivesPage` describes the deployment without Clerk.

## Model

| member | source | states |
|---|---|---|
| `NotionApi.GetAPIBaseUrl` | lib/notion/getNotionAPI.js:18-23 | The custom base URL is used only when custom mode and the URL are both truthy. Otherwise `API_BASE_URL` is used if set, else the public Notion API, and each case is pinned. The result is never empty. |
| `NotionApi.BaseUrlsAgreeInWorkerMode` | lib/notion/getNotionAPI.js:18-23 | In strict multi-tenant mode with a custom URL, the Notion client and the worker helpers use the same server. |
| `NotionApi.StringFlagSplitsModes` | lib/api/multi-tenant.js:47-49 | `USE_CUSTOM_API = "true"` (a string) routes the client to the custom URL but adds no tenant header, because strict `=== true` fails. |
| `NotionApi.RewriteUrl` | lib/notion/getNotionAPI.js:59-66 | A URL containing `/api/v3/syncRecordValues` has its first occurrence replaced by `/api/v3/syncRecordValuesMain`. Any other URL is unchanged. |
| `NotionApi.RewriteUrlNotIdempotent` | lib/notion/getNotionAPI.js:59-66 | The rewritten URL is 4 characters longer and still contains the pattern. A second rewrite changes it again. |
| `NotionApi.BrowserTenantParam` | lib/notion/getNotionAPI.js:51-57 | The `_tenant` override exists exactly in a browser whose query has a non-empty `_tenant`. |
| `NotionApi.BeforeRequest` | lib/notion/getNotionAPI.js:38-67 | In worker mode X-Tenant-ID is `getTenantId()`. A truthy browser `_tenant` overwrites it in any mode. X-API-Key is set only in worker mode with a key. Other headers are untouched. The URL goes through `RewriteUrl`. |
| `NotionApi.HookAgreesWithApiHeaders` | lib/notion/getNotionAPI.js:40-48 | Without a `_tenant` override, the hook adds exactly the tenant and key headers that `getAPIHeaders` builds. |
| `Coalescer.InitialValid` | lib/notion/getNotionAPI.js:12 | The empty in-flight map satisfies the store invariant. |
| `Coalescer.Key` | lib/notion/getNotionAPI.js:81 | The key is the method name, then a dash, then the serialised arguments. |
| `Coalescer.KeyInjective` | lib/notion/getNotionAPI.js:81-83 | For method names without a dash, two calls share a key iff they have the same method and the same serialised arguments. |
| `Coalescer.Call` | lib/notion/getNotionAPI.js:76-93 | A non-function name raises "<name> is not a function" and leaves the store unchanged. A key already in flight returns the stored execution and starts nothing. Otherwise exactly one execution starts and is registered under the key. It goes through the rate limiter iff `useRateLimiter` holds for the process environment. |
| `Coalescer.Settle` | lib/notion/getNotionAPI.js:91 | Settlement removes the key whether it fulfilled or rejected. The outcome is recorded for that execution only. A rejection adds one unhandled rejection, from the dropped promise `finally` returns. |
| `Coalescer.CallPreservesValid` | lib/notion/getNotionAPI.js:81-90 | A call keeps the invariant: an execution is pending exactly when its key maps to it. |
| `Coalescer.SettlePreservesValid` | lib/notion/getNotionAPI.js:91 | Settlement keeps the same invariant. |
| `Coalescer.RunPreservesValid` | lib/notion/getNotionAPI.js:76-93 | Every store reachable by any sequence of calls and settlements is valid. |
| `Coalescer.AtMostOnePendingPerKey` | lib/notion/getNotionAPI.js:83-90 | In a valid store, two pending executions with the same key are the same execution, and it is the one the map holds. |
| `Coalescer.JoinersShareExecution` | lib/notion/getNotionAPI.js:83 | A second identical call while the first is in flight joins the same execution and leaves the store unchanged. |
| `Coalescer.SettledKeyStartsFresh` | lib/notion/getNotionAPI.js:91 | After the key's execution settles, success or failure, the next identical call starts a new execution with a fresh id, so failures are not cached. A rejection leaves one more unhandled rejection. |
| `Coalescer.RunKeepsRoute` | lib/notion/getNotionAPI.js:86-88 | Over any run, every started execution goes through the rate limiter exactly when `useRateLimiter` holds for the process environment. |
| `Coalescer.RunRoutesByEnv` | lib/notion/getNotionAPI.js:8 | From the empty store, an execution is queued through the rate limiter iff `BUILD_MODE` or `EXPORT` is non-empty. |
| `Coalescer.FalseBuildModeStillQueues` | lib/notion/getNotionAPI.js:8 | `BUILD_MODE="false"` still queues the first call through the rate limiter, because the flag is tested for truthiness. |
| `MultiTenant.HostTenant` | lib/api/multi-tenant.js:19-31 | For ≥3 labels with a first label outside www/api/admin, the result is that label (no dot, followed by a dot in the host). Otherwise it is the whole hostname. |
| `MultiTenant.GetTenantId` | lib/api/multi-tenant.js:14-34 | A non-empty `NEXT_PUBLIC_TENANT_ID` always wins. Otherwise the browser uses the hostname rule and the server uses `default`. |
| `MultiTenant.GetWorkerAPIUrl` | lib/api/multi-tenant.js:40-42 | Precedence is custom base URL, then `NEXT_PUBLIC_WORKER_API`, then the public Notion API. The result is never empty. |
| `MultiTenant.GetAPIHeaders` | lib/api/multi-tenant.js:54-70 | Content-Type is always JSON. X-Tenant-ID is set iff `USE_CUSTOM_API === true`, with `getTenantId()`. X-API-Key is set iff that mode is on and a key is configured. No other header is set. |
| `MultiTenant.WorkerModeIsStrict` | lib/api/multi-tenant.js:47-49 | Multi-tenant mode implies a truthy `USE_CUSTOM_API`. The only truthy values that leave it off are non-empty strings. |
| `MultiTenant.TenantInfoUrl` | lib/api/multi-tenant.js:84-85 | The tenant record is fetched from the worker base URL followed by `/api/tenants/<getTenantId()>`. |
| `MultiTenant.GetNotionPageId` | lib/api/multi-tenant.js:76-100 | Outside worker mode the result is the configured id and nothing is fetched. In worker mode the response is the fetch of `TenantInfoUrl`. On a non-ok status, a fetch rejection or a body failure, the result is the configured id. An ok record's truthy `notion_page_id` is returned, otherwise the configured id. |
| `MultiTenant.NotionPageIdSource` | lib/api/multi-tenant.js:76-100 | The result is always the configured id or the non-empty id from an ok response. |
| `MultiTenant.ProxyUrl` | lib/api/multi-tenant.js:106 | The proxy posts to the worker base URL followed by the endpoint path. |
| `MultiTenant.ProxyNotionAPI` | lib/api/multi-tenant.js:105-124 | The response is the post to `ProxyUrl`. It succeeds iff the response is ok and its body parses, with the parsed body. A non-ok status fails with "API request failed: <statusText>". Fetch and parse errors are rethrown unchanged. |
| `MultiTenant.ProxyThrowsWherePageIdFallsBack` | lib/api/multi-tenant.js:76-124 | In worker mode, proxying `/api/tenants/<tenant>` reads the same URL as `getNotionPageId`. It throws exactly on the responses where `getNotionPageId` falls back. Where it succeeds, `getNotionPageId` returns the record's page id when it is non-empty. |
| `Middleware.Subdomain` | middleware.ts:89-94 | There is a subdomain iff the host contains neither `localhost` nor `127.0.0.1`, has at least 3 labels, and has a non-empty first label. The subdomain is that label. |
| `Middleware.EdgeTenant` | middleware.ts:96-99 | The tenant is the subdomain exactly when it is not one of www, api, admin, blog, app. |
| `Middleware.CoerceTheme` | middleware.ts:117-119 | The result is always in {heo, gitbook, typography}. An allowed theme is kept. A missing or unknown theme becomes heo. |
| `Middleware.LookupUrl` | middleware.ts:109-113 | The tenant lookup is issued iff the path is not under `/api/`, the worker API is configured and the host names a non-reserved tenant. Its URL is `<worker>/api/tenants/by-subdomain/<tenant>`. |
| `Middleware.HandleMultiTenant` | middleware.ts:76-130 | `/api/` paths and hosts without a subdomain pass through. Otherwise the query gets `_subdomain` = the label, and `_tenant` = the label, or `default` if it is reserved. `_theme` is set to the coerced record theme exactly when the lookup returns a record. No other parameter changes. |
| `Middleware.LookupNeverBlocksRewrite` | middleware.ts:103-126 | Any two lookup outcomes (ok, non-ok, rejected, malformed) give the same rewrite decision and the same query apart from `_theme`. |
| `Middleware.InjectedThemeAllowed` | middleware.ts:115-120 | A `_theme` in a rewritten query is in the allow-list unless it came in unchanged with the request. |
| `Middleware.EdgeAgreesWithBrowser` | middleware.ts:96-99 | Wherever the edge names a tenant, and with no environment override, the browser's `getTenantId` at the same host gives the same tenant. |
| `Middleware.ReservedListsDiverge` | middleware.ts:96 | For `blog.example.com` the edge rewrites with `_tenant=default`, `_subdomain=blog` and no lookup, while the browser derives tenant `blog`. |
| `GlobalContext.InitialTheme` | lib/global.js:38 | The initial theme is the first truthy of the `_theme` query value (an array is truthy), NOTION_CONFIG.THEME and THEME. |
| `GlobalContext.AllowedThemes` | lib/global.js:41 | The allowed list is `ALLOWED_THEMES` when configured, even if empty, otherwise [heo, gitbook, typography]. |
| `GlobalContext.ValidTheme` | lib/global.js:42 | A single-string initial theme in the list is kept. Anything else, arrays included, becomes heo. The result is in the list or is heo. |
| `GlobalContext.IndexOfTheme` | lib/global.js:78 | This is `indexOf`: the first position holding the theme, or none when the theme is absent or an array. |
| `GlobalContext.NextTheme` | lib/global.js:78-80 | Position i < len−1 gives entry i+1. The last position or an absent theme gives entry 0. An empty list gives undefined. A non-empty list always gives a member. |
| `GlobalContext.SwitchTheme` | lib/global.js:67-85 | When disabled, it returns the current theme and does not navigate. When enabled, it navigates to and returns the theme after `query.theme` (or the context theme when that is falsy). The result is in the list whenever the list is non-empty. |
| `GlobalContext.SwitchCycles` | lib/global.js:78-80 | With distinct themes, n switches from the first theme (n ≤ len) land on entry n, and wrap to entry 0 after a full cycle. |
| `GlobalContext.ThemeString` | lib/global.js:135-136 | An array query value is read as its first element. An absent value is falsy. |
| `GlobalContext.HandleStart` | lib/global.js:135-141 | It navigates iff a theme is set and the URL lacks `theme=<t>`. The new URL is the old one followed by `&` (when the URL has `?`) or `?`, followed by exactly `theme=<t>`, so it contains `theme=<t>`. |
| `GlobalContext.HandleStartSettles` | lib/global.js:138 | Handling the navigation that `HandleStart` asked for asks for nothing more. |
| `GlobalContext.LiteModeAfter` | lib/global.js:114-116 | Lite mode turns on only for `lite` exactly "true" and never turns off. |
| `GlobalContext.LiteModeOverExact` | lib/global.js:111-117 | After any sequence of route changes, lite mode is on iff one of them had `lite=true`. |
| `GlobalContext.InitialDarkMode` | lib/global.js:52-53 | Dark mode starts on iff NOTION_CONFIG.APPEARANCE is "dark", or it is unset and APPEARANCE is "dark". |
| `Resolution.ThemeListsAgree` | middleware.ts:118 | The edge's theme allow-list equals the page's built-in list. |
| `Resolution.EdgeThemeSurvivesPage` | lib/global.js:38-42 | When the lookup succeeds, the injected `_theme` becomes the page's theme unchanged (with `ALLOWED_THEMES` unset), whatever the other theme settings say. |
| `Migration.FlagValue` | scripts/migrate-notion-to-d1.js:26-31 | `arg.split('=')[1]` for a `--flag=` argument is the text after the flag up to the next `=` or the end. |
| `Migration.ParseArgs` | scripts/migrate-notion-to-d1.js:21-38 | With an empty Notion id after all arguments, it exits with code 1. Otherwise it runs with the parsed options. |
| `Migration.LastFlagWins` | scripts/migrate-notion-to-d1.js:22-32 | The tenant id comes from the last `--tenant-id=` argument, else `default`. The Notion id comes from the last `--notion-id=` argument, else empty. |
| `Migration.Bump` | scripts/migrate-notion-to-d1.js:126 | Incrementing keeps types unique with positive counts. It keeps every existing type in place, and a new type is appended with count 1 (first-seen order). |
| `Migration.BumpCount` | scripts/migrate-notion-to-d1.js:126 | Incrementing a type adds one to that type's count and changes no other count. |
| `Migration.BumpTotal` | scripts/migrate-notion-to-d1.js:126 | Incrementing adds one to the sum of all counts. |
| `Migration.AnalyzeData` | scripts/migrate-notion-to-d1.js:112-141 | `blocks` is the entry count (0 when absent). The count listed for a truthy type t is the number of blocks of type t. The sum of the counts is the typed-block count, at most `blocks`. `pages` equals the count listed for `page`. The collection and view counts are key counts, 0 when absent. |
| `Migration.BackupFilename` | scripts/migrate-notion-to-d1.js:99-100 | The name is `<tenant>_<stamp>.json`, where the stamp is the timestamp with every `:` and `.` turned into `-` and every other character kept. |

## Left out

- The `RateLimiter` class (lock file, 200 ms interval, stale-lock reclamation). Its source is not part of this model. `enqueue` is an opaque pass-through, and only the route each execution takes is recorded.
- `getRawNotion`'s client singleton and constructor options (`activeUser`, `authToken`, `Intl` time zone): these are library wiring.
- The `notionAPI` facade. `getPage`, `getBlocks` and `getUsers` forward to `callNotion`, so they are `Coalescer.Call` with those method names. `__call` is `callNotion` itself and is `Coalescer.Call` with any method name.
- `JSON.stringify(args)`: a call carries its arguments already serialised.
- `fetch`, `fs`, `process.exit`, `console`: responses and exits are values.
- Promise scheduling: calls and settlements are discrete events.
- The Clerk authentication middleware and the UUID redirect in `middleware.ts`. They depend on library code and helpers outside the model.
- React and browser plumbing in `lib/global.js`: hooks, `router.push` and router events, `getThemeConfig`, dark-mode toggling via the DOM and local storage, locale handling, and `onLoading`.
- `fetchNotionData`, `importToWorker`, `saveBackup`'s directory creation and file write, and `main` in the migration script.
- `Middleware.HandleMultiTenant`: the query is a map with one value per name, so repeated parameters that `searchParams.set` would collapse are not modelled.
- Configuration values that are numbers or objects: `JsValue` has only undefined, booleans and strings.
- `GlobalContext.AllowedThemes`: `ALLOWED_THEMES` is an array or absent. A string there would make `includes` a substring test, which is not modelled.
- Header names are compared case-sensitively, unlike the `Headers` object.
- `Migration.AnalyzeData`: `recordMap.block` is given by its entries, and a non-string truthy `type` is not distinguished from a string one.
- `Migration.AnalyzeData`: block types are taken to be names that are not integer-like and are not members of `Object.prototype`. For an integer-like name, the printed object lists it first, in numeric order, not in first-seen order. `stats.types[type] || 0` reads an inherited member: `"constructor"` would be counted from a function's string form, and `"__proto__"` is never stored.
- `MultiTenant.ProxyNotionAPI`: the posted body and headers are not part of the result, because `fetch` is given only the URL.
- `MultiTenant.GetNotionPageId`: the `getAPIHeaders()` headers sent with the tenant fetch are not modelled, because `fetch` is given only the URL.
- `Coalescer.Key`: argument texts are arbitrary strings, not only `JSON.stringify` texts of an argument array. Keys are compared as given, and `undefined` and `null` arguments, which serialise alike, are not told apart.
