/** The theme and display-mode decisions of the global context provider in
    lib/global.js: which theme a page starts with, how `switchTheme` cycles
    through the allowed themes, how the `theme` query parameter is carried
    over to the next route, and when lite mode and dark mode are on. The
    React state, router navigation and DOM updates around them are left to
    the caller: `switchTheme` reports the navigation it asks for. */
module GlobalContext {
  import opened Options
  import opened Strings

  /** A Next.js router query value: absent, one string, or several. */
  datatype QueryValue = Missing | Single(value: string) | Repeated(values: seq<string>)

  /** JavaScript truthiness of a query value; an array is always truthy. */
  predicate QueryTruthy(v: QueryValue) {
    match v
    case Missing => false
    case Single(s) => s != ""
    case Repeated(_) => true
  }

  /** The themes allowed when `ALLOWED_THEMES` is not configured. */
  const BuiltInThemes: seq<string> := ["heo", "gitbook", "typography"]

  /** The theme that replaces one outside the allowed list. */
  const FallbackTheme: string := "heo"

  /** The initial theme: the `_theme` query parameter, then the Notion
      configuration's THEME, then the site's THEME, whichever is first truthy. */
  function InitialTheme(tenantTheme: QueryValue, notionConfigTheme: string, siteTheme: string): (t: QueryValue)
    ensures QueryTruthy(tenantTheme) ==> t == tenantTheme
    ensures !QueryTruthy(tenantTheme) && notionConfigTheme != "" ==> t == Single(notionConfigTheme)
    ensures !QueryTruthy(tenantTheme) && notionConfigTheme == "" ==> t == Single(siteTheme)
  {
    if QueryTruthy(tenantTheme) then tenantTheme
    else if notionConfigTheme != "" then Single(notionConfigTheme)
    else Single(siteTheme)
  }

  /** The allowed list: `ALLOWED_THEMES` when configured (an array, even an
      empty one, is truthy), else the built-in themes. */
  function AllowedThemes(configured: Option<seq<string>>): (allowed: seq<string>)
    ensures configured.Some? ==> allowed == configured.value
    ensures configured.None? ==> allowed == BuiltInThemes
  {
    configured.GetOr(BuiltInThemes)
  }

  /** `allowedThemes.includes(initialTheme) ? initialTheme : 'heo'`. An array
      value never equals a list element, so it falls back too. */
  function ValidTheme(initial: QueryValue, allowed: seq<string>): (t: string)
    ensures t in allowed || t == FallbackTheme
    ensures initial.Single? && initial.value in allowed ==> t == initial.value
    ensures !(initial.Single? && initial.value in allowed) ==> t == FallbackTheme
  {
    match initial
    case Single(s) => if s in allowed then s else FallbackTheme
    case _ => FallbackTheme
  }

  /** The first index of a theme in the list, `None` for -1; an array is
      never found. */
  function IndexOfTheme(allowed: seq<string>, current: QueryValue): (i: Option<nat>)
    ensures i.Some? ==> current.Single? && i.value < |allowed| && allowed[i.value] == current.value
    ensures i.Some? ==> forall j :: 0 <= j < i.value ==> allowed[j] != current.value
    ensures i.None? ==> !(current.Single? && current.value in allowed)
    decreases |allowed|
  {
    if !current.Single? || |allowed| == 0 then None
    else if allowed[0] == current.value then Some(0)
    else
      match IndexOfTheme(allowed[1..], current)
      case Some(j) => Some(j + 1)
      case None => None
  }

  /** The theme following `current` in the list: the next entry when the
      current theme sits before the last index, else the first entry; `None`
      (JavaScript's `undefined`) only when the list is empty. */
  function NextTheme(allowed: seq<string>, current: QueryValue): (next: Option<string>)
    ensures |allowed| == 0 <==> next.None?
    ensures next.Some? ==> next.value in allowed
    ensures IndexOfTheme(allowed, current).Some? && IndexOfTheme(allowed, current).value < |allowed| - 1 ==>
              next == Some(allowed[IndexOfTheme(allowed, current).value + 1])
    ensures |allowed| > 0 &&
            (IndexOfTheme(allowed, current).None? || IndexOfTheme(allowed, current).value == |allowed| - 1) ==>
              next == Some(allowed[0])
  {
    // indexOf's -1 becomes `current` below `|allowed| - 1` unless the list is empty
    var currentIndex: int := match IndexOfTheme(allowed, current) case Some(i) => i case None => -1;
    var newIndex := if currentIndex < |allowed| - 1 then currentIndex + 1 else 0;
    if newIndex < |allowed| then Some(allowed[newIndex]) else None
  }

  /** What `switchTheme` does: nothing but return the current theme when
      switching is disabled, or navigate with `query.theme` set to the next
      theme and return it. */
  datatype SwitchOutcome = Disabled(current: string) | Switched(theme: Option<string>)

  /** `switchTheme`. The current theme is the `theme` query parameter when
      truthy, else the context's theme. */
  function SwitchTheme(enabled: bool, queryTheme: QueryValue, theme: string,
                       allowed: seq<string>): (out: SwitchOutcome)
    ensures !enabled ==> out == Disabled(theme)
    ensures enabled ==>
              && out.Switched?
              && out.theme == NextTheme(allowed, if QueryTruthy(queryTheme) then queryTheme else Single(theme))
    ensures enabled && |allowed| > 0 ==> out.Switched? && out.theme.Some? && out.theme.value in allowed
  {
    if !enabled then Disabled(theme)
    else
      var currentTheme := if QueryTruthy(queryTheme) then queryTheme else Single(theme);
      Switched(NextTheme(allowed, currentTheme))
  }

  /** The list holds no theme twice. */
  predicate Distinct(allowed: seq<string>) {
    forall i, j :: 0 <= i < j < |allowed| ==> allowed[i] != allowed[j]
  }

  /** In a list without repeats, a theme is found at its own position. */
  lemma IndexOfDistinct(allowed: seq<string>, k: nat)
    requires Distinct(allowed) && k < |allowed|
    ensures IndexOfTheme(allowed, Single(allowed[k])) == Some(k)
  {
  }

  /** The theme reached from `start` after `n` switches, each feeding its
      result back as the `theme` query parameter. */
  function SwitchTimes(allowed: seq<string>, start: string, n: nat): Option<string>
    decreases n
  {
    if n == 0 then Some(start)
    else
      match SwitchTimes(allowed, start, n - 1)
      case Some(t) => NextTheme(allowed, Single(t))
      case None => None
  }

  /** With distinct themes, switching `n` times from the first theme, for
      `n` up to the list's length, lands on theme `n`, wrapping to the first
      at `n == |allowed|`: the switch walks the whole list in order and
      comes back. */
  lemma {:induction false} SwitchCycles(allowed: seq<string>, n: nat)
    requires Distinct(allowed) && 0 < |allowed|
    requires n <= |allowed|
    ensures SwitchTimes(allowed, allowed[0], n) == Some(if n < |allowed| then allowed[n] else allowed[0])
    decreases n
  {
    if n > 0 {
      SwitchCycles(allowed, n - 1);
      IndexOfDistinct(allowed, n - 1);
    }
  }

  /** `router.query.theme` as a string: the first element of an array, and
      `""` for anything falsy. */
  function ThemeString(v: QueryValue): (s: string)
    ensures v.Single? ==> s == v.value
    ensures v.Repeated? && |v.values| > 0 ==> s == v.values[0]
    ensures v.Missing? || (v.Repeated? && |v.values| == 0) ==> s == ""
  {
    match v
    case Missing => ""
    case Single(s) => s
    case Repeated(vs) => if |vs| > 0 then vs[0] else ""
  }

  /** The `routeChangeStart` handler: when a theme is selected and the target
      URL does not mention `theme=<t>`, it navigates again to the URL with
      `theme=<t>` appended (after `&` if the URL has a query, else `?`). */
  function HandleStart(url: string, themeValue: QueryValue): (push: Option<string>)
    ensures push.Some? <==> ThemeString(themeValue) != "" && !Contains(url, "theme=" + ThemeString(themeValue))
    ensures push.Some? ==> StartsWith(push.value, url) && Contains(push.value, "theme=" + ThemeString(themeValue))
    ensures push.Some? ==> |push.value| == |url| + 1 + |"theme=" + ThemeString(themeValue)|
    ensures push.Some? ==> push.value[|url|] == (if Contains(url, "?") then '&' else '?')
    ensures push.Some? ==> push.value[|url| + 1..] == "theme=" + ThemeString(themeValue)
  {
    var themeStr := ThemeString(themeValue);
    if themeStr != "" && !Contains(url, "theme=" + themeStr) then
      var newUrl := url + [if Contains(url, "?") then '&' else '?'] + ("theme=" + themeStr);
      ContainsAppended(url + [if Contains(url, "?") then '&' else '?'], "theme=" + themeStr);
      assert newUrl[..|url|] == url;
      Some(newUrl)
    else None
  }

  /** The navigation `HandleStart` asks for already carries the theme, so
      handling that navigation asks for nothing more. */
  lemma HandleStartSettles(url: string, themeValue: QueryValue)
    requires HandleStart(url, themeValue).Some?
    ensures HandleStart(HandleStart(url, themeValue).value, themeValue).None?
  {
  }

  /** Lite mode after a route change: once on it stays on, and it is
      switched on only by `lite` being exactly the string "true". */
  function LiteModeAfter(wasLite: bool, lite: QueryValue): (isLite: bool)
    ensures wasLite ==> isLite
    ensures isLite && !wasLite ==> lite == Single("true")
    ensures lite == Single("true") ==> isLite
  {
    wasLite || (QueryTruthy(lite) && lite == Single("true"))
  }

  /** Lite mode over a sequence of route changes, starting off. */
  function LiteModeOver(routes: seq<QueryValue>): bool
    decreases |routes|
  {
    if |routes| == 0 then false
    else LiteModeAfter(LiteModeOver(routes[..|routes| - 1]), routes[|routes| - 1])
  }

  /** Lite mode is on after a sequence of route changes exactly when one of
      them had `lite=true`. */
  lemma {:induction false} LiteModeOverExact(routes: seq<QueryValue>)
    ensures LiteModeOver(routes) <==> exists i :: 0 <= i < |routes| && routes[i] == Single("true")
    decreases |routes|
  {
    if |routes| > 0 {
      var init := routes[..|routes| - 1];
      LiteModeOverExact(init);
      if exists i :: 0 <= i < |init| && init[i] == Single("true") {
        var i :| 0 <= i < |init| && init[i] == Single("true");
        assert routes[i] == Single("true");
      }
      if exists i :: 0 <= i < |routes| && routes[i] == Single("true") {
        var i :| 0 <= i < |routes| && routes[i] == Single("true");
        if i < |init| {
          assert init[i] == Single("true");
        }
      }
    }
  }

  /** The initial dark mode: the Notion configuration's APPEARANCE, else the
      site's, compared with "dark". */
  function InitialDarkMode(notionAppearance: string, siteAppearance: string): (dark: bool)
    ensures dark <==> notionAppearance == "dark" || (notionAppearance == "" && siteAppearance == "dark")
  {
    (if notionAppearance != "" then notionAppearance else siteAppearance) == "dark"
  }
}
