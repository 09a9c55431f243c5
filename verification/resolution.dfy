/** How the edge and the page fit together: the theme the middleware injects
    as `_theme` is the theme the page starts with. */
module Resolution {
  import Options
  import opened Platform
  import Middleware
  import GlobalContext

  /** The edge's theme list is the page's built-in allowed list. */
  lemma ThemeListsAgree()
    ensures Middleware.TenantThemes == GlobalContext.BuiltInThemes
  {
  }

  /** When the tenant lookup succeeds, the rewritten request's `_theme` is
      taken unchanged as the page's theme (with `ALLOWED_THEMES` unset),
      whatever the Notion and site configuration say. */
  lemma EdgeThemeSurvivesPage(host: string, pathname: string, query: map<string, string>,
                              workerApi: string, lookup: Response<TenantRecord>,
                              notionConfigTheme: string, siteTheme: string)
    requires Middleware.ThemeInjected(host, pathname, workerApi, lookup)
    ensures var out := Middleware.HandleMultiTenant(host, pathname, query, workerApi, lookup);
            && out.Rewrite?
            && Middleware.ThemeParam in out.query
            && var injected := out.query[Middleware.ThemeParam];
               GlobalContext.ValidTheme(
                 GlobalContext.InitialTheme(GlobalContext.Single(injected), notionConfigTheme, siteTheme),
                 GlobalContext.AllowedThemes(Options.None)) == injected
  {
    var out := Middleware.HandleMultiTenant(host, pathname, query, workerApi, lookup);
    var injected := out.query[Middleware.ThemeParam];
    assert injected in Middleware.TenantThemes;
    assert injected != "";
  }
}
