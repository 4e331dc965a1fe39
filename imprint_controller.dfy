/**
  The imprint page (src/Controller/ImprintController.php), served under
  the routes `/impressum` and `/imprint`: German visitors get the `impressum`
  template, everyone else the `imprint` template of their locale, and a
  missing template falls back to the English `imprint` page.
*/
module ImprintController {
  import Templates

  datatype Route = Impressum | ImprintRoute

  /** The template name for a locale: `impressum` for German, `imprint` otherwise. */
  function PageName(locale: string): string {
    if locale == "de" then "impressum" else "imprint"
  }

  function Candidate(locale: string): string {
    Templates.PagePath(PageName(locale), locale)
  }

  const EnglishPage := Templates.PagePath("imprint", "en")

  /**
    The template `index` renders. The route is an argument only to state
    that it plays no part.
  */
  function Index(route: Route, locale: string, templateExists: string -> bool): string {
    Templates.Localized(Candidate, locale, templateExists)
  }

  /** German selects the `impressum` template, and falls back to English `imprint` when it is missing. */
  lemma GermanPage(route: Route, templateExists: string -> bool)
    ensures templateExists(Templates.PagePath("impressum", "de")) ==> Index(route, "de", templateExists) == Templates.PagePath("impressum", "de")
    ensures !templateExists(Templates.PagePath("impressum", "de")) ==> Index(route, "de", templateExists) == EnglishPage
  {
  }

  /** Any other locale selects the `imprint` template of that locale. */
  lemma OtherLocalePage(route: Route, locale: string, templateExists: string -> bool)
    requires locale != "de" && templateExists(Templates.PagePath("imprint", locale))
    ensures Index(route, locale, templateExists) == Templates.PagePath("imprint", locale)
  {
  }

  /** English visitors always get the English page. */
  lemma EnglishPageIsFixed(route: Route, templateExists: string -> bool)
    ensures Index(route, "en", templateExists) == EnglishPage
  {
  }

  /** Both routes render the same template. */
  lemma RoutesAgree(locale: string, templateExists: string -> bool)
    ensures Index(Impressum, locale, templateExists) == Index(ImprintRoute, locale, templateExists)
  {
  }
}
