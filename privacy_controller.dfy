/**
  The privacy page (src/Controller/PrivacyController.php), served under
  the routes `/datenschutz` and `/privacy`: German visitors get the `datenschutz`
  template, everyone else the `privacy` template of their locale, and a
  missing template falls back to the English `privacy` page.
*/
module PrivacyController {
  import Templates

  datatype Route = Datenschutz | PrivacyRoute

  /** The template name for a locale: `datenschutz` for German, `privacy` otherwise. */
  function PageName(locale: string): string {
    if locale == "de" then "datenschutz" else "privacy"
  }

  function Candidate(locale: string): string {
    Templates.PagePath(PageName(locale), locale)
  }

  const EnglishPage := Templates.PagePath("privacy", "en")

  /**
    The template `index` renders. The route is an argument only to state
    that it plays no part.
  */
  function Index(route: Route, locale: string, templateExists: string -> bool): string {
    Templates.Localized(Candidate, locale, templateExists)
  }

  /** German selects the `datenschutz` template, and falls back to English `privacy` when it is missing. */
  lemma GermanPage(route: Route, templateExists: string -> bool)
    ensures templateExists(Templates.PagePath("datenschutz", "de")) ==> Index(route, "de", templateExists) == Templates.PagePath("datenschutz", "de")
    ensures !templateExists(Templates.PagePath("datenschutz", "de")) ==> Index(route, "de", templateExists) == EnglishPage
  {
  }

  /** Any other locale selects the `privacy` template of that locale. */
  lemma OtherLocalePage(route: Route, locale: string, templateExists: string -> bool)
    requires locale != "de" && templateExists(Templates.PagePath("privacy", locale))
    ensures Index(route, locale, templateExists) == Templates.PagePath("privacy", locale)
  {
  }

  /** English visitors always get the English page. */
  lemma EnglishPageIsFixed(route: Route, templateExists: string -> bool)
    ensures Index(route, "en", templateExists) == EnglishPage
  {
  }

  /** Both routes render the same template. */
  lemma RoutesAgree(locale: string, templateExists: string -> bool)
    ensures Index(Datenschutz, locale, templateExists) == Index(PrivacyRoute, locale, templateExists)
  {
  }
}
