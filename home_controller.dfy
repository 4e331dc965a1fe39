/** The home page (src/Controller/HomeController.php): the locale's template, or the English one. */
module HomeController {
  import Templates

  const EnglishHome := "home/index.en.html.twig"

  /** The template `index` renders for the request locale. */
  function Index(locale: string, templateExists: string -> bool): string {
    Templates.Localized(Templates.HomePath, locale, templateExists)
  }

  /** English visitors always get the English home page. */
  lemma EnglishHomeIsFixed(templateExists: string -> bool)
    ensures Index("en", templateExists) == EnglishHome
  {
    Templates.EnglishIsFixed(Templates.HomePath, templateExists);
  }
}
