/**
  Template selection shared by the page controllers: a locale-specific
  Twig template when the loader has it, an English one otherwise. The
  loader's `exists` is outside the model and arrives as `templateExists`.
*/
module Templates {

  /** `sprintf('pages/%s.%s.html.twig', name, locale)`. */
  function PagePath(name: string, locale: string): string {
    "pages/" + name + "." + locale + ".html.twig"
  }

  /** `sprintf('home/index.%s.html.twig', locale)`. */
  function HomePath(locale: string): string {
    "home/index." + locale + ".html.twig"
  }

  /** The candidate when the loader has it, the fallback otherwise. */
  function WithFallback(candidate: string, fallback: string, templateExists: string -> bool): (t: string)
    ensures t == candidate || t == fallback
    ensures t == candidate <== templateExists(candidate)
    ensures t == fallback <== !templateExists(candidate)
  {
    if templateExists(candidate) then candidate else fallback
  }

  /** A page whose templates are named by locale, falling back to the English one. */
  function Localized(path: string -> string, locale: string, templateExists: string -> bool): (t: string)
    ensures t == path(locale) || t == path("en")
    ensures templateExists(path(locale)) ==> t == path(locale)
    ensures !templateExists(path(locale)) ==> t == path("en")
  {
    WithFallback(path(locale), path("en"), templateExists)
  }

  /** The English locale selects the English template whatever the loader holds. */
  lemma EnglishIsFixed(path: string -> string, templateExists: string -> bool)
    ensures Localized(path, "en", templateExists) == path("en")
  {
  }
}
