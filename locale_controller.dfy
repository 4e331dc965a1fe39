/**
  The locale switch (src/Controller/LocaleController.php): `/locale/{locale}`
  stores the chosen locale in the session and sends the browser back to
  where it came from, or to the home page.
*/
module LocaleController {
  import opened Common
  import Http
  import LocaleListener

  const HomeRoute := "app_home"

  /** The route requirement `en|de`, which the router anchors to the whole segment. */
  predicate RouteAdmits(locale: string) {
    locale == "en" || locale == "de"
  }

  /** Back to the Referer when it is PHP-truthy, else to the home route. */
  function RedirectTarget(referer: Option<string>): (r: Http.Response)
    ensures r.Redirect? <==> Http.PhpTruthy(referer)
    ensures r.Redirect? ==> r.location == referer.value
    ensures !r.Redirect? ==> r == Http.RedirectToRoute(HomeRoute)
  {
    if Http.PhpTruthy(referer) then Http.Redirect(referer.value) else Http.RedirectToRoute(HomeRoute)
  }

  /** An empty or `"0"` Referer does not count as one. */
  lemma FalsyReferersGoHome()
    ensures RedirectTarget(None) == Http.RedirectToRoute(HomeRoute)
    ensures RedirectTarget(Some("")) == Http.RedirectToRoute(HomeRoute)
    ensures RedirectTarget(Some("0")) == Http.RedirectToRoute(HomeRoute)
    ensures RedirectTarget(Some("/booking")) == Http.Redirect("/booking")
  {
  }

  /**
    `switchLocale`: writes `_locale` and nothing else into the session,
    then answers with the redirect.
  */
  method SwitchLocale(locale: string, session: Http.Session, referer: Option<string>) returns (r: Http.Response)
    requires RouteAdmits(locale)
    modifies session
    ensures session.attributes == old(session.attributes)[LocaleListener.LocaleKey := locale]
    ensures r == RedirectTarget(referer)
  {
    session.Set(LocaleListener.LocaleKey, locale);
    if Http.PhpTruthy(referer) {
      return Http.Redirect(referer.value);
    }
    return Http.RedirectToRoute(HomeRoute);
  }

  /**
    After a switch, the next main request carrying that session resolves to
    the chosen locale whatever the browser prefers.
  */
  lemma SwitchedLocaleWins(attributes: map<string, string>, locale: string, preferred: Option<string>)
    requires RouteAdmits(locale)
    ensures LocaleListener.Resolve(true, Some(attributes[LocaleListener.LocaleKey := locale]), preferred) == Some(locale)
  {
  }

  /**
    The switch followed by the next request, on fresh objects: a visitor
    with any stored session and any browser preference switches to
    `locale`, follows the redirect, and that request's locale is `locale`.
  */
  method SwitchThenVisit(locale: string, stored: map<string, string>, referer: Option<string>,
                         preferred: Option<string>, initialLocale: string)
    returns (redirect: Http.Response, resolved: string)
    requires RouteAdmits(locale)
    ensures redirect == RedirectTarget(referer)
    ensures resolved == locale
  {
    var session := new Http.Session(stored);
    redirect := SwitchLocale(locale, session, referer);
    var next := new LocaleListener.Request(initialLocale, true, session);
    LocaleListener.Invoke(true, next, preferred);
    resolved := next.locale;
  }
}
