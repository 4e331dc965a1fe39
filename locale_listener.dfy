/**
  The request listener that fixes each request's locale
  (src/EventListener/LocaleListener.php): a locale stored in the session
  wins, then the browser's preferred language cut to its language code,
  then the default.
*/
module LocaleListener {
  import opened Common
  import Http

  const SupportedLocales: seq<string> := ["de", "en"]
  const DefaultLocale := "de"
  const LocaleKey := "_locale"

  /** `substr($s, 0, 2)`: the first two characters, or the whole string when shorter. */
  function Take2(s: string): (r: string)
    ensures |r| == if |s| < 2 then |s| else 2
    ensures r == s[..|r|]
  {
    if |s| <= 2 then s else s[..2]
  }

  /**
    The locale taken from the preferred language: its two-letter prefix if
    that is supported, the default otherwise. `preferred` is what the
    Accept-Language negotiation returned; that negotiation is outside the model.
  */
  function FromPreferred(preferred: Option<string>): (l: string)
    ensures l in SupportedLocales
    ensures preferred.Some? && Take2(preferred.value) in SupportedLocales ==> l == Take2(preferred.value)
    ensures preferred.None? || Take2(preferred.value) !in SupportedLocales ==> l == DefaultLocale
  {
    if preferred.Some? then
      var code := Take2(preferred.value);
      if code in SupportedLocales then code else DefaultLocale
    else DefaultLocale
  }

  /**
    The locale the listener sets, or `None` when it sets nothing (a
    sub-request). `session` is the attribute bag when the request has a
    previous session.
  */
  function Resolve(isMainRequest: bool, session: Option<map<string, string>>, preferred: Option<string>): (r: Option<string>)
    ensures !isMainRequest <==> r.None?
    ensures isMainRequest && session.Some? && LocaleKey in session.value ==> r == Some(session.value[LocaleKey])
    ensures isMainRequest && !(session.Some? && LocaleKey in session.value) ==> r == Some(FromPreferred(preferred))
  {
    if !isMainRequest then None
    else if session.Some? && LocaleKey in session.value then Some(session.value[LocaleKey])
    else Some(FromPreferred(preferred))
  }

  /** Outside the session branch the locale is always supported. */
  lemma NegotiatedLocaleIsSupported(session: Option<map<string, string>>, preferred: Option<string>)
    requires !(session.Some? && LocaleKey in session.value)
    ensures Resolve(true, session, preferred).Some?
    ensures Resolve(true, session, preferred).value in {"de", "en"}
  {
  }

  /** The session value is taken as it is, even one no page is translated into. */
  lemma SessionValueIsNotChecked(preferred: Option<string>)
    ensures Resolve(true, Some(map[LocaleKey := "fr"]), preferred) == Some("fr")
  {
  }

  /** Examples of the language-code cut: `de-DE` gives `de`, `fr-FR` the default, `en` itself. */
  lemma PreferredExamples()
    ensures FromPreferred(Some("de-DE")) == "de"
    ensures FromPreferred(Some("en-GB")) == "en"
    ensures FromPreferred(Some("fr-FR")) == "de"
    ensures FromPreferred(Some("en")) == "en"
    ensures FromPreferred(None) == "de"
  {
    assert Take2("de-DE") == "de";
    assert Take2("en-GB") == "en";
    assert Take2("fr-FR") == "fr";
  }

  /** The request as the listener sees it. */
  class Request {
    var locale: string
    const hasPreviousSession: bool
    const session: Http.Session

    constructor (locale: string, hasPreviousSession: bool, session: Http.Session)
      ensures this.locale == locale && this.hasPreviousSession == hasPreviousSession && this.session == session
    {
      this.locale := locale;
      this.hasPreviousSession := hasPreviousSession;
      this.session := session;
    }

    /** The session's attributes when there is a previous session. */
    function PreviousSession(): Option<map<string, string>>
      reads this, session
    {
      if hasPreviousSession then Some(session.attributes) else None
    }
  }

  /** `__invoke`: sets the request's locale, or leaves it alone for a sub-request. */
  method Invoke(isMainRequest: bool, request: Request, preferred: Option<string>)
    modifies request
    ensures request.locale == match Resolve(isMainRequest, old(request.PreviousSession()), preferred)
                              case None => old(request.locale)
                              case Some(l) => l
  {
    if !isMainRequest {
      return;
    }
    if request.hasPreviousSession {
      if LocaleKey in request.session.attributes {
        var locale := request.session.attributes[LocaleKey];
        request.locale := locale;
        return;
      }
    }
    var locale;
    if preferred.Some? {
      locale := Take2(preferred.value);
      if locale !in SupportedLocales {
        locale := DefaultLocale;
      }
    } else {
      locale := DefaultLocale;
    }
    request.locale := locale;
  }
}
