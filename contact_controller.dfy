/**
  The contact page (src/Controller/ContactController.php): after a
  submission it returns the contact service's redirect with at most one
  flash chosen from the query string; otherwise it renders the form. The
  contact service is not part of this model; its answer arrives as an argument.
*/
module ContactController {
  import opened Common
  import Http
  import Templates

  const Success := Http.Flash("success", "contact.success")
  const MailError := Http.Flash("error", "error.mail_send_failed")
  const RateError := Http.Flash("error", "error.rate_limit")

  /** The flash the chain of conditions picks; unlike the booking page there is no database branch. */
  function ContactFlash(query: map<string, string>): Option<Http.Flash> {
    if Http.QueryIs(query, "submit", "1") then Some(Success)
    else if Http.QueryIs(query, "error", "mail") then Some(MailError)
    else if Http.QueryIs(query, "error", "rate") then Some(RateError)
    else None
  }

  const ContactRules := [
    Http.FlashRule("submit", "1", Success),
    Http.FlashRule("error", "mail", MailError),
    Http.FlashRule("error", "rate", RateError)]

  /** The chain picks the first rule of the priority list that fires. */
  lemma ContactFlashIsFirstMatch(query: map<string, string>)
    ensures ContactFlash(query) == Http.FirstMatch(ContactRules, query)
  {
    assert ContactRules[1..] == [ContactRules[1], ContactRules[2]];
    assert ContactRules[1..][1..] == [ContactRules[2]];
    assert ContactRules[1..][1..][1..] == [];
  }

  /** `error=db` adds no flash on the contact page, unless `submit=1` is also present. */
  lemma DatabaseErrorAddsNothing(query: map<string, string>)
    requires !Http.QueryIs(query, "submit", "1") && Http.QueryIs(query, "error", "db")
    ensures ContactFlash(query) == None
  {
  }

  /** The contact page template of a locale. */
  function ContactPage(locale: string): string {
    Templates.PagePath("contact", locale)
  }

  /** `index`; `redirect` is what the service's `handle()` returned (`None` for null). */
  method Index(submitted: bool, redirect: Option<Http.Response>, query: map<string, string>,
               locale: string, templateExists: string -> bool, flashes: Http.FlashBag)
    returns (r: Http.Response)
    modifies flashes
    ensures submitted && redirect.Some? ==> r == redirect.value && flashes.flashes == old(flashes.flashes) + ToSeq(ContactFlash(query))
    ensures !(submitted && redirect.Some?) ==>
      r == Http.Render(Templates.Localized(ContactPage, locale, templateExists), map["form" := Http.FormView])
      && flashes.flashes == old(flashes.flashes)
  {
    if submitted {
      if redirect.Some? {
        if Http.QueryIs(query, "submit", "1") {
          flashes.Add(Success);
        } else if Http.QueryIs(query, "error", "mail") {
          flashes.Add(MailError);
        } else if Http.QueryIs(query, "error", "rate") {
          flashes.Add(RateError);
        }
        return redirect.value;
      }
    }
    var template := ContactPage(locale);
    if !templateExists(template) {
      template := ContactPage("en");
    }
    return Http.Render(template, map["form" := Http.FormView]);
  }
}
