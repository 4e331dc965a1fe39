/**
  The booking pages (src/Controller/BookingController.php). `index` either
  returns the booking service's redirect after a submission, with at most
  one flash chosen from the query string, or renders the booking form;
  `confirm` renders the outcome of a confirmation token.

  The booking service, the translator and the Twig loader are not part of
  this model: the service's answers and the loader's `exists` arrive as
  arguments, and flashes carry translation keys.
*/
module BookingController {
  import opened Common
  import Http
  import Templates

  const Success := Http.Flash("success", "booking.success")
  const MailError := Http.Flash("error", "error.mail_send_failed")
  const DatabaseError := Http.Flash("error", "error.database_error")
  const RateError := Http.Flash("error", "error.rate_limit")

  /** The flash the chain of conditions picks, as the code tests them in turn. */
  function BookingFlash(query: map<string, string>): Option<Http.Flash> {
    if Http.QueryIs(query, "submit", "1") then Some(Success)
    else if Http.QueryIs(query, "error", "mail") then Some(MailError)
    else if Http.QueryIs(query, "error", "db") then Some(DatabaseError)
    else if Http.QueryIs(query, "error", "rate") then Some(RateError)
    else None
  }

  /** The same chain as a priority list. */
  const BookingRules := [
    Http.FlashRule("submit", "1", Success),
    Http.FlashRule("error", "mail", MailError),
    Http.FlashRule("error", "db", DatabaseError),
    Http.FlashRule("error", "rate", RateError)]

  /** The chain picks the first rule of the priority list that fires. */
  lemma BookingFlashIsFirstMatch(query: map<string, string>)
    ensures BookingFlash(query) == Http.FirstMatch(BookingRules, query)
  {
    assert BookingRules[1..] == [BookingRules[1], BookingRules[2], BookingRules[3]];
    assert BookingRules[1..][1..] == [BookingRules[2], BookingRules[3]];
    assert BookingRules[1..][1..][1..] == [BookingRules[3]];
    assert BookingRules[1..][1..][1..][1..] == [];
  }

  /** A success marker wins over any error parameter. */
  lemma SuccessWins(query: map<string, string>)
    requires Http.QueryIs(query, "submit", "1")
    ensures BookingFlash(query) == Some(Success)
  {
  }

  /** Any other query value adds no flash. */
  lemma UnknownErrorAddsNothing(query: map<string, string>)
    requires !Http.QueryIs(query, "submit", "1")
    requires "error" in query ==> query["error"] !in {"mail", "db", "rate"}
    ensures BookingFlash(query) == None
  {
  }

  /** The booking page template of a locale. */
  function BookingPage(locale: string): string {
    Templates.PagePath("booking", locale)
  }

  /**
    `index`. `submitted` is the form's state after handling the request and
    `redirect` what the service's `handle()` returned (`None` for null).
  */
  method Index(submitted: bool, redirect: Option<Http.Response>, query: map<string, string>,
               locale: string, templateExists: string -> bool, flashes: Http.FlashBag)
    returns (r: Http.Response)
    modifies flashes
    ensures submitted && redirect.Some? ==> r == redirect.value && flashes.flashes == old(flashes.flashes) + ToSeq(BookingFlash(query))
    ensures !(submitted && redirect.Some?) ==>
      r == Http.Render(Templates.Localized(BookingPage, locale, templateExists), map["form" := Http.FormView])
      && flashes.flashes == old(flashes.flashes)
  {
    if submitted {
      if redirect.Some? {
        if Http.QueryIs(query, "submit", "1") {
          flashes.Add(Success);
        } else if Http.QueryIs(query, "error", "mail") {
          flashes.Add(MailError);
        } else if Http.QueryIs(query, "error", "db") {
          flashes.Add(DatabaseError);
        } else if Http.QueryIs(query, "error", "rate") {
          flashes.Add(RateError);
        }
        return redirect.value;
      }
    }
    var template := BookingPage(locale);
    if !templateExists(template) {
      template := BookingPage("en");
    }
    return Http.Render(template, map["form" := Http.FormView]);
  }

  const ConfirmKeyPrefix := "booking.confirm."

  /** The translation key of a confirmation status. */
  function StatusMessageKey(status: string): (k: string)
    ensures |k| == |ConfirmKeyPrefix| + |status|
    ensures k[..|ConfirmKeyPrefix|] == ConfirmKeyPrefix && k[|ConfirmKeyPrefix|..] == status
  {
    ConfirmKeyPrefix + status
  }

  /** Distinct statuses have distinct message keys. */
  lemma StatusMessageKeyInjective(s1: string, s2: string)
    requires StatusMessageKey(s1) == StatusMessageKey(s2)
    ensures s1 == s2
  {
    assert s1 == StatusMessageKey(s1)[|ConfirmKeyPrefix|..];
  }

  /**
    `confirm`: `status` is what the service's `confirmBooking` returned for
    the token; it is passed to the template unchanged, with its message key.
  */
  function Confirm(status: string, locale: string, templateExists: string -> bool): (r: Http.Response)
    ensures r.Render?
    ensures r.template == Templates.Localized((l: string) => Templates.PagePath("booking-confirm", l), locale, templateExists)
    ensures r.params.Keys == {"status", "statusMessage"}
    ensures r.params["status"] == Http.Text(status)
    ensures r.params["statusMessage"] == Http.Text(StatusMessageKey(status))
  {
    var template := Templates.WithFallback(
      Templates.PagePath("booking-confirm", locale), Templates.PagePath("booking-confirm", "en"), templateExists);
    Http.Render(template, map["status" := Http.Text(status), "statusMessage" := Http.Text(StatusMessageKey(status))])
  }
}
