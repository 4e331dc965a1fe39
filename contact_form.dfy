/**
  The contact form (src/Form/FormContactType.php): per-field constraints as
  one validation function, and which submitted values are mapped onto the
  contact record.

  No field declares `empty_data`, so an empty text field reaches the
  validator as `null`. The contact record (`FormContactEntity`) is not part
  of this model; `ContactMapped` stands for the values the form writes to it.
*/
module ContactForm {
  import opened Common
  import opened Constraints

  datatype ContactSubmission = ContactSubmission(
    name: Option<string>,
    emailAddress: Option<string>,
    phone: Option<string>,
    subject: Option<string>,
    message: Option<string>,
    consent: bool,
    copy: bool,
    website: Option<string>,
    emailrep: Option<string>)

  /** The values the form maps onto its record: every field except `website`. */
  datatype ContactMapped = ContactMapped(
    name: Option<string>,
    emailAddress: Option<string>,
    phone: Option<string>,
    subject: Option<string>,
    message: Option<string>,
    consent: bool,
    copy: bool,
    emailrep: Option<string>)

  function NameRules(v: Option<string>): (r: set<Rule>)
    ensures r == {} <==> v.Some? && 2 <= |v.value| <= 160
  {
    NotBlank(v) + Length(v, 2, Some(160))
  }

  function EmailRules(v: Option<string>, isEmail: string -> bool): (r: set<Rule>)
    ensures r == {} <==> v.Some? && 0 < |v.value| <= 200 && isEmail(v.value)
  {
    NotBlank(v) + Email(v, isEmail) + Length(v, 0, Some(200))
  }

  function PhoneRules(v: Option<string>): (r: set<Rule>)
    ensures r == {} <==> v.None? || |v.value| <= 40
  {
    Length(v, 0, Some(40))
  }

  function SubjectRules(v: Option<string>): (r: set<Rule>)
    ensures r == {} <==> v.None? || |v.value| <= 255
  {
    Length(v, 0, Some(255))
  }

  function MessageRules(v: Option<string>): (r: set<Rule>)
    ensures r == {} <==> v.Some? && 10 <= |v.value|
  {
    NotBlank(v) + Length(v, 10, None)
  }

  /** Every violation of a contact submission, by property; `copy` and the honeypots have no constraint. */
  function ContactViolations(c: ContactSubmission, isEmail: string -> bool): set<Violation> {
    At("name", NameRules(c.name))
    + At("emailAddress", EmailRules(c.emailAddress, isEmail))
    + At("phone", PhoneRules(c.phone))
    + At("subject", SubjectRules(c.subject))
    + At("message", MessageRules(c.message))
    + At("consent", IsTrue(c.consent))
  }

  /** Reads an optional value as a string, `null` as the empty one. */
  function OrEmpty(v: Option<string>): string {
    if v.Some? then v.value else ""
  }

  /** The plain-language reading of the contact constraints. */
  predicate ContactAcceptable(c: ContactSubmission, isEmail: string -> bool) {
    && c.name.Some? && 2 <= |c.name.value| <= 160
    && c.emailAddress.Some? && 0 < |c.emailAddress.value| <= 200 && isEmail(c.emailAddress.value)
    && |OrEmpty(c.phone)| <= 40
    && |OrEmpty(c.subject)| <= 255
    && c.message.Some? && 10 <= |c.message.value|
    && c.consent
  }

  /**
    A contact submission is free of violations iff every field meets its
    rule: phone and subject are optional but bounded, the message has no
    upper bound, consent must be ticked and `copy` is free.
  */
  lemma ContactValidIff(c: ContactSubmission, isEmail: string -> bool)
    ensures ContactViolations(c, isEmail) == {} <==> ContactAcceptable(c, isEmail)
  {
    AtEmpty("name", NameRules(c.name));
    AtEmpty("emailAddress", EmailRules(c.emailAddress, isEmail));
    AtEmpty("phone", PhoneRules(c.phone));
    AtEmpty("subject", SubjectRules(c.subject));
    AtEmpty("message", MessageRules(c.message));
    AtEmpty("consent", IsTrue(c.consent));
  }

  /** A message of any length from ten characters on is accepted. */
  lemma MessageHasNoUpperBound(m: string)
    requires |m| >= 10
    ensures MessageRules(Some(m)) == {}
  {
  }

  /** The values that reach the record: `website` is unmapped, `emailrep` is mapped. */
  function Mapped(c: ContactSubmission): ContactMapped {
    ContactMapped(c.name, c.emailAddress, c.phone, c.subject, c.message, c.consent, c.copy, c.emailrep)
  }

  /**
    Only one honeypot reaches the record: changing `website` changes
    nothing mapped, while distinct `emailrep` values map differently.
  */
  lemma OnlyEmailrepIsMapped(c: ContactSubmission, w: Option<string>, e: Option<string>)
    ensures Mapped(c.(website := w)) == Mapped(c)
    ensures Mapped(c.(emailrep := e)) == Mapped(c) <==> e == c.emailrep
  {
  }
}
