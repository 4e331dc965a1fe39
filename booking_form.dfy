/**
  The booking form (src/Form/FormBookingType.php): the constraints on each
  field as one validation function, the persons pattern, and the mapping of
  a submission onto the booking record, which skips the two honeypots.

  Text fields declare `empty_data: ''`, so an empty submission reaches the
  validator as the empty string, never as `null`; the dates are `null`
  when left empty.
*/
module BookingForm {
  import opened Common
  import opened Constraints
  import BookingEntity

  /** The submitted values, after the form's transformers and its `trim` step. */
  datatype BookingSubmission = BookingSubmission(
    arrivalDate: Option<Instant>,
    departureDate: Option<Instant>,
    numberOfPersons: string,
    contactName: string,
    contactEmail: string,
    contactPhone: string,
    notes: string,
    dataConsent: bool,
    website: Option<string>,
    emailrep: Option<string>)

  predicate IsDigit(c: char) { '0' <= c <= '9' }

  /** The alternatives of `(?:[1-9]|1[0-9]|20)`, matched against the whole string. */
  predicate PersonsAlternatives(s: string) {
    (|s| == 1 && '1' <= s[0] <= '9')
    || (|s| == 2 && s[0] == '1' && IsDigit(s[1]))
    || s == "20"
  }

  /**
    `/^(?:[1-9]|1[0-9]|20)$/` under PCRE: without the `D` modifier `$`
    also matches just before a final line feed.
  */
  predicate PersonsPattern(s: string) {
    PersonsAlternatives(s) || (|s| > 0 && s[|s| - 1] == '\n' && PersonsAlternatives(s[..|s| - 1]))
  }

  /** The decimal numeral of `n`, without sign or leading zero. */
  function Decimal(n: nat): (s: string)
    ensures |s| > 0 && forall k :: 0 <= k < |s| ==> IsDigit(s[k])
    ensures n > 0 ==> s[0] != '0'
  {
    if n < 10 then ['0' + n as char] else Decimal(n / 10) + ['0' + (n % 10) as char]
  }

  /** The persons alternatives are exactly the numerals of 1 to 20. */
  lemma PersonsAlternativesAreOneToTwenty(s: string)
    ensures PersonsAlternatives(s) <==> exists n :: 1 <= n <= 20 && s == Decimal(n)
  {
    if PersonsAlternatives(s) {
      if |s| == 1 {
        var n := (s[0] - '0') as nat;
        assert s == Decimal(n);
      } else if s == "20" {
        assert s == Decimal(20);
      } else {
        var n := 10 + (s[1] - '0') as nat;
        assert Decimal(n) == Decimal(1) + ['0' + (n % 10) as char];
        assert s == Decimal(n);
      }
    }
    if n :| 1 <= n <= 20 && s == Decimal(n) {
      if n >= 10 {
        assert Decimal(n) == Decimal(n / 10) + ['0' + (n % 10) as char];
      }
    }
  }

  /** `persons` violations: `NotBlank` then the pattern. */
  function PersonsRules(s: string): (r: set<Rule>)
    ensures r == {} <==> s != "" && PersonsPattern(s)
  {
    NotBlank(Some(s)) + Regex(Some(s), PersonsPattern)
  }

  /**
    On a trimmed value, the persons field is valid exactly for the numerals
    "1" to "20".
  */
  lemma PersonsValidIff(s: string)
    requires Trimmed(s)
    ensures PersonsRules(s) == {} <==> exists n :: 1 <= n <= 20 && s == Decimal(n)
  {
    PersonsAlternativesAreOneToTwenty(s);
  }

  /** Boundary cases of the persons pattern. */
  lemma PersonsBoundaries()
    ensures PersonsRules("20") == {} && PersonsRules("1") == {}
    ensures PersonsRules("0") == {NoMatch}
    ensures PersonsRules("21") == {NoMatch}
    ensures PersonsRules("01") == {NoMatch}
    ensures PersonsRules("") == {Blank}
  {
  }

  /**
    The untrimmed pattern accepts a trailing line feed; the `trim` step the
    form applies first removes it, so a submission cannot carry it.
  */
  lemma PersonsPatternAcceptsFinalLineFeed()
    ensures PersonsPattern("5\n") && !Trimmed("5\n")
  {
    assert "5\n"[..1] == "5";
  }

  function NameRules(s: string): (r: set<Rule>)
    ensures r == {} <==> 2 <= |s| <= 255
  {
    NotBlank(Some(s)) + Length(Some(s), 2, Some(255))
  }

  function EmailRules(s: string, isEmail: string -> bool): (r: set<Rule>)
    ensures r == {} <==> 0 < |s| <= 200 && isEmail(s)
  {
    NotBlank(Some(s)) + Email(Some(s), isEmail) + Length(Some(s), 0, Some(200))
  }

  function PhoneRules(s: string): (r: set<Rule>)
    ensures r == {} <==> 6 <= |s| <= 40
  {
    NotBlank(Some(s)) + Length(Some(s), 6, Some(40))
  }

  function NotesRules(s: string): (r: set<Rule>)
    ensures r == {} <==> |s| <= 2000
  {
    Length(Some(s), 0, Some(2000))
  }

  /** Every violation of a booking submission, by property. */
  function BookingViolations(b: BookingSubmission, isEmail: string -> bool): set<Violation> {
    At("arrivalDate", NotBlankValue(b.arrivalDate))
    + At("departureDate", NotBlankValue(b.departureDate))
    + At("numberOfPersons", PersonsRules(b.numberOfPersons))
    + At("contactName", NameRules(b.contactName))
    + At("contactEmail", EmailRules(b.contactEmail, isEmail))
    + At("contactPhone", PhoneRules(b.contactPhone))
    + At("notes", NotesRules(b.notes))
    + At("dataConsent", IsTrue(b.dataConsent))
  }

  /** The plain-language reading of the booking constraints. */
  predicate BookingAcceptable(b: BookingSubmission, isEmail: string -> bool) {
    && b.arrivalDate.Some? && b.departureDate.Some?
    && (b.numberOfPersons != "" && PersonsPattern(b.numberOfPersons))
    && 2 <= |b.contactName| <= 255
    && 0 < |b.contactEmail| <= 200 && isEmail(b.contactEmail)
    && 6 <= |b.contactPhone| <= 40
    && |b.notes| <= 2000
    && b.dataConsent
  }

  /**
    A booking is free of violations iff every field meets its rule. The
    dates only need to be present (no order between them) and the
    honeypots are not checked at all.
  */
  lemma BookingValidIff(b: BookingSubmission, isEmail: string -> bool)
    ensures BookingViolations(b, isEmail) == {} <==> BookingAcceptable(b, isEmail)
  {
    AtEmpty("arrivalDate", NotBlankValue(b.arrivalDate));
    AtEmpty("departureDate", NotBlankValue(b.departureDate));
    AtEmpty("numberOfPersons", PersonsRules(b.numberOfPersons));
    AtEmpty("contactName", NameRules(b.contactName));
    AtEmpty("contactEmail", EmailRules(b.contactEmail, isEmail));
    AtEmpty("contactPhone", PhoneRules(b.contactPhone));
    AtEmpty("notes", NotesRules(b.notes));
    AtEmpty("dataConsent", IsTrue(b.dataConsent));
  }

  /** A missing consent alone forbids the booking, whatever else is submitted. */
  lemma ConsentRequired(b: BookingSubmission, isEmail: string -> bool)
    requires !b.dataConsent
    ensures Violation("dataConsent", NotTrue) in BookingViolations(b, isEmail)
  {
  }

  /**
    The phone is required by the form although its column is nullable: an
    empty phone reports both the blank and the length rule.
  */
  lemma EmptyPhoneRejected(b: BookingSubmission, isEmail: string -> bool)
    requires b.contactPhone == ""
    ensures Violation("contactPhone", Blank) in BookingViolations(b, isEmail)
    ensures Violation("contactPhone", TooShort) in BookingViolations(b, isEmail)
  {
  }

  /**
    The record after the form writes a submission onto it through the
    setters. Every mapped field is written: the text fields as submitted,
    empty notes as `''`; the honeypots are unmapped and written nowhere.
  */
  function MapOnto(r: BookingEntity.BookingFields, b: BookingSubmission): BookingEntity.BookingFields {
    r.(arrivalDate := b.arrivalDate, departureDate := b.departureDate,
       numberOfPersons := b.numberOfPersons, contactName := b.contactName,
       contactEmail := b.contactEmail, contactPhone := Some(b.contactPhone),
       notes := Some(b.notes), dataConsent := b.dataConsent)
  }

  /** The honeypots never reach the record, and fields without a form field are untouched. */
  lemma HoneypotsNotMapped(r: BookingEntity.BookingFields, b: BookingSubmission, website: Option<string>, emailrep: Option<string>)
    ensures MapOnto(r, b.(website := website, emailrep := emailrep)) == MapOnto(r, b)
    ensures var m := MapOnto(r, b);
      m.id == r.id && m.createdAt == r.createdAt && m.confirmationToken == r.confirmationToken
      && m.isConfirmed == r.isConfirmed && m.confirmedAt == r.confirmedAt && m.meta == r.meta
    ensures var m := MapOnto(r, b);
      m.childBirthdate == r.childBirthdate && m.childAddress == r.childAddress
      && m.hasSwimExperience == r.hasSwimExperience && m.swimExperienceDetails == r.swimExperienceDetails
      && m.maySwimWithoutAid == r.maySwimWithoutAid && m.isMemberOfClub == r.isMemberOfClub
      && m.paymentMethod == r.paymentMethod && m.participationConsent == r.participationConsent
      && m.liabilityAcknowledged == r.liabilityAcknowledged && m.photoConsent == r.photoConsent
      && m.bookingConfirmation == r.bookingConfirmation
  {
  }

  /** Writes a submission onto a booking, one setter per mapped field. */
  method SubmitOnto(entity: BookingEntity.FormBookingEntity, b: BookingSubmission)
    modifies entity
    ensures entity.Fields() == MapOnto(old(entity.Fields()), b)
  {
    var _ := entity.SetArrivalDate(b.arrivalDate);
    var _ := entity.SetDepartureDate(b.departureDate);
    var _ := entity.SetNumberOfPersons(b.numberOfPersons);
    var _ := entity.SetContactName(b.contactName);
    var _ := entity.SetContactEmail(b.contactEmail);
    var _ := entity.SetContactPhone(Some(b.contactPhone));
    var _ := entity.SetNotes(Some(b.notes));
    var _ := entity.SetDataConsent(b.dataConsent);
  }
}
