/**
  The booking record (src/Entity/FormBookingEntity.php): a persisted
  request whose constructor stamps the creation time and draws a
  confirmation token, and whose fields are then written one at a time by
  fluent setters. Getters are the fields themselves, which Dafny lets
  callers read directly.

  `Fields()` is the whole record as a value, so that each setter can state
  its complete effect: one field changes, every other field keeps its value.
*/
module BookingEntity {
  import opened Common
  import Encoding

  /** The submission-metadata entity the booking points to, by identity; that entity is not part of this model. */
  type MetaRef = nat

  /** Number of random bytes behind a confirmation token (`random_bytes(32)`). */
  const TokenByteCount := 32

  /** Declared length of the `confirmation_token` column. */
  const TokenColumnLength := 64

  /** Every column of a booking, in declaration order. */
  datatype BookingFields = BookingFields(
    id: Option<int>,
    createdAt: Instant,
    arrivalDate: Option<Instant>,
    departureDate: Option<Instant>,
    numberOfPersons: string,
    childBirthdate: Option<Instant>,
    childAddress: string,
    hasSwimExperience: bool,
    swimExperienceDetails: Option<string>,
    notes: Option<string>,
    maySwimWithoutAid: bool,
    contactName: string,
    contactPhone: Option<string>,
    contactEmail: string,
    isMemberOfClub: bool,
    paymentMethod: string,
    participationConsent: bool,
    liabilityAcknowledged: bool,
    photoConsent: bool,
    dataConsent: bool,
    bookingConfirmation: bool,
    confirmationToken: string,
    isConfirmed: bool,
    confirmedAt: Option<Instant>,
    meta: Option<MetaRef>)

  /** A confirmation token as `bin2hex(random_bytes(32))` produces it: 64 lower-case hex digits. */
  predicate IsHexToken(t: string) {
    |t| == 2 * TokenByteCount && forall k :: 0 <= k < |t| ==> Encoding.IsLowerHexDigit(t[k])
  }

  /** The token the constructor draws from the given random bytes; it fits its column exactly. */
  function NewConfirmationToken(random: seq<uint8>): (t: string)
    requires |random| == TokenByteCount
    ensures IsHexToken(t) && |t| == TokenColumnLength
  {
    Encoding.Bin2Hex(random)
  }

  /** Distinct random draws give distinct confirmation tokens, as the unique column expects. */
  lemma NewTokensDiffer(a: seq<uint8>, b: seq<uint8>)
    requires |a| == TokenByteCount && |b| == TokenByteCount && a != b
    ensures NewConfirmationToken(a) != NewConfirmationToken(b)
  {
    if NewConfirmationToken(a) == NewConfirmationToken(b) {
      Encoding.Bin2HexInjective(a, b);
    }
  }

  class FormBookingEntity {
    var id: Option<int>
    var createdAt: Instant
    var arrivalDate: Option<Instant>
    var departureDate: Option<Instant>
    var numberOfPersons: string
    var childBirthdate: Option<Instant>
    var childAddress: string
    var hasSwimExperience: bool
    var swimExperienceDetails: Option<string>
    var notes: Option<string>
    var maySwimWithoutAid: bool
    var contactName: string
    var contactPhone: Option<string>
    var contactEmail: string
    var isMemberOfClub: bool
    var paymentMethod: string
    var participationConsent: bool
    var liabilityAcknowledged: bool
    var photoConsent: bool
    var dataConsent: bool
    var bookingConfirmation: bool
    var confirmationToken: string
    var isConfirmed: bool
    var confirmedAt: Option<Instant>
    var meta: Option<MetaRef>

    function Fields(): BookingFields
      reads this
    {
      BookingFields(id, createdAt, arrivalDate, departureDate, numberOfPersons, childBirthdate,
        childAddress, hasSwimExperience, swimExperienceDetails, notes, maySwimWithoutAid,
        contactName, contactPhone, contactEmail, isMemberOfClub, paymentMethod,
        participationConsent, liabilityAcknowledged, photoConsent, dataConsent,
        bookingConfirmation, confirmationToken, isConfirmed, confirmedAt, meta)
    }

    /**
      `new FormBookingEntity()`: `now` is the clock reading and `random` the
      32 bytes of `random_bytes`; every other field takes its declared default.
    */
    constructor (now: Instant, random: seq<uint8>)
      requires |random| == TokenByteCount
      ensures Fields() == BookingFields(
        None, now, None, None, "", None, "", false, None, None, false, "", None, "",
        false, "", false, false, false, false, false, NewConfirmationToken(random), false, None, None)
      ensures IsHexToken(confirmationToken) && |confirmationToken| == TokenColumnLength
      ensures !isConfirmed && confirmedAt == None && id == None
    {
      id := None;
      createdAt := now;
      arrivalDate := None;
      departureDate := None;
      numberOfPersons := "";
      childBirthdate := None;
      childAddress := "";
      hasSwimExperience := false;
      swimExperienceDetails := None;
      notes := None;
      maySwimWithoutAid := false;
      contactName := "";
      contactPhone := None;
      contactEmail := "";
      isMemberOfClub := false;
      paymentMethod := "";
      participationConsent := false;
      liabilityAcknowledged := false;
      photoConsent := false;
      dataConsent := false;
      bookingConfirmation := false;
      confirmationToken := NewConfirmationToken(random);
      isConfirmed := false;
      confirmedAt := None;
      meta := None;
    }

    method SetArrivalDate(arrivalDate: Option<Instant>) returns (self: FormBookingEntity)
      modifies this
      ensures Fields() == old(Fields()).(arrivalDate := arrivalDate) && self == this
    {
      this.arrivalDate := arrivalDate;
      self := this;
    }

    method SetDepartureDate(departureDate: Option<Instant>) returns (self: FormBookingEntity)
      modifies this
      ensures Fields() == old(Fields()).(departureDate := departureDate) && self == this
    {
      this.departureDate := departureDate;
      self := this;
    }

    method SetNumberOfPersons(numberOfPersons: string) returns (self: FormBookingEntity)
      modifies this
      ensures Fields() == old(Fields()).(numberOfPersons := numberOfPersons) && self == this
    {
      this.numberOfPersons := numberOfPersons;
      self := this;
    }

    method SetChildBirthdate(childBirthdate: Option<Instant>) returns (self: FormBookingEntity)
      modifies this
      ensures Fields() == old(Fields()).(childBirthdate := childBirthdate) && self == this
    {
      this.childBirthdate := childBirthdate;
      self := this;
    }

    method SetChildAddress(childAddress: string) returns (self: FormBookingEntity)
      modifies this
      ensures Fields() == old(Fields()).(childAddress := childAddress) && self == this
    {
      this.childAddress := childAddress;
      self := this;
    }

    method SetHasSwimExperience(hasSwimExperience: bool) returns (self: FormBookingEntity)
      modifies this
      ensures Fields() == old(Fields()).(hasSwimExperience := hasSwimExperience) && self == this
    {
      this.hasSwimExperience := hasSwimExperience;
      self := this;
    }

    method SetSwimExperienceDetails(swimExperienceDetails: Option<string>) returns (self: FormBookingEntity)
      modifies this
      ensures Fields() == old(Fields()).(swimExperienceDetails := swimExperienceDetails) && self == this
    {
      this.swimExperienceDetails := swimExperienceDetails;
      self := this;
    }

    method SetNotes(notes: Option<string>) returns (self: FormBookingEntity)
      modifies this
      ensures Fields() == old(Fields()).(notes := notes) && self == this
    {
      this.notes := notes;
      self := this;
    }

    method SetMaySwimWithoutAid(maySwimWithoutAid: bool) returns (self: FormBookingEntity)
      modifies this
      ensures Fields() == old(Fields()).(maySwimWithoutAid := maySwimWithoutAid) && self == this
    {
      this.maySwimWithoutAid := maySwimWithoutAid;
      self := this;
    }

    method SetContactName(contactName: string) returns (self: FormBookingEntity)
      modifies this
      ensures Fields() == old(Fields()).(contactName := contactName) && self == this
    {
      this.contactName := contactName;
      self := this;
    }

    method SetContactPhone(contactPhone: Option<string>) returns (self: FormBookingEntity)
      modifies this
      ensures Fields() == old(Fields()).(contactPhone := contactPhone) && self == this
    {
      this.contactPhone := contactPhone;
      self := this;
    }

    method SetContactEmail(contactEmail: string) returns (self: FormBookingEntity)
      modifies this
      ensures Fields() == old(Fields()).(contactEmail := contactEmail) && self == this
    {
      this.contactEmail := contactEmail;
      self := this;
    }

    method SetIsMemberOfClub(isMemberOfClub: bool) returns (self: FormBookingEntity)
      modifies this
      ensures Fields() == old(Fields()).(isMemberOfClub := isMemberOfClub) && self == this
    {
      this.isMemberOfClub := isMemberOfClub;
      self := this;
    }

    method SetPaymentMethod(paymentMethod: string) returns (self: FormBookingEntity)
      modifies this
      ensures Fields() == old(Fields()).(paymentMethod := paymentMethod) && self == this
    {
      this.paymentMethod := paymentMethod;
      self := this;
    }

    method SetParticipationConsent(participationConsent: bool) returns (self: FormBookingEntity)
      modifies this
      ensures Fields() == old(Fields()).(participationConsent := participationConsent) && self == this
    {
      this.participationConsent := participationConsent;
      self := this;
    }

    method SetLiabilityAcknowledged(liabilityAcknowledged: bool) returns (self: FormBookingEntity)
      modifies this
      ensures Fields() == old(Fields()).(liabilityAcknowledged := liabilityAcknowledged) && self == this
    {
      this.liabilityAcknowledged := liabilityAcknowledged;
      self := this;
    }

    method SetPhotoConsent(photoConsent: bool) returns (self: FormBookingEntity)
      modifies this
      ensures Fields() == old(Fields()).(photoConsent := photoConsent) && self == this
    {
      this.photoConsent := photoConsent;
      self := this;
    }

    method SetDataConsent(dataConsent: bool) returns (self: FormBookingEntity)
      modifies this
      ensures Fields() == old(Fields()).(dataConsent := dataConsent) && self == this
    {
      this.dataConsent := dataConsent;
      self := this;
    }

    method SetBookingConfirmation(bookingConfirmation: bool) returns (self: FormBookingEntity)
      modifies this
      ensures Fields() == old(Fields()).(bookingConfirmation := bookingConfirmation) && self == this
    {
      this.bookingConfirmation := bookingConfirmation;
      self := this;
    }

    /** The token setter takes any string: the hex shape is guaranteed only for the constructor's token. */
    method SetConfirmationToken(confirmationToken: string) returns (self: FormBookingEntity)
      modifies this
      ensures Fields() == old(Fields()).(confirmationToken := confirmationToken) && self == this
    {
      this.confirmationToken := confirmationToken;
      self := this;
    }

    /** Sets the flag only: `confirmedAt` is left as it was. */
    method SetIsConfirmed(isConfirmed: bool) returns (self: FormBookingEntity)
      modifies this
      ensures Fields() == old(Fields()).(isConfirmed := isConfirmed) && self == this
    {
      this.isConfirmed := isConfirmed;
      self := this;
    }

    /** Sets the timestamp only: `isConfirmed` is left as it was. */
    method SetConfirmedAt(confirmedAt: Option<Instant>) returns (self: FormBookingEntity)
      modifies this
      ensures Fields() == old(Fields()).(confirmedAt := confirmedAt) && self == this
    {
      this.confirmedAt := confirmedAt;
      self := this;
    }

    method SetMeta(meta: Option<MetaRef>) returns (self: FormBookingEntity)
      modifies this
      ensures Fields() == old(Fields()).(meta := meta) && self == this
    {
      this.meta := meta;
      self := this;
    }

    /**
      The setter that `op` names, called on this record: each setter call is
      the single-field update `Apply` describes.
    */
    method Do(op: Setter) returns (self: FormBookingEntity)
      modifies this
      ensures Fields() == Apply(old(Fields()), op) && self == this
    {
      if op.ArrivalDate? {
        self := SetArrivalDate(op.d);
      } else if op.DepartureDate? {
        self := SetDepartureDate(op.d);
      } else if op.NumberOfPersons? {
        self := SetNumberOfPersons(op.s);
      } else if op.ChildBirthdate? {
        self := SetChildBirthdate(op.d);
      } else if op.ChildAddress? {
        self := SetChildAddress(op.s);
      } else if op.HasSwimExperience? {
        self := SetHasSwimExperience(op.b);
      } else if op.SwimExperienceDetails? {
        self := SetSwimExperienceDetails(op.o);
      } else if op.Notes? {
        self := SetNotes(op.o);
      } else if op.MaySwimWithoutAid? {
        self := SetMaySwimWithoutAid(op.b);
      } else if op.ContactName? {
        self := SetContactName(op.s);
      } else if op.ContactPhone? {
        self := SetContactPhone(op.o);
      } else if op.ContactEmail? {
        self := SetContactEmail(op.s);
      } else if op.IsMemberOfClub? {
        self := SetIsMemberOfClub(op.b);
      } else if op.PaymentMethod? {
        self := SetPaymentMethod(op.s);
      } else if op.ParticipationConsent? {
        self := SetParticipationConsent(op.b);
      } else if op.LiabilityAcknowledged? {
        self := SetLiabilityAcknowledged(op.b);
      } else if op.PhotoConsent? {
        self := SetPhotoConsent(op.b);
      } else if op.DataConsent? {
        self := SetDataConsent(op.b);
      } else if op.BookingConfirmation? {
        self := SetBookingConfirmation(op.b);
      } else if op.ConfirmationToken? {
        self := SetConfirmationToken(op.s);
      } else if op.IsConfirmed? {
        self := SetIsConfirmed(op.b);
      } else if op.ConfirmedAt? {
        self := SetConfirmedAt(op.d);
      } else {
        self := SetMeta(op.m);
      }
    }
  }

  /**
    Every public operation after construction is one of the setters; each
    is a single-field update of the record. `id` and `createdAt` have no
    setter, so no sequence of setter calls changes them.
  */
  datatype Setter =
    | ArrivalDate(d: Option<Instant>) | DepartureDate(d: Option<Instant>) | NumberOfPersons(s: string)
    | ChildBirthdate(d: Option<Instant>) | ChildAddress(s: string) | HasSwimExperience(b: bool)
    | SwimExperienceDetails(o: Option<string>) | Notes(o: Option<string>) | MaySwimWithoutAid(b: bool)
    | ContactName(s: string) | ContactPhone(o: Option<string>) | ContactEmail(s: string)
    | IsMemberOfClub(b: bool) | PaymentMethod(s: string) | ParticipationConsent(b: bool)
    | LiabilityAcknowledged(b: bool) | PhotoConsent(b: bool) | DataConsent(b: bool)
    | BookingConfirmation(b: bool) | ConfirmationToken(s: string) | IsConfirmed(b: bool)
    | ConfirmedAt(d: Option<Instant>) | Meta(m: Option<MetaRef>)

  /** The record after one setter call; `FormBookingEntity.Do` proves the methods agree. */
  function Apply(r: BookingFields, op: Setter): (r': BookingFields)
    ensures r'.id == r.id && r'.createdAt == r.createdAt
    ensures !op.ConfirmationToken? ==> r'.confirmationToken == r.confirmationToken
    ensures !op.ConfirmedAt? ==> r'.confirmedAt == r.confirmedAt
  {
    match op
    case ArrivalDate(d) => r.(arrivalDate := d)
    case DepartureDate(d) => r.(departureDate := d)
    case NumberOfPersons(s) => r.(numberOfPersons := s)
    case ChildBirthdate(d) => r.(childBirthdate := d)
    case ChildAddress(s) => r.(childAddress := s)
    case HasSwimExperience(b) => r.(hasSwimExperience := b)
    case SwimExperienceDetails(o) => r.(swimExperienceDetails := o)
    case Notes(o) => r.(notes := o)
    case MaySwimWithoutAid(b) => r.(maySwimWithoutAid := b)
    case ContactName(s) => r.(contactName := s)
    case ContactPhone(o) => r.(contactPhone := o)
    case ContactEmail(s) => r.(contactEmail := s)
    case IsMemberOfClub(b) => r.(isMemberOfClub := b)
    case PaymentMethod(s) => r.(paymentMethod := s)
    case ParticipationConsent(b) => r.(participationConsent := b)
    case LiabilityAcknowledged(b) => r.(liabilityAcknowledged := b)
    case PhotoConsent(b) => r.(photoConsent := b)
    case DataConsent(b) => r.(dataConsent := b)
    case BookingConfirmation(b) => r.(bookingConfirmation := b)
    case ConfirmationToken(s) => r.(confirmationToken := s)
    case IsConfirmed(b) => r.(isConfirmed := b)
    case ConfirmedAt(d) => r.(confirmedAt := d)
    case Meta(m) => r.(meta := m)
  }

  function ApplyAll(r: BookingFields, ops: seq<Setter>): BookingFields
    decreases |ops|
  {
    if |ops| == 0 then r else ApplyAll(Apply(r, ops[0]), ops[1..])
  }

  /** No sequence of setter calls changes the identifier or the creation time. */
  lemma {:induction false} IdAndCreatedAtAreStable(r: BookingFields, ops: seq<Setter>)
    ensures ApplyAll(r, ops).id == r.id && ApplyAll(r, ops).createdAt == r.createdAt
    decreases |ops|
  {
    if |ops| > 0 {
      IdAndCreatedAtAreStable(Apply(r, ops[0]), ops[1..]);
    }
  }

  /**
    A getter returns the value most recently given to its setter: after
    `setConfirmationToken(t)`, later calls of other setters leave `t` in place.
  */
  lemma {:induction false} LastTokenWins(r: BookingFields, t: string, ops: seq<Setter>)
    requires forall k :: 0 <= k < |ops| ==> !ops[k].ConfirmationToken?
    ensures ApplyAll(r, [ConfirmationToken(t)] + ops).confirmationToken == t
    decreases |ops|
  {
    var r1 := Apply(r, ConfirmationToken(t));
    assert ([ConfirmationToken(t)] + ops)[1..] == ops;
    OthersKeepToken(r1, ops);
  }

  lemma {:induction false} OthersKeepToken(r: BookingFields, ops: seq<Setter>)
    requires forall k :: 0 <= k < |ops| ==> !ops[k].ConfirmationToken?
    ensures ApplyAll(r, ops).confirmationToken == r.confirmationToken
    decreases |ops|
  {
    if |ops| > 0 {
      assert !ops[0].ConfirmationToken?;
      OthersKeepToken(Apply(r, ops[0]), ops[1..]);
    }
  }

  /**
    `isConfirmed` and `confirmedAt` move independently: any number of calls
    to `setIsConfirmed` leave `confirmedAt` as it was, and vice versa
    (`ConfirmedAtKeepsIsConfirmed`).
  */
  lemma {:induction false} ConfirmationFieldsIndependent(r: BookingFields, ops: seq<Setter>)
    requires forall k :: 0 <= k < |ops| ==> ops[k].IsConfirmed?
    ensures ApplyAll(r, ops).confirmedAt == r.confirmedAt
    decreases |ops|
  {
    if |ops| > 0 {
      assert ops[0].IsConfirmed?;
      ConfirmationFieldsIndependent(Apply(r, ops[0]), ops[1..]);
    }
  }

  /** Any number of calls to `setConfirmedAt` leave `isConfirmed` as it was. */
  lemma {:induction false} ConfirmedAtKeepsIsConfirmed(r: BookingFields, ops: seq<Setter>)
    requires forall k :: 0 <= k < |ops| ==> ops[k].ConfirmedAt?
    ensures ApplyAll(r, ops).isConfirmed == r.isConfirmed
    decreases |ops|
  {
    if |ops| > 0 {
      assert ops[0].ConfirmedAt?;
      ConfirmedAtKeepsIsConfirmed(Apply(r, ops[0]), ops[1..]);
    }
  }
}
