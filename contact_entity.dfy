/**
  The `Contact` record (src/Entity/Contact.php): a class whose constructor
  stamps the creation time and whose fluent setters write one field each,
  plus the validation rules its `Assert` attributes declare.
*/
module ContactEntity {
  import opened Common
  import opened Constraints

  datatype ContactFields = ContactFields(
    id: Option<int>,
    name: Option<string>,
    email: Option<string>,
    subject: Option<string>,
    message: Option<string>,
    createdAt: Option<Instant>)

  class Contact {
    var id: Option<int>
    var name: Option<string>
    var email: Option<string>
    var subject: Option<string>
    var message: Option<string>
    var createdAt: Option<Instant>

    function Fields(): ContactFields
      reads this
    {
      ContactFields(id, name, email, subject, message, createdAt)
    }

    /** `new Contact()`: only the creation time is set; `now` is the clock reading. */
    constructor (now: Instant)
      ensures Fields() == ContactFields(None, None, None, None, None, Some(now))
    {
      id := None;
      name := None;
      email := None;
      subject := None;
      message := None;
      createdAt := Some(now);
    }

    method SetName(name: string) returns (self: Contact)
      modifies this
      ensures Fields() == old(Fields()).(name := Some(name)) && self == this
    {
      this.name := Some(name);
      self := this;
    }

    method SetEmail(email: string) returns (self: Contact)
      modifies this
      ensures Fields() == old(Fields()).(email := Some(email)) && self == this
    {
      this.email := Some(email);
      self := this;
    }

    /** The only setter that accepts `null`. */
    method SetSubject(subject: Option<string>) returns (self: Contact)
      modifies this
      ensures Fields() == old(Fields()).(subject := subject) && self == this
    {
      this.subject := subject;
      self := this;
    }

    method SetMessage(message: string) returns (self: Contact)
      modifies this
      ensures Fields() == old(Fields()).(message := Some(message)) && self == this
    {
      this.message := Some(message);
      self := this;
    }

    method SetCreatedAt(createdAt: Instant) returns (self: Contact)
      modifies this
      ensures Fields() == old(Fields()).(createdAt := Some(createdAt)) && self == this
    {
      this.createdAt := Some(createdAt);
      self := this;
    }

    /**
      The setter that `op` names, called on this record: each setter call is
      the single-field update `Apply` describes.
    */
    method Do(op: Setter) returns (self: Contact)
      modifies this
      ensures Fields() == Apply(old(Fields()), op) && self == this
    {
      match op
      case WriteName(s) => self := SetName(s);
      case WriteEmail(s) => self := SetEmail(s);
      case WriteSubject(o) => self := SetSubject(o);
      case WriteMessage(s) => self := SetMessage(s);
      case WriteCreatedAt(t) => self := SetCreatedAt(t);
    }
  }

  /** The violations of a contact record under its property constraints. */
  function ContactViolations(c: ContactFields, isEmail: string -> bool): set<Violation> {
    At("name", NotBlank(c.name) + Length(c.name, 2, Some(255)))
    + At("email", NotBlank(c.email) + Email(c.email, isEmail))
    + At("subject", Length(c.subject, 0, Some(255)))
    + At("message", NotBlank(c.message) + Length(c.message, 10, None))
  }

  /** The plain-language reading of the record's constraints. */
  predicate ContactAcceptable(c: ContactFields, isEmail: string -> bool) {
    && c.name.Some? && 2 <= |c.name.value| <= 255
    && c.email.Some? && c.email.value != "" && isEmail(c.email.value)
    && (c.subject.None? || |c.subject.value| <= 255)
    && c.message.Some? && 10 <= |c.message.value|
  }

  /**
    A record is valid iff its name has 2 to 255 characters, its email is a
    non-empty address of any length, its subject is absent or at most 255
    characters and its message has at least ten.
  */
  lemma ContactValidIff(c: ContactFields, isEmail: string -> bool)
    ensures ContactViolations(c, isEmail) == {} <==> ContactAcceptable(c, isEmail)
  {
    AtEmpty("name", NotBlank(c.name) + Length(c.name, 2, Some(255)));
    AtEmpty("email", NotBlank(c.email) + Email(c.email, isEmail));
    AtEmpty("subject", Length(c.subject, 0, Some(255)));
    AtEmpty("message", NotBlank(c.message) + Length(c.message, 10, None));
  }

  /** A freshly constructed record is invalid: its required fields are still `null`. */
  lemma NewContactIsInvalid(now: Instant, isEmail: string -> bool)
    ensures Violation("name", Blank) in ContactViolations(ContactFields(None, None, None, None, None, Some(now)), isEmail)
    ensures Violation("email", Blank) in ContactViolations(ContactFields(None, None, None, None, None, Some(now)), isEmail)
    ensures Violation("message", Blank) in ContactViolations(ContactFields(None, None, None, None, None, Some(now)), isEmail)
  {
  }

  /** The setters' effects, as updates of the record value; `Contact.Do` proves the methods agree. */
  datatype Setter =
    WriteName(s: string) | WriteEmail(s: string) | WriteSubject(o: Option<string>) | WriteMessage(s: string) | WriteCreatedAt(t: Instant)

  function Apply(c: ContactFields, op: Setter): (c': ContactFields)
    ensures c'.id == c.id
    ensures !op.WriteName? ==> c'.name == c.name
    ensures !op.WriteSubject? ==> c'.subject == c.subject
  {
    match op
    case WriteName(s) => c.(name := Some(s))
    case WriteEmail(s) => c.(email := Some(s))
    case WriteSubject(o) => c.(subject := o)
    case WriteMessage(s) => c.(message := Some(s))
    case WriteCreatedAt(t) => c.(createdAt := Some(t))
  }

  function ApplyAll(c: ContactFields, ops: seq<Setter>): ContactFields
    decreases |ops|
  {
    if |ops| == 0 then c else ApplyAll(Apply(c, ops[0]), ops[1..])
  }

  /** No sequence of setter calls changes the identifier. */
  lemma {:induction false} IdIsStable(c: ContactFields, ops: seq<Setter>)
    ensures ApplyAll(c, ops).id == c.id
    decreases |ops|
  {
    if |ops| > 0 {
      IdIsStable(Apply(c, ops[0]), ops[1..]);
    }
  }

  /** `getName` returns the last name set, whatever other setters ran after it. */
  lemma {:induction false} LastNameWins(c: ContactFields, name: string, ops: seq<Setter>)
    requires forall k :: 0 <= k < |ops| ==> !ops[k].WriteName?
    ensures ApplyAll(c, [WriteName(name)] + ops).name == Some(name)
  {
    assert ([WriteName(name)] + ops)[1..] == ops;
    OthersKeepName(Apply(c, WriteName(name)), ops);
  }

  lemma {:induction false} OthersKeepName(c: ContactFields, ops: seq<Setter>)
    requires forall k :: 0 <= k < |ops| ==> !ops[k].WriteName?
    ensures ApplyAll(c, ops).name == c.name
    decreases |ops|
  {
    if |ops| > 0 {
      assert !ops[0].WriteName?;
      OthersKeepName(Apply(c, ops[0]), ops[1..]);
    }
  }
}
