/**
  The validation constraints the forms and the `Contact` entity declare
  (`Assert\NotBlank`, `Assert\Length`, `Assert\Regex`, `Assert\Email`,
  `Assert\IsTrue`), each with the way Symfony's validator applies it to a
  single value: which inputs it skips and which rule it reports.

  Every constraint on a field is applied; a field collects the violations
  of all of them (a blank name with a minimum length reports both the
  blank rule and the length rule).
*/
module Constraints {
  import opened Common

  /** The rule a violation reports; each corresponds to one constraint message. */
  datatype Rule = Blank | TooShort | TooLong | NoMatch | InvalidEmail | NotTrue

  /** A violation: the property path it is attached to and the rule it breaks. */
  datatype Violation = Violation(path: string, rule: Rule)

  /** `NotBlank`: rejects `null` and the empty string; `"0"` is not blank. */
  function NotBlank(v: Option<string>): (r: set<Rule>)
    ensures r <= {Blank}
    ensures r == {} <==> v.Some? && |v.value| > 0
  {
    if v.None? || v.value == "" then {Blank} else {}
  }

  /** `NotBlank` on a value that is never a string, such as a date: only `null` is blank. */
  function NotBlankValue<T>(v: Option<T>): (r: set<Rule>)
    ensures r <= {Blank}
    ensures r == {} <==> v.Some?
  {
    if v.None? then {Blank} else {}
  }

  /**
    `Length`: skips only `null`, so the empty string is measured (and is too
    short for a positive minimum). Length counts characters. An over-long
    value reports only the maximum.
  */
  function Length(v: Option<string>, min: nat, max: Option<nat>): (r: set<Rule>)
    ensures r <= {TooShort, TooLong} && |r| <= 1
    ensures r == {} <==> v.None? || (min <= |v.value| && (max.None? || |v.value| <= max.value))
  {
    if v.None? then {}
    else if max.Some? && |v.value| > max.value then {TooLong}
    else if |v.value| < min then {TooShort}
    else {}
  }

  /** `Regex`: skips `null` and the empty string; `matches` is the compiled pattern. */
  function Regex(v: Option<string>, matches: string -> bool): (r: set<Rule>)
    ensures r <= {NoMatch}
    ensures r == {} <==> v.None? || v.value == "" || matches(v.value)
  {
    if v.None? || v.value == "" || matches(v.value) then {} else {NoMatch}
  }

  /**
    `Email`: skips `null` and the empty string. The address grammar the
    validator applies is outside the model and arrives as `isEmail`.
  */
  function Email(v: Option<string>, isEmail: string -> bool): (r: set<Rule>)
    ensures r <= {InvalidEmail}
    ensures r == {} <==> v.None? || v.value == "" || isEmail(v.value)
  {
    if v.None? || v.value == "" || isEmail(v.value) then {} else {InvalidEmail}
  }

  /** `IsTrue` on a checkbox value: only a ticked box passes. */
  function IsTrue(b: bool): (r: set<Rule>)
    ensures r <= {NotTrue}
    ensures r == {} <==> b
  {
    if b then {} else {NotTrue}
  }

  /** The violations of one property, each tagged with its path. */
  function At(path: string, rules: set<Rule>): (r: set<Violation>)
    ensures forall x :: x in r <==> x.path == path && x.rule in rules
  {
    set rule | rule in rules :: Violation(path, rule)
  }

  /** A property reports nothing exactly when none of its rules is broken. */
  lemma AtEmpty(path: string, rules: set<Rule>)
    ensures At(path, rules) == {} <==> rules == {}
  {
    if rules != {} {
      var r :| r in rules;
      assert Violation(path, r) in At(path, rules);
    }
  }

  /** The violations reported for one property of a form or entity. */
  function On(vs: set<Violation>, path: string): set<Rule> {
    set x | x in vs && x.path == path :: x.rule
  }

  /**
    A text value after the form's `trim` step: it neither starts nor ends
    with one of these characters. They are a subset of what the step strips
    (Unicode separators, control and format characters); the others, such
    as U+00A0 or U+0001, are not digits and fail the persons pattern anyway.
  */
  predicate IsTrimmable(c: char) {
    c == ' ' || c == '\t' || c == '\n' || c == '\r' || c == '\0' || c == '\U{B}'
  }

  predicate Trimmed(s: string) {
    |s| == 0 || (!IsTrimmable(s[0]) && !IsTrimmable(s[|s| - 1]))
  }
}
