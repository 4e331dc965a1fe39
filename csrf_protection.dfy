/**
  The browser half of the double-submit-cookie CSRF defence
  (assets/controllers/csrf_protection_controller.ts), the client side of
  Symfony's SameOriginCsrfTokenManager.

  A form's CSRF input first carries the token NAME. On the first submit the
  name is recorded in the attribute `data-csrf-protection-cookie-value`, the
  input's value is replaced by a fresh token (base64 of 18 random bytes),
  and a cookie `{name}_{token}={name}` is written. Around an enhanced
  (fetch-based) submission a header `{name}: {token}` is added, and after
  it the cookie is overwritten with an immediate expiry.

  The model keeps the DOM as small classes: the input field (attribute,
  value, and the values seen by `change` listeners), the form (which may
  have no CSRF input), the document (its protocol and the log of strings
  assigned to `document.cookie`), and the fetch request's header map. The
  pure functions below specify each handler; the methods are proved to do
  what those functions say.
*/
module CsrfProtection {
  import opened Common
  import Encoding

  // ---------------------------------------------------------------------
  // The two validators
  // ---------------------------------------------------------------------

  /** The character class `[-_a-zA-Z0-9]`. */
  predicate IsNameChar(c: char) {
    c == '-' || c == '_' || ('a' <= c <= 'z') || ('A' <= c <= 'Z') || ('0' <= c <= '9')
  }

  /** The character class `[-_/+a-zA-Z0-9]`. */
  predicate IsTokenChar(c: char) {
    IsNameChar(c) || c == '/' || c == '+'
  }

  /** `nameCheck`, the regular expression `^[-_a-zA-Z0-9]{4,22}$`. */
  predicate NameCheck(s: string) {
    4 <= |s| <= 22 && forall k :: 0 <= k < |s| ==> IsNameChar(s[k])
  }

  /** `tokenCheck`, the regular expression `^[-_/+a-zA-Z0-9]{24,}$`. */
  predicate TokenCheck(s: string) {
    24 <= |s| && forall k :: 0 <= k < |s| ==> IsTokenChar(s[k])
  }

  /** JavaScript truthiness of `getAttribute(...)`: neither `null` nor the empty string. */
  predicate Truthy(attr: Option<string>) {
    attr.Some? && attr.value != ""
  }

  // ---------------------------------------------------------------------
  // The state of a CSRF input and what each handler does with it
  // ---------------------------------------------------------------------

  /**
    The part of a CSRF input the handlers read and write: the cookie-binding
    attribute (`None` when absent) and the current value.
  */
  datatype FieldState = FieldState(cookieAttr: Option<string>, value: string)

  const RandomByteCount := 18

  /**
    The rebinding step of `generateCsrfToken`: when no binding is recorded
    and the value is a token name, the name moves into the attribute and the
    value becomes base64 of the random bytes; otherwise nothing changes.
  */
  function Bind(f: FieldState, random: seq<uint8>): FieldState
    requires |random| == RandomByteCount
  {
    if !Truthy(f.cookieAttr) && NameCheck(f.value)
    then FieldState(Some(f.value), Encoding.Base64Encode(random))
    else f
  }

  const HttpsProtocol := "https:"

  /** Over `https:` the cookie gets the `__Host-` prefix and the `secure` flag. */
  function CookieLine(cookie: string, protocol: string): string {
    if protocol == HttpsProtocol then "__Host-" + cookie + "; secure" else cookie
  }

  const SetAttributes := " path=/; samesite=strict"
  const DeleteAttributes := " path=/; samesite=strict; max-age=0"

  /** The string assigned to `document.cookie` to set the cookie: `{name}_{token}={name}; path=/; samesite=strict`. */
  function SetCookieLine(name: string, token: string, protocol: string): string {
    CookieLine(name + "_" + token + "=" + name + ";" + SetAttributes, protocol)
  }

  /** The string assigned to delete it again: `{name}_{token}=0; path=/; samesite=strict; max-age=0`. */
  function DeleteCookieLine(name: string, token: string, protocol: string): string {
    CookieLine(name + "_" + token + "=" + "0" + ";" + DeleteAttributes, protocol)
  }

  /** The cookie `generateCsrfToken` writes for a field state after rebinding, if any. */
  function TokenCookie(f: FieldState, protocol: string): Option<string> {
    if Truthy(f.cookieAttr) && TokenCheck(f.value)
    then Some(SetCookieLine(f.cookieAttr.value, f.value, protocol))
    else None
  }

  /** The guard shared by `generateCsrfHeaders` and `removeCsrfToken`. */
  predicate BindingChecked(f: FieldState) {
    TokenCheck(f.value) && Truthy(f.cookieAttr) && NameCheck(f.cookieAttr.value)
  }

  /** What one call of `generateCsrfToken` on a form with a CSRF input does. */
  datatype Generated = Generated(field: FieldState, cookie: Option<string>)

  function GenerateToken(f: FieldState, protocol: string, random: seq<uint8>): Generated
    requires |random| == RandomByteCount
  {
    var g := Bind(f, random);
    Generated(g, TokenCookie(g, protocol))
  }

  /**
    The one key whose assignment on a plain JavaScript object `{}` does not
    create an own property: it runs the inherited `__proto__` setter, which
    ignores a string, so `Object.keys` never lists it.
  */
  const ProtoKey := "__proto__"

  /**
    The header map `generateCsrfHeaders` returns; `None` is a form without a
    CSRF input. A binding named `__proto__` passes `nameCheck` and yet
    leaves the object empty.
  */
  function Headers(f: Option<FieldState>): map<string, string> {
    if f.Some? && BindingChecked(f.value) && f.value.cookieAttr.value != ProtoKey
    then map[f.value.cookieAttr.value := f.value.value]
    else map[]
  }

  /** The cookie `removeCsrfToken` writes, if any. */
  function RemovalCookie(f: FieldState, protocol: string): Option<string> {
    if BindingChecked(f) then Some(DeleteCookieLine(f.cookieAttr.value, f.value, protocol)) else None
  }

  // ---------------------------------------------------------------------
  // Reading a cookie string back: name, value and attributes
  // ---------------------------------------------------------------------

  /** The text before the first `c`, or all of `s` when `c` does not occur. */
  function Before(s: string, c: char): (r: string)
    ensures |r| <= |s| && r == s[..|r|] && c !in r
  {
    if |s| == 0 || s[0] == c then [] else [s[0]] + Before(s[1..], c)
  }

  /** The text after the first `c`, or the empty string when `c` does not occur. */
  function After(s: string, c: char): (r: string)
    ensures |r| <= |s|
  {
    if |s| == 0 then [] else if s[0] == c then s[1..] else After(s[1..], c)
  }

  lemma {:induction false} SplitAtFirst(x: string, c: char, y: string)
    requires c !in x
    ensures Before(x + [c] + y, c) == x && After(x + [c] + y, c) == y
  {
    if |x| > 0 {
      SplitAtFirst(x[1..], c, y);
      assert (x + [c] + y)[1..] == x[1..] + [c] + y;
    } else {
      assert x + [c] + y == [c] + y;
    }
  }

  /** The name of the cookie a `document.cookie` assignment sets: the text before the first `=`. */
  function CookieName(line: string): string {
    Before(line, '=')
  }

  /** The cookie's value: the text between the first `=` and the following `;`. */
  function CookieValue(line: string): string {
    Before(After(line, '='), ';')
  }

  /** The cookie attributes: the text after that `;`. */
  function CookieAttributes(line: string): string {
    After(After(line, '='), ';')
  }

  // ---------------------------------------------------------------------
  // The DOM objects
  // ---------------------------------------------------------------------

  /**
    The CSRF `<input>`. It is a hidden input, whose `value` reflects
    `defaultValue`, so one field stands for both. `dispatched` lists the
    value the field held at each `change` event.
  */
  class CsrfField {
    var cookieAttr: Option<string>
    var value: string
    var dispatched: seq<string>

    function State(): FieldState
      reads this
    {
      FieldState(cookieAttr, value)
    }

    constructor (cookieAttr: Option<string>, value: string)
      ensures State() == FieldState(cookieAttr, value) && dispatched == []
    {
      this.cookieAttr := cookieAttr;
      this.value := value;
      this.dispatched := [];
    }
  }

  /** A form; `csrfField` is what its `querySelector` for the CSRF input finds. */
  class FormElement {
    const csrfField: CsrfField?

    constructor (csrfField: CsrfField?)
      ensures this.csrfField == csrfField
    {
      this.csrfField := csrfField;
    }
  }

  /** `window.location.protocol` and the strings assigned to `document.cookie`, oldest first. */
  class Document {
    const protocol: string
    var cookieWrites: seq<string>

    constructor (protocol: string)
      ensures this.protocol == protocol && cookieWrites == []
    {
      this.protocol := protocol;
      this.cookieWrites := [];
    }
  }

  /** The `fetchRequest` of a Turbo form submission. */
  class FetchRequest {
    var headers: map<string, string>

    constructor (headers: map<string, string>)
      ensures this.headers == headers
    {
      this.headers := headers;
    }
  }

  /** The CSRF input's state, or `None` when the form has none. */
  function FormState(form: FormElement): Option<FieldState>
    reads form, form.csrfField
  {
    if form.csrfField == null then None else Some(form.csrfField.State())
  }

  // ---------------------------------------------------------------------
  // The handlers
  // ---------------------------------------------------------------------

  /**
    `generateCsrfToken`, run on every `submit` event in the capturing phase;
    `random` stands for the 18 bytes of `crypto.getRandomValues`.
  */
  method GenerateCsrfToken(form: FormElement, document: Document, random: seq<uint8>)
    requires |random| == RandomByteCount
    modifies form.csrfField, document
    ensures form.csrfField == null ==> document.cookieWrites == old(document.cookieWrites)
    ensures form.csrfField != null ==>
      var e := GenerateToken(old(form.csrfField.State()), document.protocol, random);
      && form.csrfField.State() == e.field
      && form.csrfField.dispatched == old(form.csrfField.dispatched) + [e.field.value]
      && document.cookieWrites == old(document.cookieWrites) + ToSeq(e.cookie)
  {
    var field := form.csrfField;
    if field == null {
      return;
    }
    var csrfCookie := field.cookieAttr;
    var csrfToken := field.value;
    if !Truthy(csrfCookie) && NameCheck(csrfToken) {
      csrfCookie := Some(csrfToken);
      field.cookieAttr := csrfCookie;
      csrfToken := Encoding.Base64Encode(random);
      field.value := csrfToken;
    }
    field.dispatched := field.dispatched + [field.value];
    if Truthy(csrfCookie) && TokenCheck(csrfToken) {
      document.cookieWrites := document.cookieWrites + [SetCookieLine(csrfCookie.value, csrfToken, document.protocol)];
    }
  }

  /** `generateCsrfHeaders`: fills a fresh header object; it changes nothing. */
  method GenerateCsrfHeaders(form: FormElement) returns (headers: map<string, string>)
    ensures headers == Headers(FormState(form))
  {
    headers := map[];
    var field := form.csrfField;
    if field == null {
      return;
    }
    var csrfCookie := field.cookieAttr;
    if TokenCheck(field.value) && Truthy(csrfCookie) && NameCheck(csrfCookie.value) {
      if csrfCookie.value != ProtoKey {
        headers := headers[csrfCookie.value := field.value];
      }
    }
  }

  /**
    The `turbo:submit-start` listener: every key of the CSRF header map is
    copied into the request's headers, one key at a time.
  */
  method OnSubmitStart(form: FormElement, request: FetchRequest)
    modifies request
    ensures request.headers == old(request.headers) + Headers(FormState(form))
  {
    var headers := GenerateCsrfHeaders(form);
    var keys := headers.Keys;
    while keys != {}
      invariant keys <= headers.Keys
      invariant request.headers == old(request.headers) + (map k | k in headers.Keys - keys :: headers[k])
      decreases keys
    {
      var key :| key in keys;
      request.headers := request.headers[key := headers[key]];
      keys := keys - {key};
    }
    assert (map k | k in headers.Keys - keys :: headers[k]) == headers;
  }

  /** `removeCsrfToken`, run on `turbo:submit-end`. */
  method RemoveCsrfToken(form: FormElement, document: Document)
    modifies document
    ensures document.cookieWrites == old(document.cookieWrites) +
      (if form.csrfField == null then [] else ToSeq(RemovalCookie(form.csrfField.State(), document.protocol)))
  {
    var field := form.csrfField;
    if field == null {
      return;
    }
    var csrfCookie := field.cookieAttr;
    if TokenCheck(field.value) && Truthy(csrfCookie) && NameCheck(csrfCookie.value) {
      document.cookieWrites := document.cookieWrites + [DeleteCookieLine(csrfCookie.value, field.value, document.protocol)];
    }
  }

  // ---------------------------------------------------------------------
  // Properties
  // ---------------------------------------------------------------------

  /** A fresh token is 24 base64 digits with no padding, so it always passes `tokenCheck`. */
  lemma FreshTokenPassesTokenCheck(random: seq<uint8>)
    requires |random| == RandomByteCount
    ensures var t := Encoding.Base64Encode(random);
      |t| == 24 && TokenCheck(t) && '=' !in t && ';' !in t
  {
    var t := Encoding.Base64Encode(random);
    Encoding.Base64Unpadded(random);
    assert forall k :: 0 <= k < |t| ==> IsTokenChar(t[k]);
  }

  /**
    Rebinding happens exactly when no binding is recorded and the value
    passes `nameCheck`; it records the old value and installs a token that
    passes `tokenCheck`.
  */
  lemma BindChangesIff(f: FieldState, random: seq<uint8>)
    requires |random| == RandomByteCount
    ensures Bind(f, random) != f <==> !Truthy(f.cookieAttr) && NameCheck(f.value)
    ensures Bind(f, random) != f ==>
      Bind(f, random).cookieAttr == Some(f.value) && TokenCheck(Bind(f, random).value)
  {
    FreshTokenPassesTokenCheck(random);
  }

  /** A second `generateCsrfToken` changes neither the binding nor the value, and writes the same cookie. */
  lemma GenerateTokenIdempotent(f: FieldState, protocol: string, r1: seq<uint8>, r2: seq<uint8>)
    requires |r1| == RandomByteCount && |r2| == RandomByteCount
    ensures var e := GenerateToken(f, protocol, r1);
      GenerateToken(e.field, protocol, r2) == e
  {
  }

  /**
    A cookie is written exactly when the call rebinds the field, or a
    binding was already recorded and the value passes `tokenCheck`.
  */
  lemma CookieWrittenIff(f: FieldState, protocol: string, random: seq<uint8>)
    requires |random| == RandomByteCount
    ensures GenerateToken(f, protocol, random).cookie.Some? <==>
      (!Truthy(f.cookieAttr) && NameCheck(f.value)) || (Truthy(f.cookieAttr) && TokenCheck(f.value))
  {
    FreshTokenPassesTokenCheck(random);
  }

  /** After a fresh binding the cookie is `{name}_{token}={name}`, with the old value as name. */
  lemma FreshBindingWritesCookie(f: FieldState, protocol: string, random: seq<uint8>)
    requires |random| == RandomByteCount
    requires !Truthy(f.cookieAttr) && NameCheck(f.value)
    ensures GenerateToken(f, protocol, random).cookie ==
      Some(SetCookieLine(f.value, Encoding.Base64Encode(random), protocol))
  {
    FreshTokenPassesTokenCheck(random);
  }

  function HostPrefix(protocol: string): string {
    if protocol == HttpsProtocol then "__Host-" else ""
  }

  function SecureSuffix(protocol: string): string {
    if protocol == HttpsProtocol then "; secure" else ""
  }

  lemma NoSeparators(name: string, token: string)
    requires NameCheck(name) && TokenCheck(token)
    ensures '=' !in name && ';' !in name && '=' !in token
  {
    assert forall k :: 0 <= k < |name| ==> name[k] != '=' && name[k] != ';';
    assert forall k :: 0 <= k < |token| ==> token[k] != '=';
  }

  /** A cookie string `{id}={value};{attributes}` read back into its three parts. */
  lemma LineParts(id: string, value: string, attributes: string)
    requires '=' !in id && ';' !in value
    ensures var line := id + "=" + value + ";" + attributes;
      CookieName(line) == id && CookieValue(line) == value && CookieAttributes(line) == attributes
  {
    var rest := value + ";" + attributes;
    assert id + "=" + value + ";" + attributes == id + ['='] + rest;
    SplitAtFirst(id, '=', rest);
    SplitAtFirst(value, ';', attributes);
  }

  /** The string written is `[__Host-]{cookie}[; secure]`, whatever the protocol. */
  lemma CookieLineShape(id: string, value: string, attributes: string, protocol: string)
    ensures CookieLine(id + "=" + value + ";" + attributes, protocol) ==
      (HostPrefix(protocol) + id) + "=" + value + ";" + (attributes + SecureSuffix(protocol))
  {
  }

  /**
    For a checked name and token, the cookie set is named
    `[__Host-]{name}_{token}`, holds the value `{name}` and carries
    `path=/; samesite=strict` (and `secure` over https).
  */
  lemma SetCookieParts(name: string, token: string, protocol: string)
    requires NameCheck(name) && TokenCheck(token)
    ensures var line := SetCookieLine(name, token, protocol);
      && CookieName(line) == HostPrefix(protocol) + name + "_" + token
      && CookieValue(line) == name
      && CookieAttributes(line) == SetAttributes + SecureSuffix(protocol)
  {
    NoSeparators(name, token);
    var id := HostPrefix(protocol) + name + "_" + token;
    assert id == HostPrefix(protocol) + (name + "_" + token);
    assert '=' !in HostPrefix(protocol) && '=' !in id;
    CookieLineShape(name + "_" + token, name, SetAttributes, protocol);
    LineParts(id, name, SetAttributes + SecureSuffix(protocol));
  }

  /**
    The deleting cookie has the same name, the value `0` and `max-age=0`,
    with the same path and `__Host-`/secure rule.
  */
  lemma DeleteCookieParts(name: string, token: string, protocol: string)
    requires NameCheck(name) && TokenCheck(token)
    ensures var line := DeleteCookieLine(name, token, protocol);
      && CookieName(line) == HostPrefix(protocol) + name + "_" + token
      && CookieValue(line) == "0"
      && CookieAttributes(line) == DeleteAttributes + SecureSuffix(protocol)
  {
    NoSeparators(name, token);
    var id := HostPrefix(protocol) + name + "_" + token;
    assert id == HostPrefix(protocol) + (name + "_" + token);
    assert '=' !in HostPrefix(protocol) && '=' !in id;
    CookieLineShape(name + "_" + token, "0", DeleteAttributes, protocol);
    LineParts(id, "0", DeleteAttributes + SecureSuffix(protocol));
  }

  /**
    Whenever the shared guard holds, the cookie `removeCsrfToken` deletes is
    the very cookie `generateCsrfToken` writes for the same field state.
  */
  lemma RemovalMatchesWrittenCookie(f: FieldState, protocol: string)
    requires BindingChecked(f)
    ensures TokenCookie(f, protocol).Some? && RemovalCookie(f, protocol).Some?
    ensures CookieName(RemovalCookie(f, protocol).value) == CookieName(TokenCookie(f, protocol).value)
    ensures CookieValue(RemovalCookie(f, protocol).value) == "0"
  {
    SetCookieParts(f.cookieAttr.value, f.value, protocol);
    DeleteCookieParts(f.cookieAttr.value, f.value, protocol);
  }

  /**
    The round trip of one submission: after a fresh binding, a cookie was
    written, and `removeCsrfToken` deletes a cookie of exactly that name.
  */
  lemma FreshBindingIsRemoved(f: FieldState, protocol: string, random: seq<uint8>)
    requires |random| == RandomByteCount
    requires !Truthy(f.cookieAttr) && NameCheck(f.value)
    ensures var e := GenerateToken(f, protocol, random);
      && e.cookie.Some?
      && RemovalCookie(e.field, protocol).Some?
      && CookieName(RemovalCookie(e.field, protocol).value) == CookieName(e.cookie.value)
      && CookieName(e.cookie.value) == HostPrefix(protocol) + f.value + "_" + Encoding.Base64Encode(random)
      && CookieValue(e.cookie.value) == f.value
  {
    FreshTokenPassesTokenCheck(random);
    var e := GenerateToken(f, protocol, random);
    assert BindingChecked(e.field);
    RemovalMatchesWrittenCookie(e.field, protocol);
    SetCookieParts(f.value, Encoding.Base64Encode(random), protocol);
  }

  /**
    After a fresh binding the header map has the single entry
    `{name: token}`: the header name is the cookie's value.
  */
  lemma FreshBindingHeaders(f: FieldState, protocol: string, random: seq<uint8>)
    requires |random| == RandomByteCount
    requires !Truthy(f.cookieAttr) && NameCheck(f.value)
    ensures Headers(Some(GenerateToken(f, protocol, random).field)) ==
      if f.value == ProtoKey then map[] else map[f.value := Encoding.Base64Encode(random)]
  {
    FreshTokenPassesTokenCheck(random);
  }

  /**
    A binding named `__proto__` is checked like any other, so its cookie is
    written and removed, but it never reaches the request headers.
  */
  lemma ProtoBindingSendsNoHeader(token: string, protocol: string)
    requires TokenCheck(token)
    ensures NameCheck(ProtoKey)
    ensures BindingChecked(FieldState(Some(ProtoKey), token))
    ensures Headers(Some(FieldState(Some(ProtoKey), token))) == map[]
    ensures RemovalCookie(FieldState(Some(ProtoKey), token), protocol).Some?
  {
    assert forall k :: 0 <= k < |ProtoKey| ==> IsNameChar(ProtoKey[k]);
  }

  /** The header map has at most one entry, keyed by the recorded binding and holding the field's token. */
  lemma HeadersAtMostOne(f: Option<FieldState>)
    ensures |Headers(f)| <= 1
    ensures forall k :: k in Headers(f) ==> f.Some? && f.value.cookieAttr == Some(k) && NameCheck(k)
    ensures forall k :: k in Headers(f) ==> Headers(f)[k] == f.value.value && TokenCheck(f.value.value)
  {
  }

  /** The submit-start merge adds the CSRF keys and leaves every other header as it was. */
  lemma SubmitStartKeepsOtherHeaders(base: map<string, string>, f: Option<FieldState>, key: string)
    requires key !in Headers(f)
    ensures key in base + Headers(f) <==> key in base
    ensures key in base ==> (base + Headers(f))[key] == base[key]
  {
  }

  /** The field's value and the cookie's value are never the same string. */
  lemma FieldValueIsNotCookieValue(f: FieldState)
    requires BindingChecked(f)
    ensures f.value != f.cookieAttr.value
  {
  }

  /**
    `generateCsrfToken` checks only that a recorded binding is non-empty,
    whereas the header and removal handlers also apply `nameCheck`: a
    binding that fails `nameCheck` gets a cookie that is never sent as a
    header nor removed.
  */
  lemma UncheckedBindingIsNeverRemoved(f: FieldState, protocol: string)
    requires Truthy(f.cookieAttr) && !NameCheck(f.cookieAttr.value) && TokenCheck(f.value)
    ensures TokenCookie(f, protocol).Some?
    ensures RemovalCookie(f, protocol) == None
    ensures Headers(Some(f)) == map[]
  {
  }

  /** Such bindings exist: `"bad name"` contains a space, which `nameCheck` refuses. */
  lemma UncheckedBindingExample(protocol: string)
    ensures var f := FieldState(Some("bad name"), "AAAAAAAAAAAAAAAAAAAAAAAA");
      Truthy(f.cookieAttr) && !NameCheck(f.cookieAttr.value) && TokenCheck(f.value)
  {
    var f := FieldState(Some("bad name"), "AAAAAAAAAAAAAAAAAAAAAAAA");
    assert !IsNameChar(f.cookieAttr.value[3]);
  }
}
