# huette9 core, modelled in Dafny

This project models the behavioural core of the huette9 website, a booking
and contact site for a mountain hut written in Symfony with a Stimulus/Turbo
front end:

- **The browser half of the double-submit CSRF defence**
  (`assets/controllers/csrf_protection_controller.ts`).
  - A form's CSRF input is rebound from a token name to a fresh base64
    token.
  - A cookie `{name}_{token}={name}` is written.
  - A header `{name}: {token}` is added to Turbo submissions, and the
    cookie is deleted after them.
  - The DOM appears as small classes: the input, the form, the document's
    cookie log and the fetch request.
  - Each handler is a method that is proved to do what a pure
    specification function says.
  - The base64 encoding (section 4 of RFC 4648) is defined with its
    decoder. The round trip is proved.
- **The booking record** (`src/Entity/FormBookingEntity.php`).
  - A class with every column.
  - A constructor that stamps the clock and draws a `bin2hex` token of 32
    random bytes.
  - One fluent setter per field, each proved to change that field only.
- **The form rules**. The constraints declared by
  `src/Form/FormBookingType.php`, `src/Form/FormContactType.php` and the
  `Assert` attributes of `src/Entity/Contact.php` become validation
  functions.
  - Symfony applies each constraint by its own rule:
    - `NotBlank` rejects `null` and `""`.
    - `Length` skips only `null`.
    - `Regex` and `Email` skip `null` and `""`.
    - `IsTrue` needs a ticked box.
  - Each validation function is proved equal to a plain reading of the
    rules.
  - On trimmed input, the persons pattern `^(?:[1-9]|1[0-9]|20)$` is
    proved to accept exactly the numerals 1 to 20.
- **Locale negotiation** (`src/EventListener/LocaleListener.php`,
  `src/Controller/LocaleController.php`).
  - A locale stored in the session wins. Next comes the browser's
    preferred language, cut to two letters. Last comes the default `de`.
  - The switch route writes the session and redirects, to the Referer
    when it is PHP-truthy.
- **Controller dispatch** (the Booking, Contact, Privacy, Imprint and Home
  controllers).
  - A locale template falls back to the English one.
  - A priority chain over query parameters picks at most one flash message.

Foreign inputs are parameters:

- the random bytes;
- the clock reading;
- the browser's preferred language;
- the e-mail address grammar of `Assert\Email`;
- the Twig loader's `exists`;
- the answers of the booking and contact services.

## Model

| member | source | states |
|---|---|---|
| Encoding.Base64Encode | assets/controllers/csrf_protection_controller.ts:68-70 | `btoa` over the bytes of `String.fromCharCode`: 4 characters per started group of three bytes |
| Encoding.Base64RoundTrip | assets/controllers/csrf_protection_controller.ts:68-70 | decoding the base64 text of any byte string gives that byte string back |
| Encoding.Base64Injective | assets/controllers/csrf_protection_controller.ts:68-70 | distinct random byte strings give distinct tokens |
| Encoding.Base64Unpadded | assets/controllers/csrf_protection_controller.ts:69 | a whole number of three-byte groups (18 bytes) encodes to alphabet digits only, with no `=` padding |
| Encoding.Bin2Hex | src/Entity/FormBookingEntity.php:94 | `bin2hex` yields two lower-case hex digits per byte |
| Encoding.HexRoundTrip | src/Entity/FormBookingEntity.php:94 | the hex text of any byte string decodes back to it |
| Encoding.Bin2HexInjective | src/Entity/FormBookingEntity.php:94 | distinct byte strings give distinct hex tokens |
| CsrfProtection.NameCheck | assets/controllers/csrf_protection_controller.ts:1 | `nameCheck`, the regular expression `^[-_a-zA-Z0-9]{4,22}$`, as written |
| CsrfProtection.TokenCheck | assets/controllers/csrf_protection_controller.ts:2 | `tokenCheck`, the regular expression `^[-_/+a-zA-Z0-9]{24,}$`, as written |
| CsrfProtection.GenerateCsrfToken | assets/controllers/csrf_protection_controller.ts:53-80 | without a CSRF input nothing is written. With one, the input's new state is the rebinding, exactly one `change` event is dispatched with the new value, and the cookie log grows by exactly the cookie the guard of line 74 allows |
| CsrfProtection.GenerateCsrfHeaders | assets/controllers/csrf_protection_controller.ts:82-99 | returns the header map of the specification: empty without a CSRF input, without a checked binding, or for a binding named `__proto__`, whose assignment on `{}` adds no key; it changes nothing |
| CsrfProtection.OnSubmitStart | assets/controllers/csrf_protection_controller.ts:39-45 | the request's headers afterwards are the old headers overwritten by the CSRF header map, key by key, so a `__proto__` binding adds nothing |
| CsrfProtection.RemoveCsrfToken | assets/controllers/csrf_protection_controller.ts:101-118 | the cookie log grows by the deleting cookie when the shared guard holds, and by nothing otherwise (including without a CSRF input) |
| CsrfProtection.FreshTokenPassesTokenCheck | assets/controllers/csrf_protection_controller.ts:68-70 | base64 of 18 bytes is 24 characters, passes `tokenCheck`, and contains no `=` or `;` |
| CsrfProtection.BindChangesIff | assets/controllers/csrf_protection_controller.ts:62-71 | the field changes iff the attribute is absent or empty and the value passes `nameCheck`; the attribute then holds the old value and the new value passes `tokenCheck` |
| CsrfProtection.GenerateTokenIdempotent | assets/controllers/csrf_protection_controller.ts:62-79 | a second call changes neither attribute nor value and writes the same cookie, whatever random bytes it draws |
| CsrfProtection.CookieWrittenIff | assets/controllers/csrf_protection_controller.ts:65-79 | a cookie is written iff the call rebinds, or a binding was recorded and the value passes `tokenCheck` |
| CsrfProtection.FreshBindingWritesCookie | assets/controllers/csrf_protection_controller.ts:65-79 | after a fresh rebinding the cookie `{name}_{token}={name}; path=/; samesite=strict` is always written, with the old value as name |
| CsrfProtection.SetCookieParts | assets/controllers/csrf_protection_controller.ts:75-78 | the cookie set is named `[__Host-]{name}_{token}` and has the value `{name}` and the attributes `path=/; samesite=strict[; secure]`; the prefix and `secure` come exactly over `https:` |
| CsrfProtection.DeleteCookieParts | assets/controllers/csrf_protection_controller.ts:113-116 | the deleting cookie has the same name, the value `0` and the attributes `path=/; samesite=strict; max-age=0[; secure]` |
| CsrfProtection.RemovalMatchesWrittenCookie | assets/controllers/csrf_protection_controller.ts:112-116 | under the shared guard both cookies exist and the deleted name equals the written name |
| CsrfProtection.FreshBindingIsRemoved | assets/controllers/csrf_protection_controller.ts:110-117 | after a fresh binding, the cookie removed after submission is exactly the one written on submit |
| CsrfProtection.FreshBindingHeaders | assets/controllers/csrf_protection_controller.ts:92-96 | after a fresh binding the header map is the single entry `{name: token}`, or empty when the name is `__proto__` |
| CsrfProtection.ProtoBindingSendsNoHeader | assets/controllers/csrf_protection_controller.ts:83-95 | a binding named `__proto__` passes `nameCheck` and the shared guard, so its cookie is removed, yet the header map stays empty |
| CsrfProtection.HeadersAtMostOne | assets/controllers/csrf_protection_controller.ts:92-98 | the header map has at most one entry, keyed by a recorded binding that passes `nameCheck`, and its value is the field's token, which passes `tokenCheck` |
| CsrfProtection.SubmitStartKeepsOtherHeaders | assets/controllers/csrf_protection_controller.ts:41-44 | header keys outside the CSRF map keep their presence and value |
| CsrfProtection.FieldValueIsNotCookieValue | assets/controllers/csrf_protection_controller.ts:94 | under the guard the token (at least 24 characters) differs from the name (at most 22) |
| CsrfProtection.UncheckedBindingIsNeverRemoved | assets/controllers/csrf_protection_controller.ts:110-117 | every non-empty recorded binding that fails `nameCheck`, with a value that passes `tokenCheck`, still gets a cookie at line 74, but no header and no removal |
| CsrfProtection.UncheckedBindingExample | assets/controllers/csrf_protection_controller.ts:74 | such a binding exists: `bad name` is non-empty and fails `nameCheck` |
| BookingEntity.NewConfirmationToken | src/Entity/FormBookingEntity.php:78-94 | the constructor's token is 64 lower-case hex digits, the column's length |
| BookingEntity.NewTokensDiffer | src/Entity/FormBookingEntity.php:78-94 | distinct random draws give distinct tokens, as the unique column needs |
| BookingEntity.FormBookingEntity.constructor | src/Entity/FormBookingEntity.php:16-95 | `id`, the dates, `confirmedAt` and `meta` are null; the non-nullable strings are empty and `swimExperienceDetails`, `notes` and `contactPhone` are null; every flag is false; `createdAt` is the clock reading; the token is hex of the random bytes |
| BookingEntity.FormBookingEntity.SetArrivalDate | src/Entity/FormBookingEntity.php:112-117 | only `arrivalDate` changes; returns the same object |
| BookingEntity.FormBookingEntity.SetDepartureDate | src/Entity/FormBookingEntity.php:124-129 | only `departureDate` changes; returns the same object |
| BookingEntity.FormBookingEntity.SetNumberOfPersons | src/Entity/FormBookingEntity.php:136-141 | only `numberOfPersons` changes; returns the same object |
| BookingEntity.FormBookingEntity.SetChildBirthdate | src/Entity/FormBookingEntity.php:148-153 | only `childBirthdate` changes; returns the same object |
| BookingEntity.FormBookingEntity.SetChildAddress | src/Entity/FormBookingEntity.php:160-165 | only `childAddress` changes; returns the same object |
| BookingEntity.FormBookingEntity.SetHasSwimExperience | src/Entity/FormBookingEntity.php:172-177 | only `hasSwimExperience` changes; returns the same object |
| BookingEntity.FormBookingEntity.SetSwimExperienceDetails | src/Entity/FormBookingEntity.php:184-189 | only `swimExperienceDetails` changes; returns the same object |
| BookingEntity.FormBookingEntity.SetNotes | src/Entity/FormBookingEntity.php:196-201 | only `notes` changes; returns the same object |
| BookingEntity.FormBookingEntity.SetMaySwimWithoutAid | src/Entity/FormBookingEntity.php:208-213 | only `maySwimWithoutAid` changes; returns the same object |
| BookingEntity.FormBookingEntity.SetContactName | src/Entity/FormBookingEntity.php:220-225 | only `contactName` changes; returns the same object |
| BookingEntity.FormBookingEntity.SetContactPhone | src/Entity/FormBookingEntity.php:232-237 | only `contactPhone` changes; returns the same object |
| BookingEntity.FormBookingEntity.SetContactEmail | src/Entity/FormBookingEntity.php:244-249 | only `contactEmail` changes; returns the same object |
| BookingEntity.FormBookingEntity.SetIsMemberOfClub | src/Entity/FormBookingEntity.php:256-261 | only `isMemberOfClub` changes; returns the same object |
| BookingEntity.FormBookingEntity.SetPaymentMethod | src/Entity/FormBookingEntity.php:268-273 | only `paymentMethod` changes; returns the same object |
| BookingEntity.FormBookingEntity.SetParticipationConsent | src/Entity/FormBookingEntity.php:280-285 | only `participationConsent` changes; returns the same object |
| BookingEntity.FormBookingEntity.SetLiabilityAcknowledged | src/Entity/FormBookingEntity.php:292-297 | only `liabilityAcknowledged` changes; returns the same object |
| BookingEntity.FormBookingEntity.SetPhotoConsent | src/Entity/FormBookingEntity.php:304-309 | only `photoConsent` changes; returns the same object |
| BookingEntity.FormBookingEntity.SetDataConsent | src/Entity/FormBookingEntity.php:316-321 | only `dataConsent` changes; returns the same object |
| BookingEntity.FormBookingEntity.SetBookingConfirmation | src/Entity/FormBookingEntity.php:328-333 | only `bookingConfirmation` changes; returns the same object |
| BookingEntity.FormBookingEntity.SetConfirmationToken | src/Entity/FormBookingEntity.php:340-345 | only `confirmationToken` changes, to any string; returns the same object |
| BookingEntity.FormBookingEntity.SetIsConfirmed | src/Entity/FormBookingEntity.php:352-357 | only `isConfirmed` changes (`confirmedAt` is kept); returns the same object |
| BookingEntity.FormBookingEntity.SetConfirmedAt | src/Entity/FormBookingEntity.php:364-369 | only `confirmedAt` changes (`isConfirmed` is kept); returns the same object |
| BookingEntity.FormBookingEntity.SetMeta | src/Entity/FormBookingEntity.php:376-381 | only `meta` changes; returns the same object |
| BookingEntity.FormBookingEntity.Do | src/Entity/FormBookingEntity.php:112-381 | calling the setter an operation names changes the record exactly as `Apply` says, so the sequence lemmas hold of the setter methods |
| BookingEntity.Apply | src/Entity/FormBookingEntity.php:112-381 | no setter touches `id` or `createdAt`; only the token setter touches the token, only `setConfirmedAt` touches `confirmedAt` |
| BookingEntity.IdAndCreatedAtAreStable | src/Entity/FormBookingEntity.php:97-105 | no sequence of setter calls changes `id` or `createdAt`, since neither has a setter |
| BookingEntity.LastTokenWins | src/Entity/FormBookingEntity.php:335-345 | after `setConfirmationToken(t)`, the token getter returns `t` whatever other setters run afterwards |
| BookingEntity.ConfirmationFieldsIndependent | src/Entity/FormBookingEntity.php:352-369 | any number of `setIsConfirmed` calls leave `confirmedAt` unchanged |
| BookingEntity.ConfirmedAtKeepsIsConfirmed | src/Entity/FormBookingEntity.php:352-369 | any number of `setConfirmedAt` calls leave `isConfirmed` unchanged |
| Constraints.NotBlank | src/Form/FormBookingType.php:74 | `NotBlank` reports a violation exactly for `null` and `""` |
| Constraints.NotBlankValue | src/Form/FormBookingType.php:30 | `NotBlank` on a date reports exactly a missing date |
| Constraints.Length | src/Form/FormBookingType.php:75-80 | `Length` passes `null` and otherwise requires min <= length <= max; at most one rule is reported |
| Constraints.Regex | src/Form/FormBookingType.php:58 | `Regex` passes `null`, `""` and matching strings only |
| Constraints.Email | src/Form/FormBookingType.php:94 | `Email` passes `null`, `""` and strings the address grammar accepts |
| Constraints.IsTrue | src/Form/FormBookingType.php:140 | `IsTrue` passes only a ticked box |
| Constraints.At | src/Form/FormBookingType.php:29-31 | the violations of a property carry its path and exactly its broken rules |
| BookingForm.PersonsAlternativesAreOneToTwenty | src/Form/FormBookingType.php:58 | the alternatives `[1-9]`, `1[0-9]` and `20` match exactly the numerals of 1 to 20 |
| BookingForm.PersonsValidIff | src/Form/FormBookingType.php:57-58 | a trimmed persons value is free of violations iff it is the numeral of some n from 1 to 20, with no sign or leading zero |
| BookingForm.PersonsBoundaries | src/Form/FormBookingType.php:57-58 | "1" and "20" pass; "0", "21" and "01" break the pattern; "" is blank |
| BookingForm.PersonsPatternAcceptsFinalLineFeed | src/Form/FormBookingType.php:58 | PCRE's `$` also accepts "5\n", a value the trim step removes |
| BookingForm.PersonsRules | src/Form/FormBookingType.php:56-59 | the persons value reports nothing iff it is non-empty and matches the persons pattern |
| BookingForm.NameRules | src/Form/FormBookingType.php:73-81 | the name reports nothing iff it has 2–255 characters |
| BookingForm.EmailRules | src/Form/FormBookingType.php:92-96 | the email reports nothing iff it is non-empty, at most 200 characters and a valid address |
| BookingForm.PhoneRules | src/Form/FormBookingType.php:107-115 | the phone reports nothing iff it has 6–40 characters |
| BookingForm.NotesRules | src/Form/FormBookingType.php:126-128 | the notes report nothing iff they have at most 2000 characters |
| BookingForm.BookingValidIff | src/Form/FormBookingType.php:24-164 | a booking has no violation iff both dates are present (in no particular order), persons is 1–20, the name is 2–255 characters, the email is a non-empty address of at most 200 characters, the phone is 6–40 characters, the notes are at most 2000 and consent is given; the honeypots are not checked |
| BookingForm.ConsentRequired | src/Form/FormBookingType.php:136-141 | without consent the booking always has a consent violation |
| BookingForm.EmptyPhoneRejected | src/Form/FormBookingType.php:103-115 | an empty phone is reported as blank and too short, although the column is nullable |
| BookingForm.HoneypotsNotMapped | src/Form/FormBookingType.php:146-164 | `website` and `emailrep` do not affect the record; all 17 fields without a form field (identity, timestamps, confirmation state, `meta` and the eleven unmapped booking details) keep their values |
| BookingForm.SubmitOnto | src/Form/FormBookingType.php:24-172 | writing a submission through the setters gives the record of the mapping: every mapped field as submitted, empty notes as `''` |
| ContactForm.NameRules | src/Form/FormContactType.php:26-34 | the name reports nothing iff it is present with 2–160 characters |
| ContactForm.EmailRules | src/Form/FormContactType.php:39-43 | the email reports nothing iff it is present, non-empty, at most 200 characters and a valid address |
| ContactForm.PhoneRules | src/Form/FormContactType.php:48-50 | the phone reports nothing iff it is null or at most 40 characters |
| ContactForm.SubjectRules | src/Form/FormContactType.php:55-57 | the subject reports nothing iff it is null or at most 255 characters |
| ContactForm.MessageRules | src/Form/FormContactType.php:62-68 | the message reports nothing iff it is present with at least 10 characters, with no upper bound |
| ContactForm.ContactValidIff | src/Form/FormContactType.php:22-99 | a contact submission has no violation iff each field meets its rule and consent is given; `copy` and the honeypots are free |
| ContactForm.MessageHasNoUpperBound | src/Form/FormContactType.php:62-67 | any message of ten or more characters is accepted |
| ContactForm.OnlyEmailrepIsMapped | src/Form/FormContactType.php:81-99 | changing `website` changes nothing mapped; `emailrep` is mapped as submitted |
| ContactEntity.Contact.constructor | src/Entity/Contact.php:18-56 | a new contact has `createdAt` set and `id`, `name`, `email`, `subject` and `message` null |
| ContactEntity.Contact.SetName | src/Entity/Contact.php:68-73 | only `name` changes; returns the same object |
| ContactEntity.Contact.SetEmail | src/Entity/Contact.php:80-85 | only `email` changes; returns the same object |
| ContactEntity.Contact.SetSubject | src/Entity/Contact.php:92-97 | only `subject` changes, possibly to null; returns the same object |
| ContactEntity.Contact.SetMessage | src/Entity/Contact.php:104-109 | only `message` changes; returns the same object |
| ContactEntity.Contact.SetCreatedAt | src/Entity/Contact.php:116-121 | only `createdAt` changes; returns the same object |
| ContactEntity.Contact.Do | src/Entity/Contact.php:68-121 | calling the setter an operation names changes the record exactly as `Apply` says, so the sequence lemmas hold of the setter methods |
| ContactEntity.ContactValidIff | src/Entity/Contact.php:20-48 | a contact is valid iff the name has 2–255 characters, the email is a non-empty address (no length rule), the subject is null or at most 255 and the message has at least 10 |
| ContactEntity.NewContactIsInvalid | src/Entity/Contact.php:53-56 | a freshly constructed contact reports name, email and message as blank |
| ContactEntity.Apply | src/Entity/Contact.php:68-121 | no setter changes `id`; only `setName` changes the name and only `setSubject` the subject |
| ContactEntity.IdIsStable | src/Entity/Contact.php:58-61 | no sequence of setter calls changes `id` |
| ContactEntity.LastNameWins | src/Entity/Contact.php:63-73 | `getName` returns the last name set, whatever other setters ran after it |
| Http.Session.Set | src/Controller/LocaleController.php:18 | one session key gets the value; every other key is unchanged |
| Http.FlashBag.Add | src/Controller/BookingController.php:31-37 | the flash is appended to the bag |
| Http.FirstMatch | src/Controller/BookingController.php:30-38 | the flash of the first rule that fires, with no earlier rule firing; none iff no rule fires |
| Templates.WithFallback | src/Controller/HomeController.php:22-24 | the candidate if the loader has it, the fallback otherwise |
| Templates.Localized | src/Controller/BookingController.php:45-51 | the locale's template if the loader has it, the English one of the same page otherwise, and never anything else |
| Templates.EnglishIsFixed | src/Controller/BookingController.php:45-51 | the English locale yields the English template whatever the loader holds |
| LocaleListener.Take2 | src/EventListener/LocaleListener.php:42 | `substr($s, 0, 2)`: the first two characters, or the whole string if shorter |
| LocaleListener.FromPreferred | src/EventListener/LocaleListener.php:38-49 | the result is always `de` or `en`: the two-letter prefix when supported, `de` when it is not or no language is preferred |
| LocaleListener.Resolve | src/EventListener/LocaleListener.php:17-52 | a sub-request sets nothing; a previous session's `_locale` wins unchecked and Accept-Language is not consulted; otherwise the preferred-language choice |
| LocaleListener.NegotiatedLocaleIsSupported | src/EventListener/LocaleListener.php:38-51 | outside the session branch the locale is `de` or `en` |
| LocaleListener.SessionValueIsNotChecked | src/EventListener/LocaleListener.php:29-31 | a stored `fr` is applied as it is |
| LocaleListener.PreferredExamples | src/EventListener/LocaleListener.php:40-49 | `de-DE` gives `de`, `en-GB` gives `en`, `fr-FR` and no preference give `de` |
| LocaleListener.Invoke | src/EventListener/LocaleListener.php:17-52 | the request's locale becomes the resolved one, and is untouched for a sub-request |
| LocaleController.RedirectTarget | src/Controller/LocaleController.php:21-26 | a redirect to the Referer iff it is PHP-truthy (not null, `""` or `"0"`), else to `app_home` |
| LocaleController.FalsyReferersGoHome | src/Controller/LocaleController.php:21-26 | a missing, empty or `"0"` Referer leads to `app_home`; `/booking` is followed |
| LocaleController.SwitchLocale | src/Controller/LocaleController.php:14-27 | for a route-admitted `en` or `de`, `_locale` becomes the locale, no other session key changes, and the response is the redirect choice |
| LocaleController.SwitchedLocaleWins | src/Controller/LocaleController.php:18 | after the switch, the next main request resolves to the chosen locale whatever the browser prefers |
| LocaleController.SwitchThenVisit | src/Controller/LocaleController.php:14-27 | switching to a locale and following the redirect yields a request in that locale, from any stored session and browser preference |
| HomeController.Index | src/Controller/HomeController.php:18-24 | defined as `Templates.Localized` of the page path `home/index.L.html.twig` |
| HomeController.EnglishHomeIsFixed | src/Controller/HomeController.php:18-24 | locale `en` always yields `home/index.en.html.twig` |
| PrivacyController.Index | src/Controller/PrivacyController.php:14-30 | defined as `Templates.Localized` of the candidate path, `datenschutz` for `de` and `privacy` otherwise |
| PrivacyController.GermanPage | src/Controller/PrivacyController.php:24-30 | `de` selects `pages/datenschutz.de.html.twig`, and falls back to English privacy when it is missing |
| PrivacyController.OtherLocalePage | src/Controller/PrivacyController.php:24-25 | any other locale L selects `pages/privacy.L.html.twig` when it exists |
| PrivacyController.EnglishPageIsFixed | src/Controller/PrivacyController.php:24-30 | `en` always yields `pages/privacy.en.html.twig` |
| PrivacyController.RoutesAgree | src/Controller/PrivacyController.php:14-15 | `/datenschutz` and `/privacy` render the same template |
| ImprintController.Index | src/Controller/ImprintController.php:14-30 | defined as `Templates.Localized` of the candidate path, `impressum` for `de` and `imprint` otherwise |
| ImprintController.GermanPage | src/Controller/ImprintController.php:24-30 | `de` selects `pages/impressum.de.html.twig`, and falls back to English imprint when it is missing |
| ImprintController.OtherLocalePage | src/Controller/ImprintController.php:24-25 | any other locale L selects `pages/imprint.L.html.twig` when it exists |
| ImprintController.EnglishPageIsFixed | src/Controller/ImprintController.php:24-30 | `en` always yields `pages/imprint.en.html.twig` |
| ImprintController.RoutesAgree | src/Controller/ImprintController.php:14-15 | `/impressum` and `/imprint` render the same template |
| BookingController.BookingFlash | src/Controller/BookingController.php:30-38 | the `if`/`elseif` chain as written: submit=1, error=mail, error=db, error=rate |
| BookingController.BookingFlashIsFirstMatch | src/Controller/BookingController.php:30-38 | the `if`/`elseif` chain picks the first of submit=1, error=mail, error=db, error=rate that fires, and none if none does |
| BookingController.SuccessWins | src/Controller/BookingController.php:30-31 | `submit=1` gives the success flash whatever `error` says |
| BookingController.UnknownErrorAddsNothing | src/Controller/BookingController.php:30-38 | any other query adds no flash |
| BookingController.Index | src/Controller/BookingController.php:17-56 | with a submitted form and a redirect: returns that redirect and adds at most the one chosen flash. Otherwise it renders the booking template with the form and adds no flash |
| BookingController.StatusMessageKey | src/Controller/BookingController.php:79 | the message key is `booking.confirm.` followed by the status |
| BookingController.StatusMessageKeyInjective | src/Controller/BookingController.php:79 | distinct statuses have distinct message keys |
| BookingController.Confirm | src/Controller/BookingController.php:59-81 | renders the localized confirm template with the status unchanged and its message key, and nothing else |
| ContactController.ContactFlash | src/Controller/ContactController.php:32-38 | the `if`/`elseif` chain as written: submit=1, error=mail, error=rate |
| ContactController.ContactFlashIsFirstMatch | src/Controller/ContactController.php:32-38 | the chain picks the first of submit=1, error=mail, error=rate that fires |
| ContactController.DatabaseErrorAddsNothing | src/Controller/ContactController.php:32-38 | any query with `error=db` and without `submit=1` adds no flash: there is no database branch |
| ContactController.Index | src/Controller/ContactController.php:18-57 | with a submitted form and a redirect: returns that redirect and adds at most the chosen flash. Otherwise it renders the contact template and adds no flash |

### Notes on the reading of the code

- **The CSRF cookie guard is looser than the others.**
  - `generateCsrfToken` writes a cookie whenever the attribute is
    non-empty and the value passes `tokenCheck` (line 74).
  - The header and removal handlers also require `nameCheck` on the
    attribute.
  - A field bound by `generateCsrfToken` itself always passes `nameCheck`.
  - A page that sets the attribute to another value gets a cookie that is
    never removed (`CsrfProtection.UncheckedBindingIsNeverRemoved`).
- **A binding named `__proto__` sends no header.** The name passes
  `nameCheck`. `generateCsrfHeaders` assigns the header on the plain object
  `{}` (line 95), and for this key the assignment runs the inherited
  `__proto__` setter instead of creating a property, so `Object.keys` at
  line 42 lists nothing. The cookie is still written and removed. The
  model follows the code (`CsrfProtection.ProtoBindingSendsNoHeader`).
- **Symfony's `getPreferredLanguage` returns one of the listed locales**
  when it is given a non-empty list. The listener's null branch and its
  unsupported-code branch are therefore defensive. The model keeps them,
  because it takes the negotiated value as an unconstrained argument.
- **The persons pattern accepts a final line feed** ("5\n"), because PCRE's
  `$` matches there without the `D` modifier. A requirement of "integer
  1–20 as text" reads stricter than the pattern. The form's `trim` step
  removes the line feed before validation, so the model takes submitted
  values as trimmed, and `PersonsValidIff` is stated for trimmed values.

## Left out

- The random generator, the clock, Accept-Language parsing, the e-mail grammar of `Assert\Email` and the Twig loader are outside the model; they are parameters.
- Browser cookie-jar semantics are not modelled: `document.cookie` is an append-only log of assigned strings. The `change` event appears as the list of values seen at dispatch, not as listeners.
- The `instanceof HTMLFormElement` test of the submit listener (assets/controllers/csrf_protection_controller.ts:32) is not modelled; the model's handlers always receive a form.
- CsrfProtection.GenerateCsrfToken: the input's `value` and `defaultValue` are one field, which is right for a hidden input and for one the user has not edited. The selector at line 55 also matches a visible input; if the user edited one, line 68 sets only `defaultValue` while lines 74, 94 and 112 read the edited `value`, and the model does not capture that.
- The `querySelector` lookup to find the CSRF input is not modelled: a form either has a CSRF input or has none.
- The booking and contact services (`FormBookingService`, `FormContactService`: `getForm`, `handle`, `confirmBooking`, rate limiting) are not part of this model. Their answers are arguments, and no confirmation state machine is assumed.
- `FormContactEntity` and `FormSubmissionMetaEntity` are not part of this model. The contact form's mapping target is the value record `ContactForm.ContactMapped`, and `meta` is an opaque reference.
- Getters are not separate members: each is a read of the field it returns.
- The form's `trim` step and its transformers of text and dates are not modelled. Submissions are taken after them.
- Translation is not modelled: flashes and the confirm message carry translation keys, not translated text.
- `Length` counts list elements: Dafny characters stand for the code points that Symfony counts.
- Session values are taken after PHP's `(string)` cast.
- `LocaleListener.Take2` works on characters, whereas PHP's `substr` works on bytes. The two agree on the ASCII language tags Accept-Language carries.
- `redirectToRoute('app_home')` is modelled by the route name, not by the URL the router generates.
- Persistence (Doctrine, the unique index on the token, generated ids), mail sending (`MailManService`), the migrations and the functional tests are not modelled.
