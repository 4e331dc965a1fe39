/**
  The slice of Symfony's HTTP layer the controllers and the locale
  listener touch: the session's attribute bag, the flash bag, query
  parameters, responses, and PHP's truthiness of an optional header.
*/
module Http {
  import opened Common

  /** A flash message: its type (`success`, `error`) and the translation key of its text. */
  datatype Flash = Flash(kind: string, messageKey: string)

  /** A value handed to a template: the form view, or a string. */
  datatype Param = FormView | Text(s: string)

  datatype Response =
    | Redirect(location: string)
    | RedirectToRoute(route: string)
    | Render(template: string, params: map<string, Param>)
    /** A response produced by a service that is not part of this model. */
    | ServiceResponse(id: nat)

  /** PHP truthiness of an optional string: `null`, `""` and `"0"` are false. */
  predicate PhpTruthy(s: Option<string>) {
    s.Some? && s.value != "" && s.value != "0"
  }

  /** `'v' === $request->query->get(key)`: the parameter is present and equal to `v`. */
  predicate QueryIs(query: map<string, string>, key: string, v: string) {
    key in query && query[key] == v
  }

  /** The session's attribute bag; values are held after PHP's `(string)` cast. */
  class Session {
    var attributes: map<string, string>

    constructor (attributes: map<string, string>)
      ensures this.attributes == attributes
    {
      this.attributes := attributes;
    }

    method Set(key: string, value: string)
      modifies this
      ensures attributes == old(attributes)[key := value]
    {
      attributes := attributes[key := value];
    }
  }

  /** The flash bag of the session: messages in the order they were added. */
  class FlashBag {
    var flashes: seq<Flash>

    constructor ()
      ensures flashes == []
    {
      flashes := [];
    }

    method Add(f: Flash)
      modifies this
      ensures flashes == old(flashes) + [f]
    {
      flashes := flashes + [f];
    }
  }

  /**
    A flash rule of an `if`/`elseif` chain: it fires when the query
    parameter `key` equals `value`.
  */
  datatype FlashRule = FlashRule(key: string, value: string, flash: Flash)

  predicate Fires(rule: FlashRule, query: map<string, string>) {
    QueryIs(query, rule.key, rule.value)
  }

  /**
    The flash of the first rule that fires, if any: the reference reading
    of an `if`/`elseif` chain over query parameters.
  */
  function FirstMatch(rules: seq<FlashRule>, query: map<string, string>): (r: Option<Flash>)
    ensures r.None? <==> forall i :: 0 <= i < |rules| ==> !Fires(rules[i], query)
    ensures r.Some? ==> exists i :: 0 <= i < |rules| && Fires(rules[i], query) && rules[i].flash == r.value
                          && forall j :: 0 <= j < i ==> !Fires(rules[j], query)
  {
    if |rules| == 0 then None
    else if Fires(rules[0], query) then Some(rules[0].flash)
    else
      var r := FirstMatch(rules[1..], query);
      assert forall i :: 1 <= i < |rules| ==> rules[i] == rules[1..][i - 1];
      r
  }
}
