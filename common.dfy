/**
  Small shared vocabulary: optional values (PHP `?T` and JavaScript
  `string | null`), bytes, and opaque clock values.
*/
module Common {

  /** A value that may be absent: PHP `null`, JavaScript `null`. */
  datatype Option<+T> = None | Some(value: T)

  /** One byte, as produced by `random_bytes` or `crypto.getRandomValues`. */
  type uint8 = b: int | 0 <= b < 256

  /**
    A `DateTimeImmutable` value. The clock is outside the model: every
    timestamp is supplied by the caller and is compared only for equality.
  */
  type Instant = int

  /** The one-element sequence for `Some(x)`, the empty one for `None`. */
  function ToSeq<T>(o: Option<T>): (s: seq<T>)
    ensures |s| <= 1
    ensures o.Some? <==> |s| == 1
    ensures o.Some? ==> s[0] == o.value
  {
    match o
    case None => []
    case Some(x) => [x]
  }
}
