/** Values shared by every part of the model: optional values, the exceptions the
    Python code can raise, what a call ends with, and the readings a call takes from
    the clock and the random source. */
module Base {

  /** A proxy identifier: uuid4 output in greenmw, an md5 hex digest in mw.py. */
  type Id = string

  /** An HTTP header dictionary (exact keys; requests' case folding is not modelled). */
  type Headers = map<string, string>

  datatype Option<+T> = None | Some(value: T)

  /** The exceptions the modelled code raises or lets escape. */
  datatype Error =
    | AttributeError(name: string)     // an attribute the object does not have
    | KeyError(key: string)            // a missing dictionary key
    | ZeroDivisionError                // `x % 0` or `x / 0`
    | ValueError                       // math.log of a non-positive number
    | StatusCodeException(code: int)   // greenmw: a status in the retry set
    | NoProxyAvailable                 // Exception("No Proxy Available after reset()")
    | TransportError(detail: string)   // whatever the HTTP library's send raised

  /** How a Python call ends: it returns, it raises, or it never returns. */
  datatype Outcome<+T> = Returned(value: T) | Raised(error: Error) | Diverges

  /** A plain success-or-error value for the pure helpers. */
  datatype Result<+T> = Ok(value: T) | Err(error: Error)

  /** A value of random.random(): in [0, 1). */
  type Fraction = u: real | 0.0 <= u < 1.0 witness 0.0

  /** The readings one call takes: time.time() and one random.random() draw. */
  datatype Clock = Clock(now: real, u: Fraction)

  function Min(a: int, b: int): int
  {
    if a <= b then a else b
  }
}
