/**
 * Shared vocabulary of the model: bytes, optional values and results.
 */
module Common {

  /** One octet of a Python `bytes` object. */
  newtype byte = x: int | 0 <= x < 256

  /** A Python `bytes` value. */
  type bytes = seq<byte>

  datatype Option<T> = None | Some(value: T)
  {
    function GetOr(default: T): T
    {
      match this
      case None => default
      case Some(v) => v
    }
  }

  /** A value or the exception that replaced it. */
  datatype Result<T, E> = Ok(value: T) | Err(error: E)

  /** Kinds of Python exception that the modelled code raises, catches or lets through. */
  datatype ExcKind =
    | ValueError        // raised by hand, or by a failed tuple unpacking
    | IntegrityError    // sqlalchemy.exc.IntegrityError (unique constraint and the like)
    | DatabaseError     // any other database failure, including RAISE EXCEPTION in a procedure
    | CryptoError       // binascii.Error, cryptography's InvalidTag, UnicodeDecodeError, bad keys
    | AttributeError    // an attribute looked up on an object that lacks it
    | TypeError         // an operation applied to a value of the wrong type, such as a tuple indexed by a string

  /** An exception together with its `str()` text. */
  datatype Exc = Exc(kind: ExcKind, text: string)

  /** Why a module refuses to import, which stops the service from starting. */
  datatype StartupError = MissingSecret(name: string) | MalformedSecret(name: string)

  /** An HTTPException: status code and detail. */
  datatype HttpError = HttpError(status: int, detail: string)

  /** How a request handler ends when it does not return: an HTTP error response, or an exception that escapes it. */
  datatype Failure = Http(response: HttpError) | Raised(exc: Exc)

  /** Regrouping a sequence built from three pieces. */
  lemma {:induction false} Regroup<T>(a: seq<T>, b: seq<T>, c: seq<T>)
    ensures (a + b) + c == a + (b + c)
  {
  }
}
