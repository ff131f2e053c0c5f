/**
 * The second step of registration: the token from the e-mail and a password
 * turn a pending registration into a user. The stored procedure decides; the
 * handler hashes what it needs to, commits on success, and translates the
 * procedure's error messages into HTTP errors by looking, in a fixed order,
 * for known phrases inside the exception text.
 */
module Confirmation {
  import opened Common
  import opened Strings
  import opened Primitives
  import opened Store
  import Passwords
  import Tokens
  import opened ErrorMapping

  /** The known phrases and the HTTP error each becomes, in the order they are tried. */
  const ConfirmErrors: seq<(string, HttpError)> := [
    ("Pending user not found", HttpError(404, "Invalid or expired verification token")),
    ("Invalid verification token", HttpError(404, "Invalid verification token")),
    ("Token has expired", HttpError(410, "Verification token has expired")),
    ("Registration has expired", HttpError(410, "Registration has expired")),
    ("User already exists", HttpError(409, "User account already exists"))
  ]

  /** A message naming a missing pending user is reported as an invalid or expired token, whatever else it says. */
  lemma {:induction false} PendingNotFoundWins(a: string, b: string)
    ensures FirstMatch(ConfirmErrors, a + "Pending user not found" + b)
         == Some(HttpError(404, "Invalid or expired verification token"))
  {
    ContainsInfix(a, "Pending user not found", b);
  }

  /** From the `confirm_pending_user` call on: commit and return the new user's id, or translate what it raised. */
  function Confirm(call: Call, outcome: Outcome<Option<int>>): Transcript<Result<Option<int>, Failure>>
  {
    match outcome
    case Returned(id) => Transcript(Ok(id), [Called(call, true), Committed])
    case Threw(e) =>
      match FirstMatch(ConfirmErrors, e.text)
      case Some(h) => Transcript(Err(Http(h)), [Called(call, false)])
      case None => Transcript(Err(Raised(e)), [Called(call, false)])
  }

  method ExecuteConfirm(b: Backend, call: Call, outcome: Outcome<Option<int>>)
    returns (r: Result<Option<int>, Failure>)
    requires b.Valid()
    modifies b
    ensures var t := Confirm(call, outcome);
      b.Valid() && r == t.result && b.trace == old(b.trace) + t.events
  {
    if outcome.Returned? {
      b.Execute(call, true);
      b.Commit();
      return Ok(outcome.value);
    }
    b.Execute(call, false);
    var mapped := MapError(ConfirmErrors, outcome.exc.text);
    if mapped.Some? {
      return Err(Http(mapped.value));
    }
    r := Err(Raised(outcome.exc));
  }

  /** The oldest handler's call: the token as sent, the Argon2 hash of the password. */
  function LegacyCall(c: Crypto, pepper: string, app: int, token: string, password: string, salt: bytes,
                      client: Client): Call
  {
    Store.ConfirmPendingUser(app, PlainToken(token), Passwords.HashPassword(c, pepper, password, salt), client)
  }

  /** `confirm_pending_user` of the oldest route: token and password in the body. */
  method ConfirmLegacy(b: Backend, c: Crypto, pepper: string, app: int, token: string, password: string,
                       salt: bytes, client: Client, outcome: Outcome<Option<int>>)
    returns (r: Result<Option<int>, Failure>)
    requires b.Valid()
    modifies b
    ensures var t := Confirm(LegacyCall(c, pepper, app, token, password, salt, client), outcome);
      b.Valid() && r == t.result && b.trace == old(b.trace) + t.events
      && b.State() == Run(old(b.State()), t.events)
  {
    ghost var t := Confirm(LegacyCall(c, pepper, app, token, password, salt, client), outcome);
    r := ExecuteConfirm(b, LegacyCall(c, pepper, app, token, password, salt, client), outcome);
    Replayed(b, old(b.trace), old(b.State()), t.events);
  }

  const MissingAuthorization: HttpError := HttpError(401, "Authorization header missing or invalid format")

  /** The header check: present, non-empty, and starting with "Bearer ". */
  predicate BearerHeader(authorization: Option<string>)
  {
    authorization.Some? && authorization.value != "" && StartsWith(authorization.value, Tokens.BearerPrefix)
  }

  /** `authorization.split(" ", 1)[1]`: everything after the first space, not stripped. */
  function HeaderToken(authorization: string): string
    requires StartsWith(authorization, Tokens.BearerPrefix)
  {
    AfterFirstSpaceOfBearer(authorization);
    AfterFirst(authorization, ' ').value
  }

  /** The current handler's call: the HMAC of the header's token, the Argon2 hash of the password. */
  function BearerCall(c: Crypto, passwordPepper: string, tokenPepper: bytes, app: int, authorization: string,
                      password: string, salt: bytes, client: Client): Call
    requires StartsWith(authorization, Tokens.BearerPrefix)
  {
    Store.ConfirmPendingUser(app, TokenHash(Tokens.HashToken(c, tokenPepper, HeaderToken(authorization))),
                             Passwords.HashPassword(c, passwordPepper, password, salt), client)
  }

  /** The current handler as a transcript: the header is checked before anything else. */
  function ConfirmBearer(c: Crypto, passwordPepper: string, tokenPepper: bytes, app: int,
                         authorization: Option<string>, password: string, salt: bytes, client: Client,
                         outcome: Outcome<Option<int>>): Transcript<Result<Option<int>, Failure>>
  {
    if !BearerHeader(authorization) then Transcript(Err(Http(MissingAuthorization)), [])
    else Confirm(BearerCall(c, passwordPepper, tokenPepper, app, authorization.value, password, salt, client), outcome)
  }

  /** `confirm_pending_user` of the current route: the token in the Authorization header. */
  method ConfirmPendingUser(b: Backend, c: Crypto, passwordPepper: string, tokenPepper: bytes, app: int,
                            authorization: Option<string>, password: string, salt: bytes, client: Client,
                            outcome: Outcome<Option<int>>)
    returns (r: Result<Option<int>, Failure>)
    requires b.Valid()
    modifies b
    ensures var t := ConfirmBearer(c, passwordPepper, tokenPepper, app, authorization, password, salt, client, outcome);
      b.Valid() && r == t.result && b.trace == old(b.trace) + t.events
      && b.State() == Run(old(b.State()), t.events)
  {
    ghost var t := ConfirmBearer(c, passwordPepper, tokenPepper, app, authorization, password, salt, client, outcome);
    if authorization.None? || authorization.value == "" || !StartsWith(authorization.value, Tokens.BearerPrefix) {
      assert old(b.trace) + [] == b.trace;
      return Err(Http(MissingAuthorization));
    }
    var call := BearerCall(c, passwordPepper, tokenPepper, app, authorization.value, password, salt, client);
    r := ExecuteConfirm(b, call, outcome);
    Replayed(b, old(b.trace), old(b.State()), t.events);
  }

  // ---- properties ----

  /**
   * The confirmation is committed exactly when it succeeds; a failure leaves
   * the session as it was. On success the durable pending table no longer
   * holds any registration of that application under that token.
   */
  lemma {:induction false} CommitOnlyOnSuccess(call: Call, outcome: Outcome<Option<int>>, s: Snapshot)
    requires call.ConfirmPendingUser?
    ensures var t := Confirm(call, outcome);
      (t.result.Ok? <==> Committed in t.events)
      && (t.result.Err? ==> Run(s, t.events) == s)
      && (t.result.Ok? ==> forall k :: k in Run(s, t.events).durable.pending ==>
            !(k.0 == call.app && Run(s, t.events).durable.pending[k].token == call.token))
  {
    var t := Confirm(call, outcome);
    if outcome.Returned? {
      assert t.events == [t.events[0], Committed];
      RunTwo(s, t.events[0], Committed);
    } else {
      assert t.events == [t.events[0]];
      RunOne(s, t.events[0]);
    }
  }

  /** What the procedure raised decides the answer: a known phrase becomes its HTTP error, anything else escapes unchanged. */
  lemma {:induction false} ErrorsTranslated(call: Call, e: Exc)
    ensures var t := Confirm(call, Threw(e));
      (FirstMatch(ConfirmErrors, e.text).Some? ==> t.result == Err(Http(FirstMatch(ConfirmErrors, e.text).value)))
      && (FirstMatch(ConfirmErrors, e.text).None? ==> t.result == Err(Raised(e)))
      && t.result.Err?
  {
  }

  /** A missing or malformed header is refused with 401 before any hashing or database work. */
  lemma {:induction false} HeaderCheckedFirst(c: Crypto, passwordPepper: string, tokenPepper: bytes, app: int,
                           authorization: Option<string>, password: string, salt: bytes, client: Client,
                           outcome: Outcome<Option<int>>)
    ensures var t := ConfirmBearer(c, passwordPepper, tokenPepper, app, authorization, password, salt, client, outcome);
      !BearerHeader(authorization) <==> t == Transcript(Err(Http(HttpError(401, "Authorization header missing or invalid format"))), [])
  {
  }

  /**
   * The token hashed is the header after "Bearer " exactly as sent, spaces
   * included; unlike the bearer checks of the session routes it is not
   * stripped.
   */
  lemma {:induction false} HeaderTokenIsUnstripped(c: Crypto, passwordPepper: string, tokenPepper: bytes, app: int, rest: string,
                                password: string, salt: bytes, client: Client)
    ensures HeaderToken(Tokens.BearerPrefix + rest) == rest
    ensures BearerCall(c, passwordPepper, tokenPepper, app, Tokens.BearerPrefix + rest, password, salt, client).token
         == TokenHash(Tokens.HashToken(c, tokenPepper, rest))
  {
    var h := Tokens.BearerPrefix + rest;
    assert h[..7] == Tokens.BearerPrefix;
    AfterFirstSpaceOfBearer(h);
    assert h[7..] == rest;
  }
}
