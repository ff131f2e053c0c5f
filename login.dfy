/**
 * Logging in with an e-mail address and a password. The route handlers look
 * the user up through the `login_user` procedure under the namespaced e-mail
 * hash, check the password, and then either issue a TOTP challenge (for a user
 * with two-factor authentication) or a login session. They differ in how they
 * hand the session back and in how they translate exceptions. The controller
 * does the same through the user repository and the authentication service.
 */
module Login {
  import opened Common
  import opened Strings
  import opened Primitives
  import opened Store
  import opened ErrorMapping
  import opened Issuance
  import Hashing
  import Passwords
  import Tokens

  datatype LoginRequest = LoginRequest(app: int, email: string, password: string)

  /** The columns of a found user that the handlers read. */
  datatype LoginRow = LoginRow(id: int, passwordHash: string, twoFactor: bool)

  /** What a successful password check leads to. */
  datatype Granted = Challenge(user: int, challengeToken: string) | Session(user: int, tokens: SessionTokens)

  /** The body and cookies of a successful response, as far as credentials go. */
  datatype LoginReply =
    | ChallengeIssued(user: int, challengeToken: string)
    | TokensInBody(user: int, access: string, refresh: string)
    | TokensInCookies(user: int, cookies: seq<Cookie>)
    | SessionMerged(user: int, sessionToken: Option<string>)   // the controller's `{"session_token": ...}` or `{}`

  const UserNotFoundText: string := "User not found with specified email"
  const InvalidPasswordText: string := "Invalid password"

  /** The route handlers' `error_mappings`, in order. */
  const LoginErrors: seq<(string, HttpError)> := [
    (UserNotFoundText, HttpError(401, "Invalid credentials")),
    (InvalidPasswordText, HttpError(401, "Invalid credentials")),
    ("User is suspended", HttpError(403, "User account is suspended"))
  ]

  const UnexpectedError: HttpError := HttpError(500, "Unexpected error")

  /** The drawn tokens and the outcomes of the issuing call, whichever branch needs them. */
  datatype Draws = Draws(access: string, refresh: string, challenge: string, expiry: SessionExpiry)

  function LoginCall(c: Crypto, req: LoginRequest, client: Client): Result<Call, Exc>
  {
    match Hashing.HashEmail(c, req.email, Decimal(req.app))
    case Err(e) => Err(e)
    case Ok(h) => Ok(LoginUser(req.app, h, client))
  }

  /** What happens once a row was found and its password matched. */
  function Grant(c: Crypto, tokenPepper: bytes, app: int, row: LoginRow, client: Client, draws: Draws,
                 issue: Outcome<()>): Transcript<Result<Granted, Exc>>
  {
    if row.twoFactor then
      var t := ChallengeSession(c, tokenPepper, app, row.id, client, draws.challenge, issue);
      Transcript(if t.result.Ok? then Ok(Challenge(row.id, t.result.value)) else Err(t.result.error), t.events)
    else
      var t := LoginSession(c, tokenPepper, app, row.id, client, draws.access, draws.refresh, draws.expiry, issue);
      Transcript(if t.result.Ok? then Ok(Session(row.id, t.result.value)) else Err(t.result.error), t.events)
  }

  /**
   * The body of the route handlers' `try`: hash the address, call
   * `login_user`, raise `ValueError` for no row or a wrong password, then
   * grant. `lookup` is the row `fetchone` gave, or what the call raised;
   * `issue` is the outcome of the session or challenge call.
   */
  function Authenticate(c: Crypto, passwordPepper: string, tokenPepper: bytes, req: LoginRequest, client: Client,
                        draws: Draws, lookup: Outcome<Option<LoginRow>>, issue: Outcome<()>)
    : Transcript<Result<Granted, Exc>>
  {
    match LoginCall(c, req, client)
    case Err(e) => Transcript(Err(e), [])
    case Ok(call) =>
      match lookup
      case Threw(e) => Transcript(Err(e), [Called(call, false)])
      case Returned(None) => Transcript(Err(Exc(ValueError, UserNotFoundText)), [Called(call, true)])
      case Returned(Some(row)) =>
        if !Passwords.VerifyPassword(c, passwordPepper, req.password, row.passwordHash) then
          Transcript(Err(Exc(ValueError, InvalidPasswordText)), [Called(call, true)])
        else
          var g := Grant(c, tokenPepper, req.app, row, client, draws, issue);
          Transcript(g.result, [Called(call, true)] + g.events)
  }

  method GrantAccess(b: Backend, c: Crypto, tokenPepper: bytes, app: int, row: LoginRow, client: Client,
                     draws: Draws, issue: Outcome<()>)
    returns (r: Result<Granted, Exc>)
    requires b.Valid()
    modifies b
    ensures var t := Grant(c, tokenPepper, app, row, client, draws, issue);
      b.Valid() && r == t.result && b.trace == old(b.trace) + t.events
  {
    if row.twoFactor {
      var challenge := Issuance.CreateMfaChallengeSession(b, c, tokenPepper, app, row.id, client, draws.challenge, issue);
      r := if challenge.Ok? then Ok(Challenge(row.id, challenge.value)) else Err(challenge.error);
    } else {
      var tokens := CreateLoginSession(b, c, tokenPepper, app, row.id, client, draws.access, draws.refresh,
                                       draws.expiry, issue);
      r := if tokens.Ok? then Ok(Session(row.id, tokens.value)) else Err(tokens.error);
    }
  }

  method AuthenticateUser(b: Backend, c: Crypto, passwordPepper: string, tokenPepper: bytes, req: LoginRequest,
                          client: Client, draws: Draws, lookup: Outcome<Option<LoginRow>>, issue: Outcome<()>)
    returns (r: Result<Granted, Exc>)
    requires b.Valid()
    modifies b
    ensures var t := Authenticate(c, passwordPepper, tokenPepper, req, client, draws, lookup, issue);
      b.Valid() && r == t.result && b.trace == old(b.trace) + t.events
  {
    var call := LoginCall(c, req, client);
    if call.Err? {
      assert old(b.trace) + [] == b.trace;
      return Err(call.error);
    }
    if lookup.Threw? {
      b.Execute(call.value, false);
      return Err(lookup.exc);
    }
    b.Execute(call.value, true);
    if lookup.value.None? {
      return Err(Exc(ValueError, UserNotFoundText));
    }
    var row := lookup.value.value;
    if !Passwords.VerifyPassword(c, passwordPepper, req.password, row.passwordHash) {
      return Err(Exc(ValueError, InvalidPasswordText));
    }
    r := GrantAccess(b, c, tokenPepper, req.app, row, client, draws, issue);
  }

  // ---- the cookie handler: exact match on ValueError only ----

  function CookieReply(g: Granted): LoginReply
  {
    match g
    case Challenge(u, ch) => ChallengeIssued(u, ch)
    case Session(u, tokens) => TokensInCookies(u, SessionCookies(tokens))
  }

  /** `except ValueError`: the exact message is looked up, with 500 as default; anything else escapes. */
  function CookieFailure(e: Exc): Failure
  {
    if e.kind == ValueError then Http(ExactMatch(LoginErrors, e.text, UnexpectedError)) else Raised(e)
  }

  function CookieLogin(c: Crypto, passwordPepper: string, tokenPepper: bytes, req: LoginRequest, client: Client,
                       draws: Draws, lookup: Outcome<Option<LoginRow>>, issue: Outcome<()>)
    : Transcript<Result<LoginReply, Failure>>
  {
    var t := Authenticate(c, passwordPepper, tokenPepper, req, client, draws, lookup, issue);
    Transcript(if t.result.Ok? then Ok(CookieReply(t.result.value)) else Err(CookieFailure(t.result.error)), t.events)
  }

  /** `login_user` of the versioned route: the session goes into two cookies. */
  method LoginWithCookies(b: Backend, c: Crypto, passwordPepper: string, tokenPepper: bytes, req: LoginRequest,
                          client: Client, draws: Draws, lookup: Outcome<Option<LoginRow>>, issue: Outcome<()>)
    returns (r: Result<LoginReply, Failure>)
    requires b.Valid()
    modifies b
    ensures var t := CookieLogin(c, passwordPepper, tokenPepper, req, client, draws, lookup, issue);
      b.Valid() && r == t.result && b.trace == old(b.trace) + t.events
      && b.State() == Run(old(b.State()), t.events)
  {
    ghost var t := CookieLogin(c, passwordPepper, tokenPepper, req, client, draws, lookup, issue);
    var g := AuthenticateUser(b, c, passwordPepper, tokenPepper, req, client, draws, lookup, issue);
    if g.Err? {
      r := Err(CookieFailure(g.error));
    } else {
      r := Ok(CookieReply(g.value));
    }
    Replayed(b, old(b.trace), old(b.State()), t.events);
  }

  /**
   * The cookie handler as written. The shared helper hands back the tuple
   * `(access_token, refresh_token)`, and reading `session["access_token"]`
   * from it raises a TypeError, which `except ValueError` does not catch.
   * Every other ending is the one `CookieLogin` describes.
   */
  function CookieLoginAsWritten(c: Crypto, passwordPepper: string, tokenPepper: bytes, req: LoginRequest, client: Client,
                                draws: Draws, lookup: Outcome<Option<LoginRow>>, issue: Outcome<()>)
    : Transcript<Result<LoginReply, Failure>>
  {
    var t := CookieLogin(c, passwordPepper, tokenPepper, req, client, draws, lookup, issue);
    if t.result.Ok? && t.result.value.TokensInCookies? then Transcript(Err(CookieFailure(TupleIndexedByKey)), t.events)
    else t
  }

  // ---- the body handlers: first substring match over every exception ----

  function BodyReply(g: Granted): LoginReply
  {
    match g
    case Challenge(u, ch) => ChallengeIssued(u, ch)
    case Session(u, tokens) => TokensInBody(u, tokens.access, tokens.refresh)
  }

  function BodyFailure(e: Exc): Failure
  {
    match FirstMatch(LoginErrors, e.text)
    case Some(h) => Http(h)
    case None => Raised(e)
  }

  function BodyLogin(c: Crypto, passwordPepper: string, tokenPepper: bytes, req: LoginRequest, client: Client,
                     draws: Draws, lookup: Outcome<Option<LoginRow>>, issue: Outcome<()>)
    : Transcript<Result<LoginReply, Failure>>
  {
    var t := Authenticate(c, passwordPepper, tokenPepper, req, client, draws, lookup, issue);
    Transcript(if t.result.Ok? then Ok(BodyReply(t.result.value)) else Err(BodyFailure(t.result.error)), t.events)
  }

  /** `login_user` of the older routes: both tokens in the response body. */
  method LoginWithBody(b: Backend, c: Crypto, passwordPepper: string, tokenPepper: bytes, req: LoginRequest,
                       client: Client, draws: Draws, lookup: Outcome<Option<LoginRow>>, issue: Outcome<()>)
    returns (r: Result<LoginReply, Failure>)
    requires b.Valid()
    modifies b
    ensures var t := BodyLogin(c, passwordPepper, tokenPepper, req, client, draws, lookup, issue);
      b.Valid() && r == t.result && b.trace == old(b.trace) + t.events
      && b.State() == Run(old(b.State()), t.events)
  {
    ghost var t := BodyLogin(c, passwordPepper, tokenPepper, req, client, draws, lookup, issue);
    var g := AuthenticateUser(b, c, passwordPepper, tokenPepper, req, client, draws, lookup, issue);
    if g.Err? {
      var mapped := MapError(LoginErrors, g.error.text);
      r := if mapped.Some? then Err(Http(mapped.value)) else Err(Raised(g.error));
    } else {
      r := Ok(BodyReply(g.value));
    }
    Replayed(b, old(b.trace), old(b.State()), t.events);
  }

  // ---- the controller ----

  /**
   * `AuthController.login`: the repository lookup, 404 for no user, 400 for a
   * wrong password; the authentication service's procedures issue the
   * challenge (`result or ""`) or the session (`{"session_token": result}` if
   * the result is truthy, else `{}`). Nothing is committed.
   */
  function ControllerLogin(c: Crypto, passwordPepper: string, req: LoginRequest, client: Client,
                           lookup: Outcome<Option<LoginRow>>, issue: Outcome<Option<string>>)
    : Transcript<Result<LoginReply, Failure>>
  {
    match Hashing.HashEmail(c, req.email, Decimal(req.app))
    case Err(e) => Transcript(Err(Raised(e)), [])
    case Ok(h) =>
      var find := Called(GetUserByEmail(h, req.app), lookup.Returned?);
      match lookup
      case Threw(e) => Transcript(Err(Raised(e)), [find])
      case Returned(None) => Transcript(Err(Http(HttpError(404, "User not found"))), [find])
      case Returned(Some(row)) =>
        if !Passwords.VerifyPassword(c, passwordPepper, req.password, row.passwordHash) then
          Transcript(Err(Http(HttpError(400, "Invalid password"))), [find])
        else
          var call := if row.twoFactor then ServiceMfaChallengeSession(row.id, req.app, client)
                      else ServiceLoginSession(row.id, req.app, client);
          var events := [find, Called(call, issue.Returned?)];
          match issue
          case Threw(e) => Transcript(Err(Raised(e)), events)
          case Returned(v) =>
            if row.twoFactor then Transcript(Ok(ChallengeIssued(row.id, v.GetOr(""))), events)
            else Transcript(Ok(SessionMerged(row.id, if v.Some? && v.value != "" then v else None)), events)
  }

  method ControllerLoginUser(b: Backend, c: Crypto, passwordPepper: string, req: LoginRequest, client: Client,
                             lookup: Outcome<Option<LoginRow>>, issue: Outcome<Option<string>>)
    returns (r: Result<LoginReply, Failure>)
    requires b.Valid()
    modifies b
    ensures var t := ControllerLogin(c, passwordPepper, req, client, lookup, issue);
      b.Valid() && r == t.result && b.trace == old(b.trace) + t.events
      && b.State() == Run(old(b.State()), t.events)
  {
    ghost var t := ControllerLogin(c, passwordPepper, req, client, lookup, issue);
    var h := Hashing.HashEmail(c, req.email, Decimal(req.app));
    if h.Err? {
      assert old(b.trace) + [] == b.trace;
      return Err(Raised(h.error));
    }
    b.Execute(GetUserByEmail(h.value, req.app), lookup.Returned?);
    if lookup.Threw? {
      r := Err(Raised(lookup.exc));
    } else if lookup.value.None? {
      r := Err(Http(HttpError(404, "User not found")));
    } else if !Passwords.VerifyPassword(c, passwordPepper, req.password, lookup.value.value.passwordHash) {
      r := Err(Http(HttpError(400, "Invalid password")));
    } else {
      var row := lookup.value.value;
      if row.twoFactor {
        b.Execute(ServiceMfaChallengeSession(row.id, req.app, client), issue.Returned?);
        r := if issue.Threw? then Err(Raised(issue.exc)) else Ok(ChallengeIssued(row.id, issue.value.GetOr("")));
      } else {
        b.Execute(ServiceLoginSession(row.id, req.app, client), issue.Returned?);
        r := if issue.Threw? then Err(Raised(issue.exc))
             else Ok(SessionMerged(row.id, if issue.value.Some? && issue.value.value != "" then issue.value else None));
      }
    }
    Replayed(b, old(b.trace), old(b.State()), t.events);
  }

  // ---- properties ----

  /**
   * An unknown address and a wrong password cannot be told apart: the route
   * handlers give the same transcript, the same single lookup and the same
   * 401 "Invalid credentials", for either.
   */
  lemma {:induction false} UnknownUserLooksLikeWrongPassword(c: Crypto, passwordPepper: string, tokenPepper: bytes, req: LoginRequest,
                                          client: Client, draws: Draws, row: LoginRow, issue: Outcome<()>)
    requires LoginCall(c, req, client).Ok?
    requires !Passwords.VerifyPassword(c, passwordPepper, req.password, row.passwordHash)
    ensures var missing := CookieLogin(c, passwordPepper, tokenPepper, req, client, draws, Returned(None), issue);
      var wrong := CookieLogin(c, passwordPepper, tokenPepper, req, client, draws, Returned(Some(row)), issue);
      missing == wrong && missing.result == Err(Http(HttpError(401, "Invalid credentials")))
    ensures var missing := BodyLogin(c, passwordPepper, tokenPepper, req, client, draws, Returned(None), issue);
      var wrong := BodyLogin(c, passwordPepper, tokenPepper, req, client, draws, Returned(Some(row)), issue);
      missing == wrong && missing.result == Err(Http(HttpError(401, "Invalid credentials")))
  {
    var events := [Called(LoginCall(c, req, client).value, true)];
    assert Authenticate(c, passwordPepper, tokenPepper, req, client, draws, Returned(None), issue)
        == Transcript(Err(Exc(ValueError, UserNotFoundText)), events);
    assert Authenticate(c, passwordPepper, tokenPepper, req, client, draws, Returned(Some(row)), issue)
        == Transcript(Err(Exc(ValueError, InvalidPasswordText)), events);
    RejectionsTranslatedAlike();
  }

  /** Both rejection messages become the same 401, by exact lookup and by first phrase. */
  lemma {:induction false} RejectionsTranslatedAlike()
    ensures CookieFailure(Exc(ValueError, UserNotFoundText)) == Http(HttpError(401, "Invalid credentials"))
    ensures CookieFailure(Exc(ValueError, InvalidPasswordText)) == Http(HttpError(401, "Invalid credentials"))
    ensures BodyFailure(Exc(ValueError, UserNotFoundText)) == Http(HttpError(401, "Invalid credentials"))
    ensures BodyFailure(Exc(ValueError, InvalidPasswordText)) == Http(HttpError(401, "Invalid credentials"))
  {
    LoginErrorsTranslated(UserNotFoundText);
    LoginErrorsTranslated(InvalidPasswordText);
    ContainsSelf(UserNotFoundText);
    ContainsSelf(InvalidPasswordText);
  }

  /** The route handlers' table, unrolled: the first phrase that occurs, and the exact lookup with its default. */
  lemma {:induction false} LoginErrorsTranslated(text: string)
    ensures FirstMatch(LoginErrors, text)
         == if Contains(text, UserNotFoundText) || Contains(text, InvalidPasswordText) then Some(HttpError(401, "Invalid credentials"))
            else if Contains(text, "User is suspended") then Some(HttpError(403, "User account is suspended"))
            else None
    ensures ExactMatch(LoginErrors, text, UnexpectedError)
         == if text == UserNotFoundText || text == InvalidPasswordText then HttpError(401, "Invalid credentials")
            else if text == "User is suspended" then HttpError(403, "User account is suspended")
            else UnexpectedError
  {
    var t1, t2 := LoginErrors[1..], LoginErrors[1..][1..];
    assert t1 == [LoginErrors[1], LoginErrors[2]] && t2 == [LoginErrors[2]] && t2[1..] == [];
    assert FirstMatch(t2, text) == if Contains(text, "User is suspended") then Some(HttpError(403, "User account is suspended")) else None;
    assert FirstMatch(t1, text) == if Contains(text, InvalidPasswordText) then Some(HttpError(401, "Invalid credentials")) else FirstMatch(t2, text);
    assert FirstMatch(LoginErrors, text) == if Contains(text, UserNotFoundText) then Some(HttpError(401, "Invalid credentials")) else FirstMatch(t1, text);
    assert ExactMatch(t2, text, UnexpectedError) == if text == "User is suspended" then HttpError(403, "User account is suspended") else UnexpectedError;
  }

  /**
   * Credentials are issued only to a found user whose password matched; and
   * a user with two-factor authentication gets a challenge, never a session:
   * no session call is made and nothing is committed.
   */
  lemma {:induction false} GrantNeedsPassword(c: Crypto, passwordPepper: string, tokenPepper: bytes, req: LoginRequest,
                           client: Client, draws: Draws, lookup: Outcome<Option<LoginRow>>, issue: Outcome<()>)
    ensures var t := Authenticate(c, passwordPepper, tokenPepper, req, client, draws, lookup, issue);
      (t.result.Ok? || Committed in t.events) ==>
        LoginCall(c, req, client).Ok? && lookup.Returned? && lookup.value.Some?
        && Passwords.VerifyPassword(c, passwordPepper, req.password, lookup.value.value.passwordHash)
        && (t.result.Ok? ==> t.result.value.user == lookup.value.value.id)
  {
  }

  lemma {:induction false} TwoFactorGetsOnlyChallenge(c: Crypto, passwordPepper: string, tokenPepper: bytes, req: LoginRequest,
                                   client: Client, draws: Draws, row: LoginRow, issue: Outcome<()>, s: Snapshot)
    requires row.twoFactor
    ensures var t := Authenticate(c, passwordPepper, tokenPepper, req, client, draws, Returned(Some(row)), issue);
      (t.result.Ok? ==> t.result.value.Challenge?)
      && Committed !in t.events
      && Run(s, t.events).durable == s.durable && Run(s, t.events).outbox == s.outbox
  {
    var t := Authenticate(c, passwordPepper, tokenPepper, req, client, draws, Returned(Some(row)), issue);
    assert forall i :: 0 <= i < |t.events| ==> t.events[i].Called?;
    QuietRun(s, t.events);
  }

  /**
   * Without two-factor authentication the cookie handler's session tokens
   * are exactly the ones just committed, and they travel only in the
   * `access_token` (path "/") and `refresh_token` (path "/auth/refresh")
   * cookies.
   */
  lemma {:induction false} CookiesCarryCommittedSession(c: Crypto, passwordPepper: string, tokenPepper: bytes, req: LoginRequest,
                                     client: Client, draws: Draws, row: LoginRow, issue: Outcome<()>)
    requires !row.twoFactor
    requires CookieLogin(c, passwordPepper, tokenPepper, req, client, draws, Returned(Some(row)), issue).result.Ok?
    ensures var t := CookieLogin(c, passwordPepper, tokenPepper, req, client, draws, Returned(Some(row)), issue);
      var tokens := SessionTokens(draws.access, draws.refresh, draws.expiry.access, draws.expiry.refresh);
      t.result.value == TokensInCookies(row.id, SessionCookies(tokens))
      && t.events[|t.events| - 1] == Committed
      && t.events[|t.events| - 2] == Called(SessionCall(c, tokenPepper, req.app, row.id, client, draws.access, draws.refresh), true)
  {
  }

  /**
   * As written, a login without two-factor authentication commits its
   * session and then fails: the row keyed by the drawn tokens' hashes is in
   * the committed sessions, and the TypeError escapes the handler as a raw
   * exception, so no cookie is set.
   */
  lemma {:induction false} CookieSessionCommittedThenRaises(c: Crypto, passwordPepper: string, tokenPepper: bytes,
                                                            req: LoginRequest, client: Client, draws: Draws,
                                                            row: LoginRow, s: Snapshot)
    requires !row.twoFactor && LoginCall(c, req, client).Ok?
    requires Passwords.VerifyPassword(c, passwordPepper, req.password, row.passwordHash)
    ensures var w := CookieLoginAsWritten(c, passwordPepper, tokenPepper, req, client, draws, Returned(Some(row)), Returned(()));
      var session := SessionRow(req.app, row.id, Tokens.HashToken(c, tokenPepper, draws.access),
                                Tokens.HashToken(c, tokenPepper, draws.refresh));
      w.result == Err(Raised(Exc(TypeError, "tuple indices must be integers or slices, not str")))
      && session in Run(s, w.events).durable.sessions
  {
    var e0 := Called(LoginCall(c, req, client).value, true);
    var e1 := Called(SessionCall(c, tokenPepper, req.app, row.id, client, draws.access, draws.refresh), true);
    var w := CookieLoginAsWritten(c, passwordPepper, tokenPepper, req, client, draws, Returned(Some(row)), Returned(()));
    assert w.events == [e0, e1, Committed];
    RunThree(s, e0, e1, Committed);
  }

  /**
   * As written, the cookie handler never answers with session cookies,
   * whatever the lookup and the helper do; it makes the same calls and
   * commits as `CookieLogin`.
   */
  lemma {:induction false} CookieLoginAsWrittenSetsNoCookies(c: Crypto, passwordPepper: string, tokenPepper: bytes,
                                                             req: LoginRequest, client: Client, draws: Draws,
                                                             lookup: Outcome<Option<LoginRow>>, issue: Outcome<()>)
    ensures var w := CookieLoginAsWritten(c, passwordPepper, tokenPepper, req, client, draws, lookup, issue);
      !(w.result.Ok? && w.result.value.TokensInCookies?)
      && w.events == CookieLogin(c, passwordPepper, tokenPepper, req, client, draws, lookup, issue).events
  {
  }

  /**
   * A suspension reported by the procedure is a 403 in the body handlers,
   * which match any exception's text; the cookie handler catches only
   * `ValueError`, so the same database error escapes it.
   */
  lemma {:induction false} SuspensionHandledOnlyInBody(c: Crypto, passwordPepper: string, tokenPepper: bytes, req: LoginRequest,
                                    client: Client, draws: Draws, issue: Outcome<()>, a: string, b: string)
    requires LoginCall(c, req, client).Ok?
    requires !Contains(a + "User is suspended" + b, UserNotFoundText) && !Contains(a + "User is suspended" + b, InvalidPasswordText)
    ensures var e := Exc(DatabaseError, a + "User is suspended" + b);
      BodyLogin(c, passwordPepper, tokenPepper, req, client, draws, Threw(e), issue).result
        == Err(Http(HttpError(403, "User account is suspended")))
      && CookieLogin(c, passwordPepper, tokenPepper, req, client, draws, Threw(e), issue).result == Err(Raised(e))
  {
    var e := Exc(DatabaseError, a + "User is suspended" + b);
    assert Authenticate(c, passwordPepper, tokenPepper, req, client, draws, Threw(e), issue).result == Err(e);
    ContainsInfix(a, "User is suspended", b);
    LoginErrorsTranslated(a + "User is suspended" + b);
  }

  /**
   * An address the e-mail hash rejects never reaches the store. The cookie
   * handler answers 500 "Unexpected error", since the unpacking message is
   * none of its keys.
   */
  lemma {:induction false} RejectedAddress(c: Crypto, passwordPepper: string, tokenPepper: bytes, req: LoginRequest, client: Client,
                        draws: Draws, lookup: Outcome<Option<LoginRow>>, issue: Outcome<()>)
    requires Hashing.HashEmail(c, req.email, Decimal(req.app)) == Err(Exc(ValueError, Hashing.UnpackErrorText))
    ensures CookieLogin(c, passwordPepper, tokenPepper, req, client, draws, lookup, issue) == Transcript(Err(Http(UnexpectedError)), [])
    ensures BodyLogin(c, passwordPepper, tokenPepper, req, client, draws, lookup, issue).events == []
  {
    assert |Hashing.UnpackErrorText| != |UserNotFoundText| && |Hashing.UnpackErrorText| != |InvalidPasswordText|
      && |Hashing.UnpackErrorText| != |"User is suspended"|;
    LoginErrorsTranslated(Hashing.UnpackErrorText);
  }

  /**
   * The controller stops a missing user with 404 before any password check
   * and a wrong password with 400; neither reaches the service, and the
   * controller never commits whatever happens.
   */
  lemma {:induction false} ControllerChecksInOrder(c: Crypto, passwordPepper: string, req: LoginRequest, client: Client,
                                lookup: Outcome<Option<LoginRow>>, issue: Outcome<Option<string>>, s: Snapshot)
    ensures var t := ControllerLogin(c, passwordPepper, req, client, lookup, issue);
      Committed !in t.events && Run(s, t.events).durable == s.durable
      && (lookup == Returned(None) && Hashing.HashEmail(c, req.email, Decimal(req.app)).Ok? ==>
            t.result == Err(Http(HttpError(404, "User not found"))) && |t.events| == 1)
      && (t.result.Ok? ==>
            lookup.Returned? && lookup.value.Some?
            && Passwords.VerifyPassword(c, passwordPepper, req.password, lookup.value.value.passwordHash)
            && (t.result.value.ChallengeIssued? <==> lookup.value.value.twoFactor))
  {
    var t := ControllerLogin(c, passwordPepper, req, client, lookup, issue);
    assert forall i :: 0 <= i < |t.events| ==> t.events[i].Called?;
    QuietRun(s, t.events);
  }
}
