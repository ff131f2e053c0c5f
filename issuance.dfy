/**
 * Issuing credentials after a successful check: a login session (an access and
 * a refresh token) or a TOTP challenge. Tokens are drawn by `secrets`, which
 * makes them parameters here; only their HMACs reach the store, and the
 * plaintexts go back to the caller. The login session is committed before it
 * is returned; the challenge is not committed at all.
 */
module Issuance {
  import opened Common
  import opened Primitives
  import opened Store
  import Tokens

  /** The expiry timestamps the session record carries next to its two tokens. */
  datatype SessionExpiry = SessionExpiry(access: int, refresh: int)

  /** The session record every login flow consumes. */
  datatype SessionTokens = SessionTokens(access: string, refresh: string, accessExpires: int, refreshExpires: int)

  /**
   * What a caller meets when it reads the shared helper's `(access_token,
   * refresh_token)` tuple by key, as in `session["access_token"]`.
   */
  const TupleIndexedByKey: Exc := Exc(TypeError, "tuple indices must be integers or slices, not str")

  /** The `create_session` call for two drawn tokens. */
  function SessionCall(c: Crypto, pepper: bytes, app: int, user: int, client: Client, access: string, refresh: string): Call
  {
    CreateSession(app, user, Tokens.HashToken(c, pepper, access), Tokens.HashToken(c, pepper, refresh), client)
  }

  /** `create_login_session`: store both hashes, commit, hand back both plaintexts. */
  function LoginSession(c: Crypto, pepper: bytes, app: int, user: int, client: Client,
                        access: string, refresh: string, expiry: SessionExpiry, outcome: Outcome<()>)
    : Transcript<Result<SessionTokens, Exc>>
  {
    var call := SessionCall(c, pepper, app, user, client, access, refresh);
    match outcome
    case Threw(e) => Transcript(Err(e), [Called(call, false)])
    case Returned(_) =>
      Transcript(Ok(SessionTokens(access, refresh, expiry.access, expiry.refresh)), [Called(call, true), Committed])
  }

  method CreateLoginSession(b: Backend, c: Crypto, pepper: bytes, app: int, user: int, client: Client,
                            access: string, refresh: string, expiry: SessionExpiry, outcome: Outcome<()>)
    returns (r: Result<SessionTokens, Exc>)
    requires b.Valid()
    modifies b
    ensures b.Valid()
    ensures var t := LoginSession(c, pepper, app, user, client, access, refresh, expiry, outcome);
      r == t.result && b.trace == old(b.trace) + t.events && b.State() == Run(old(b.State()), t.events)
  {
    ghost var t := LoginSession(c, pepper, app, user, client, access, refresh, expiry, outcome);
    var call := CreateSession(app, user, Tokens.HashToken(c, pepper, access), Tokens.HashToken(c, pepper, refresh), client);
    if outcome.Threw? {
      b.Execute(call, false);
      r := Err(outcome.exc);
    } else {
      b.Execute(call, true);
      b.Commit();
      r := Ok(SessionTokens(access, refresh, expiry.access, expiry.refresh));
    }
    Replayed(b, old(b.trace), old(b.State()), t.events);
  }

  /** `create_mfa_challenge_session`: store the challenge's hash and hand back the plaintext, without committing. */
  function ChallengeSession(c: Crypto, pepper: bytes, app: int, user: int, client: Client,
                            challenge: string, outcome: Outcome<()>): Transcript<Result<string, Exc>>
  {
    var call := Store.CreateMfaChallengeSession(app, user, Tokens.HashToken(c, pepper, challenge), client);
    match outcome
    case Threw(e) => Transcript(Err(e), [Called(call, false)])
    case Returned(_) => Transcript(Ok(challenge), [Called(call, true)])
  }

  method CreateMfaChallengeSession(b: Backend, c: Crypto, pepper: bytes, app: int, user: int, client: Client,
                                   challenge: string, outcome: Outcome<()>)
    returns (r: Result<string, Exc>)
    requires b.Valid()
    modifies b
    ensures b.Valid()
    ensures var t := ChallengeSession(c, pepper, app, user, client, challenge, outcome);
      r == t.result && b.trace == old(b.trace) + t.events && b.State() == Run(old(b.State()), t.events)
  {
    var call := Store.CreateMfaChallengeSession(app, user, Tokens.HashToken(c, pepper, challenge), client);
    b.Execute(call, outcome.Returned?);
    r := if outcome.Threw? then Err(outcome.exc) else Ok(challenge);
    RunAppend(b.origin, old(b.trace), [Called(call, outcome.Returned?)]);
  }

  /**
   * A login session the caller receives is already durable: after the helper
   * the committed sessions hold one more row, keyed by the hashes of exactly
   * the two tokens handed back, and each token verifies against its hash.
   */
  lemma {:induction false} LoginSessionPersistsBeforeReturn(c: Crypto, pepper: bytes, app: int, user: int, client: Client,
                                         access: string, refresh: string, expiry: SessionExpiry,
                                         outcome: Outcome<()>, s: Snapshot)
    requires LoginSession(c, pepper, app, user, client, access, refresh, expiry, outcome).result.Ok?
    ensures var t := LoginSession(c, pepper, app, user, client, access, refresh, expiry, outcome);
      var tokens := t.result.value;
      var row := SessionRow(app, user, Tokens.HashToken(c, pepper, tokens.access), Tokens.HashToken(c, pepper, tokens.refresh));
      Run(s, t.events).durable.sessions == s.tables.sessions + {row}
      && Tokens.VerifyToken(c, pepper, tokens.access, row.accessHash)
      && Tokens.VerifyToken(c, pepper, tokens.refresh, row.refreshHash)
      && t.events[|t.events| - 1] == Committed
  {
    var t := LoginSession(c, pepper, app, user, client, access, refresh, expiry, outcome);
    assert t.events == [Called(SessionCall(c, pepper, app, user, client, access, refresh), true), Committed];
    RunTwo(s, t.events[0], Committed);
    Tokens.VerifyTokenMeaning(c, pepper, access, Tokens.HashToken(c, pepper, access));
    Tokens.VerifyTokenMeaning(c, pepper, refresh, Tokens.HashToken(c, pepper, refresh));
  }

  /** A failed `create_session` call raises out of the helper: nothing is committed and no token leaves it. */
  lemma {:induction false} LoginSessionFailureChangesNothing(c: Crypto, pepper: bytes, app: int, user: int, client: Client,
                                          access: string, refresh: string, expiry: SessionExpiry,
                                          e: Exc, s: Snapshot)
    ensures var t := LoginSession(c, pepper, app, user, client, access, refresh, expiry, Threw(e));
      t.result == Err(e) && Run(s, t.events) == s
  {
    var t := LoginSession(c, pepper, app, user, client, access, refresh, expiry, Threw(e));
    assert t.events == [t.events[0]];
    RunOne(s, t.events[0]);
  }

  /**
   * The challenge helper never commits: the durable tables and the outbox are
   * untouched, and when the call succeeds the session's view holds the
   * challenge under the hash of the token handed back.
   */
  lemma {:induction false} ChallengeIsNotCommitted(c: Crypto, pepper: bytes, app: int, user: int, client: Client,
                                challenge: string, outcome: Outcome<()>, s: Snapshot)
    ensures var t := ChallengeSession(c, pepper, app, user, client, challenge, outcome);
      Run(s, t.events).durable == s.durable && Run(s, t.events).outbox == s.outbox
      && (t.result.Ok? <==> outcome.Returned?)
      && (t.result.Ok? ==>
            t.result.value == challenge
            && ChallengeRow(app, user, Tokens.HashToken(c, pepper, t.result.value)) in Run(s, t.events).tables.challenges)
  {
    var call := Store.CreateMfaChallengeSession(app, user, Tokens.HashToken(c, pepper, challenge), client);
    var e0 := Called(call, outcome.Returned?);
    var t := ChallengeSession(c, pepper, app, user, client, challenge, outcome);
    assert t.events == [e0];
    RunOne(s, e0);
  }

  /** The two cookies a login response carries, as `create_login_response_with_cookies` and the handlers set them. */
  function SessionCookies(tokens: SessionTokens): (r: seq<Cookie>)
    ensures |r| == 2
    ensures forall i :: 0 <= i < 2 ==> r[i].httpOnly && r[i].secure && r[i].sameSite == "Strict"
    ensures r[0].key == "access_token" && r[0].value == tokens.access && r[0].path == "/"
      && r[0].expires == tokens.accessExpires
    ensures r[1].key == "refresh_token" && r[1].value == tokens.refresh && r[1].path == "/auth/refresh"
      && r[1].expires == tokens.refreshExpires
  {
    [Cookie("access_token", tokens.access, true, true, "Strict", tokens.accessExpires, "/"),
     Cookie("refresh_token", tokens.refresh, true, true, "Strict", tokens.refreshExpires, "/auth/refresh")]
  }

  /** One `response.set_cookie(...)`. */
  datatype Cookie = Cookie(key: string, value: string, httpOnly: bool, secure: bool, sameSite: string,
                           expires: int, path: string)
}
