/**
 * TOTP two-factor authentication: setting up a secret (stored encrypted and
 * under a namespaced hash, then answered with the secret and a challenge) and
 * confirming a challenge with a code (which, once the code checks, may mark
 * the secret confirmed and issues a login session in cookies). Both handlers
 * first pass the dependencies that resolve the bearer access token and, for
 * confirmation, the challenge token.
 */
module Mfa {
  import opened Common
  import opened Strings
  import opened Primitives
  import opened Store
  import opened Issuance
  import Encryption
  import Hashing
  import Otp
  import Tokens

  /** What `get_access_token` returns for a live session; the handlers only need it to exist. */
  datatype AccessSession = AccessSession(user: int, app: int)

  /** What `get_totp_secret` returns for a live challenge. */
  datatype ChallengeData = ChallengeData(totpSecretId: int, app: int, user: int, secretEncrypted: string,
                                         confirmedAt: Option<int>)

  /** The store's view through the two dependencies: rows keyed by token hash. */
  datatype Lookups = Lookups(sessions: map<bytes, AccessSession>, challenges: map<bytes, ChallengeData>)

  /** How a TOTP handler ends when it does not answer normally. */
  datatype MfaFailure =
    | Refused(response: HttpError)
    | Escaped(exc: Exc)                          // an exception leaves the handler
    | CipherFailed(reason: Encryption.CipherError)   // encrypt_field or decrypt_field raised

  datatype SetupRequest = SetupRequest(app: int, user: int)
  datatype SetupReply = SetupReply(secret: string, challengeToken: string)

  const SetupFailed: HttpError := HttpError(400, "TOTP setup failed")
  const InvalidCode: HttpError := HttpError(401, "Invalid TOTP code")

  /** The version the key column is written with. */
  const KeyVersion: int := 1

  function InsertCall(c: Crypto, user: int, app: int, encrypted: string, secret: string): Call
  {
    InsertTotpSecret(user, encrypted, Hashing.HashField(c, secret, Decimal(app)), KeyVersion)
  }

  /**
   * `setup_totp_secret`: `secret` is the drawn base32 secret, `nonce` the
   * encryption nonce, `challenge` the drawn challenge token; `insert` and
   * `issue` are the outcomes of the two calls. The access token is checked
   * and the secret encrypted before anything reaches the store.
   */
  function Setup(c: Crypto, key: bytes, tokenPepper: bytes, authorization: string, lookups: Lookups,
                 req: SetupRequest, client: Client, secret: string, nonce: bytes, challenge: string,
                 insert: Outcome<()>, issue: Outcome<()>): Transcript<Result<SetupReply, MfaFailure>>
    requires |nonce| == Encryption.NonceLength
  {
    match Tokens.RequireAccessToken(c, tokenPepper, authorization, lookups.sessions)
    case Err(h) => Transcript(Err(Refused(h)), [])
    case Ok(_) =>
      match Encryption.EncryptField(c, key, secret, nonce)
      case Err(e) => Transcript(Err(CipherFailed(e)), [])
      case Ok(enc) => SetupStore(c, tokenPepper, req, client, secret, enc, challenge, insert, issue)
  }

  /** A failed insertion: an integrity error is the 400, anything else escapes. */
  function InsertFailure(e: Exc): MfaFailure
  {
    if e.kind == IntegrityError then Refused(SetupFailed) else Escaped(e)
  }

  /** From the insertion on: store the secret, commit, create the challenge. */
  function SetupStore(c: Crypto, tokenPepper: bytes, req: SetupRequest, client: Client, secret: string,
                      encrypted: string, challenge: string, insert: Outcome<()>, issue: Outcome<()>)
    : Transcript<Result<SetupReply, MfaFailure>>
  {
    var call := InsertCall(c, req.user, req.app, encrypted, secret);
    match insert
    case Threw(e) =>
      Transcript(Err(InsertFailure(e)), [Called(call, false)])
    case Returned(_) =>
      var t := ChallengeSession(c, tokenPepper, req.app, req.user, client, challenge, issue);
      var events := [Called(call, true), Committed] + t.events;
      match t.result
      case Err(e) => Transcript(Err(Escaped(e)), events)
      case Ok(token) => Transcript(Ok(SetupReply(secret, token)), events)
  }

  method StoreSecret(b: Backend, c: Crypto, tokenPepper: bytes, req: SetupRequest, client: Client, secret: string,
                     encrypted: string, challenge: string, insert: Outcome<()>, issue: Outcome<()>)
    returns (r: Result<SetupReply, MfaFailure>)
    requires b.Valid()
    modifies b
    ensures var t := SetupStore(c, tokenPepper, req, client, secret, encrypted, challenge, insert, issue);
      b.Valid() && r == t.result && b.trace == old(b.trace) + t.events
  {
    var call := InsertCall(c, req.user, req.app, encrypted, secret);
    if insert.Threw? {
      b.Execute(call, false);
      return Err(InsertFailure(insert.exc));
    }
    ghost var before := b.trace;
    b.Execute(call, true);
    b.Commit();
    ghost var head := [Called(call, true), Committed];
    assert b.trace == before + head;
    var token := Issuance.CreateMfaChallengeSession(b, c, tokenPepper, req.app, req.user, client, challenge, issue);
    Regroup(before, head, ChallengeSession(c, tokenPepper, req.app, req.user, client, challenge, issue).events);
    r := if token.Err? then Err(Escaped(token.error)) else Ok(SetupReply(secret, token.value));
  }

  method SetupTotpSecret(b: Backend, c: Crypto, key: bytes, tokenPepper: bytes, authorization: string,
                         lookups: Lookups, req: SetupRequest, client: Client, secret: string, nonce: bytes,
                         challenge: string, insert: Outcome<()>, issue: Outcome<()>)
    returns (r: Result<SetupReply, MfaFailure>)
    requires b.Valid() && |nonce| == Encryption.NonceLength
    modifies b
    ensures var t := Setup(c, key, tokenPepper, authorization, lookups, req, client, secret, nonce, challenge, insert, issue);
      b.Valid() && r == t.result && b.trace == old(b.trace) + t.events
      && b.State() == Run(old(b.State()), t.events)
  {
    ghost var t := Setup(c, key, tokenPepper, authorization, lookups, req, client, secret, nonce, challenge, insert, issue);
    var session := Tokens.RequireAccessToken(c, tokenPepper, authorization, lookups.sessions);
    if session.Err? {
      assert old(b.trace) + [] == b.trace;
      return Err(Refused(session.error));
    }
    var encrypted := Encryption.EncryptField(c, key, secret, nonce);
    if encrypted.Err? {
      assert old(b.trace) + [] == b.trace;
      return Err(CipherFailed(encrypted.error));
    }
    r := StoreSecret(b, c, tokenPepper, req, client, secret, encrypted.value, challenge, insert, issue);
    Replayed(b, old(b.trace), old(b.State()), t.events);
  }

  /** Which confirmation handler: the router marks a first use confirmed, the versioned route never does. */
  datatype Variant = MarksConfirmed | LeavesConfirmation

  /** The body of a successful confirmation and the cookies that carry the session. */
  datatype ConfirmReply = ConfirmReply(id: int, twoFactorEnabled: bool, emailVerified: bool, cookies: seq<Cookie>)

  /** The outcomes of the calls a confirmation makes, in order. */
  datatype ConfirmOutcomes = ConfirmOutcomes(confirm: Outcome<()>, status: Outcome<bool>, issue: Outcome<()>)

  /** Every condition in front of the writes: both tokens resolve, the secret decrypts, and the code checks. */
  predicate Admitted(c: Crypto, key: bytes, tokenPepper: bytes, authorization: string, challengeHeader: string,
                     lookups: Lookups, code: string)
  {
    Tokens.RequireAccessToken(c, tokenPepper, authorization, lookups.sessions).Ok?
    && Tokens.RequireChallengeToken(c, tokenPepper, challengeHeader, lookups.challenges).Ok?
    && var ch := Tokens.RequireChallengeToken(c, tokenPepper, challengeHeader, lookups.challenges).value;
       Encryption.DecryptField(c, key, ch.secretEncrypted).Ok?
       && Otp.VerifyOtp(c, Encryption.DecryptField(c, key, ch.secretEncrypted).value, code, Otp.Totp, 0)
  }

  /**
   * `confirm_2fa`: both tokens, then the code checked against the decrypted
   * secret; only an admitted request goes on to the store.
   */
  function Confirm(v: Variant, c: Crypto, key: bytes, tokenPepper: bytes, authorization: string, challengeHeader: string,
                   lookups: Lookups, code: string, client: Client, draws: SessionExpiry, access: string, refresh: string,
                   outcomes: ConfirmOutcomes): Transcript<Result<ConfirmReply, MfaFailure>>
  {
    match Tokens.RequireAccessToken(c, tokenPepper, authorization, lookups.sessions)
    case Err(h) => Transcript(Err(Refused(h)), [])
    case Ok(_) =>
      match Tokens.RequireChallengeToken(c, tokenPepper, challengeHeader, lookups.challenges)
      case Err(h) => Transcript(Err(Refused(h)), [])
      case Ok(ch) =>
        match Encryption.DecryptField(c, key, ch.secretEncrypted)
        case Err(e) => Transcript(Err(CipherFailed(e)), [])
        case Ok(secret) =>
          if !Otp.VerifyOtp(c, secret, code, Otp.Totp, 0) then Transcript(Err(Refused(InvalidCode)), [])
          else ConfirmAdmitted(v, c, tokenPepper, ch, client, draws, access, refresh, outcomes)
  }

  /**
   * The step in front of issuance: in the router, while `confirmed_at` is
   * unset, `confirm_totp_secret` and a commit, where a failing call escapes;
   * `rest` is what the handler does next.
   */
  function FirstUse(v: Variant, ch: ChallengeData, confirm: Outcome<()>, rest: Transcript<Result<ConfirmReply, MfaFailure>>)
    : Transcript<Result<ConfirmReply, MfaFailure>>
  {
    if v == MarksConfirmed && ch.confirmedAt.None? then
      var e := Called(ConfirmTotpSecret(ch.totpSecretId), confirm.Returned?);
      if confirm.Threw? then Transcript(Err(Escaped(confirm.exc)), [e])
      else Transcript(rest.result, [e, Committed] + rest.events)
    else rest
  }

  /** After the code checks: in the router, while `confirmed_at` is unset, confirm and commit; then the session. */
  function ConfirmAdmitted(v: Variant, c: Crypto, tokenPepper: bytes, ch: ChallengeData, client: Client,
                           draws: SessionExpiry, access: string, refresh: string, outcomes: ConfirmOutcomes)
    : Transcript<Result<ConfirmReply, MfaFailure>>
  {
    FirstUse(v, ch, outcomes.confirm, IssueAfterOtp(c, tokenPepper, ch, client, draws, access, refresh, outcomes))
  }

  /** From the e-mail status query on: look the status up, issue the session, build the reply. */
  function IssueAfterOtp(c: Crypto, tokenPepper: bytes, ch: ChallengeData, client: Client, draws: SessionExpiry,
                         access: string, refresh: string, outcomes: ConfirmOutcomes)
    : Transcript<Result<ConfirmReply, MfaFailure>>
  {
    var query := Called(GetEmailVerificationStatus(ch.app, ch.user), outcomes.status.Returned?);
    match outcomes.status
    case Threw(e) => Transcript(Err(Escaped(e)), [query])
    case Returned(verified) =>
      var t := LoginSession(c, tokenPepper, ch.app, ch.user, client, access, refresh, draws, outcomes.issue);
      match t.result
      case Err(e) => Transcript(Err(Escaped(e)), [query] + t.events)
      case Ok(tokens) => Transcript(Ok(ConfirmReply(ch.user, true, verified, SessionCookies(tokens))), [query] + t.events)
  }

  method IssueSession(b: Backend, c: Crypto, tokenPepper: bytes, ch: ChallengeData, client: Client,
                      draws: SessionExpiry, access: string, refresh: string, outcomes: ConfirmOutcomes)
    returns (r: Result<ConfirmReply, MfaFailure>)
    requires b.Valid()
    modifies b
    ensures var t := IssueAfterOtp(c, tokenPepper, ch, client, draws, access, refresh, outcomes);
      b.Valid() && r == t.result && b.trace == old(b.trace) + t.events
  {
    b.Execute(GetEmailVerificationStatus(ch.app, ch.user), outcomes.status.Returned?);
    if outcomes.status.Threw? {
      return Err(Escaped(outcomes.status.exc));
    }
    var tokens := CreateLoginSession(b, c, tokenPepper, ch.app, ch.user, client, access, refresh, draws, outcomes.issue);
    if tokens.Err? {
      return Err(Escaped(tokens.error));
    }
    r := Ok(ConfirmReply(ch.user, true, outcomes.status.value, SessionCookies(tokens.value)));
  }

  method CompleteConfirmation(b: Backend, v: Variant, c: Crypto, tokenPepper: bytes, ch: ChallengeData, client: Client,
                              draws: SessionExpiry, access: string, refresh: string, outcomes: ConfirmOutcomes)
    returns (r: Result<ConfirmReply, MfaFailure>)
    requires b.Valid()
    modifies b
    ensures var t := ConfirmAdmitted(v, c, tokenPepper, ch, client, draws, access, refresh, outcomes);
      b.Valid() && r == t.result && b.trace == old(b.trace) + t.events
  {
    if v == MarksConfirmed && ch.confirmedAt.None? {
      b.Execute(ConfirmTotpSecret(ch.totpSecretId), outcomes.confirm.Returned?);
      if outcomes.confirm.Threw? {
        return Err(Escaped(outcomes.confirm.exc));
      }
      b.Commit();
    }
    r := IssueSession(b, c, tokenPepper, ch, client, draws, access, refresh, outcomes);
  }

  method Confirm2fa(b: Backend, v: Variant, c: Crypto, key: bytes, tokenPepper: bytes, authorization: string,
                    challengeHeader: string, lookups: Lookups, code: string, client: Client, draws: SessionExpiry,
                    access: string, refresh: string, outcomes: ConfirmOutcomes)
    returns (r: Result<ConfirmReply, MfaFailure>)
    requires b.Valid()
    modifies b
    ensures var t := Confirm(v, c, key, tokenPepper, authorization, challengeHeader, lookups, code, client, draws,
                             access, refresh, outcomes);
      b.Valid() && r == t.result && b.trace == old(b.trace) + t.events
      && b.State() == Run(old(b.State()), t.events)
  {
    ghost var t := Confirm(v, c, key, tokenPepper, authorization, challengeHeader, lookups, code, client, draws, access, refresh, outcomes);
    var session := Tokens.RequireAccessToken(c, tokenPepper, authorization, lookups.sessions);
    if session.Err? {
      assert old(b.trace) + [] == b.trace;
      return Err(Refused(session.error));
    }
    var challenge := Tokens.RequireChallengeToken(c, tokenPepper, challengeHeader, lookups.challenges);
    if challenge.Err? {
      assert old(b.trace) + [] == b.trace;
      return Err(Refused(challenge.error));
    }
    var ch := challenge.value;
    var secret := Encryption.DecryptField(c, key, ch.secretEncrypted);
    if secret.Err? {
      assert old(b.trace) + [] == b.trace;
      return Err(CipherFailed(secret.error));
    }
    if !Otp.VerifyOtp(c, secret.value, code, Otp.Totp, 0) {
      assert old(b.trace) + [] == b.trace;
      return Err(Refused(InvalidCode));
    }
    r := CompleteConfirmation(b, v, c, tokenPepper, ch, client, draws, access, refresh, outcomes);
    Replayed(b, old(b.trace), old(b.State()), t.events);
  }

  // ---- properties of setup ----

  /**
   * Nothing reaches the store before the access token is accepted and the
   * key encrypts; past both, the handler is the insertion of exactly that
   * ciphertext.
   */
  lemma {:induction false} SetupChecksFirst(c: Crypto, key: bytes, tokenPepper: bytes, authorization: string, lookups: Lookups,
                         req: SetupRequest, client: Client, secret: string, nonce: bytes, challenge: string,
                         insert: Outcome<()>, issue: Outcome<()>)
    requires |nonce| == Encryption.NonceLength
    ensures var t := Setup(c, key, tokenPepper, authorization, lookups, req, client, secret, nonce, challenge, insert, issue);
      var admitted := Tokens.RequireAccessToken(c, tokenPepper, authorization, lookups.sessions).Ok? && IsAesKeyLength(|key|);
      (!admitted ==> t.events == [] && t.result.Err?)
      && (admitted ==>
            t == SetupStore(c, tokenPepper, req, client, secret, Encryption.EncryptField(c, key, secret, nonce).value,
                            challenge, insert, issue))
  {
  }

  /**
   * A duplicate secret is refused with 400 "TOTP setup failed": the failed
   * call is the only event, nothing is committed and no challenge exists.
   */
  lemma {:induction false} SetupDuplicateRefused(c: Crypto, tokenPepper: bytes, req: SetupRequest, client: Client, secret: string,
                              encrypted: string, challenge: string, e: Exc, issue: Outcome<()>, s: Snapshot)
    requires e.kind == IntegrityError
    ensures var t := SetupStore(c, tokenPepper, req, client, secret, encrypted, challenge, Threw(e), issue);
      t.result == Err(Refused(HttpError(400, "TOTP setup failed"))) && |t.events| == 1 && Run(s, t.events) == s
  {
    var e0 := Called(InsertCall(c, req.user, req.app, encrypted, secret), false);
    var t := SetupStore(c, tokenPepper, req, client, secret, encrypted, challenge, Threw(e), issue);
    assert t.events == [e0];
    RunOne(s, e0);
  }

  /**
   * A stored secret is committed before the challenge is created: the
   * durable TOTP table gains the unconfirmed row with the ciphertext, the
   * hash of `app_id:secret` and key version 1; the challenge row comes after
   * the commit and so is not durable; and the reply carries the drawn secret
   * and challenge.
   */
  lemma {:induction false} SetupCommitsSecretFirst(c: Crypto, tokenPepper: bytes, req: SetupRequest, client: Client, secret: string,
                                encrypted: string, challenge: string, issue: Outcome<()>, s: Snapshot)
    ensures var t := SetupStore(c, tokenPepper, req, client, secret, encrypted, challenge, Returned(()), issue);
      var after := Run(s, t.events);
      t.events[1] == Committed
      && after.durable.totp == s.tables.totp + [TotpRow(req.user, encrypted, Hashing.HashField(c, secret, Decimal(req.app)), 1, false)]
      && after.durable.challenges == s.tables.challenges
      && (t.result.Ok? <==> issue.Returned?)
      && (t.result.Ok? ==> t.result.value == SetupReply(secret, challenge))
  {
    var call := InsertCall(c, req.user, req.app, encrypted, secret);
    var ct := ChallengeSession(c, tokenPepper, req.app, req.user, client, challenge, issue);
    var t := SetupStore(c, tokenPepper, req, client, secret, encrypted, challenge, Returned(()), issue);
    var e2 := ct.events[0];
    assert t.events == [Called(call, true), Committed, e2];
    RunThree(s, Called(call, true), Committed, e2);
  }

  /** The stored ciphertext opens, under the same key, to exactly the secret the user was given. */
  lemma {:induction false} SetupSecretRecoverable(c: Crypto, key: bytes, secret: string, nonce: bytes)
    requires GcmOpensSeal(c) && Utf8RoundTrips(c)
    requires |nonce| == Encryption.NonceLength && IsAesKeyLength(|key|)
    ensures var call := InsertCall(c, 0, 0, Encryption.EncryptField(c, key, secret, nonce).value, secret);
      Encryption.DecryptField(c, key, call.secretEncrypted) == Ok(secret)
  {
    Encryption.DecryptOfEncrypt(c, key, secret, nonce);
  }

  // ---- properties of confirmation ----

  /**
   * Nothing is written unless every check passed: a missing token, an
   * undecryptable secret or a wrong code ends the handler with no event at
   * all, so the challenge stays usable; a wrong code is a 401; an admitted
   * request goes on with the challenge's row.
   */
  lemma {:induction false} NoWriteBeforeTheCode(v: Variant, c: Crypto, key: bytes, tokenPepper: bytes, authorization: string,
                             challengeHeader: string, lookups: Lookups, code: string, client: Client,
                             draws: SessionExpiry, access: string, refresh: string, outcomes: ConfirmOutcomes)
    ensures var t := Confirm(v, c, key, tokenPepper, authorization, challengeHeader, lookups, code, client, draws,
                             access, refresh, outcomes);
      !Admitted(c, key, tokenPepper, authorization, challengeHeader, lookups, code) ==> t.events == [] && t.result.Err?
    ensures var t := Confirm(v, c, key, tokenPepper, authorization, challengeHeader, lookups, code, client, draws,
                             access, refresh, outcomes);
      Admitted(c, key, tokenPepper, authorization, challengeHeader, lookups, code) ==>
        t == ConfirmAdmitted(v, c, tokenPepper, Tokens.RequireChallengeToken(c, tokenPepper, challengeHeader, lookups.challenges).value,
                             client, draws, access, refresh, outcomes)
  {
  }

  /** With both tokens accepted and the secret decrypted, a code that does not verify is a 401 and nothing else. */
  lemma {:induction false} WrongCodeIs401(v: Variant, c: Crypto, key: bytes, tokenPepper: bytes, authorization: string,
                       challengeHeader: string, lookups: Lookups, code: string, client: Client,
                       draws: SessionExpiry, access: string, refresh: string, outcomes: ConfirmOutcomes)
    requires Tokens.RequireAccessToken(c, tokenPepper, authorization, lookups.sessions).Ok?
    requires Tokens.RequireChallengeToken(c, tokenPepper, challengeHeader, lookups.challenges).Ok?
    requires var ch := Tokens.RequireChallengeToken(c, tokenPepper, challengeHeader, lookups.challenges).value;
      Encryption.DecryptField(c, key, ch.secretEncrypted).Ok?
      && !Otp.VerifyOtp(c, Encryption.DecryptField(c, key, ch.secretEncrypted).value, code, Otp.Totp, 0)
    ensures Confirm(v, c, key, tokenPepper, authorization, challengeHeader, lookups, code, client, draws, access, refresh, outcomes)
         == Transcript(Err(Refused(HttpError(401, "Invalid TOTP code"))), [])
  {
  }

  predicate ConfirmsSecret(events: seq<Event>, id: int)
  {
    Called(ConfirmTotpSecret(id), true) in events || Called(ConfirmTotpSecret(id), false) in events
  }

  /**
   * Once admitted, `confirm_totp_secret` is called exactly when the handler
   * is the router's and the secret was not confirmed yet; the versioned route
   * leaves the TOTP table as it was.
   */
  lemma {:induction false} ConfirmOnlyWhileUnconfirmed(v: Variant, c: Crypto, tokenPepper: bytes, ch: ChallengeData, client: Client,
                                    draws: SessionExpiry, access: string, refresh: string, outcomes: ConfirmOutcomes,
                                    s: Snapshot)
    ensures var t := ConfirmAdmitted(v, c, tokenPepper, ch, client, draws, access, refresh, outcomes);
      (ConfirmsSecret(t.events, ch.totpSecretId) <==> v == MarksConfirmed && ch.confirmedAt.None?)
      && (v == LeavesConfirmation ==> Run(s, t.events).tables.totp == s.tables.totp)
  {
    IssueLeavesTotp(c, tokenPepper, ch, client, draws, access, refresh, outcomes, s);
  }

  /** The status query and the session neither call `confirm_totp_secret` nor touch the TOTP table. */
  lemma {:induction false} IssueLeavesTotp(c: Crypto, tokenPepper: bytes, ch: ChallengeData, client: Client, draws: SessionExpiry,
                        access: string, refresh: string, outcomes: ConfirmOutcomes, s: Snapshot)
    ensures var t := IssueAfterOtp(c, tokenPepper, ch, client, draws, access, refresh, outcomes);
      !ConfirmsSecret(t.events, ch.totpSecretId) && Run(s, t.events).tables.totp == s.tables.totp
  {
    var q := Called(GetEmailVerificationStatus(ch.app, ch.user), outcomes.status.Returned?);
    RunOne(s, q);
    if outcomes.status.Returned? {
      var l := LoginSession(c, tokenPepper, ch.app, ch.user, client, access, refresh, draws, outcomes.issue);
      var sc := SessionCall(c, tokenPepper, ch.app, ch.user, client, access, refresh);
      assert l.events == [Called(sc, true), Committed] || l.events == [Called(sc, false)];
      RunAppend(s, [q], l.events);
      SessionLeavesTotp(c, tokenPepper, ch, client, draws, access, refresh, outcomes.issue, Run(s, [q]));
    }
  }

  lemma {:induction false} SessionLeavesTotp(c: Crypto, tokenPepper: bytes, ch: ChallengeData, client: Client, draws: SessionExpiry,
                          access: string, refresh: string, issue: Outcome<()>, s: Snapshot)
    ensures var l := LoginSession(c, tokenPepper, ch.app, ch.user, client, access, refresh, draws, issue);
      Run(s, l.events).tables.totp == s.tables.totp
  {
    var l := LoginSession(c, tokenPepper, ch.app, ch.user, client, access, refresh, draws, issue);
    var call := SessionCall(c, tokenPepper, ch.app, ch.user, client, access, refresh);
    if issue.Returned? {
      assert l.events == [Called(call, true), Committed];
      RunTwo(s, Called(call, true), Committed);
    } else {
      assert l.events == [Called(call, false)];
      RunOne(s, Called(call, false));
    }
  }

  /**
   * In the router, a first use whose `confirm_totp_secret` returned makes the
   * confirmation durable, however the rest of the handler ends: the secret's
   * row is marked confirmed in the committed tables.
   */
  lemma {:induction false} FirstUseConfirmsDurably(c: Crypto, tokenPepper: bytes, ch: ChallengeData, client: Client, draws: SessionExpiry,
                                access: string, refresh: string, outcomes: ConfirmOutcomes, s: Snapshot)
    requires ch.confirmedAt.None? && 0 <= ch.totpSecretId < |s.tables.totp| && outcomes.confirm.Returned?
    ensures var t := ConfirmAdmitted(MarksConfirmed, c, tokenPepper, ch, client, draws, access, refresh, outcomes);
      var after := Run(s, t.events);
      ch.totpSecretId < |after.durable.totp| && after.durable.totp[ch.totpSecretId].confirmed
  {
    var t := ConfirmAdmitted(MarksConfirmed, c, tokenPepper, ch, client, draws, access, refresh, outcomes);
    var e0 := Called(ConfirmTotpSecret(ch.totpSecretId), true);
    var rest := IssueAfterOtp(c, tokenPepper, ch, client, draws, access, refresh, outcomes);
    var head := [e0, Committed];
    assert t.events == head + rest.events;
    RunTwo(s, e0, Committed);
    var mid := Run(s, head);
    assert mid.tables.totp[ch.totpSecretId].confirmed;
    RunAppend(s, head, rest.events);
    IssueLeavesTotp(c, tokenPepper, ch, client, draws, access, refresh, outcomes, mid);
    if rest.result.Ok? {
      IssueCommitsTables(c, tokenPepper, ch, client, draws, access, refresh, outcomes, mid);
    } else {
      var q := Called(GetEmailVerificationStatus(ch.app, ch.user), outcomes.status.Returned?);
      if outcomes.status.Threw? {
        assert rest.events == [q];
      } else {
        assert rest.events == [q, Called(SessionCall(c, tokenPepper, ch.app, ch.user, client, access, refresh), false)];
      }
      QuietRun(mid, rest.events);
    }
  }

  /** A successful issue ends in a commit of the session's tables. */
  lemma {:induction false} IssueCommitsTables(c: Crypto, tokenPepper: bytes, ch: ChallengeData, client: Client, draws: SessionExpiry,
                           access: string, refresh: string, outcomes: ConfirmOutcomes, s: Snapshot)
    requires IssueAfterOtp(c, tokenPepper, ch, client, draws, access, refresh, outcomes).result.Ok?
    ensures var t := IssueAfterOtp(c, tokenPepper, ch, client, draws, access, refresh, outcomes);
      Run(s, t.events).durable == Run(s, t.events).tables
  {
    var t := IssueAfterOtp(c, tokenPepper, ch, client, draws, access, refresh, outcomes);
    assert t.events == t.events[..|t.events| - 1] + [Committed];
    RunSnoc(s, t.events[..|t.events| - 1], Committed);
  }

  /**
   * A successful confirmation issues a session for the challenge's user and
   * no one else: the reply's id is the challenge's user, two-factor
   * authentication is reported enabled, the cookies carry the drawn tokens,
   * and the session stored and committed last is keyed by their hashes.
   */
  lemma {:induction false} SessionOnlyForTheChallengedUser(v: Variant, c: Crypto, tokenPepper: bytes, ch: ChallengeData, client: Client,
                                        draws: SessionExpiry, access: string, refresh: string, outcomes: ConfirmOutcomes)
    requires ConfirmAdmitted(v, c, tokenPepper, ch, client, draws, access, refresh, outcomes).result.Ok?
    ensures var t := ConfirmAdmitted(v, c, tokenPepper, ch, client, draws, access, refresh, outcomes);
      t.result.value.id == ch.user && t.result.value.twoFactorEnabled
      && t.result.value.cookies == SessionCookies(SessionTokens(access, refresh, draws.access, draws.refresh))
      && |t.events| >= 3
      && t.events[|t.events| - 2] == Called(SessionCall(c, tokenPepper, ch.app, ch.user, client, access, refresh), true)
      && t.events[|t.events| - 1] == Committed
  {
  }

  // ---- the handlers' issuance as written ----

  /**
   * The router calls `AuthService.create_mfa_challenge_session` and
   * `AuthService.create_login_session` on the class itself, so the user id
   * is bound to `self`, and `self.execute_procedure` raises before any
   * database call. In setup the bound id is the request's `user_id`, a
   * UUID (`UserFieldTypes.Id`), so the message names that type.
   */
  const UnboundService: Exc := Exc(AttributeError, "'UUID' object has no attribute 'execute_procedure'")

  /** The router's setup from the insertion on, as written: store and commit the secret, then the service call raises. */
  function RouterSetupStore(c: Crypto, req: SetupRequest, secret: string, encrypted: string, insert: Outcome<()>)
    : Transcript<Result<SetupReply, MfaFailure>>
  {
    var call := InsertCall(c, req.user, req.app, encrypted, secret);
    match insert
    case Threw(e) => Transcript(Err(InsertFailure(e)), [Called(call, false)])
    case Returned(_) => Transcript(Err(Escaped(UnboundService)), [Called(call, true), Committed])
  }

  /**
   * The router's confirmation after the code checks, as written: the first
   * use, the status query, then the service call raises. The id bound to
   * `self` is the challenge row's `user_id`, whose type the database driver
   * decides, so the AttributeError's text is the parameter `unboundText`.
   */
  function RouterConfirmAdmitted(ch: ChallengeData, outcomes: ConfirmOutcomes, unboundText: string)
    : Transcript<Result<ConfirmReply, MfaFailure>>
  {
    var query := Called(GetEmailVerificationStatus(ch.app, ch.user), outcomes.status.Returned?);
    var failure := if outcomes.status.Threw? then outcomes.status.exc else Exc(AttributeError, unboundText);
    FirstUse(MarksConfirmed, ch, outcomes.confirm, Transcript(Err(Escaped(failure)), [query]))
  }

  /**
   * The versioned route's confirmation after the code checks, as written:
   * the status query and the shared helper, which commits the session and
   * hands back a tuple that `create_login_response_with_cookies` then reads
   * by key.
   */
  function VersionedConfirmAdmitted(c: Crypto, tokenPepper: bytes, ch: ChallengeData, client: Client, draws: SessionExpiry,
                                    access: string, refresh: string, outcomes: ConfirmOutcomes)
    : Transcript<Result<ConfirmReply, MfaFailure>>
  {
    var t := IssueAfterOtp(c, tokenPepper, ch, client, draws, access, refresh, outcomes);
    if t.result.Ok? then Transcript(Err(Escaped(TupleIndexedByKey)), t.events) else t
  }

  /**
   * As written, the router's setup never answers. A duplicate secret is
   * still the 400. A stored secret is committed, unconfirmed, with the same
   * two events that begin the intended setup, and then the service call
   * raises; no challenge is created.
   */
  lemma {:induction false} RouterSetupCommitsThenRaises(c: Crypto, tokenPepper: bytes, req: SetupRequest, client: Client,
                                                        secret: string, encrypted: string, challenge: string,
                                                        insert: Outcome<()>, issue: Outcome<()>, s: Snapshot)
    ensures var w := RouterSetupStore(c, req, secret, encrypted, insert);
      var t := SetupStore(c, tokenPepper, req, client, secret, encrypted, challenge, insert, issue);
      w.result.Err?
      && (insert.Threw? ==> w == t)
      && (insert.Returned? ==>
            w.result == Err(Escaped(Exc(AttributeError, "'UUID' object has no attribute 'execute_procedure'")))
            && |t.events| > 2 && w.events == t.events[..2]
            && Run(s, w.events).durable.totp
               == s.tables.totp + [TotpRow(req.user, encrypted, Hashing.HashField(c, secret, Decimal(req.app)), 1, false)]
            && Run(s, w.events).tables.challenges == s.tables.challenges)
  {
    if insert.Returned? {
      var e0 := Called(InsertCall(c, req.user, req.app, encrypted, secret), true);
      var t := SetupStore(c, tokenPepper, req, client, secret, encrypted, challenge, insert, issue);
      assert t.events[..2] == [e0, Committed];
      RunTwo(s, e0, Committed);
    }
  }

  /**
   * As written, the router's confirmation never answers and never writes a
   * session. A first use still leaves the secret confirmed in the committed
   * tables, and once the status query has returned the AttributeError
   * escapes. Its events are the intended handler's up to the session call.
   */
  lemma {:induction false} RouterConfirmCommitsThenRaises(c: Crypto, tokenPepper: bytes, ch: ChallengeData, client: Client,
                                                          draws: SessionExpiry, access: string, refresh: string,
                                                          outcomes: ConfirmOutcomes, unboundText: string, s: Snapshot)
    requires 0 <= ch.totpSecretId < |s.tables.totp|
    ensures var w := RouterConfirmAdmitted(ch, outcomes, unboundText);
      var t := ConfirmAdmitted(MarksConfirmed, c, tokenPepper, ch, client, draws, access, refresh, outcomes);
      var after := Run(s, w.events);
      w.result.Err?
      && |w.events| <= |t.events| && w.events == t.events[..|w.events|]
      && after.tables.sessions == s.tables.sessions
      && (outcomes.status.Returned? && (ch.confirmedAt.Some? || outcomes.confirm.Returned?) ==>
            w.result == Err(Escaped(Exc(AttributeError, unboundText))))
      && (ch.confirmedAt.None? && outcomes.confirm.Returned? ==>
            ch.totpSecretId < |after.durable.totp| && after.durable.totp[ch.totpSecretId].confirmed)
  {
    var w := RouterConfirmAdmitted(ch, outcomes, unboundText);
    var rest := IssueAfterOtp(c, tokenPepper, ch, client, draws, access, refresh, outcomes);
    var q := Called(GetEmailVerificationStatus(ch.app, ch.user), outcomes.status.Returned?);
    assert rest.events[..1] == [q];
    if ch.confirmedAt.Some? {
      assert w.events == [q];
      RunOne(s, q);
    } else {
      var e0 := Called(ConfirmTotpSecret(ch.totpSecretId), outcomes.confirm.Returned?);
      if outcomes.confirm.Threw? {
        assert w.events == [e0];
        RunOne(s, e0);
      } else {
        assert w.events == [e0, Committed, q];
        assert ([e0, Committed] + rest.events)[..3] == [e0, Committed] + rest.events[..1];
        RunThree(s, e0, Committed, q);
      }
    }
  }

  /**
   * As written, the versioned confirmation commits a session and then fails.
   * It makes the intended handler's calls and commits, and never answers;
   * once the status query and the helper have returned, the session keyed
   * by the drawn tokens' hashes is committed and the TypeError escapes.
   */
  lemma {:induction false} VersionedConfirmCommitsThenRaises(c: Crypto, tokenPepper: bytes, ch: ChallengeData, client: Client,
                                                             draws: SessionExpiry, access: string, refresh: string,
                                                             outcomes: ConfirmOutcomes, s: Snapshot)
    ensures var w := VersionedConfirmAdmitted(c, tokenPepper, ch, client, draws, access, refresh, outcomes);
      w.result.Err?
      && w.events == ConfirmAdmitted(LeavesConfirmation, c, tokenPepper, ch, client, draws, access, refresh, outcomes).events
      && (outcomes.status.Returned? && outcomes.issue.Returned? ==>
            w.result == Err(Escaped(Exc(TypeError, "tuple indices must be integers or slices, not str")))
            && SessionRow(ch.app, ch.user, Tokens.HashToken(c, tokenPepper, access), Tokens.HashToken(c, tokenPepper, refresh))
               in Run(s, w.events).durable.sessions)
  {
    if outcomes.status.Returned? && outcomes.issue.Returned? {
      var w := VersionedConfirmAdmitted(c, tokenPepper, ch, client, draws, access, refresh, outcomes);
      var q := Called(GetEmailVerificationStatus(ch.app, ch.user), true);
      var e1 := Called(SessionCall(c, tokenPepper, ch.app, ch.user, client, access, refresh), true);
      assert w.events == [q, e1, Committed];
      RunThree(s, q, e1, Committed);
    }
  }
}
