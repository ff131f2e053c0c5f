/**
 * The first step of registration: store a pending user under a fresh
 * verification token, wait out a minimum response time, and, unless the call
 * reported a duplicate, commit and queue one verification e-mail whose link
 * carries the token. Three handlers share this shape and differ in what they
 * store, how they format the expiry, how they read the application name, and
 * which template they name.
 */
module Registration {
  import opened Common
  import opened Strings
  import opened Primitives
  import opened Store
  import Expiry
  import Hashing
  import Encryption
  import Tokens

  /**
   * Which handler: the current route (the two identical route modules),
   * the controller, or the oldest route, which stores the token itself and an
   * un-namespaced e-mail hash.
   */
  datatype Version = Current | Controller | Legacy

  datatype RegisterRequest = RegisterRequest(email: string, app: int, confirmationUrl: string, timezone: Option<string>)

  /** The minimum time, in seconds, between entering the handler and deciding whether to send e-mail. */
  const MinResponseTime: real := 0.45

  /** `max(0, MIN_RESPONSE_TIME_SECONDS - elapsed)`, with `start` the jittered entry time and `now` the clock when checked. */
  function RemainingTime(start: real, now: real): (r: real)
    ensures r >= 0.0
    ensures r == 0.0 <==> now - start >= MinResponseTime
    ensures now + r >= start + MinResponseTime
    ensures r > 0.0 ==> now + r == start + MinResponseTime
  {
    if MinResponseTime - (now - start) > 0.0 then MinResponseTime - (now - start) else 0.0
  }

  /** The sleep the handler takes: one when time remains, none otherwise. */
  function Pause(start: real, now: real): seq<Event>
  {
    if RemainingTime(start, now) > 0.0 then [Slept(RemainingTime(start, now))] else []
  }

  /** `_ensure_minimum_response_time(start)` and its inline twins. */
  method EnsureMinimumResponseTime(b: Backend, start: real, now: real)
    requires b.Valid()
    modifies b
    ensures b.Valid() && b.trace == old(b.trace) + Pause(start, now) && b.State() == old(b.State())
  {
    var remaining := RemainingTime(start, now);
    if remaining > 0.0 {
      b.Sleep(remaining);
    }
  }

  /** What AESGCM raises for a key of the wrong length. */
  const BadKeyError: Exc := Exc(ValueError, "AESGCM key must be 128, 192, or 256 bits.")

  /** The e-mail hash bound to the call. */
  function EmailHash(v: Version, c: Crypto, req: RegisterRequest): Result<string, Exc>
  {
    if v == Legacy then Hashing.LegacyHashEmail(c, req.email)
    else Hashing.HashEmail(c, req.email, Decimal(req.app))
  }

  /** The token column bound to the call. */
  function TokenFor(v: Version, c: Crypto, pepper: bytes, token: string): TokenColumn
  {
    if v == Legacy then PlainToken(token) else TokenHash(Tokens.HashToken(c, pepper, token))
  }

  function Template(v: Version): string
  {
    if v == Controller then "registration_email.html" else "registration_email_v1.html"
  }

  /** Python's `f"{x}"` for a name that may be `None`. */
  function Shown(name: Option<string>): string
  {
    match name
    case None => "None"
    case Some(n) => n
  }

  /**
   * The application name the e-mail is titled with. The routes use the raw
   * scalar, `None` included, and let a failed lookup raise; the controller's
   * lookup turns an integrity error into no result and any empty result into
   * "Application".
   */
  function AppTitle(v: Version, lookup: Outcome<Option<string>>): (r: Result<Option<string>, Exc>)
    ensures v != Controller ==> (r.Ok? <==> lookup.Returned?) && (r.Ok? ==> r.value == lookup.value)
    ensures v == Controller && r.Ok? ==> r.value.Some? && r.value.value != ""
  {
    match lookup
    case Threw(e) =>
      if v == Controller && e.kind == IntegrityError then Ok(Some("Application")) else Err(e)
    case Returned(name) =>
      if v == Controller && (name == None || name == Some("")) then Ok(Some("Application")) else Ok(name)
  }

  function Formatted(v: Version, x: Expiry.ExpiryValue, req: RegisterRequest, zoneKnown: string -> bool): Expiry.Formatted
  {
    if v == Legacy then Expiry.LegacyFormat(x) else Expiry.FormatExpirationTime(x, req.timezone, zoneKnown)
  }

  /** The verification e-mail: to the submitted address, with the plaintext token in the link. */
  function VerificationEmail(v: Version, req: RegisterRequest, token: string, expires: Expiry.Formatted,
                             title: Option<string>): Email
  {
    Email([req.email], Shown(title) + " - Email Verification", title,
          req.confirmationUrl + "?token=" + token, expires, Template(v))
  }

  /** The events after a successful insert: commit, look the name up, queue the e-mail. */
  function Finish(v: Version, req: RegisterRequest, token: string, x: Expiry.ExpiryValue, zoneKnown: string -> bool,
                  lookup: Outcome<Option<string>>): Transcript<Result<(), Exc>>
  {
    var head := [Committed, Called(GetApplicationName(req.app), lookup.Returned?)];
    match AppTitle(v, lookup)
    case Err(e) => Transcript(Err(e), head)
    case Ok(title) =>
      Transcript(Ok(()), head + [Enqueued(VerificationEmail(v, req, token, Formatted(v, x, req, zoneKnown), title))])
  }

  /** From the `register_pending_user` call on, for the bound call `call`. */
  function Insertion(v: Version, req: RegisterRequest, token: string, start: real, now: real, zoneKnown: string -> bool,
                     call: Call, insert: Outcome<Option<Expiry.ExpiryValue>>, lookup: Outcome<Option<string>>)
    : Transcript<Result<(), Exc>>
  {
    match insert
    case Threw(e) =>
      if e.kind == IntegrityError then Transcript(Ok(()), [Called(call, false)] + Pause(start, now))
      else Transcript(Err(e), [Called(call, false)])
    case Returned(None) => Transcript(Ok(()), [Called(call, true)] + Pause(start, now))
    case Returned(Some(x)) =>
      var rest := Finish(v, req, token, x, zoneKnown, lookup);
      Transcript(rest.result, [Called(call, true)] + Pause(start, now) + rest.events)
  }

  /** The `register_pending_user` call a version makes for an encrypted address and its hash. */
  function InsertCall(v: Version, c: Crypto, pepper: bytes, req: RegisterRequest, client: Client, token: string,
                      enc: string, h: string): Call
  {
    Store.RegisterPendingUser(req.app, TokenFor(v, c, pepper, token), enc, h, client)
  }

  /**
   * The whole handler as a transcript. `token` and `nonce` are the drawn
   * token and encryption nonce; `insert` is what `register_pending_user`
   * returned (its scalar, `None` for no row) or raised; `lookup` is the
   * outcome of `get_application_name`.
   */
  function Register(v: Version, c: Crypto, key: bytes, pepper: bytes, req: RegisterRequest, client: Client,
                    token: string, nonce: bytes, start: real, now: real, zoneKnown: string -> bool,
                    insert: Outcome<Option<Expiry.ExpiryValue>>, lookup: Outcome<Option<string>>)
    : Transcript<Result<(), Exc>>
    requires |nonce| == Encryption.NonceLength
  {
    match Encryption.EncryptField(c, key, req.email, nonce)
    case Err(_) => Transcript(Err(BadKeyError), [])
    case Ok(enc) =>
      match EmailHash(v, c, req)
      case Err(e) => Transcript(Err(e), [])
      case Ok(h) => Insertion(v, req, token, start, now, zoneKnown, InsertCall(v, c, pepper, req, client, token, enc, h), insert, lookup)
  }

  method FinishRegistration(b: Backend, v: Version, req: RegisterRequest, token: string, x: Expiry.ExpiryValue,
                            zoneKnown: string -> bool, lookup: Outcome<Option<string>>)
    returns (r: Result<(), Exc>)
    requires b.Valid()
    modifies b
    ensures var t := Finish(v, req, token, x, zoneKnown, lookup);
      b.Valid() && r == t.result && b.trace == old(b.trace) + t.events
  {
    ghost var before := b.trace;
    b.Commit();
    var formatted := Formatted(v, x, req, zoneKnown);
    b.Execute(GetApplicationName(req.app), lookup.Returned?);
    ghost var head := [Committed, Called(GetApplicationName(req.app), lookup.Returned?)];
    assert b.trace == before + head;
    var title := AppTitle(v, lookup);
    if title.Err? {
      return Err(title.error);
    }
    var email := VerificationEmail(v, req, token, formatted, title.value);
    b.Enqueue(email);
    Regroup(before, head, [Enqueued(email)]);
    r := Ok(());
  }

  /** The insert raised: an integrity error is answered after the pause, anything else escapes. */
  method InsertRaised(b: Backend, v: Version, req: RegisterRequest, token: string, start: real, now: real,
                      zoneKnown: string -> bool, call: Call, e: Exc, lookup: Outcome<Option<string>>)
    returns (r: Result<(), Exc>)
    requires b.Valid()
    modifies b
    ensures var t := Insertion(v, req, token, start, now, zoneKnown, call, Threw(e), lookup);
      b.Valid() && r == t.result && b.trace == old(b.trace) + t.events
  {
    b.Execute(call, false);
    if e.kind != IntegrityError {
      return Err(e);
    }
    EnsureMinimumResponseTime(b, start, now);
    r := Ok(());
  }

  /** The insert returned: the pause, then, when a row was written, the rest of the registration. */
  method InsertReturned(b: Backend, v: Version, req: RegisterRequest, token: string, start: real, now: real,
                        zoneKnown: string -> bool, call: Call, x: Option<Expiry.ExpiryValue>,
                        lookup: Outcome<Option<string>>)
    returns (r: Result<(), Exc>)
    requires b.Valid()
    modifies b
    ensures var t := Insertion(v, req, token, start, now, zoneKnown, call, Returned(x), lookup);
      b.Valid() && r == t.result && b.trace == old(b.trace) + t.events
  {
    ghost var before := b.trace;
    b.Execute(call, true);
    EnsureMinimumResponseTime(b, start, now);
    if x.None? {
      return Ok(());
    }
    ghost var head := [Called(call, true)] + Pause(start, now);
    assert b.trace == before + head;
    r := FinishRegistration(b, v, req, token, x.value, zoneKnown, lookup);
    Regroup(before, head, Finish(v, req, token, x.value, zoneKnown, lookup).events);
  }

  method InsertPendingUser(b: Backend, v: Version, req: RegisterRequest, token: string, start: real, now: real,
                           zoneKnown: string -> bool, call: Call, insert: Outcome<Option<Expiry.ExpiryValue>>,
                           lookup: Outcome<Option<string>>)
    returns (r: Result<(), Exc>)
    requires b.Valid()
    modifies b
    ensures var t := Insertion(v, req, token, start, now, zoneKnown, call, insert, lookup);
      b.Valid() && r == t.result && b.trace == old(b.trace) + t.events
  {
    if insert.Threw? {
      r := InsertRaised(b, v, req, token, start, now, zoneKnown, call, insert.exc, lookup);
    } else {
      r := InsertReturned(b, v, req, token, start, now, zoneKnown, call, insert.value, lookup);
    }
  }

  /** `register_pending_user` / `AuthController.register`, step by step. */
  method RegisterPendingUser(b: Backend, v: Version, c: Crypto, key: bytes, pepper: bytes, req: RegisterRequest,
                             client: Client, token: string, nonce: bytes, start: real, now: real,
                             zoneKnown: string -> bool, insert: Outcome<Option<Expiry.ExpiryValue>>,
                             lookup: Outcome<Option<string>>)
    returns (r: Result<(), Exc>)
    requires b.Valid() && |nonce| == Encryption.NonceLength
    modifies b
    ensures b.Valid()
    ensures var t := Register(v, c, key, pepper, req, client, token, nonce, start, now, zoneKnown, insert, lookup);
      r == t.result && b.trace == old(b.trace) + t.events && b.State() == Run(old(b.State()), t.events)
  {
    ghost var t := Register(v, c, key, pepper, req, client, token, nonce, start, now, zoneKnown, insert, lookup);
    var encrypted := Encryption.EncryptField(c, key, req.email, nonce);
    if encrypted.Err? {
      assert old(b.trace) + [] == b.trace;
      return Err(BadKeyError);
    }
    var emailHash := EmailHash(v, c, req);
    if emailHash.Err? {
      assert old(b.trace) + [] == b.trace;
      return Err(emailHash.error);
    }
    var call := InsertCall(v, c, pepper, req, client, token, encrypted.value, emailHash.value);
    r := InsertPendingUser(b, v, req, token, start, now, zoneKnown, call, insert, lookup);
    Replayed(b, old(b.trace), old(b.State()), t.events);
  }

  // ---- properties of the transcript ----

  predicate Quiet(events: seq<Event>)
  {
    forall i :: 0 <= i < |events| ==> !events[i].Committed? && !events[i].Enqueued?
  }

  /**
   * A duplicate is silent: when the call raises an integrity error, or
   * returns no expiry, the handler answers exactly as for a new address, after
   * the same pause, but commits nothing and queues no e-mail.
   */
  lemma {:induction false} DuplicateIsSilent(v: Version, c: Crypto, key: bytes, pepper: bytes, req: RegisterRequest, client: Client,
                          token: string, nonce: bytes, start: real, now: real, zoneKnown: string -> bool,
                          insert: Outcome<Option<Expiry.ExpiryValue>>, lookup: Outcome<Option<string>>, s: Snapshot)
    requires |nonce| == Encryption.NonceLength
    requires IsAesKeyLength(|key|) && EmailHash(v, c, req).Ok?
    requires (insert.Threw? && insert.exc.kind == IntegrityError) || insert == Returned(None)
    ensures var t := Register(v, c, key, pepper, req, client, token, nonce, start, now, zoneKnown, insert, lookup);
      t.result == Ok(())
      && t.events[1..] == Pause(start, now)
      && Run(s, t.events).durable == s.durable && Run(s, t.events).outbox == s.outbox
  {
    var t := Register(v, c, key, pepper, req, client, token, nonce, start, now, zoneKnown, insert, lookup);
    assert Quiet(t.events);
    QuietRun(s, t.events);
  }

  /**
   * A new registration: the call, the same pause, the commit, the name
   * lookup, and exactly one e-mail, in that order. The e-mail goes to the
   * submitted address only, its link is the confirmation URL with the
   * plaintext token, and by the time it is queued the pending row is durable.
   */
  lemma {:induction false} NewRegistrationCommitsThenMails(v: Version, c: Crypto, key: bytes, pepper: bytes, req: RegisterRequest,
                                        client: Client, token: string, nonce: bytes, start: real, now: real,
                                        zoneKnown: string -> bool, x: Expiry.ExpiryValue,
                                        lookup: Outcome<Option<string>>, s: Snapshot)
    requires |nonce| == Encryption.NonceLength
    requires IsAesKeyLength(|key|) && EmailHash(v, c, req).Ok? && AppTitle(v, lookup).Ok?
    ensures var t := Register(v, c, key, pepper, req, client, token, nonce, start, now, zoneKnown, Returned(Some(x)), lookup);
      var n := |t.events|;
      var enc := Encryption.EncryptField(c, key, req.email, nonce).value;
      var after := Run(s, t.events);
      t.result == Ok(())
      && n >= 4
      && t.events[1..n - 3] == Pause(start, now)
      && t.events[n - 3] == Committed
      && t.events[n - 1].Enqueued?
      && t.events[n - 1].email.recipients == [req.email]
      && t.events[n - 1].email.confirmationUrl == req.confirmationUrl + "?token=" + token
      && after.outbox == s.outbox + [t.events[n - 1].email]
      && (req.app, EmailHash(v, c, req).value) in after.durable.pending
      && after.durable.pending[(req.app, EmailHash(v, c, req).value)] == PendingRow(TokenFor(v, c, pepper, token), enc)
  {
    var enc := Encryption.EncryptField(c, key, req.email, nonce).value;
    var h := EmailHash(v, c, req).value;
    var call := InsertCall(v, c, pepper, req, client, token, enc, h);
    var t := Register(v, c, key, pepper, req, client, token, nonce, start, now, zoneKnown, Returned(Some(x)), lookup);
    assert t == Insertion(v, req, token, start, now, zoneKnown, call, Returned(Some(x)), lookup);
    InsertionThenFinish(v, req, token, start, now, zoneKnown, call, x, lookup, s);
  }

  /** The new-registration case over the bound call. */
  lemma {:induction false} InsertionThenFinish(v: Version, req: RegisterRequest, token: string, start: real, now: real,
                            zoneKnown: string -> bool, call: Call, x: Expiry.ExpiryValue,
                            lookup: Outcome<Option<string>>, s: Snapshot)
    requires call.RegisterPendingUser? && AppTitle(v, lookup).Ok?
    ensures var t := Insertion(v, req, token, start, now, zoneKnown, call, Returned(Some(x)), lookup);
      var n := |t.events|;
      var after := Run(s, t.events);
      t.result == Ok(())
      && n >= 4
      && t.events[1..n - 3] == Pause(start, now)
      && t.events[n - 3] == Committed
      && t.events[n - 1].Enqueued?
      && t.events[n - 1].email.recipients == [req.email]
      && t.events[n - 1].email.confirmationUrl == req.confirmationUrl + "?token=" + token
      && after.outbox == s.outbox + [t.events[n - 1].email]
      && (call.app, call.emailHash) in after.durable.pending
      && after.durable.pending[(call.app, call.emailHash)] == PendingRow(call.token, call.emailEncrypted)
  {
    var first := [Called(call, true)] + Pause(start, now);
    var f := Finish(v, req, token, x, zoneKnown, lookup);
    var t := Insertion(v, req, token, start, now, zoneKnown, call, Returned(Some(x)), lookup);
    assert t.events == first + f.events;
    RunAppend(s, first, f.events);
    InsertedRow(s, call, start, now);
    FinishEffect(Run(s, first), v, req, token, x, zoneKnown, lookup);
    assert t.events[|first|..] == f.events;
    assert t.events[1..|t.events| - 3] == Pause(start, now);
  }

  /** The successful call followed by the pause leaves the pending row in the session's tables, and nothing durable or queued. */
  lemma {:induction false} InsertedRow(s: Snapshot, call: Call, start: real, now: real)
    requires call.RegisterPendingUser?
    ensures var s1 := Run(s, [Called(call, true)] + Pause(start, now));
      (call.app, call.emailHash) in s1.tables.pending
      && s1.tables.pending[(call.app, call.emailHash)] == PendingRow(call.token, call.emailEncrypted)
      && s1.outbox == s.outbox
  {
    RunAppend(s, [Called(call, true)], Pause(start, now));
    RunOne(s, Called(call, true));
    PauseKeepsTables(Run(s, [Called(call, true)]), start, now);
  }

  /** Committing, looking the name up and queueing the e-mail: the durable tables become the session's, and the outbox gains exactly that e-mail. */
  lemma {:induction false} FinishEffect(s: Snapshot, v: Version, req: RegisterRequest, token: string, x: Expiry.ExpiryValue,
                     zoneKnown: string -> bool, lookup: Outcome<Option<string>>)
    requires AppTitle(v, lookup).Ok?
    ensures var f := Finish(v, req, token, x, zoneKnown, lookup);
      var after := Run(s, f.events);
      f.result == Ok(()) && |f.events| == 3 && f.events[0] == Committed && f.events[2].Enqueued?
      && f.events[2].email.recipients == [req.email]
      && f.events[2].email.confirmationUrl == req.confirmationUrl + "?token=" + token
      && after.durable == s.tables && after.outbox == s.outbox + [f.events[2].email]
  {
    var f := Finish(v, req, token, x, zoneKnown, lookup);
    var e0, e1, e2 := f.events[0], f.events[1], f.events[2];
    assert f.events == [e0, e1, e2];
    RunThree(s, e0, e1, e2);
  }

  lemma {:induction false} PauseKeepsTables(s: Snapshot, start: real, now: real)
    ensures Run(s, Pause(start, now)) == s
  {
    if RemainingTime(start, now) > 0.0 {
      assert Pause(start, now) == [Slept(RemainingTime(start, now))];
      RunOne(s, Slept(RemainingTime(start, now)));
    }
  }

  /** The link works: the token in the e-mail verifies against the hash the current handlers stored. */
  lemma {:induction false} MailedTokenMatchesStoredHash(v: Version, c: Crypto, pepper: bytes, token: string)
    requires v != Legacy
    ensures TokenFor(v, c, pepper, token).TokenHash?
    ensures Tokens.VerifyToken(c, pepper, token, TokenFor(v, c, pepper, token).hash)
  {
    Tokens.VerifyTokenMeaning(c, pepper, token, Tokens.HashToken(c, pepper, token));
  }

  /**
   * Any other database error raises straight out of the handler, before the
   * pause and without committing or mailing; so does an address that the
   * e-mail hash rejects, before any call.
   */
  lemma {:induction false} OtherErrorsRaise(v: Version, c: Crypto, key: bytes, pepper: bytes, req: RegisterRequest, client: Client,
                         token: string, nonce: bytes, start: real, now: real, zoneKnown: string -> bool,
                         insert: Outcome<Option<Expiry.ExpiryValue>>, lookup: Outcome<Option<string>>)
    requires |nonce| == Encryption.NonceLength && IsAesKeyLength(|key|)
    ensures var t := Register(v, c, key, pepper, req, client, token, nonce, start, now, zoneKnown, insert, lookup);
      (EmailHash(v, c, req).Err? ==> t == Transcript(Err(EmailHash(v, c, req).error), []))
      && (EmailHash(v, c, req).Ok? && insert.Threw? && insert.exc.kind != IntegrityError ==>
            t.result == Err(insert.exc) && |t.events| == 1 && t.events[0].Called? && !t.events[0].ok)
  {
  }

  /** The response never tells a duplicate from a new address: both end in the same empty answer. */
  lemma {:induction false} SameAnswerEitherWay(v: Version, c: Crypto, key: bytes, pepper: bytes, req: RegisterRequest, client: Client,
                            token: string, nonce: bytes, start: real, now: real, zoneKnown: string -> bool,
                            x: Expiry.ExpiryValue, dup: Exc, lookup: Outcome<Option<string>>)
    requires |nonce| == Encryption.NonceLength && IsAesKeyLength(|key|) && EmailHash(v, c, req).Ok?
    requires dup.kind == IntegrityError && AppTitle(v, lookup).Ok?
    ensures Register(v, c, key, pepper, req, client, token, nonce, start, now, zoneKnown, Threw(dup), lookup).result
         == Register(v, c, key, pepper, req, client, token, nonce, start, now, zoneKnown, Returned(Some(x)), lookup).result
  {
  }
}
