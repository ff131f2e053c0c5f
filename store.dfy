/**
 * What a request handler can touch: the database session (the rows its calls
 * write, and what a commit has made durable), the background-task queue that
 * sends e-mail, and the event loop's sleep. Stored procedures run inside the
 * database; their outcomes are inputs of the handlers, and only the rows a
 * successful write call leaves behind are modelled here.
 */
module Store {
  import opened Common
  import Expiry

  /** How a verification token reaches the store: as its HMAC, or in clear text in the oldest handler. */
  datatype TokenColumn = TokenHash(hash: bytes) | PlainToken(token: string)

  /** `request.client.host` (absent without a client) and the User-Agent header (default ""). */
  datatype Client = Client(ip: Option<string>, userAgent: string)

  /** One `db.execute` of a stored procedure or function, with its bound parameters. */
  datatype Call =
    | RegisterPendingUser(app: int, token: TokenColumn, emailEncrypted: string, emailHash: string, client: Client)
    | ConfirmPendingUser(app: int, token: TokenColumn, passwordHash: string, client: Client)
    | LoginUser(app: int, emailHash: string, client: Client)
    | GetUserByEmail(emailHash: string, app: int)
    | GetApplicationName(app: int)
    | CreateSession(app: int, user: int, accessHash: bytes, refreshHash: bytes, client: Client)
    | CreateMfaChallengeSession(app: int, user: int, challengeHash: bytes, client: Client)
    | ServiceLoginSession(user: int, app: int, client: Client)        // AuthService's database-side session
    | ServiceMfaChallengeSession(user: int, app: int, client: Client) // AuthService's database-side challenge
    | InsertTotpSecret(user: int, secretEncrypted: string, secretHash: string, keyVersion: int)
    | ConfirmTotpSecret(totpSecretId: int)
    | GetEmailVerificationStatus(app: int, user: int)

  datatype PendingRow = PendingRow(token: TokenColumn, emailEncrypted: string)
  datatype SessionRow = SessionRow(app: int, user: int, accessHash: bytes, refreshHash: bytes)
  datatype ChallengeRow = ChallengeRow(app: int, user: int, challengeHash: bytes)
  datatype TotpRow = TotpRow(user: int, secretEncrypted: string, secretHash: string, keyVersion: int, confirmed: bool)

  /** The tables the modelled calls write: pending registrations by (application, e-mail hash), sessions, challenges, TOTP secrets (a secret's id is its position). */
  datatype Tables = Tables(
    pending: map<(int, string), PendingRow>,
    sessions: set<SessionRow>,
    challenges: set<ChallengeRow>,
    totp: seq<TotpRow>)

  /** A registration e-mail handed to the background-task queue. */
  datatype Email = Email(
    recipients: seq<string>,
    subject: string,
    title: Option<string>,
    confirmationUrl: string,
    expiresAt: Expiry.Formatted,
    template: string)

  /** One observable step of a handler, in the order it happens. */
  datatype Event =
    | Called(call: Call, ok: bool)   // `ok` is false when the call raised
    | Committed
    | Slept(seconds: real)
    | Enqueued(email: Email)

  /** A value or an exception, as a database call or an issuing helper ends. */
  datatype Outcome<T> = Returned(value: T) | Threw(exc: Exc)

  /** A handler's result together with the events it produced. */
  datatype Transcript<T> = Transcript(result: T, events: seq<Event>)

  /** The rows a successful call leaves in the session's view of the tables. */
  function Apply(call: Call, t: Tables): Tables
  {
    match call
    case RegisterPendingUser(app, token, enc, h, _) =>
      t.(pending := t.pending[(app, h) := PendingRow(token, enc)])
    case ConfirmPendingUser(app, token, _, _) =>
      t.(pending := map k | k in t.pending && !(k.0 == app && t.pending[k].token == token) :: t.pending[k])
    case CreateSession(app, user, a, r, _) =>
      t.(sessions := t.sessions + {SessionRow(app, user, a, r)})
    case CreateMfaChallengeSession(app, user, h, _) =>
      t.(challenges := t.challenges + {ChallengeRow(app, user, h)})
    case InsertTotpSecret(user, enc, h, v) =>
      t.(totp := t.totp + [TotpRow(user, enc, h, v, false)])
    case ConfirmTotpSecret(id) =>
      if 0 <= id < |t.totp| then t.(totp := t.totp[id := t.totp[id].(confirmed := true)]) else t
    case _ => t
  }

  /** The session's tables, what the last commit made durable, and the e-mail queued so far. */
  datatype Snapshot = Snapshot(tables: Tables, durable: Tables, outbox: seq<Email>)

  function Step(s: Snapshot, e: Event): Snapshot
  {
    match e
    case Called(call, ok) => if ok then s.(tables := Apply(call, s.tables)) else s
    case Committed => s.(durable := s.tables)
    case Slept(_) => s
    case Enqueued(m) => s.(outbox := s.outbox + [m])
  }

  /** The snapshot after the events, in order. */
  function Run(s: Snapshot, events: seq<Event>): Snapshot
    decreases |events|
  {
    if events == [] then s else Step(Run(s, events[..|events| - 1]), events[|events| - 1])
  }

  lemma {:induction false} RunSnoc(s: Snapshot, events: seq<Event>, e: Event)
    ensures Run(s, events + [e]) == Step(Run(s, events), e)
  {
    assert (events + [e])[..|events|] == events;
  }

  lemma {:induction false} RunOne(s: Snapshot, e: Event)
    ensures Run(s, [e]) == Step(s, e)
  {
    RunSnoc(s, [], e);
    assert [] + [e] == [e];
  }

  lemma {:induction false} RunTwo(s: Snapshot, e0: Event, e1: Event)
    ensures Run(s, [e0, e1]) == Step(Step(s, e0), e1)
  {
    RunOne(s, e0);
    RunSnoc(s, [e0], e1);
    assert [e0] + [e1] == [e0, e1];
  }

  lemma {:induction false} RunThree(s: Snapshot, e0: Event, e1: Event, e2: Event)
    ensures Run(s, [e0, e1, e2]) == Step(Step(Step(s, e0), e1), e2)
  {
    RunTwo(s, e0, e1);
    RunSnoc(s, [e0, e1], e2);
    assert [e0, e1] + [e2] == [e0, e1, e2];
  }

  /** Running two pieces one after the other is running their concatenation. */
  lemma {:induction false} RunAppend(s: Snapshot, a: seq<Event>, b: seq<Event>)
    ensures Run(s, a + b) == Run(Run(s, a), b)
    decreases |b|
  {
    if b == [] {
      assert a + b == a;
    } else {
      var b0, e := b[..|b| - 1], b[|b| - 1];
      assert b == b0 + [e];
      assert a + b == (a + b0) + [e];
      RunSnoc(s, a + b0, e);
      RunAppend(s, a, b0);
      RunSnoc(Run(s, a), b0, e);
    }
  }

  /** Once a backend's trace has grown by `events`, its state is what replaying `events` from the earlier state gives. */
  lemma {:induction false} Replayed(b: Backend, before: seq<Event>, start: Snapshot, events: seq<Event>)
    requires b.Valid() && start == Run(b.origin, before) && b.trace == before + events
    ensures b.State() == Run(start, events)
  {
    RunAppend(b.origin, before, events);
  }

  /** Events that neither commit nor queue e-mail leave the durable tables and the outbox alone. */
  lemma {:induction false} QuietRun(s: Snapshot, events: seq<Event>)
    requires forall i :: 0 <= i < |events| ==> !events[i].Committed? && !events[i].Enqueued?
    ensures Run(s, events).durable == s.durable && Run(s, events).outbox == s.outbox
    decreases |events|
  {
    if events != [] {
      QuietRun(s, events[..|events| - 1]);
    }
  }

  /**
   * The handler's side of the world. Every change goes through one of the four
   * primitive steps, each of which appends its event to `trace`, and `Valid`
   * says the fields are what replaying `trace` from `origin` gives.
   */
  class Backend {
    var tables: Tables
    var durable: Tables
    var outbox: seq<Email>
    var trace: seq<Event>
    ghost const origin: Snapshot

    function State(): Snapshot
      reads this
    {
      Snapshot(tables, durable, outbox)
    }

    ghost predicate Valid()
      reads this
    {
      State() == Run(origin, trace)
    }

    constructor (start: Snapshot)
      ensures Valid() && State() == start && trace == []
    {
      tables, durable, outbox := start.tables, start.durable, start.outbox;
      trace := [];
      origin := start;
    }

    /** Takes one step: the fields become what `Step` gives and the event is appended to the trace. */
    method Advance(e: Event)
      requires Valid()
      modifies this
      ensures Valid() && trace == old(trace) + [e]
      ensures State() == Step(old(State()), e)
    {
      var next := Step(State(), e);
      RunSnoc(origin, trace, e);
      tables, durable, outbox := next.tables, next.durable, next.outbox;
      trace := trace + [e];
    }

    /** `await db.execute(...)`; a call that raised changes nothing. */
    method Execute(call: Call, ok: bool)
      requires Valid()
      modifies this
      ensures Valid() && trace == old(trace) + [Called(call, ok)]
      ensures State() == Step(old(State()), Called(call, ok))
    {
      Advance(Called(call, ok));
    }

    /** `await db.commit()`. */
    method Commit()
      requires Valid()
      modifies this
      ensures Valid() && trace == old(trace) + [Committed]
      ensures State() == Step(old(State()), Committed)
    {
      Advance(Committed);
    }

    /** `await asyncio.sleep(seconds)`: recorded, not waited for. */
    method Sleep(seconds: real)
      requires Valid()
      modifies this
      ensures Valid() && trace == old(trace) + [Slept(seconds)]
      ensures State() == old(State())
    {
      Advance(Slept(seconds));
    }

    /** `send_email_background(background_tasks, email)`. */
    method Enqueue(email: Email)
      requires Valid()
      modifies this
      ensures Valid() && trace == old(trace) + [Enqueued(email)]
      ensures State() == Step(old(State()), Enqueued(email))
    {
      Advance(Enqueued(email));
    }
  }
}
