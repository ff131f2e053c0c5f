# Authentication service core, modelled in Dafny

This project models the credential and session core of a FastAPI
authentication service and proves properties of that model. The core has two
layers.

- **Credential primitives.** These are pure functions:
  - namespaced field hashing and e-mail normalisation;
  - the password-complexity validator and the peppered Argon2 wrappers;
  - AES-GCM field encryption, framed as base64 of the 12-byte nonce followed by the ciphertext;
  - token hashing, constant-time comparison and bearer-header parsing;
  - the three start-up secret checks.
- **Request handlers over a database session.** These are imperative:
  - starting a registration, in three versions: the current routes, the controller and the oldest route;
  - confirming a registration, by the old body token or by bearer header;
  - login, in three versions: the cookie route, the body routes and the controller;
  - issuing login sessions and TOTP challenges;
  - setting up and confirming TOTP two-factor authentication, in the router and the versioned route.

Each handler is a `method` over a `Store.Backend` object. The backend holds:
- the session's tables, and the tables as of the last commit;
- the outbox of queued e-mail;
- a trace of every database call, commit, sleep and enqueue.

Each handler's `ensures` ties its result and its new trace to a transcript
function of its inputs. The new state is the replay of that transcript
(`Store.Run`). The lemmas prove the handler's promises about the transcript,
for example:
- a duplicate registration is silent;
- an unknown user looks like a wrong password;
- a wrong TOTP code writes nothing;
- a login session is durable before its tokens leave.

The cryptographic and encoding libraries are fields of a `Primitives.Crypto` record of functions:
SHA-256, HMAC-SHA256, AES-GCM seal and open, Argon2 hash and verify, NFKC,
UTF-8, and pyotp TOTP and HOTP. Each property they are trusted for is a ghost
predicate. Such predicates appear only as preconditions of the lemmas that need them.

Everything nondeterministic is a parameter:
- the outcome of each database call, as a value returned or an exception raised;
- the drawn tokens, nonces and secrets;
- the clock readings.

## Model

| member | source | states |
|---|---|---|
| Hex.Encode | api/app/utility/security/hashing.py:6 | `hexdigest()` gives two lower-case hex digits per byte |
| Hex.FromHexOfEncode | api/app/utility/security/encryption.py:9 | `bytes.fromhex` reads back exactly the bytes that were written as hex |
| Hex.FromHexRejectsForeign | api/app/utility/security/encryption.py:9 | text holding a character that is neither a hex digit nor white space is refused |
| Base64.Encode | api/app/utility/security/encryption.py:20 | the encoding has 4·⌈n/3⌉ characters, all from the section 4 alphabet of RFC 4648 or `=` |
| Base64.DecodeOfEncode | api/app/utility/security/encryption.py:25 | `b64decode(b64encode(b)) == b` under CPython's non-strict decoder |
| Base64.A2bOfEncode | api/app/utility/security/encryption.py:25 | the decoder's state machine, run on an encoding, appends exactly the encoded bytes |
| Base64.QuantumDecodes | api/app/utility/security/encryption.py:25 | a full four-character quantum decodes to its three bytes |
| Base64.FinalOneDecodes | api/app/utility/security/encryption.py:25 | the padded final quantum for one byte decodes to it |
| Base64.FinalTwoDecodes | api/app/utility/security/encryption.py:25 | the padded final quantum for two bytes decodes to them |
| Base64.EncodeShape | api/app/utility/security/encryption.py:20 | the encoding is ASCII, a multiple of four long, and empty only for empty input |
| Strings.ContainsInfix | api/app/routes/v1/endpoints/pending_user.py:264 | Python's `in` finds a phrase wherever it sits in the text |
| Strings.LongerNotContained | api/app/routes/v1/endpoints/pending_user.py:264 | a phrase longer than the text never occurs in it |
| Strings.LowerIsLowercase | api/app/utility/security/hashing.py:20 | `lower()` keeps the length, leaves no ASCII capital, and is idempotent |
| Strings.LowerKeepsNonLetter | api/app/utility/security/hashing.py:20-22 | characters that are not letters occur after `lower()` exactly when they occurred before |
| Strings.TrimStart | api/app/utility/security/tokens.py:55 | `lstrip()` cuts only white space, and the result does not start with white space |
| Strings.TrimEnd | api/app/utility/security/tokens.py:55 | `rstrip()` cuts only white space, and the result does not end with white space |
| Strings.StripIsTrimmedInfix | api/app/utility/security/tokens.py:55 | `strip()` returns a contiguous piece of its input, cut only at white space on both ends |
| Strings.LastIndexOf | api/app/utility/security/hashing.py:23 | the `rsplit` position holds the character and no later position does |
| Strings.BeforeFirst | api/app/utility/security/hashing.py:24 | `split("+")[0]` is the longest prefix without `+` |
| Strings.AfterFirstSpaceOfBearer | api/app/routes/v1/endpoints/authentication/email_confirm.py:92 | for a `Bearer ` header, `split(" ", 1)[1]` is everything after the prefix |
| Strings.Decimal | api/app/utility/security/hashing.py:6 | `str(app_id)` is non-empty and has no colon |
| Strings.DecimalInjective | api/app/utility/security/hashing.py:6 | distinct application ids have distinct decimal forms |
| Primitives.Utf8Injective | api/app/utility/security/hashing.py:6 | given the UTF-8 round trip, distinct strings encode to distinct bytes |
| Hashing.HashFieldShape | api/tests/test_utility/test_hash_field.py:33-34 | `hash_field` returns 64 lower-case hex characters |
| Hashing.PreimageDeterminesPair | api/app/utility/security/hashing.py:4-6 | for colon-free namespaces, the digest input determines both the namespace and the value |
| Hashing.ApplicationsSeparated | api/app/utility/security/hashing.py:6 | digest inputs under two application ids coincide only for the same id and value |
| Hashing.NormalizeEmailMeaning | api/app/utility/security/hashing.py:20-25 | normalisation fails exactly for a `+` with no `@`; without a `+` it only lower-cases; the result has no capitals |
| Hashing.LowerKeepsMarkers | api/app/utility/security/hashing.py:22-23 | the `+` and `@` tests give the same answers before and after lower-casing |
| Hashing.SubaddressIgnored | api/app/utility/security/hashing.py:22-25 | `user+tag@domain` normalises like `user@domain`, to the lower-cased address |
| Hashing.NormalizedParts | api/app/utility/security/hashing.py:23-25 | a `+`-normalised address is a local part without `+`, an `@`, and a domain without `@` |
| Hashing.NormalizeOfParts | api/app/utility/security/hashing.py:20-25 | an address already in that form is left unchanged |
| Hashing.NormalizeEmailIdempotent | api/app/utility/security/hashing.py:20-25 | normalising twice gives what normalising once gives |
| Hashing.HashEmailIgnoresCase | api/app/utility/security/hashing.py:20 | addresses that differ only in ASCII case share one hash, or fail alike |
| Hashing.HashEmailShape | api/app/utility/security/hashing.py:9-27 | `hash_email` raises exactly for a `+` with no `@`; otherwise it returns the 64-character field hash of the normalised address |
| Hashing.LegacyHashEmailAgrees | api/app/utility/security.py:122-129 | the un-namespaced variant fails exactly when the namespaced one does, and hashes the same normalised text without the prefix |
| Passwords.LoadPasswordPepper | api/app/utility/security/password.py:11-14 | import succeeds exactly when the pepper is set and non-empty, and fails with the named secret otherwise |
| Passwords.VerifyPassword | api/app/utility/security/password.py:23-29 | verification is true exactly when Argon2 verifies the peppered NFKC form; every exception reads as false |
| Passwords.VerifyMatchesNormalForm | api/app/utility/security/password.py:17-29 | a stored hash accepts exactly the passwords with the same NFKC form as the original |
| Passwords.VerifyAsciiExact | api/tests/test_utility/test_verify_password.py:26-47 | for ASCII passwords, only the very same password verifies, so a wrong or empty one fails |
| Passwords.ValidatePasswordComplexity | api/app/utility/security/password.py:32-62 | the input comes back unchanged exactly when all five rules hold; otherwise the error is the prefix plus every broken rule's message joined by `; ` |
| Passwords.ViolationsOfRules | api/app/utility/security/password.py:43-56 | violations are listed in the order length, uppercase, lowercase, digit, special |
| Passwords.AllHoldIffNoneReported | api/app/utility/security/password.py:58-62 | the list of violations is empty exactly when every rule holds |
| Passwords.ViolationReported | api/app/utility/security/password.py:58-60 | a rule's message is in the error exactly when that rule is broken |
| Passwords.NotListedNotReported | api/app/utility/security/password.py:58-60 | no message appears for a rule that is not checked |
| Passwords.MessagesDistinct | api/app/utility/security/password.py:43-56 | no two rules share a message |
| Passwords.LengthBoundary | api/app/utility/security/password.py:43-44 | the length rule fails exactly below 12 characters |
| Passwords.ArabicIndicDigitCountsTwice | api/app/utility/security/password.py:52-56 | a non-ASCII decimal digit satisfies both the digit rule and the special-character rule |
| Passwords.MathematicalDigitCounts | api/app/utility/security/password.py:52-56 | a digit beyond the Basic Multilingual Plane, U+1D7CF, satisfies both the digit rule and the special-character rule |
| Passwords.SupplementaryDigitAccepted | api/app/utility/security/password.py:32-62 | a password whose only digit is U+1D7CF breaks no rule, so validation returns it |
| Encryption.LoadAesKey | api/app/utility/security/encryption.py:9-12 | the key is the `fromhex` of the variable; malformed hex raises, and an empty key is refused |
| Encryption.LoadAesKeyOfHex | api/app/utility/security/encryption.py:9 | a non-empty key written as hex is loaded byte for byte |
| Encryption.EncryptField | api/app/utility/security/encryption.py:15-20 | encryption succeeds exactly for a 128-, 192- or 256-bit key |
| Encryption.DecryptField | api/app/utility/security/encryption.py:23-27 | a result needs valid base64 and a valid key length; undecodable input is a malformed-input error |
| Encryption.DecryptAuthenticates | api/app/utility/security/encryption.py:25-27 | a returned plaintext is the authenticated opening of the first 12 bytes as nonce and the rest as ciphertext |
| Encryption.DecryptOfEncrypt | api/app/utility/security/encryption.py:19-27 | `decrypt_field(encrypt_field(v)) == v` under the same key |
| Encryption.EncryptShape | api/tests/test_utility/test_encrypt_field.py:19-43 | the stored form is non-empty base64 ASCII, a multiple of four long, and holds at least the 12 nonce bytes |
| Tokens.LoadTokenPepper | api/app/utility/security/tokens.py:23-27 | a loaded pepper is the non-empty UTF-8 of the variable; failure names the secret |
| Tokens.LoadTokenPepperRefusesEmpty | api/app/utility/security/tokens.py:26-27 | import fails exactly when the pepper is unset or empty |
| Tokens.AccumulateZero | api/app/utility/security/tokens.py:42 | the OR of the byte differences is zero exactly when all bytes agree |
| Tokens.CompareDigestIsEquality | api/app/utility/security/tokens.py:42 | `compare_digest(a, b)` is exactly `a == b`, whatever the lengths |
| Tokens.VerifyTokenMeaning | api/app/utility/security/tokens.py:40-42 | `verify_token(t, h)` holds exactly when `h == hash_token(t)` |
| Tokens.RequireToken | api/app/utility/security/tokens.py:45-71 | a header without `Bearer ` is a 401 before any lookup; otherwise the row is found exactly at the hash of the stripped token, and a miss is the 401 for that header |
| Tokens.RequireTokenReadsOnlyTheHash | api/app/utility/security/tokens.py:55-63 | only the token's hash is consulted: two stores that agree there give the same answer |
| Tokens.AccessTokenAccepted | api/app/utility/security/tokens.py:55-71 | a session is found by presenting its token, with or without surrounding white space |
| LegacySecurity.LoadSecrets | api/app/utility/security.py:27-32 | import succeeds exactly when the AES key is well-formed non-empty hex and both peppers are non-empty |
| LegacySecurity.LoadSecretsAgreesWithSplitModules | api/app/utility/security.py:27-32 | the monolithic module starts exactly when the three split modules do, with the same secrets |
| Otp.VerifyOtp | api/app/utility/security/mfa.py:4-15 | TOTP and HOTP go to pyotp by method name; any other method is false |
| Expiry.AssumeUtc | api/app/controllers/authentication.py:158-159 | a naive expiry gets UTC, keeping its reading and instant |
| Expiry.FormatExpirationTime | api/app/controllers/authentication.py:155-172 | a non-datetime is passed to `str`; a known non-empty zone gives local time there; otherwise the UTC-labelled reading |
| Expiry.NaiveMeansUtc | api/app/v1/routes/authentication/register.py:129-142 | a naive expiry is formatted exactly as the same reading marked UTC |
| Expiry.OffsetText | api/app/routes/v1/endpoints/pending_user.py:137 | `%z` gives a sign and two-digit hours and minutes that spell the offset |
| Expiry.LegacyFormat | api/app/routes/v1/endpoints/pending_user.py:135-143 | the oldest handler never converts: a naive expiry is labelled UTC, an aware one with `%Z`, else `%z` |
| Store.RunAppend | api/app/v1/routes/authentication/register.py:89-162 | running two event sequences in turn is running their concatenation |
| Store.QuietRun | api/app/v1/routes/authentication/register.py:89-124 | events without a commit or an enqueue leave the durable tables and the outbox alone |
| Store.Backend.constructor | api/app/v1/routes/authentication/register.py:54 | a backend starts at the given snapshot with an empty trace |
| Store.Backend.Execute | api/app/v1/routes/authentication/register.py:90-111 | a call is appended to the trace; a call that raised leaves the state unchanged |
| Store.Backend.Commit | api/app/v1/routes/authentication/register.py:126 | the commit is appended to the trace, and the durable tables become the session's |
| Store.Backend.Sleep | api/app/v1/routes/authentication/register.py:120-121 | a sleep is recorded and changes no table |
| Store.Backend.Enqueue | api/app/v1/routes/authentication/register.py:150-162 | the e-mail is appended to the outbox and the trace |
| Issuance.CreateLoginSession | api/app/utility/authentication.py:14-56 | the method's trace and state are the transcript of the store call, then the commit, then the return |
| Issuance.LoginSessionPersistsBeforeReturn | api/app/utility/authentication.py:48-56 | a returned session is durable: one new row keyed by the hashes of exactly the two returned tokens, each of which verifies, with the commit last |
| Issuance.LoginSessionFailureChangesNothing | api/app/utility/authentication.py:37-56 | a failed store call raises with no commit and no change |
| Issuance.CreateMfaChallengeSession | api/app/utility/authentication.py:59-96 | the method's trace and state are the challenge transcript |
| Issuance.ChallengeIsNotCommitted | api/app/utility/authentication.py:74-96 | no commit and no e-mail; a returned challenge is stored under its own hash |
| Issuance.SessionCookies | api/app/utility/response.py:22-40 | two `httponly`, `secure`, `Strict` cookies: the access token with path `/`, the refresh token with path `/auth/refresh` |
| Registration.RemainingTime | api/app/controllers/authentication.py:123-128 | the sleep is never negative, is zero exactly past the 0.45 s floor, and otherwise ends exactly at the floor |
| Registration.EnsureMinimumResponseTime | api/app/controllers/authentication.py:123-128 | one sleep is recorded only when time remains, and the state is unchanged |
| Registration.AppTitle | api/app/controllers/authentication.py:174-177 | the routes pass the raw name through; the controller always yields a non-empty name |
| Registration.FinishRegistration | api/app/v1/routes/authentication/register.py:126-162 | the method's trace is the commit, the name lookup, then the e-mail |
| Registration.InsertPendingUser | api/app/v1/routes/authentication/register.py:89-124 | the method's trace is the insert call and the pause, then the finish only when an expiry came back |
| Registration.InsertRaised | api/app/v1/routes/authentication/register.py:89-124 | for an insert that raised, the method's trace and result follow the transcript: an integrity error is answered after the pause, any other error escapes before it |
| Registration.InsertReturned | api/app/v1/routes/authentication/register.py:112-124 | for an insert that returned, the method's trace and result follow the transcript: the pause, then the finish only when an expiry came back |
| Registration.RegisterPendingUser | api/app/v1/routes/authentication/register.py:86-162 | the method's result, trace and new state follow the handler's transcript, in all three versions |
| Registration.DuplicateIsSilent | api/app/v1/routes/authentication/register.py:112-124 | an integrity error or no expiry answers as for a new address, after the same pause, with no commit and no e-mail |
| Registration.NewRegistrationCommitsThenMails | api/app/v1/routes/authentication/register.py:118-162 | a new registration runs call, pause, commit, lookup and exactly one e-mail to the submitted address, whose link carries the plaintext token; the row is durable by then |
| Registration.InsertionThenFinish | api/app/controllers/authentication.py:76-91 | after the insert, the order is pause, then commit, then e-mail |
| Registration.InsertedRow | api/app/v1/routes/authentication/register.py:90-121 | the insert and the pause leave the pending row in the session's tables, with nothing durable or queued |
| Registration.FinishEffect | api/app/v1/routes/authentication/register.py:126-162 | committing and mailing make the session's tables durable and add exactly one e-mail |
| Registration.PauseKeepsTables | api/app/v1/routes/authentication/register.py:118-121 | the pause changes nothing |
| Registration.MailedTokenMatchesStoredHash | api/app/v1/routes/authentication/register.py:105-157 | the token in the e-mail verifies against the hash that the current handlers stored |
| Registration.OtherErrorsRaise | api/app/v1/routes/authentication/register.py:89-116 | any other database error, or an address the e-mail hash rejects, raises before the pause with no commit or e-mail |
| Registration.SameAnswerEitherWay | api/app/v1/routes/authentication/register.py:49 | a duplicate and a new address get the same empty answer |
| ErrorMapping.MapError | api/app/routes/v1/endpoints/pending_user.py:263-265 | the loop returns the error of the first phrase, in table order, that occurs in the text |
| ErrorMapping.FirstMatchIndex | api/app/routes/v1/endpoints/pending_user.py:263-265 | a match belongs to a phrase that occurs, with no earlier phrase occurring |
| ErrorMapping.FirstMatchNone | api/app/routes/v1/endpoints/pending_user.py:263-268 | there is no match exactly when no phrase occurs |
| ErrorMapping.ExactMatch | api/app/v1/routes/authentication/login.py:134 | `dict.get(str(e), default)` gives the default when no key equals the text, and otherwise the first equal key's entry |
| Confirmation.PendingNotFoundWins | api/app/routes/v1/endpoints/pending_user.py:212-216 | any text containing "Pending user not found" is a 404 "Invalid or expired verification token" |
| Confirmation.ExecuteConfirm | api/app/routes/v1/endpoints/pending_user.py:235-268 | the method's trace and result follow the confirm transcript |
| Confirmation.ConfirmLegacy | api/app/routes/v1/endpoints/pending_user.py:235-268 | the oldest route sends the plaintext token and the password's Argon2 hash; its result, trace and state follow the transcript |
| Confirmation.ConfirmPendingUser | api/app/routes/v1/endpoints/authentication/email_confirm.py:86-127 | the header is checked, then the hashed token and password go to the store; its result, trace and state follow the transcript |
| Confirmation.CommitOnlyOnSuccess | api/app/routes/v1/endpoints/pending_user.py:255-268 | a commit happens exactly on success; a failure changes nothing; success removes the pending row for that token |
| Confirmation.ErrorsTranslated | api/app/routes/v1/endpoints/authentication/email_confirm.py:118-127 | a known phrase becomes its HTTP error, and anything else is re-raised unchanged |
| Confirmation.HeaderCheckedFirst | api/app/routes/v1/endpoints/authentication/email_confirm.py:86-90 | the 401 with no event happens exactly when the header is missing, empty or lacks `Bearer ` |
| Confirmation.HeaderTokenIsUnstripped | api/app/routes/v1/endpoints/authentication/email_confirm.py:92-108 | the hashed token is the header after `Bearer ` exactly as sent, without stripping |
| Login.GrantAccess | api/app/v1/routes/authentication/login.py:99-105 | the method's trace and result follow the grant transcript |
| Login.AuthenticateUser | api/app/v1/routes/authentication/login.py:70-105 | the method's trace and result follow the authentication transcript |
| Login.LoginWithCookies | api/app/v1/routes/authentication/login.py:70-135 | the cookie route's result, trace and new state follow its transcript; this is the intended ending, and the one as written is under Findings |
| Login.LoginWithBody | api/app/routes/v1/endpoints/authentication/login.py:67-115 | the body route's result, trace and new state follow its transcript, with the loop mapping errors |
| Login.ControllerLoginUser | api/app/controllers/authentication.py:42-67 | the controller's result, trace and new state follow its transcript |
| Login.UnknownUserLooksLikeWrongPassword | api/app/v1/routes/authentication/login.py:55-63 | an unknown address and a wrong password give the same transcript and the same 401 "Invalid credentials", in both route styles |
| Login.RejectionsTranslatedAlike | api/app/routes/v1/endpoints/authentication/login.py:52-60 | both rejection messages map to 401 "Invalid credentials", by exact lookup and by first phrase |
| Login.LoginErrorsTranslated | api/app/routes/v1/endpoints/authentication/login.py:110-115 | the table unrolled: first phrase for the body routes, and exact key with a 500 default for the cookie route |
| Login.GrantNeedsPassword | api/app/v1/routes/authentication/login.py:88-105 | credentials are issued only to a found user whose password verified |
| Login.TwoFactorGetsOnlyChallenge | api/app/v1/routes/authentication/login.py:99-102 | a 2FA user gets only a challenge: no session call and no commit |
| Login.CookiesCarryCommittedSession | api/app/v1/routes/authentication/login.py:104-131 | without 2FA, the cookies carry exactly the tokens just committed, and the body carries none; this is the intended ending, and the one as written is under Findings |
| Login.SuspensionHandledOnlyInBody | api/app/routes/v1/endpoints/authentication/login.py:61-64 | a suspension text becomes 403 in the body routes but escapes the cookie route |
| Login.RejectedAddress | api/app/v1/routes/authentication/login.py:83 | an address the e-mail hash rejects never reaches the store; the cookie route answers 500 |
| Login.ControllerChecksInOrder | api/app/controllers/authentication.py:48-52 | a missing user is 404 before any password check and a wrong password is 400; neither reaches the service, and nothing is committed |
| Mfa.StoreSecret | api/app/routers/mfa.py:52-84 | the method's trace and result follow the transcript from the insert on; this is the intended ending, and the one as written is under Findings |
| Mfa.SetupTotpSecret | api/app/routers/mfa.py:27-84 | setup's result, trace and new state follow its transcript; this is the intended ending, and the one as written is under Findings |
| Mfa.SetupChecksFirst | api/app/routers/mfa.py:31-64 | nothing reaches the store unless the access token and the key pass; past them, the encrypted secret is what is stored |
| Mfa.SetupDuplicateRefused | api/app/routers/mfa.py:70-74 | an integrity error is 400 "TOTP setup failed", with one failed call, no commit and no challenge |
| Mfa.SetupCommitsSecretFirst | api/app/v1/routes/authentication/mfa/totp.py:62-81 | the unconfirmed secret, with its ciphertext, `app_id` hash and key version 1, is durable before the uncommitted challenge; the reply carries the secret and the challenge |
| Mfa.SetupSecretRecoverable | api/app/routers/mfa.py:64 | the stored ciphertext decrypts to exactly the secret returned to the user |
| Mfa.IssueSession | api/app/routers/mfa.py:131-172 | the method's trace and result follow the status query, the session and the reply; this is the intended ending, and the one as written is under Findings |
| Mfa.CompleteConfirmation | api/app/routers/mfa.py:124-172 | the method's trace and result follow the transcript after the code checks; this is the intended ending, and the one as written is under Findings |
| Mfa.Confirm2fa | api/app/routers/mfa.py:93-172 | confirmation's result, trace and new state follow its transcript, in both variants; this is the intended ending, and the one as written is under Findings |
| Mfa.NoWriteBeforeTheCode | api/app/routers/mfa.py:97-122 | unless both tokens resolve, the secret decrypts and the code verifies, the handler fails with no event; otherwise it goes on with the challenge's row |
| Mfa.WrongCodeIs401 | api/app/v1/routes/authentication/mfa/totp.py:115-119 | a code that does not verify is 401 "Invalid TOTP code" with no event |
| Mfa.ConfirmOnlyWhileUnconfirmed | api/app/routers/mfa.py:124-129 | `confirm_totp_secret` is called exactly in the router and while `confirmed_at` is unset; the versioned route leaves the TOTP table as it was |
| Mfa.IssueLeavesTotp | api/app/v1/routes/authentication/mfa/totp.py:121-141 | the status query and the session neither confirm a secret nor touch the TOTP table |
| Mfa.SessionLeavesTotp | api/app/utility/authentication.py:37-56 | issuing a session leaves the TOTP table alone |
| Mfa.FirstUseConfirmsDurably | api/app/routers/mfa.py:124-129 | in the router, a first use whose `confirm_totp_secret` returned leaves the secret marked confirmed in the committed tables, however the rest of the handler ends |
| Mfa.IssueCommitsTables | api/app/v1/routes/authentication/mfa/totp.py:121-130 | once the status query and the session helper have returned, the session's tables are committed |
| Mfa.SessionOnlyForTheChallengedUser | api/app/routers/mfa.py:140-170 | success means the id is the challenge's user and 2FA is reported on, and the cookies carry the drawn tokens whose hashes were stored and committed last; this is the intended ending, and the one as written is under Findings |
| Mfa.RouterSetupCommitsThenRaises | api/app/routers/mfa.py:70-82 | as written, the router's setup never answers: a duplicate is still the 400, and a stored secret is committed unconfirmed before the unbound service call raises AttributeError ("'UUID' object has no attribute 'execute_procedure'", since user ids are UUIDs by `api/app/schemas/user.py:27`), with no challenge created |
| Mfa.RouterConfirmCommitsThenRaises | api/app/routers/mfa.py:124-140 | as written, the router's confirmation never answers and writes no session: its events are a prefix of the intended ones, a first use is still committed, and after the status query an AttributeError escapes; its text, which names the type of the row's `user_id`, is left open |
| Mfa.VersionedConfirmCommitsThenRaises | api/app/v1/routes/authentication/mfa/totp.py:121-141 | as written, the versioned confirmation makes the intended calls and commits, then fails: the session keyed by the drawn tokens' hashes is committed and the TypeError of reading the tuple by key escapes |
| Login.CookieSessionCommittedThenRaises | api/app/v1/routes/authentication/login.py:105-135 | as written, a login without 2FA commits its session and then the TypeError of `session["access_token"]` escapes `except ValueError`, so no cookie is set |
| Login.CookieLoginAsWrittenSetsNoCookies | api/app/v1/routes/authentication/login.py:104-135 | as written, the cookie route never answers with session cookies, while making the same calls and commits as the intended route |
| Otp.TotpIgnoresCounter | api/app/utility/security/mfa.py:9-10 | under "TOTP" the counter plays no part in the answer |
| Otp.MethodNameIsExact | api/app/utility/security/mfa.py:9-13 | method names are compared exactly: "totp", "hotp" and "TOTP " verify nothing, while "TOTP" answers as pyotp's TOTP check |

## Left out

- Cryptography, encoding and one-time passwords are trusted, not implemented. This covers AES-GCM, SHA-256, HMAC, Argon2, NFKC, UTF-8 and pyotp. They are functions in `Primitives.Crypto`, and their properties are hypotheses (ghost predicates) of the lemmas that need them.
- `Tokens.CompareDigest` models `compare_digest`'s result, folding the XOR of each byte pair into an OR accumulator; XOR and OR are defined bit by bit on natural numbers. It does not model its constant timing, which has no meaning in this model.
- The randomness of `secrets`, `os.urandom` and `random.uniform` is left out. The drawn tokens, nonces, TOTP secrets and jittered start times are parameters.
- `time.monotonic` and `asyncio.sleep` are left out. Clock readings are parameters, and a sleep is recorded as an event, not waited for.
- `strftime` layouts and the zone database are left out. The formatting's branch structure is modelled, and the zone database is a predicate saying which names it knows. A conversion into a zone is the instant with the zone's name; local clock arithmetic and daylight-saving rules are left out.
- The call sites of `hash_email` in `api/app/routes/v1/endpoints/authentication/register.py:107`, `api/app/routes/v1/endpoints/authentication/login.py:80` and `api/app/routes/v1/endpoints/user_authentication.py:165` (imported at line 15) pass `(email, app_id)`, but they import from `app.utility.security`. Its module file `api/app/utility/security.py:122` defines a one-argument `hash_email`, which such a call would reject with a TypeError. A directory `app/utility/security/` with the two-argument version of `hashing.py:9` also exists. Which of the two the import resolves to depends on whether that directory is a regular package with an `__init__.py`: if it is, the package wins; if not, the module file `security.py` does. The model reads these call sites as the two-argument, namespaced hash that the arguments fit, as in `Registration` (version `Current`) and `Login.LoginWithBody`. The TypeError path is not modelled.
- The end of the request is not modelled. `get_db` in `api/app/utility/database.py` closes the session without committing, so an uncommitted row, such as the login's or the TOTP setup's MFA challenge, may be rolled back then, depending on the stored procedure. `Issuance.ChallengeIsNotCommitted` states what the model does show: the row is in the session's tables and not in the committed ones.
- `str.lower` is modelled on ASCII letters only. Non-ASCII case mapping is left out.
- The stored procedures are left out: what they check and what they return. Their outcomes are inputs, each a value returned or an exception with its text. A call's effect on the tables is what the modelled tables can show.
- Commit failures are left out. In the confirmation handlers a failing commit would land in the error mapping; the model's commit always succeeds.
- The dependency injection of FastAPI is left out, along with Pydantic validation and response-model filtering. The controller's merged response dictionary is modelled unfiltered.
- A missing required header, for which FastAPI answers 422, is not modelled. `require_access_token` and `require_challenge_token` take the header text.
- The session record is modelled differently from the code, which is inconsistent here. `api/app/utility/authentication.py:56` returns a tuple, while the cookie handlers index the result by key. The router also calls the `AuthService` methods on the class, with a signature different from `api/app/services/authentication.py:15,36`. Issuance is modelled once, and every flow consumes one `SessionTokens` record. The resulting crashes are under "## Findings"; the handler methods follow the intended success paths.
- LoginWithCookies (`Login.LoginWithCookies`): describes the intended cookie login. As written, the non-2FA path raises TypeError after its commit (`Login.CookieSessionCommittedThenRaises`), so its cookie reply is not reachable in the code.
- CookiesCarryCommittedSession (`Login.CookiesCarryCommittedSession`): is stated for the intended cookie reply, which the code does not reach; the session it names is still committed as written.
- StoreSecret (`Mfa.StoreSecret`): describes the intended router setup from the insertion on. As written, the setup raises AttributeError after committing the secret (`Mfa.RouterSetupCommitsThenRaises`) and never creates a challenge.
- SetupTotpSecret (`Mfa.SetupTotpSecret`): the whole router setup, with the same gap as `Mfa.StoreSecret`; the versioned setup of `api/app/v1/routes/authentication/mfa/totp.py` does reach the modelled reply.
- IssueSession (`Mfa.IssueSession`): describes the intended status query, session and reply. As written, the router raises AttributeError before any session call, and the versioned route raises TypeError after committing the session.
- CompleteConfirmation (`Mfa.CompleteConfirmation`): follows the intended transcript after the code checks, with the same gap as `Mfa.IssueSession`; the first-use confirmation and its commit are as written.
- Confirm2fa (`Mfa.Confirm2fa`): follows the intended handler in both variants. Everything up to and including the code check is as written; the endings as written are `Mfa.RouterConfirmCommitsThenRaises` and `Mfa.VersionedConfirmCommitsThenRaises`.
- SessionOnlyForTheChallengedUser (`Mfa.SessionOnlyForTheChallengedUser`): is stated for the intended successful confirmation, which neither handler reaches as written.
- IssueCommitsTables (`Mfa.IssueCommitsTables`): holds for the versioned route as written, whose helper commits before the TypeError. The router never reaches a session call, so there it describes only the intended handler.
- FirstUseConfirmsDurably (`Mfa.FirstUseConfirmsDurably`): is stated over the intended transcript. For the router as written, `Mfa.RouterConfirmCommitsThenRaises` proves the same durable confirmation.
- The controller's `AuthService` procedures are left out. The controller's login is modelled with the outcome of the service's call as an input.
- E-mail sending is left out. An e-mail is appended to the outbox when it is queued.
- Concurrency and the database's unique constraints are left out. Only the resulting integrity error is seen.
- The `MIN_RESPONSE_TIME_SECONDS` constant of `email_confirm.py` is declared and never used, so no timing floor is modelled for confirmation.
- The `confirm_2fa` of `api/app/routes/v1/endpoints/user_authentication.py` and the whole of `api/app/routes/v1/endpoints/authentication/mfa/totp.py` are left out. Both hold an unfinished `text(...)` placeholder. `AuthController.confirm_email` (a bare `pass`), the truncated `api/app/v1/controllers/register.py` and the superseded login of `api/app/routes/v1/endpoints/user.py` are left out for the same reason: they are stubs or superseded.
- Application CRUD routes, routing and wiring, schema declarations and the ORM models are left out. They hold no logic of the credential core.
- The local helpers in `api/app/routes/v1/endpoints/user_authentication.py` are not modelled separately. This covers `create_login_session`, `create_mfa_challenge_session` and `login_user`, which behave like the shared issuance helpers and the body-style login.
- `Mfa.Confirm2fa` models the e-mail verification status as one boolean. A query that returns no row, so that building the reply would raise, is not modelled.
- User and application ids are modelled as opaque `int` identifiers. The source types user ids as UUIDs (`api/app/schemas/user.py:27`) and annotates application ids as `int` in some files (`api/app/services/authentication.py:15`) and `UUID` in others (`api/app/v1/routes/application.py:21`). The model only compares ids for equality and writes the namespace `str(app_id)` as a decimal. The namespacing lemmas use only that this text has no colon and determines the id, which the text of a UUID also satisfies. In setup, the AttributeError's text names `UUID`, the type of the request's `user_id`. In the router's confirmation, the id comes from a database row, so the text depends on the type the driver gives it and is left as a parameter of `Mfa.RouterConfirmAdmitted`.
- TOTP setup stores the secret under the user id from the request body, not under the user of the access token. This is modelled as written.

## Findings

| source | as written | input that shows it | evidently intended | confidence | as-written member | corrected member |
|---|---|---|---|---|---|---|
| api/app/routers/mfa.py:80-82 | `AuthService.create_mfa_challenge_session(request_body.user_id, db, …)` is called on the class, so the user id is bound to `self` and `self.execute_procedure` raises AttributeError after the secret was committed | any setup request with a valid access token whose insertion returns | the challenge is created and the reply carries the secret and the challenge token | high, not executed | Mfa.RouterSetupCommitsThenRaises | Mfa.SetupCommitsSecretFirst |
| api/app/routers/mfa.py:140 | `AuthService.create_login_session(challenge_data.user_id, db, …)` is called on the class and raises AttributeError, after `confirm_totp_secret` was committed and before any session exists | any confirmation with both tokens valid and a verifying code, whose status query returns | a session is issued for the challenge's user and set in two cookies | high, not executed | Mfa.RouterConfirmCommitsThenRaises | Mfa.SessionOnlyForTheChallengedUser |
| api/app/v1/routes/authentication/login.py:114 | `session["access_token"]` indexes the `(access_token, refresh_token)` tuple from `api/app/utility/authentication.py:56` by a string, which raises TypeError after the session was committed; `except ValueError` does not catch it | a correct password for a user without 2FA, with the lookup and `create_session` returning | the two tokens are set as the `access_token` and `refresh_token` cookies | high, not executed | Login.CookieSessionCommittedThenRaises | Login.CookiesCarryCommittedSession |
| api/app/utility/response.py:25 | `create_login_response_with_cookies`, reached from `api/app/v1/routes/authentication/mfa/totp.py:141`, indexes the same tuple by key and raises TypeError after the session was committed | any versioned confirmation with a verifying code whose status query and `create_session` return | the session is set in two cookies and 2FA is reported on | high, not executed | Mfa.VersionedConfirmCommitsThenRaises | Mfa.SessionOnlyForTheChallengedUser |
