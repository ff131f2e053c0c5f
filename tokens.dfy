/**
 * Opaque tokens: the TOKEN_PEPPER secret, HMAC-SHA256 token hashes (the only
 * form in which tokens reach the database), constant-time comparison, and the
 * two request dependencies that turn a bearer header into a stored session or
 * TOTP challenge.
 */
module Tokens {
  import opened Common
  import opened Strings
  import opened Primitives

  /** `os.getenv("TOKEN_PEPPER", "").encode("utf-8")`, refused when empty. */
  function LoadTokenPepper(c: Crypto, env: Option<string>): (r: Result<bytes, StartupError>)
    ensures r.Ok? ==> r.value != [] && r.value == c.utf8Encode(env.GetOr(""))
    ensures r.Err? ==> r.error == MissingSecret("TOKEN_PEPPER")
  {
    var pepper := c.utf8Encode(env.GetOr(""));
    if pepper == [] then Err(MissingSecret("TOKEN_PEPPER")) else Ok(pepper)
  }

  /** The pepper is refused exactly when the variable is unset or empty. */
  lemma {:induction false} LoadTokenPepperRefusesEmpty(c: Crypto, env: Option<string>)
    requires Utf8RoundTrips(c)
    ensures LoadTokenPepper(c, env).Ok? <==> env.Some? && env.value != ""
  {
    assert |env.GetOr("")| <= |c.utf8Encode(env.GetOr(""))|;
  }

  /** `hash_token(token)`: HMAC-SHA256 keyed with the pepper over the UTF-8 token. */
  function HashToken(c: Crypto, pepper: bytes, token: string): bytes
  {
    c.hmacSha256(pepper, c.utf8Encode(token))
  }

  /**
   * `hmac.compare_digest(a, b)` as CPython computes it: the loop always runs
   * over every byte of `b`, OR-ing together the XOR of corresponding bytes;
   * when the lengths differ it compares `b` with itself from a non-zero start.
   */
  function CompareDigest(a: bytes, b: bytes): bool
  {
    if |a| == |b| then Accumulate(a, b, 0) == 0 else Accumulate(b, b, 1) == 0
  }

  function Accumulate(left: bytes, right: bytes, acc: nat): nat
    requires |left| == |right|
    decreases |left|
  {
    if left == [] then acc
    else Accumulate(left[1..], right[1..], BitOr(acc, BitXor(left[0] as nat, right[0] as nat)))
  }

  /** Bitwise exclusive or of two naturals, bit by bit from the lowest. */
  function BitXor(x: nat, y: nat): nat
    decreases x + y
  {
    if x == 0 then y
    else if y == 0 then x
    else 2 * BitXor(x / 2, y / 2) + (if x % 2 == y % 2 then 0 else 1)
  }

  /** Bitwise inclusive or of two naturals, bit by bit from the lowest. */
  function BitOr(x: nat, y: nat): nat
    decreases x + y
  {
    if x == 0 then y
    else if y == 0 then x
    else 2 * BitOr(x / 2, y / 2) + (if x % 2 == 1 || y % 2 == 1 then 1 else 0)
  }

  /** An OR is zero exactly when both sides are; with both non-zero it is not. */
  lemma {:induction false} OrZero(x: nat, y: nat)
    ensures BitOr(x, y) == 0 <==> x == 0 && y == 0
  {
    if x != 0 && y != 0 && x % 2 == 0 && y % 2 == 0 {
      OrZero(x / 2, y / 2);
    }
  }

  /** Two values XOR to zero exactly when they are equal. */
  lemma {:induction false} XorZero(x: nat, y: nat)
    ensures BitXor(x, y) == 0 <==> x == y
    decreases x + y
  {
    if x != 0 && y != 0 {
      XorZero(x / 2, y / 2);
    }
  }

  /** The accumulated difference is zero exactly when it started at zero and the inputs agree everywhere. */
  lemma {:induction false} AccumulateZero(left: bytes, right: bytes, acc: nat)
    requires |left| == |right|
    ensures Accumulate(left, right, acc) == 0 <==> acc == 0 && left == right
    decreases |left|
  {
    if left != [] {
      var d := BitXor(left[0] as nat, right[0] as nat);
      OrZero(acc, d);
      XorZero(left[0] as nat, right[0] as nat);
      AccumulateZero(left[1..], right[1..], BitOr(acc, d));
      assert left == right <==> left[0] == right[0] && left[1..] == right[1..] by {
        if left[0] == right[0] && left[1..] == right[1..] {
          assert left == [left[0]] + left[1..] && right == [right[0]] + right[1..];
        }
      }
    }
  }

  /** `compare_digest` answers exactly the question `a == b`. */
  lemma {:induction false} CompareDigestIsEquality(a: bytes, b: bytes)
    ensures CompareDigest(a, b) <==> a == b
  {
    if |a| == |b| {
      AccumulateZero(a, b, 0);
    } else {
      AccumulateZero(b, b, 1);
    }
  }

  /** `verify_token(token, stored_hash)`. */
  function VerifyToken(c: Crypto, pepper: bytes, token: string, stored: bytes): bool
  {
    CompareDigest(HashToken(c, pepper, token), stored)
  }

  /** A token verifies against a stored hash exactly when that hash is its own. */
  lemma {:induction false} VerifyTokenMeaning(c: Crypto, pepper: bytes, token: string, stored: bytes)
    ensures VerifyToken(c, pepper, token, stored) <==> stored == HashToken(c, pepper, token)
  {
    CompareDigestIsEquality(HashToken(c, pepper, token), stored);
  }

  const BearerPrefix: string := "Bearer "

  /** The token of a bearer header: `removeprefix("Bearer ").strip()`. */
  function BearerToken(header: string): string
    requires StartsWith(header, BearerPrefix)
  {
    Strip(header[|BearerPrefix|..])
  }

  const InvalidAuthorizationFormat: string := "Invalid authorization header format"
  const InvalidAccessToken: string := "Invalid or expired access token"
  const InvalidChallengeFormat: string := "Invalid challenge header format"
  const InvalidChallengeToken: string := "TOTP challenge token invalid or expired"

  /**
   * The dependency shared by both checks: refuse a header without the bearer
   * prefix, otherwise look the token's hash up in `rows` (what the store's
   * lookup query returns for each hash).
   */
  function RequireToken<R>(c: Crypto, pepper: bytes, header: string, rows: map<bytes, R>,
                           formatDetail: string, missingDetail: string): (r: Result<R, HttpError>)
    ensures !StartsWith(header, BearerPrefix) ==> r == Err(HttpError(401, formatDetail))
    ensures StartsWith(header, BearerPrefix) ==>
      var h := HashToken(c, pepper, BearerToken(header));
      (r.Ok? <==> h in rows)
      && (r.Ok? ==> r.value == rows[h])
      && (r.Err? ==> r.error == HttpError(401, missingDetail))
  {
    if !StartsWith(header, BearerPrefix) then Err(HttpError(401, formatDetail))
    else
      var h := HashToken(c, pepper, BearerToken(header));
      if h in rows then Ok(rows[h]) else Err(HttpError(401, missingDetail))
  }

  /** `require_access_token(authorization)`, against the rows of `get_access_token`. */
  function RequireAccessToken<S>(c: Crypto, pepper: bytes, authorization: string, sessions: map<bytes, S>): Result<S, HttpError>
  {
    RequireToken(c, pepper, authorization, sessions, InvalidAuthorizationFormat, InvalidAccessToken)
  }

  /** `require_challenge_token(mfa_challenge)`, against the rows of `get_totp_secret`. */
  function RequireChallengeToken<T>(c: Crypto, pepper: bytes, challenge: string, secrets: map<bytes, T>): Result<T, HttpError>
  {
    RequireToken(c, pepper, challenge, secrets, InvalidChallengeFormat, InvalidChallengeToken)
  }

  /**
   * The store is consulted only at the token's hash: two stores that agree on
   * that one key give the same answer, whatever else they hold.
   */
  lemma {:induction false} RequireTokenReadsOnlyTheHash<R>(c: Crypto, pepper: bytes, header: string,
                                        rows1: map<bytes, R>, rows2: map<bytes, R>, fd: string, md: string)
    requires StartsWith(header, BearerPrefix)
    requires var h := HashToken(c, pepper, BearerToken(header));
      (h in rows1 <==> h in rows2) && (h in rows1 ==> rows1[h] == rows2[h])
    ensures RequireToken(c, pepper, header, rows1, fd, md) == RequireToken(c, pepper, header, rows2, fd, md)
  {
  }

  /** A session is found by presenting its token, with or without white space around it. */
  lemma {:induction false} AccessTokenAccepted<S>(c: Crypto, pepper: bytes, token: string, sessions: map<bytes, S>)
    requires HashToken(c, pepper, Strip(token)) in sessions
    ensures RequireAccessToken(c, pepper, BearerPrefix + token, sessions)
      == Ok(sessions[HashToken(c, pepper, Strip(token))])
  {
    var header := BearerPrefix + token;
    assert header[..|BearerPrefix|] == BearerPrefix;
    assert header[|BearerPrefix|..] == token;
  }
}
