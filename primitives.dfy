/**
 * The library code the credential core calls but does not implement: SHA-256
 * and HMAC-SHA256 (hashlib, hmac), AES-GCM (the `cryptography` package), Argon2
 * (argon2-cffi's PasswordHasher), NFKC normalisation (unicodedata), UTF-8
 * encoding, and one-time-password checking (pyotp). Each is a function
 * parameter; the facts the model relies on are stated as predicates over those
 * functions and appear only as preconditions of the lemmas that need them.
 */
module Primitives {
  import opened Common

  /** What argon2-cffi's `PasswordHasher.verify(hash, password)` does: return True or raise. */
  datatype Argon2Outcome = Verified | VerifyMismatch | InvalidHash

  datatype Crypto = Crypto(
    sha256: bytes -> bytes,                       // hashlib.sha256(m).digest()
    hmacSha256: (bytes, bytes) -> bytes,          // hmac.new(key, m, sha256).digest()
    gcmSeal: (bytes, bytes, bytes) -> bytes,      // AESGCM(key).encrypt(nonce, pt, None)
    gcmOpen: (bytes, bytes, bytes) -> Option<bytes>, // AESGCM(key).decrypt(nonce, ct, None); None = raised
    argon2Hash: (string, bytes) -> string,        // PasswordHasher().hash(password) with a salt
    argon2Verify: (string, string) -> Argon2Outcome, // PasswordHasher().verify(hash, password)
    nfkc: string -> string,                       // unicodedata.normalize("NFKC", s)
    utf8Encode: string -> bytes,                  // s.encode("utf-8")
    utf8Decode: bytes -> Option<string>,          // b.decode("utf-8"); None = UnicodeDecodeError
    totpVerify: (string, string) -> bool,         // pyotp.TOTP(secret).verify(code)
    hotpVerify: (string, string, int) -> bool     // pyotp.HOTP(secret).verify(code, counter)
  )

  /** AESGCM accepts 128-, 192- and 256-bit keys and refuses every other length. */
  predicate IsAesKeyLength(n: int)
  {
    n == 16 || n == 24 || n == 32
  }

  ghost predicate Sha256Is32Bytes(c: Crypto)
  {
    forall m :: |c.sha256(m)| == 32
  }

  ghost predicate HmacIs32Bytes(c: Crypto)
  {
    forall k, m :: |c.hmacSha256(k, m)| == 32
  }

  /** AES-GCM decryption with the same key and nonce returns the sealed plaintext. */
  ghost predicate GcmOpensSeal(c: Crypto)
  {
    forall k, n, m :: IsAesKeyLength(|k|) && |n| == 12 ==> c.gcmOpen(k, n, c.gcmSeal(k, n, m)) == Some(m)
  }

  /** UTF-8 decoding inverts encoding, and the empty string encodes to no bytes. */
  ghost predicate Utf8RoundTrips(c: Crypto)
  {
    (forall s :: c.utf8Decode(c.utf8Encode(s)) == Some(s))
    && (forall s :: |s| <= |c.utf8Encode(s)|)
    && c.utf8Encode("") == []
  }

  /** An Argon2 hash verifies the password it was made from ... */
  ghost predicate Argon2Accepts(c: Crypto)
  {
    forall p, salt :: c.argon2Verify(c.argon2Hash(p, salt), p) == Verified
  }

  /** ... and no other one (collisions are out of scope). */
  ghost predicate Argon2Binds(c: Crypto)
  {
    forall p, q, salt :: p != q ==> c.argon2Verify(c.argon2Hash(p, salt), q) != Verified
  }

  /** NFKC leaves pure ASCII text alone. */
  ghost predicate NfkcKeepsAscii(c: Crypto)
  {
    forall s :: IsAscii(s) ==> c.nfkc(s) == s
  }

  predicate IsAscii(s: string)
  {
    forall i :: 0 <= i < |s| ==> s[i] as int < 128
  }

  /** UTF-8 encoding is injective: distinct strings never meet in the same bytes. */
  lemma {:induction false} Utf8Injective(c: Crypto, s: string, t: string)
    requires Utf8RoundTrips(c)
    requires c.utf8Encode(s) == c.utf8Encode(t)
    ensures s == t
  {
    assert c.utf8Decode(c.utf8Encode(s)) == Some(s);
    assert c.utf8Decode(c.utf8Encode(t)) == Some(t);
  }
}
