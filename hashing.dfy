/**
 * Deterministic lookup hashes: `hash_field` (SHA-256 of `namespace:value`,
 * lower-case hex) and `hash_email` (the same over a normalised address), plus
 * the older un-namespaced pair kept in the monolithic security module.
 */
module Hashing {
  import opened Common
  import opened Strings
  import opened Primitives
  import Hex

  /** The `str()` of the ValueError raised when `rsplit("@", 1)` yields one part. */
  const UnpackErrorText: string := "not enough values to unpack (expected 2, got 1)"

  /** `hash_field(value, namespace)`. */
  function HashField(c: Crypto, value: string, namespace: string): string
  {
    Hex.Encode(c.sha256(c.utf8Encode(namespace + ":" + value)))
  }

  /** The email normalisation inside `hash_email`; `Err` carries the ValueError text. */
  function NormalizeEmail(email: string): Result<string, string>
  {
    var lowered := Lower(email);
    if '+' !in lowered then Ok(lowered)
    else
      var at := LastIndexOf(lowered, '@');
      if at < 0 then Err(UnpackErrorText)
      else Ok(BeforeFirst(lowered[..at], '+') + "@" + lowered[at + 1..])
  }

  /** `hash_email(email, namespace)`. */
  function HashEmail(c: Crypto, email: string, namespace: string): Result<string, Exc>
  {
    match NormalizeEmail(email)
    case Err(t) => Err(Exc(ValueError, t))
    case Ok(n) => Ok(HashField(c, n, namespace))
  }

  /** The monolithic module's `hash_field(value)`: SHA-256 of the value alone. */
  function LegacyHashField(c: Crypto, value: string): string
  {
    Hex.Encode(c.sha256(c.utf8Encode(value)))
  }

  /** The monolithic module's `hash_email(email)`: same normalisation, un-namespaced hash. */
  function LegacyHashEmail(c: Crypto, email: string): Result<string, Exc>
  {
    match NormalizeEmail(email)
    case Err(t) => Err(Exc(ValueError, t))
    case Ok(n) => Ok(LegacyHashField(c, n))
  }

  /** A field hash is 64 lower-case hexadecimal characters. */
  lemma {:induction false} HashFieldShape(c: Crypto, value: string, namespace: string)
    requires Sha256Is32Bytes(c)
    ensures |HashField(c, value, namespace)| == 64
    ensures forall i :: 0 <= i < 64 ==> Hex.IsLowerHexChar(HashField(c, value, namespace)[i])
  {
  }

  /**
   * Namespacing separates tenants: for namespaces without a colon (the string
   * form of an application id), the bytes fed to SHA-256 determine both the
   * namespace and the value.
   */
  lemma {:induction false} PreimageDeterminesPair(c: Crypto, v1: string, ns1: string, v2: string, ns2: string)
    requires Utf8RoundTrips(c)
    requires ':' !in ns1 && ':' !in ns2
    requires c.utf8Encode(ns1 + ":" + v1) == c.utf8Encode(ns2 + ":" + v2)
    ensures ns1 == ns2 && v1 == v2
  {
    var s, t := ns1 + ":" + v1, ns2 + ":" + v2;
    Utf8Injective(c, s, t);
    BeforeFirstJoin(ns1, ':', v1);
    BeforeFirstJoin(ns2, ':', v2);
    assert s[|ns1| + 1..] == v1 && t[|ns2| + 1..] == v2;
  }

  /** The '+' and '@' tests see the same characters before and after lower-casing. */
  lemma {:induction false} LowerKeepsMarkers(email: string)
    ensures ('+' in Lower(email)) <==> ('+' in email)
    ensures ('@' in Lower(email)) <==> ('@' in email)
  {
    LowerKeepsNonLetter(email, '+');
    LowerKeepsNonLetter(email, '@');
  }

  /**
   * What the normalisation means: it fails exactly for an address with a '+'
   * and no '@'; without a '+' it only lower-cases; otherwise it keeps the text
   * after the last '@' and, of the text before it, what precedes the first '+'.
   * The result never holds an ASCII capital.
   */
  lemma {:induction false} NormalizeEmailMeaning(email: string)
    ensures NormalizeEmail(email).Err? <==> '+' in email && '@' !in email
    ensures '+' !in email ==> NormalizeEmail(email) == Ok(Lower(email))
    ensures NormalizeEmail(email).Ok? ==> HasNoUpper(NormalizeEmail(email).value)
  {
    LowerKeepsMarkers(email);
    LowerIsLowercase(email);
    var lowered := Lower(email);
    var at := LastIndexOf(lowered, '@');
    if '+' in lowered && at >= 0 {
      var n := NormalizeEmail(email).value;
      var local := BeforeFirst(lowered[..at], '+');
      assert n == local + "@" + lowered[at + 1..];
      forall i | 0 <= i < |n| ensures !('A' <= n[i] <= 'Z') {
        if i < |local| {
          assert n[i] == lowered[i];
        } else if i > |local| {
          assert n[i] == lowered[at + 1 + i - |local| - 1];
        }
      }
    }
    if '@' in lowered {
      var j :| 0 <= j < |lowered| && lowered[j] == '@';
      assert at >= j;
    }
  }

  /** Sub-addressing is ignored: `user+tag@domain` normalises like `user@domain`. */
  lemma {:induction false} SubaddressIgnored(user: string, tag: string, domain: string)
    requires '+' !in user && '@' !in user && '@' !in tag && '@' !in domain
    ensures NormalizeEmail(user + "+" + tag + "@" + domain) == NormalizeEmail(user + "@" + domain)
    ensures NormalizeEmail(user + "@" + domain) == Ok(Lower(user) + "@" + Lower(domain))
  {
    TaggedNormalForm(user, tag, domain);
    PlainNormalForm(user, domain);
  }

  /** Lower-casing goes through a separator that is not a letter. */
  lemma {:induction false} LowerJoin(a: string, sep: string, b: string)
    requires sep == "+" || sep == "@"
    ensures Lower(a + sep + b) == Lower(a) + sep + Lower(b)
  {
    LowerConcat(a + sep, b);
    LowerConcat(a, sep);
    assert Lower(sep) == sep;
  }

  lemma {:induction false} TaggedNormalForm(user: string, tag: string, domain: string)
    requires '+' !in user && '@' !in user && '@' !in tag && '@' !in domain
    ensures NormalizeEmail(user + "+" + tag + "@" + domain) == Ok(Lower(user) + "@" + Lower(domain))
  {
    var u, t, d := Lower(user), Lower(tag), Lower(domain);
    LowerJoin(user + "+" + tag, "@", domain);
    LowerJoin(user, "+", tag);
    LowerKeepsNonLetter(user, '+');
    LowerKeepsNonLetter(user, '@');
    LowerKeepsNonLetter(tag, '@');
    LowerKeepsNonLetter(domain, '@');
    var local := u + "+" + t;
    var tagged := local + "@" + d;
    assert Lower(user + "+" + tag + "@" + domain) == tagged;
    LastIndexOfJoin(local, '@', d);
    assert tagged[..|local|] == local;
    assert tagged[|local| + 1..] == d;
    BeforeFirstJoin(u, '+', t);
    assert '+' in tagged by { assert tagged[|u|] == '+'; }
  }

  lemma {:induction false} PlainNormalForm(user: string, domain: string)
    requires '+' !in user && '@' !in domain
    ensures NormalizeEmail(user + "@" + domain) == Ok(Lower(user) + "@" + Lower(domain))
  {
    var u, d := Lower(user), Lower(domain);
    LowerJoin(user, "@", domain);
    LowerKeepsNonLetter(user, '+');
    LowerKeepsNonLetter(domain, '@');
    var plain := u + "@" + d;
    assert Lower(user + "@" + domain) == plain;
    LastIndexOfJoin(u, '@', d);
    assert plain[..|u|] == u;
    assert plain[|u| + 1..] == d;
    BeforeFirstAbsent(u, '+');
  }

  /** A '+'-normalised address is a local part without '+', an '@', and a domain without '@'. */
  lemma {:induction false} NormalizedParts(email: string) returns (local: string, domain: string)
    requires NormalizeEmail(email).Ok? && '+' in Lower(email)
    ensures NormalizeEmail(email).value == local + "@" + domain
    ensures '+' !in local && '@' !in domain
  {
    var lowered := Lower(email);
    var at := LastIndexOf(lowered, '@');
    local, domain := BeforeFirst(lowered[..at], '+'), lowered[at + 1..];
    forall j | 0 <= j < |domain| ensures domain[j] != '@' {
      assert domain[j] == lowered[at + 1 + j];
    }
  }

  /** An address already in normal form is left as it is. */
  lemma {:induction false} NormalizeOfParts(local: string, domain: string)
    requires '+' !in local && '@' !in domain && HasNoUpper(local + "@" + domain)
    ensures NormalizeEmail(local + "@" + domain) == Ok(local + "@" + domain)
  {
    var n := local + "@" + domain;
    LowerOfLowercase(n);
    if '+' in n {
      LastIndexOfJoin(local, '@', domain);
      assert n[..|local|] == local;
      assert n[|local| + 1..] == domain;
      assert BeforeFirst(local, '+') == local;
    }
  }

  /** Normalising twice changes nothing. */
  lemma {:induction false} NormalizeEmailIdempotent(email: string)
    requires NormalizeEmail(email).Ok?
    ensures NormalizeEmail(NormalizeEmail(email).value) == NormalizeEmail(email)
  {
    NormalizeEmailMeaning(email);
    var n := NormalizeEmail(email).value;
    LowerOfLowercase(n);
    if '+' in Lower(email) {
      var local, domain := NormalizedParts(email);
      NormalizeOfParts(local, domain);
    }
  }

  /** Addresses that differ only in ASCII letter case share one hash. */
  lemma {:induction false} HashEmailIgnoresCase(c: Crypto, email: string, namespace: string)
    ensures HashEmail(c, email, namespace) == HashEmail(c, Lower(email), namespace)
  {
    LowerIsLowercase(email);
  }

  /** The email hash is the field hash of the normalised address, a 64-character lower-case hex string. */
  lemma {:induction false} HashEmailShape(c: Crypto, email: string, namespace: string)
    requires Sha256Is32Bytes(c)
    ensures HashEmail(c, email, namespace).Err? <==> '+' in email && '@' !in email
    ensures HashEmail(c, email, namespace).Ok? ==>
      |HashEmail(c, email, namespace).value| == 64
      && forall i :: 0 <= i < 64 ==> Hex.IsLowerHexChar(HashEmail(c, email, namespace).value[i])
  {
    NormalizeEmailMeaning(email);
  }

  /** The un-namespaced and namespaced variants hash the same normalised text, differing only in the `namespace:` prefix. */
  lemma {:induction false} LegacyHashEmailAgrees(c: Crypto, email: string, namespace: string)
    ensures LegacyHashEmail(c, email).Ok? <==> HashEmail(c, email, namespace).Ok?
    ensures HashEmail(c, email, namespace).Ok? ==>
      HashEmail(c, email, namespace).value == LegacyHashField(c, namespace + ":" + NormalizeEmail(email).value)
  {
  }

  /**
   * Names spaced by application id: digest inputs built under two application
   * ids coincide only when the ids and the values are both the same.
   */
  lemma {:induction false} ApplicationsSeparated(c: Crypto, app1: int, v1: string, app2: int, v2: string)
    requires Utf8RoundTrips(c)
    ensures c.utf8Encode(Decimal(app1) + ":" + v1) == c.utf8Encode(Decimal(app2) + ":" + v2)
      ==> app1 == app2 && v1 == v2
  {
    if c.utf8Encode(Decimal(app1) + ":" + v1) == c.utf8Encode(Decimal(app2) + ":" + v2) {
      PreimageDeterminesPair(c, v1, Decimal(app1), v2, Decimal(app2));
      DecimalInjective(app1, app2);
    }
  }
}
