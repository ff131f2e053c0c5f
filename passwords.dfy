/**
 * Password handling: the pepper read from PASSWORD_PEPPER, Argon2 hashing and
 * verification of the NFKC-normalised, peppered password, and the complexity
 * rules checked before a password is stored.
 */
module Passwords {
  import opened Common
  import opened Strings
  import opened Primitives

  /** `os.getenv("PASSWORD_PEPPER", "")`, refused when absent or empty. */
  function LoadPasswordPepper(env: Option<string>): (r: Result<string, StartupError>)
    ensures r.Ok? <==> env.Some? && env.value != ""
    ensures r.Ok? ==> r.value == env.value
    ensures r.Err? ==> r.error == MissingSecret("PASSWORD_PEPPER")
  {
    var pepper := env.GetOr("");
    if pepper == "" then Err(MissingSecret("PASSWORD_PEPPER")) else Ok(pepper)
  }

  /** The text Argon2 sees: the NFKC form of the password followed by the pepper. */
  function Peppered(c: Crypto, pepper: string, password: string): string
  {
    c.nfkc(password) + pepper
  }

  /** `hash_password(password)`; argon2-cffi draws `salt` itself. */
  function HashPassword(c: Crypto, pepper: string, password: string, salt: bytes): string
  {
    c.argon2Hash(Peppered(c, pepper, password), salt)
  }

  /** `verify_password(password, hashed)`: every exception of `ph.verify` reads as a mismatch. */
  function VerifyPassword(c: Crypto, pepper: string, password: string, hashed: string): (r: bool)
    ensures r <==> c.argon2Verify(hashed, Peppered(c, pepper, password)) == Verified
  {
    match c.argon2Verify(hashed, Peppered(c, pepper, password))
    case Verified => true
    case VerifyMismatch => false
    case InvalidHash => false
  }

  /** A stored hash accepts exactly the passwords with the same NFKC form. */
  lemma {:induction false} VerifyMatchesNormalForm(c: Crypto, pepper: string, password: string, attempt: string, salt: bytes)
    requires Argon2Accepts(c) && Argon2Binds(c)
    ensures VerifyPassword(c, pepper, attempt, HashPassword(c, pepper, password, salt))
      <==> c.nfkc(attempt) == c.nfkc(password)
  {
    var p, q := Peppered(c, pepper, password), Peppered(c, pepper, attempt);
    assert c.argon2Verify(c.argon2Hash(p, salt), p) == Verified;
    if c.nfkc(attempt) != c.nfkc(password) {
      assert p[..|c.nfkc(password)|] == c.nfkc(password);
      assert q[..|c.nfkc(attempt)|] == c.nfkc(attempt);
      assert p != q by {
        if |c.nfkc(attempt)| == |c.nfkc(password)| {
          assert p[..|c.nfkc(password)|] != q[..|c.nfkc(attempt)|];
        }
      }
      assert c.argon2Verify(c.argon2Hash(p, salt), q) != Verified;
    }
  }

  /** For ASCII passwords, which NFKC leaves alone, only the very same password verifies. */
  lemma {:induction false} VerifyAsciiExact(c: Crypto, pepper: string, password: string, attempt: string, salt: bytes)
    requires Argon2Accepts(c) && Argon2Binds(c) && NfkcKeepsAscii(c)
    requires IsAscii(password) && IsAscii(attempt)
    ensures VerifyPassword(c, pepper, attempt, HashPassword(c, pepper, password, salt)) <==> attempt == password
  {
    VerifyMatchesNormalForm(c, pepper, password, attempt, salt);
  }

  // ---- complexity rules ----

  const MinimumLength: nat := 12

  const LengthMessage: string := "must be at least 12 characters long"
  const UppercaseMessage: string := "must contain at least one uppercase letter"
  const LowercaseMessage: string := "must contain at least one lowercase letter"
  const DigitMessage: string := "must contain at least one digit"
  const SpecialMessage: string := "must contain at least one special character"
  const FailurePrefix: string := "Password validation failed: "

  predicate IsAsciiUpper(c: char) { 'A' <= c <= 'Z' }
  predicate IsAsciiLower(c: char) { 'a' <= c <= 'z' }
  predicate IsAsciiAlnum(c: char) { IsAsciiUpper(c) || IsAsciiLower(c) || ('0' <= c <= '9') }

  /**
   * What the regular expression `\d` matches in a `str` pattern: a Unicode
   * decimal digit (general category Nd) of Unicode 15.0, the version of
   * Python 3.12, in the Basic Multilingual Plane or beyond it.
   */
  predicate IsDecimalDigit(c: char)
  {
    InBlocks(c as int, BmpDigitBlockStarts) || InBlocks(c as int, SupplementaryDigitBlockStarts)
  }

  /** `n` lies in one of the blocks of ten that start at the listed code points. */
  predicate InBlocks(n: int, starts: seq<int>)
  {
    exists k :: 0 <= k < |starts| && starts[k] <= n < starts[k] + 10
  }

  /** First code point of each block of ten Nd digits in the Basic Multilingual Plane. */
  const BmpDigitBlockStarts: seq<int> :=
    [0x30, 0x660, 0x6F0, 0x7C0, 0x966, 0x9E6, 0xA66, 0xAE6, 0xB66, 0xBE6,
     0xC66, 0xCE6, 0xD66, 0xDE6, 0xE50, 0xED0, 0xF20, 0x1040, 0x1090, 0x17E0,
     0x1810, 0x1946, 0x19D0, 0x1A80, 0x1A90, 0x1B50, 0x1BB0, 0x1C40, 0x1C50,
     0xA620, 0xA8D0, 0xA900, 0xA9D0, 0xA9F0, 0xAA50, 0xABF0, 0xFF10]

  /**
   * First code point of each block of ten Nd digits above the Basic
   * Multilingual Plane. The fifty mathematical digits from U+1D7CE are five
   * such blocks.
   */
  const SupplementaryDigitBlockStarts: seq<int> :=
    [0x104A0, 0x10D30, 0x11066, 0x110F0, 0x11136, 0x111D0, 0x112F0, 0x11450,
     0x114D0, 0x11650, 0x116C0, 0x11730, 0x118E0, 0x11950, 0x11C50, 0x11D50,
     0x11DA0, 0x11F50, 0x16A60, 0x16AC0, 0x16B50,
     0x1D7CE, 0x1D7D8, 0x1D7E2, 0x1D7EC, 0x1D7F6,
     0x1E140, 0x1E2F0, 0x1E4F0, 0x1E950, 0x1FBF0]

  datatype Rule = Length | Uppercase | Lowercase | Digit | Special

  /** The rules in the order they are checked and reported. */
  const Rules: seq<Rule> := [Length, Uppercase, Lowercase, Digit, Special]

  predicate Holds(rule: Rule, p: string)
  {
    match rule
    case Length => |p| >= MinimumLength
    case Uppercase => HasUpper(p)
    case Lowercase => HasLower(p)
    case Digit => HasDigit(p)
    case Special => HasSpecial(p)
  }

  /** Some ASCII capital letter occurs. */
  predicate HasUpper(p: string) { exists i :: 0 <= i < |p| && IsAsciiUpper(p[i]) }

  /** Some ASCII small letter occurs. */
  predicate HasLower(p: string) { exists i :: 0 <= i < |p| && IsAsciiLower(p[i]) }

  /** Some Unicode decimal digit occurs (what `\d` matches in a `str` pattern). */
  predicate HasDigit(p: string) { exists i :: 0 <= i < |p| && IsDecimalDigit(p[i]) }

  /** Some character that is not an ASCII letter or digit occurs. */
  predicate HasSpecial(p: string) { exists i :: 0 <= i < |p| && !IsAsciiAlnum(p[i]) }

  function Message(rule: Rule): string
  {
    match rule
    case Length => LengthMessage
    case Uppercase => UppercaseMessage
    case Lowercase => LowercaseMessage
    case Digit => DigitMessage
    case Special => SpecialMessage
  }

  /** The message for `rule` if `p` breaks it, nothing otherwise. */
  function Reported(rule: Rule, p: string): seq<string>
  {
    if Holds(rule, p) then [] else [Message(rule)]
  }

  /** Messages of the rules in `rules` that `p` breaks, in order. */
  function Violations(rules: seq<Rule>, p: string): seq<string>
  {
    if rules == [] then [] else Reported(rules[0], p) + Violations(rules[1..], p)
  }

  /**
   * `validate_password_complexity(password)`: the password itself when every
   * rule holds, otherwise the ValueError text listing each broken rule.
   */
  method ValidatePasswordComplexity(password: string) returns (r: Result<string, string>)
    ensures r.Ok? <==> forall rule :: rule in Rules ==> Holds(rule, password)
    ensures r.Ok? ==> r.value == password
    ensures r.Err? ==> r.error == FailurePrefix + Join(Violations(Rules, password), "; ")
  {
    var messages: seq<string> := [];
    if |password| < MinimumLength {
      messages := messages + [LengthMessage];
    }
    assert messages == Reported(Length, password);
    ghost var before := messages;
    if !HasUpper(password) {
      messages := messages + [UppercaseMessage];
    }
    assert messages == before + Reported(Uppercase, password);
    before := messages;
    if !HasLower(password) {
      messages := messages + [LowercaseMessage];
    }
    assert messages == before + Reported(Lowercase, password);
    before := messages;
    if !HasDigit(password) {
      messages := messages + [DigitMessage];
    }
    assert messages == before + Reported(Digit, password);
    before := messages;
    if !HasSpecial(password) {
      messages := messages + [SpecialMessage];
    }
    assert messages == before + Reported(Special, password);
    CollectedViolations(password, messages);
    if messages != [] {
      return Err(FailurePrefix + Join(messages, "; "));
    }
    return Ok(password);
  }

  /** Messages collected rule by rule are the violations, and there are none exactly when every rule holds. */
  lemma {:induction false} CollectedViolations(p: string, messages: seq<string>)
    requires messages == Reported(Length, p) + Reported(Uppercase, p)
      + Reported(Lowercase, p) + Reported(Digit, p) + Reported(Special, p)
    ensures messages == Violations(Rules, p)
    ensures messages == [] <==> forall rule :: rule in Rules ==> Holds(rule, p)
  {
    ViolationsOfRules(p);
    AllHoldIffNoneReported(p);
  }

  /** The five rule outcomes spelled out against the list of violations. */
  lemma {:induction false} ViolationsOfRules(p: string)
    ensures Violations(Rules, p) == Reported(Length, p) + Reported(Uppercase, p)
      + Reported(Lowercase, p) + Reported(Digit, p) + Reported(Special, p)
  {
    var t4, t3, t2, t1 := [Special], [Digit, Special], [Lowercase, Digit, Special],
      [Uppercase, Lowercase, Digit, Special];
    var r0, r1, r2, r3, r4 := Reported(Length, p), Reported(Uppercase, p), Reported(Lowercase, p),
      Reported(Digit, p), Reported(Special, p);
    assert t4[0] == Special && t4[1..] == [];
    assert Violations(t4, p) == r4 + [];
    assert t3[0] == Digit && t3[1..] == t4;
    assert Violations(t3, p) == r3 + r4;
    assert t2[0] == Lowercase && t2[1..] == t3;
    assert Violations(t2, p) == r2 + (r3 + r4);
    assert t1[0] == Uppercase && t1[1..] == t2;
    assert Violations(t1, p) == r1 + (r2 + (r3 + r4));
    assert Rules[0] == Length && Rules[1..] == t1;
    assert Violations(Rules, p) == r0 + (r1 + (r2 + (r3 + r4)));
    Regroup(r2, r3, r4);
    Regroup(r1, r2 + r3, r4);
    Regroup(r1, r2, r3);
    Regroup(r0, r1 + r2 + r3, r4);
    Regroup(r0, r1 + r2, r3);
    Regroup(r0, r1, r2);
  }

  /** The password passes exactly when no rule reports a message. */
  lemma {:induction false} AllHoldIffNoneReported(p: string)
    ensures (forall rule :: rule in Rules ==> Holds(rule, p)) <==> Violations(Rules, p) == []
  {
    ViolationsOfRules(p);
    var v := Violations(Rules, p);
    assert |v| == |Reported(Length, p)| + |Reported(Uppercase, p)| + |Reported(Lowercase, p)|
      + |Reported(Digit, p)| + |Reported(Special, p)|;
  }

  /** No two rules share a message. */
  lemma {:induction false} MessagesDistinct(r1: Rule, r2: Rule)
    requires r1 != r2
    ensures Message(r1) != Message(r2)
  {
    if {r1, r2} == {Uppercase, Lowercase} {
      assert UppercaseMessage[26] != LowercaseMessage[26];
    } else {
      assert |Message(r1)| != |Message(r2)|;
    }
  }

  /** A rule's message is reported exactly when the rule is broken. */
  lemma {:induction false} ViolationReported(rules: seq<Rule>, p: string, rule: Rule)
    requires rule in rules
    ensures Message(rule) in Violations(rules, p) <==> !Holds(rule, p)
  {
    if rules[0] != rule {
      ViolationReported(rules[1..], p, rule);
      MessagesDistinct(rules[0], rule);
    } else {
      if rule in rules[1..] {
        ViolationReported(rules[1..], p, rule);
      } else {
        NotListedNotReported(rules[1..], p, rule);
      }
    }
  }

  lemma {:induction false} NotListedNotReported(rules: seq<Rule>, p: string, rule: Rule)
    requires rule !in rules
    ensures Message(rule) !in Violations(rules, p)
  {
    if rules != [] {
      MessagesDistinct(rules[0], rule);
      NotListedNotReported(rules[1..], p, rule);
    }
  }

  /** Twelve characters are the boundary: eleven are too short, twelve are enough. */
  lemma {:induction false} LengthBoundary(p: string)
    ensures Message(Length) in Violations(Rules, p) <==> |p| < 12
  {
    assert Rules[0] == Length;
    ViolationReported(Rules, p, Length);
  }

  /** A non-ASCII decimal digit satisfies both the digit rule and the special-character rule. */
  lemma {:induction false} ArabicIndicDigitCountsTwice(p: string, i: nat)
    requires i < |p| && p[i] == '\U{0663}'
    ensures Holds(Digit, p) && Holds(Special, p)
  {
    assert p[i] as int == 0x663 && BmpDigitBlockStarts[1] == 0x660;
    assert InBlocks(p[i] as int, BmpDigitBlockStarts);
  }

  /** A digit outside the Basic Multilingual Plane counts too: U+1D7CF, MATHEMATICAL BOLD DIGIT ONE. */
  lemma {:induction false} MathematicalDigitCounts(p: string, i: nat)
    requires i < |p| && p[i] == '\U{1D7CF}'
    ensures Holds(Digit, p) && Holds(Special, p)
  {
    assert p[i] as int == 0x1D7CF && SupplementaryDigitBlockStarts[21] == 0x1D7CE;
    assert InBlocks(p[i] as int, SupplementaryDigitBlockStarts);
  }

  /** A password whose only digit is U+1D7CF passes every rule, so validation returns it. */
  lemma {:induction false} SupplementaryDigitAccepted()
    ensures Violations(Rules, "Abcdefghijk!\U{1D7CF}") == []
    ensures forall rule :: rule in Rules ==> Holds(rule, "Abcdefghijk!\U{1D7CF}")
  {
    var p := "Abcdefghijk!\U{1D7CF}";
    assert |p| == 13 && IsAsciiUpper(p[0]) && IsAsciiLower(p[1]) && !IsAsciiAlnum(p[11]);
    MathematicalDigitCounts(p, 12);
    forall rule | rule in Rules ensures Holds(rule, p) {
    }
    AllHoldIffNoneReported(p);
  }
}
