/**
 * `verify_otp`: dispatch to pyotp's TOTP check (RFC 6238) or HOTP check
 * (RFC 4226) by method name. pyotp's exceptions are folded into the two
 * checking functions of `Crypto`, which answer `false` where pyotp raises.
 */
module Otp {
  import opened Primitives

  const Totp: string := "TOTP"
  const Hotp: string := "HOTP"

  /** `verify_otp(secret, otp_code, method, counter)`; `kind` is the `method` argument. */
  function VerifyOtp(c: Crypto, secret: string, code: string, kind: string, counter: int): (r: bool)
    ensures kind != Totp && kind != Hotp ==> !r
    ensures kind == Totp ==> (r <==> c.totpVerify(secret, code))
    ensures kind == Hotp ==> (r <==> c.hotpVerify(secret, code, counter))
  {
    if kind == Totp then c.totpVerify(secret, code)
    else if kind == Hotp then c.hotpVerify(secret, code, counter)
    else false
  }

  /** Under TOTP the counter plays no part: two calls that differ only in the counter agree. */
  lemma {:induction false} TotpIgnoresCounter(c: Crypto, secret: string, code: string, n: int, m: int)
    ensures VerifyOtp(c, secret, code, Totp, n) == VerifyOtp(c, secret, code, Totp, m)
  {
  }

  /**
   * The method name is compared exactly: a lower-case or padded name selects
   * neither check, so no code verifies under it, while the upper-case name
   * accepts what pyotp's TOTP check accepts.
   */
  lemma {:induction false} MethodNameIsExact(c: Crypto, secret: string, code: string, counter: int)
    ensures !VerifyOtp(c, secret, code, "totp", counter) && !VerifyOtp(c, secret, code, "hotp", counter)
    ensures !VerifyOtp(c, secret, code, "TOTP ", counter)
    ensures VerifyOtp(c, secret, code, "TOTP", counter) == c.totpVerify(secret, code)
  {
  }
}
