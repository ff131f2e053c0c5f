/**
 * The monolithic security module that predates the split package. Its token,
 * password, complexity and field-encryption helpers compute exactly what the
 * split modules compute (the same members model both); what differs is that the
 * field hash carries no namespace (Hashing.LegacyHashField) and that all three
 * secrets are read, and refused, together at import time.
 */
module LegacySecurity {
  import opened Common
  import opened Primitives
  import Hex
  import Passwords
  import Encryption
  import Tokens

  /** The three secrets the module reads when it is imported. */
  datatype Secrets = Secrets(aesKey: bytes, passwordPepper: string, tokenPepper: bytes)

  /**
   * Import of the module: `bytes.fromhex` of AES_SECRET_KEY raises first when
   * the text is malformed; then a RuntimeError unless the key, the password
   * pepper and the token pepper are all non-empty.
   */
  function LoadSecrets(c: Crypto, aesEnv: Option<string>, passwordEnv: Option<string>, tokenEnv: Option<string>)
    : (r: Result<Secrets, StartupError>)
    ensures Hex.FromHex(aesEnv.GetOr("")).None? ==> r == Err(MalformedSecret("AES_SECRET_KEY"))
    ensures r.Ok? <==> (Hex.FromHex(aesEnv.GetOr("")).Some? && Hex.FromHex(aesEnv.GetOr("")).value != []
                       && passwordEnv.GetOr("") != "" && c.utf8Encode(tokenEnv.GetOr("")) != [])
    ensures r.Ok? ==> r.value == Secrets(Hex.FromHex(aesEnv.GetOr("")).value, passwordEnv.GetOr(""),
      c.utf8Encode(tokenEnv.GetOr("")))
  {
    match Hex.FromHex(aesEnv.GetOr(""))
    case None => Err(MalformedSecret("AES_SECRET_KEY"))
    case Some(key) =>
      var pepper := passwordEnv.GetOr("");
      var tokenPepper := c.utf8Encode(tokenEnv.GetOr(""));
      if key == [] || pepper == "" || tokenPepper == [] then
        Err(MissingSecret("AES_SECRET_KEY, PASSWORD_PEPPER, or TOKEN_PEPPER"))
      else Ok(Secrets(key, pepper, tokenPepper))
  }

  /**
   * The monolithic module starts exactly when each of the three split modules
   * would, and with the same secrets.
   */
  lemma {:induction false} LoadSecretsAgreesWithSplitModules(c: Crypto, aesEnv: Option<string>, passwordEnv: Option<string>,
                                          tokenEnv: Option<string>)
    requires Utf8RoundTrips(c)
    ensures LoadSecrets(c, aesEnv, passwordEnv, tokenEnv).Ok? <==>
      Encryption.LoadAesKey(aesEnv).Ok? && Passwords.LoadPasswordPepper(passwordEnv).Ok?
      && Tokens.LoadTokenPepper(c, tokenEnv).Ok?
    ensures LoadSecrets(c, aesEnv, passwordEnv, tokenEnv).Ok? ==>
      LoadSecrets(c, aesEnv, passwordEnv, tokenEnv).value == Secrets(
        Encryption.LoadAesKey(aesEnv).value, Passwords.LoadPasswordPepper(passwordEnv).value,
        Tokens.LoadTokenPepper(c, tokenEnv).value)
  {
    Tokens.LoadTokenPepperRefusesEmpty(c, tokenEnv);
    assert c.utf8Encode("") == [];
  }
}
