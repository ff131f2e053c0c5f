/**
 * Field encryption for stored e-mail addresses and TOTP secrets: AES-GCM with
 * the key read from AES_SECRET_KEY, a fresh 12-byte nonce per value, no
 * associated data, and storage as base64 of nonce followed by ciphertext.
 */
module Encryption {
  import opened Common
  import opened Primitives
  import Base64
  import Hex

  /** `bytes.fromhex(os.getenv("AES_SECRET_KEY") or "")`, refused when malformed or empty. */
  function LoadAesKey(env: Option<string>): (r: Result<bytes, StartupError>)
    ensures env.None? ==> r == Err(MissingSecret("AES_SECRET_KEY"))
    ensures r.Ok? ==> |r.value| > 0 && Hex.FromHex(env.value) == Some(r.value)
    ensures env.Some? && Hex.FromHex(env.value) == None ==> r == Err(MalformedSecret("AES_SECRET_KEY"))
  {
    var text := env.GetOr("");
    match Hex.FromHex(text)
    case None => Err(MalformedSecret("AES_SECRET_KEY"))
    case Some(key) => if key == [] then Err(MissingSecret("AES_SECRET_KEY")) else Ok(key)
  }

  /** A key written as hex text in the environment is read back byte for byte. */
  lemma {:induction false} LoadAesKeyOfHex(key: bytes)
    requires key != []
    ensures LoadAesKey(Some(Hex.Encode(key))) == Ok(key)
  {
    Hex.FromHexOfEncode(key);
  }

  datatype CipherError =
    | InvalidKeyLength                   // AESGCM(key) refuses lengths other than 16, 24, 32
    | Malformed(reason: Base64.DecodeError)   // b64decode raised
    | InvalidTag                         // AESGCM.decrypt raised: wrong key, tampered data, bad nonce
    | InvalidUtf8                        // the plaintext is not UTF-8

  const NonceLength: nat := 12

  /** `encrypt_field(value)`; `nonce` is the `os.urandom(12)` drawn for this call. */
  function EncryptField(c: Crypto, key: bytes, value: string, nonce: bytes): (r: Result<string, CipherError>)
    requires |nonce| == NonceLength
    ensures r.Ok? <==> IsAesKeyLength(|key|)
  {
    if !IsAesKeyLength(|key|) then Err(InvalidKeyLength)
    else Ok(Base64.Encode(nonce + c.gcmSeal(key, nonce, c.utf8Encode(value))))
  }

  /** Where `decrypt_field` cuts the decoded bytes: `data[:12]` and `data[12:]`. */
  function SplitAt(data: bytes): nat
  {
    if |data| < NonceLength then |data| else NonceLength
  }

  /** `decrypt_field(encrypted_base64)`. */
  function DecryptField(c: Crypto, key: bytes, blob: string): (r: Result<string, CipherError>)
    ensures r.Ok? ==> Base64.Decode(blob).Ok? && IsAesKeyLength(|key|)
    ensures Base64.Decode(blob).Err? ==> r == Err(Malformed(Base64.Decode(blob).error))
  {
    match Base64.Decode(blob)
    case Err(e) => Err(Malformed(e))
    case Ok(data) =>
      var k := SplitAt(data);
      if !IsAesKeyLength(|key|) then Err(InvalidKeyLength)
      else match c.gcmOpen(key, data[..k], data[k..])
        case None => Err(InvalidTag)
        case Some(plain) =>
          match c.utf8Decode(plain)
          case None => Err(InvalidUtf8)
          case Some(text) => Ok(text)
  }

  /** What decryption returned was authenticated under the key: it is never a partial or unchecked plaintext. */
  lemma {:induction false} DecryptAuthenticates(c: Crypto, key: bytes, blob: string)
    requires DecryptField(c, key, blob).Ok?
    ensures var data := Base64.Decode(blob).value;
      var out := c.gcmOpen(key, data[..SplitAt(data)], data[SplitAt(data)..]);
      out.Some? && c.utf8Decode(out.value) == Some(DecryptField(c, key, blob).value)
  {
  }

  /** `decrypt_field(encrypt_field(v)) == v` under the same key. */
  lemma {:induction false} DecryptOfEncrypt(c: Crypto, key: bytes, value: string, nonce: bytes)
    requires GcmOpensSeal(c) && Utf8RoundTrips(c)
    requires |nonce| == NonceLength && IsAesKeyLength(|key|)
    ensures DecryptField(c, key, EncryptField(c, key, value, nonce).value) == Ok(value)
  {
    var sealed := c.gcmSeal(key, nonce, c.utf8Encode(value));
    var data := nonce + sealed;
    Base64.DecodeOfEncode(data);
    assert data[..SplitAt(data)] == nonce && data[SplitAt(data)..] == sealed;
  }

  /**
   * The stored form is non-empty ASCII made of the base64 alphabet and padding,
   * in whole four-character quanta, and holds at least the 12 nonce bytes.
   */
  lemma {:induction false} EncryptShape(c: Crypto, key: bytes, value: string, nonce: bytes)
    requires |nonce| == NonceLength && IsAesKeyLength(|key|)
    ensures var s := EncryptField(c, key, value, nonce).value;
      |s| > 0 && |s| % 4 == 0 && Base64.IsAscii(s)
      && (forall i :: 0 <= i < |s| ==> Base64.IsEncodedChar(s[i]))
      && |s| >= 16
  {
    var data := nonce + c.gcmSeal(key, nonce, c.utf8Encode(value));
    Base64.EncodeShape(data);
  }
}
