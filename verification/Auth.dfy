/**
 * The client's half of obs-websocket 5 challenge-response authentication:
 * `base64Encode` and `generateAuthResponse` of the session client.
 */
module Auth {
  import opened Wrappers
  import opened Base64

  /**
   * `sha256`: the SHA-256 digest of the UTF-8 encoding of a string, or the
   * message of the error crypto.subtle throws. A parameter: the primitive is
   * the browser's.
   */
  type Digest = string -> Result<seq<byte>, string>

  const AuthErrorPrefix := "Failed to generate auth response: "

  /**
   * `base64Encode`: builds the binary string whose i-th character code is
   * byte i, then hands it to btoa, which therefore never throws here.
   */
  method Base64Encode(data: seq<byte>) returns (r: string)
    ensures r == Encode(data)
    ensures Decode(r) == Some(data)
  {
    var binary := "";
    for i := 0 to |data|
      invariant |binary| == i
      invariant forall k | 0 <= k < i :: binary[k] as int == data[k]
    {
      binary := binary + [data[i] as char];
    }
    var encoded := Btoa(binary);
    assert seq(|binary|, k requires 0 <= k < |binary| => binary[k] as int as byte) == data;
    r := encoded.value;
    DecodeEncode(data);
  }

  /**
   * `generateAuthResponse`: secret = base64(sha256(password + salt)), then
   * base64(sha256(secret + challenge)); a failing digest becomes an Error
   * whose message carries the prefix above.
   */
  function GenerateAuthResponse(sha256: Digest, password: string, challenge: string, salt: string): Result<string, string> {
    match sha256(password + salt)
    case Err(e) => Err(AuthErrorPrefix + e)
    case Ok(secretHash) =>
      var secret := Encode(secretHash);
      match sha256(secret + challenge)
      case Err(e) => Err(AuthErrorPrefix + e)
      case Ok(authHash) => Ok(Encode(authHash))
  }

  /**
   * The response is the text b64(H(b64(H(password + salt)) + challenge)),
   * which a server holding the password recomputes and compares: it decodes
   * to the digest of (secret + challenge), where the secret is a base 64 text
   * that decodes to the digest of (password + salt). It fails only when a
   * digest fails, with the prefixed message.
   */
  lemma AuthResponseVerifiable(sha256: Digest, password: string, challenge: string, salt: string)
    ensures var r := GenerateAuthResponse(sha256, password, challenge, salt);
      && (r.Ok? <==> sha256(password + salt).Ok? && sha256(Encode(sha256(password + salt).value) + challenge).Ok?)
      && (r.Err? ==> |r.error| >= |AuthErrorPrefix| && r.error[..|AuthErrorPrefix|] == AuthErrorPrefix)
      && (r.Ok? ==>
            var secret := Encode(sha256(password + salt).value);
            && r.value == Encode(sha256(secret + challenge).value)
            && Decode(secret) == Some(sha256(password + salt).value)
            && Decode(r.value) == Some(sha256(secret + challenge).value))
  {
    var r := GenerateAuthResponse(sha256, password, challenge, salt);
    if r.Ok? {
      var secretHash := sha256(password + salt).value;
      var secret := Encode(secretHash);
      DecodeEncode(secretHash);
      DecodeEncode(sha256(secret + challenge).value);
    }
  }

  /**
   * With a digest of 32 bytes (SHA-256's size) the response is 44 characters,
   * never empty, so `identify` always attaches it.
   */
  lemma AuthResponseLength(sha256: Digest, password: string, challenge: string, salt: string)
    requires forall m :: sha256(m).Ok? ==> |sha256(m).value| == 32
    ensures var r := GenerateAuthResponse(sha256, password, challenge, salt);
      r.Ok? ==> |r.value| == 44
  {
    var r := GenerateAuthResponse(sha256, password, challenge, salt);
    if r.Ok? {
      var secret := Encode(sha256(password + salt).value);
      EncodeLength(sha256(secret + challenge).value);
    }
  }
}
