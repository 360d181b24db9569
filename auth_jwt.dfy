/**
 * Bearer-token verification from `auth.rs`: `AuthPublicKey::verify_bytes`,
 * the jwt crate's `verify_with_key` that calls it, and `verify_jwt`, which
 * resolves the token's key id against the trusted keys and turns the stored
 * key into an RSA public key. All three only read; the trusted-key map and
 * the state of its lock are parameters.
 */
module Jwt {
  import opened Wrappers
  import opened AuthLibrary

  /** The separator between JWS segments */
  const SEPARATOR: string := "."

  /** The key-type word put in front of a stored key to form an OpenSSH key line */
  const SSH_RSA_PREFIX: string := "ssh-rsa "

  /** The JWS signing input of section 5.1 of RFC 7515: encoded header, a dot, encoded claims */
  function SigningInput(header: string, claims: string): string
  {
    header + SEPARATOR + claims
  }

  /**
   * `AuthPublicKey::verify_bytes`: feed the header, the separator and the
   * claims to SHA-256 in turn, then check the signature over the digest with
   * RSASSA-PKCS1-v1_5 (section 8.2.2 of RFC 8017). Succeeds only as `Ok(true)`.
   */
  function VerifyBytes(lib: Library, key: RsaPublicKey, header: string, claims: string, signature: seq<byte>)
    : (r: Result<bool, AuthError>)
    ensures r == Ok(true) <==> lib.pkcs1v15Verify(key, lib.sha256(Utf8(SigningInput(header, claims))), signature)
    ensures r != Ok(true) ==> r == Err(JwtInvalidSignature)
  {
    var hashed := lib.sha256(Utf8(header) + Utf8(SEPARATOR) + Utf8(claims));
    Utf8Append(header, SEPARATOR);
    Utf8Append(header + SEPARATOR, claims);
    if lib.pkcs1v15Verify(key, hashed, signature) then Ok(true) else Err(JwtInvalidSignature)
  }

  /**
   * The jwt crate's `verify_with_key` for an RS256 key: the header must name
   * RS256, the signature segment must decode as base64url, and `verify_bytes`
   * must accept; the verified token keeps the claims it was parsed with.
   */
  function VerifyWithKey(lib: Library, token: UnverifiedToken, key: RsaPublicKey): (r: Result<Claims, AuthError>)
    ensures r.Ok? <==>
      && token.header.algorithm == Rs256
      && lib.base64UrlDecode(token.signatureStr).Some?
      && lib.pkcs1v15Verify(key, lib.sha256(Utf8(SigningInput(token.headerStr, token.claimsStr))),
                            lib.base64UrlDecode(token.signatureStr).value)
    ensures r.Ok? ==> r.value == token.claims
  {
    if token.header.algorithm != Rs256 then Err(AlgorithmMismatch)
    else match lib.base64UrlDecode(token.signatureStr)
      case None => Err(SignatureEncoding)
      case Some(signature) =>
        match VerifyBytes(lib, key, token.headerStr, token.claimsStr, signature)
        case Ok(true) => Ok(token.claims)
        case Ok(false) => Err(JwtInvalidSignature)
        case Err(e) => Err(e)
  }

  /**
   * The RSA key a stored trusted key stands for: `"ssh-rsa " + stored` parsed
   * as an OpenSSH line, modulus and exponent read as unsigned big-endian
   * integers. `Ok(None)` when the line parses but is not an RSA key.
   */
  function DecodeStoredKey(lib: Library, stored: string): (r: Result<Option<RsaPublicKey>, AuthError>)
    ensures r.Ok? ==> lib.parseSshKey(SSH_RSA_PREFIX + stored).Some?
    ensures r == Ok(None) <==>
      lib.parseSshKey(SSH_RSA_PREFIX + stored).Some? && !lib.parseSshKey(SSH_RSA_PREFIX + stored).value.kind.Rsa?
    ensures r.Ok? && r.value.Some? ==>
      var kind := lib.parseSshKey(SSH_RSA_PREFIX + stored).value.kind;
      kind.Rsa? && r.value.value == RsaPublicKey(FromBytesBe(kind.n), FromBytesBe(kind.e))
      && lib.rsaKeyValid(r.value.value.n, r.value.value.e)
  {
    match lib.parseSshKey(SSH_RSA_PREFIX + stored)
    case None => Err(SshKeyMalformed)
    case Some(sshKey) =>
      match sshKey.kind
      case Rsa(n, e) =>
        (match NewRsaPublicKey(lib, FromBytesBe(n), FromBytesBe(e))
         case Ok(key) => Ok(Some(key))
         case Err(err) => Err(err))
      case _ => Ok(None)
  }

  /**
   * `verify_jwt`: parse the token, read `kid`, take the lock, look `kid` up
   * among the trusted keys only, decode the stored key and verify. A missing
   * `kid`, an unknown `kid` and a key that is not RSA all end in the one
   * "Invalid signature" error; every other failure is passed on as raised.
   */
  function VerifyJwt(lib: Library, poisoned: bool, trustedKeys: map<string, string>, jwt: string)
    : (r: Result<Claims, AuthError>)
    ensures r.Ok? ==>
      && !poisoned
      && lib.parseUnverified(jwt).Some?
      && r.value == lib.parseUnverified(jwt).value.claims
      && lib.parseUnverified(jwt).value.header.algorithm == Rs256
      && lib.parseUnverified(jwt).value.header.keyId.Some?
      && lib.parseUnverified(jwt).value.header.keyId.value in trustedKeys
  {
    match lib.parseUnverified(jwt)
    case None => Err(TokenMalformed)
    case Some(token) =>
      match token.header.keyId
      case None => Err(InvalidSignature)
      case Some(keyId) =>
        if poisoned then Err(LockPoisoned)
        else if keyId !in trustedKeys then Err(InvalidSignature)
        else match DecodeStoredKey(lib, trustedKeys[keyId])
          case Err(e) => Err(e)
          case Ok(None) => Err(InvalidSignature)
          case Ok(Some(key)) => VerifyWithKey(lib, token, key)
  }

  /**
   * When a token is authentic, stated without the order of the checks: it
   * parses, names RS256 and a `kid` that is a trusted key, that key's line is
   * an RSA key whose modulus and exponent the RSA library accepts, and the
   * decoded signature is a PKCS#1 v1.5 signature by that key over the SHA-256
   * digest of the token's signing input.
   */
  ghost predicate Authentic(lib: Library, trustedKeys: map<string, string>, jwt: string, claims: Claims)
  {
    exists token: UnverifiedToken, n: seq<byte>, e: seq<byte>, signature: seq<byte> ::
      && lib.parseUnverified(jwt) == Some(token)
      && token.claims == claims
      && token.header.algorithm == Rs256
      && token.header.keyId.Some?
      && token.header.keyId.value in trustedKeys
      && lib.parseSshKey(SSH_RSA_PREFIX + trustedKeys[token.header.keyId.value]).Some?
      && lib.parseSshKey(SSH_RSA_PREFIX + trustedKeys[token.header.keyId.value]).value.kind == Rsa(n, e)
      && lib.rsaKeyValid(FromBytesBe(n), FromBytesBe(e))
      && lib.base64UrlDecode(token.signatureStr) == Some(signature)
      && lib.pkcs1v15Verify(RsaPublicKey(FromBytesBe(n), FromBytesBe(e)),
                            lib.sha256(Utf8(SigningInput(token.headerStr, token.claimsStr))), signature)
  }

  /** `verify_jwt` accepts exactly the authentic tokens, and then returns their claims unchanged */
  lemma VerifyJwtAcceptsExactlyAuthentic(lib: Library, trustedKeys: map<string, string>, jwt: string, claims: Claims)
    ensures VerifyJwt(lib, false, trustedKeys, jwt) == Ok(claims) <==> Authentic(lib, trustedKeys, jwt, claims)
  {
    if VerifyJwt(lib, false, trustedKeys, jwt) == Ok(claims) {
      var token := lib.parseUnverified(jwt).value;
      var keyId := token.header.keyId.value;
      var sshKey := lib.parseSshKey(SSH_RSA_PREFIX + trustedKeys[keyId]).value;
      assert sshKey.kind == Rsa(sshKey.kind.n, sshKey.kind.e);
    }
  }

  /** A token whose header has no `kid` is refused with "Invalid signature", whatever else it holds */
  lemma NoKeyIdIsInvalidSignature(lib: Library, poisoned: bool, trustedKeys: map<string, string>, jwt: string)
    requires lib.parseUnverified(jwt).Some? && lib.parseUnverified(jwt).value.header.keyId.None?
    ensures VerifyJwt(lib, poisoned, trustedKeys, jwt) == Err(InvalidSignature)
  {
  }

  /** A `kid` that is not a trusted key is refused with "Invalid signature" once the lock is taken */
  lemma UnknownKeyIdIsInvalidSignature(lib: Library, trustedKeys: map<string, string>, jwt: string)
    requires lib.parseUnverified(jwt).Some?
    requires var keyId := lib.parseUnverified(jwt).value.header.keyId; keyId.Some? && keyId.value !in trustedKeys
    ensures VerifyJwt(lib, false, trustedKeys, jwt) == Err(InvalidSignature)
  {
  }

  /** A trusted key whose line parses as some other kind of SSH key is refused with "Invalid signature" */
  lemma NonRsaKeyIsInvalidSignature(lib: Library, trustedKeys: map<string, string>, jwt: string)
    requires lib.parseUnverified(jwt).Some?
    requires var keyId := lib.parseUnverified(jwt).value.header.keyId; keyId.Some? && keyId.value in trustedKeys
    requires var stored := trustedKeys[lib.parseUnverified(jwt).value.header.keyId.value];
      lib.parseSshKey(SSH_RSA_PREFIX + stored).Some? && !lib.parseSshKey(SSH_RSA_PREFIX + stored).value.kind.Rsa?
    ensures VerifyJwt(lib, false, trustedKeys, jwt) == Err(InvalidSignature)
  {
  }

  /**
   * A token that gets as far as the signature check but whose signature the
   * PKCS#1 v1.5 check rejects, such as one signed with another private key,
   * fails with the jwt invalid-signature error.
   */
  lemma RejectedSignatureFails(lib: Library, trustedKeys: map<string, string>, jwt: string, key: RsaPublicKey)
    requires lib.parseUnverified(jwt).Some?
    requires var token := lib.parseUnverified(jwt).value;
      token.header.algorithm == Rs256 && token.header.keyId.Some? && token.header.keyId.value in trustedKeys
    requires DecodeStoredKey(lib, trustedKeys[lib.parseUnverified(jwt).value.header.keyId.value]) == Ok(Some(key))
    requires lib.base64UrlDecode(lib.parseUnverified(jwt).value.signatureStr).Some?
    requires var token := lib.parseUnverified(jwt).value;
      !lib.pkcs1v15Verify(key, lib.sha256(Utf8(SigningInput(token.headerStr, token.claimsStr))),
                          lib.base64UrlDecode(token.signatureStr).value)
    ensures VerifyJwt(lib, false, trustedKeys, jwt) == Err(JwtInvalidSignature)
  {
  }

  /** A poisoned lock fails every token that gets as far as taking it, and accepts none */
  lemma PoisonedLockAcceptsNothing(lib: Library, trustedKeys: map<string, string>, jwt: string)
    ensures VerifyJwt(lib, true, trustedKeys, jwt).Err?
    ensures lib.parseUnverified(jwt).Some? && lib.parseUnverified(jwt).value.header.keyId.Some? ==>
      VerifyJwt(lib, true, trustedKeys, jwt) == Err(LockPoisoned)
  {
  }

  /** Only RS256 tokens can be accepted: any other `alg` fails, because the one key type offered is RS256 */
  lemma OnlyRs256Accepted(lib: Library, poisoned: bool, trustedKeys: map<string, string>, jwt: string)
    requires VerifyJwt(lib, poisoned, trustedKeys, jwt).Ok?
    ensures lib.parseUnverified(jwt).Some? && lib.parseUnverified(jwt).value.header.algorithm == Rs256
    ensures VerifyJwt(lib, poisoned, trustedKeys, jwt).value == lib.parseUnverified(jwt).value.claims
  {
  }

  /** What the verifier reads of the store is the entry under the token's `kid` and nothing else */
  lemma VerifyJwtReadsOnlyKeyIdEntry(lib: Library, a: map<string, string>, b: map<string, string>, jwt: string)
    requires lib.parseUnverified(jwt).Some? && lib.parseUnverified(jwt).value.header.keyId.Some?
    requires var keyId := lib.parseUnverified(jwt).value.header.keyId.value;
      (keyId in a <==> keyId in b) && (keyId in a ==> a[keyId] == b[keyId])
    ensures VerifyJwt(lib, false, a, jwt) == VerifyJwt(lib, false, b, jwt)
  {
  }
}
