/**
 * What the trust logic of `auth.rs` takes from other crates.
 *
 * JWT parsing (`jwt`), base64url, SHA-256 (`sha2`), RSA PKCS#1 v1.5
 * verification and key construction (`rsa`), SSH public-key parsing
 * (`sshkeys`) and PEM parsing (`pem`) are not part of this model: they are
 * fields of a `Library` record that every operation takes as a parameter, so
 * each property proved about the trust logic holds whatever those crates
 * compute. The two encodings the logic itself relies on, `str::as_bytes`
 * (UTF-8) and `BigUint::from_bytes_be` (unsigned big-endian), are defined here.
 */
module AuthLibrary {
  import opened Wrappers
  import Json

  newtype byte = x: int | 0 <= x < 256

  /** The `alg` values a JOSE header can carry (section 3.1 of RFC 7518) */
  datatype AlgorithmType =
    | Hs256 | Hs384 | Hs512
    | Rs256 | Rs384 | Rs512
    | Es256 | Es384 | Es512
    | Ps256 | Ps384 | Ps512
    | AlgNone

  /** The JOSE header fields the verifier reads: `alg` and the optional `kid` (section 4.1.4 of RFC 7515) */
  datatype Header = Header(algorithm: AlgorithmType, keyId: Option<string>)

  type Claims = map<string, Json.Value>

  /**
   * A compact JWT split and decoded but not yet verified: the decoded header
   * and claims, and the three base64url segments as they appeared in the token.
   */
  datatype UnverifiedToken = UnverifiedToken(
    header: Header,
    claims: Claims,
    headerStr: string,
    claimsStr: string,
    signatureStr: string)

  /** The kinds of SSH public key; only RSA carries the fields the verifier uses (section 6.6 of RFC 4253) */
  datatype PublicKeyKind = Rsa(n: seq<byte>, e: seq<byte>) | Dsa | Ecdsa | Ed25519

  datatype SshPublicKey = SshPublicKey(kind: PublicKeyKind, comment: Option<string>)

  datatype RsaPublicKey = RsaPublicKey(n: nat, e: nat)

  datatype RsaPrivateKey = RsaPrivateKey(n: nat, e: nat, d: nat, primes: seq<nat>)

  datatype Pem = Pem(tag: string, contents: seq<byte>)

  /** The crate functions `auth.rs` calls, one field each */
  datatype Library = Library(
    // `Token::parse_unverified`: three base64url segments, header and claims decoded as JSON
    parseUnverified: string -> Option<UnverifiedToken>,
    // base64url without padding, as the jwt crate decodes the signature segment
    base64UrlDecode: string -> Option<seq<byte>>,
    // `Sha256` run over the bytes given to `update`
    sha256: seq<byte> -> seq<byte>,
    // `RSAPublicKey::verify` with `PKCS1v15Sign { hash: SHA2_256 }`: key, digest, signature
    pkcs1v15Verify: (RsaPublicKey, seq<byte>, seq<byte>) -> bool,
    // `sshkeys::PublicKey::from_string` on an OpenSSH key line
    parseSshKey: string -> Option<SshPublicKey>,
    // the checks `RSAPublicKey::new(n, e)` makes of modulus and exponent
    rsaKeyValid: (nat, nat) -> bool,
    // `pem::parse`
    pemParse: string -> Option<Pem>,
    // `RSAPrivateKey::try_from(pem)`
    rsaPrivateKeyFromPem: Pem -> Option<RsaPrivateKey>)

  /** The errors the operations of `auth.rs` return, each named after the step that raises it */
  datatype AuthError =
    | LockPoisoned           // `lock()` on a poisoned mutex, turned into an error by `map_err`
    | PemMalformed           // `pem::parse` rejects the text
    | PrivateKeyMalformed    // `RSAPrivateKey::try_from` rejects the PEM block
    | TokenMalformed         // `Token::parse_unverified` rejects the token
    | SshKeyMalformed        // `sshkeys::PublicKey::from_string` rejects the key line
    | RsaKeyInvalid          // `RSAPublicKey::new` rejects modulus or exponent
    | AlgorithmMismatch      // jwt: the header's `alg` is not the key's RS256
    | SignatureEncoding      // jwt: the signature segment is not base64url
    | JwtInvalidSignature    // `jwt::Error::InvalidSignature`, raised by `verify_bytes`
    | InvalidSignature       // the fall-through `anyhow!("Invalid signature")`

  /** `RSAPublicKey::new(n, e)` */
  function NewRsaPublicKey(lib: Library, n: nat, e: nat): (r: Result<RsaPublicKey, AuthError>)
    ensures r.Ok? <==> lib.rsaKeyValid(n, e)
    ensures r.Ok? ==> r.value.n == n && r.value.e == e
    ensures r.Err? ==> r.error == RsaKeyInvalid
  {
    if lib.rsaKeyValid(n, e) then Ok(RsaPublicKey(n, e)) else Err(RsaKeyInvalid)
  }

  // ---------------------------------------------------------------------
  // UTF-8, the byte view `str::as_bytes` gives of a Rust string
  // ---------------------------------------------------------------------

  /** The UTF-8 encoding of one Unicode scalar value */
  function CharUtf8(c: char): (r: seq<byte>)
    ensures 1 <= |r| <= 4
    ensures |r| == 1 <==> c as int < 0x80
    ensures c as int < 0x80 ==> r[0] as int == c as int
  {
    var cp := c as int;
    if cp < 0x80 then
      [cp as byte]
    else if cp < 0x800 then
      [(0xC0 + cp / 0x40) as byte, (0x80 + cp % 0x40) as byte]
    else if cp < 0x1_0000 then
      [(0xE0 + cp / 0x1000) as byte, (0x80 + cp / 0x40 % 0x40) as byte, (0x80 + cp % 0x40) as byte]
    else
      [(0xF0 + cp / 0x4_0000) as byte, (0x80 + cp / 0x1000 % 0x40) as byte,
       (0x80 + cp / 0x40 % 0x40) as byte, (0x80 + cp % 0x40) as byte]
  }

  /** `s.as_bytes()`: the UTF-8 encoding of a string, character after character */
  function Utf8(s: string): (r: seq<byte>)
    ensures |s| <= |r| <= 4 * |s|
  {
    if s == [] then [] else Utf8(s[..|s| - 1]) + CharUtf8(s[|s| - 1])
  }

  /** Encoding a concatenation is concatenating the encodings, which is why three `update` calls hash one string */
  lemma {:induction false} Utf8Append(a: string, b: string)
    ensures Utf8(a + b) == Utf8(a) + Utf8(b)
    decreases |b|
  {
    if b == [] {
      assert a + b == a;
    } else {
      var b' := b[..|b| - 1];
      assert (a + b)[..|a + b| - 1] == a + b';
      assert (a + b)[|a + b| - 1] == b[|b| - 1];
      Utf8Append(a, b');
    }
  }

  /** A string of ASCII characters is encoded one byte per character, each byte the character's code */
  lemma {:induction false} Utf8Ascii(s: string)
    requires forall i :: 0 <= i < |s| ==> s[i] as int < 0x80
    ensures |Utf8(s)| == |s|
    ensures forall i :: 0 <= i < |s| ==> Utf8(s)[i] as int == s[i] as int
  {
    if s != [] {
      Utf8Ascii(s[..|s| - 1]);
    }
  }

  // ---------------------------------------------------------------------
  // Unsigned big-endian integers, as `BigUint::from_bytes_be` reads them
  // ---------------------------------------------------------------------

  function Pow256(k: nat): (r: nat)
    ensures r >= 1
  {
    if k == 0 then 1 else 256 * Pow256(k - 1)
  }

  /** `BigUint::from_bytes_be`: the most significant byte first, no sign */
  function FromBytesBe(bs: seq<byte>): (n: nat)
    ensures n < Pow256(|bs|)
  {
    if bs == [] then 0
    else
      var high := FromBytesBe(bs[..|bs| - 1]);
      assert high + 1 <= Pow256(|bs| - 1);
      assert high * 256 + 256 <= Pow256(|bs| - 1) * 256;
      high * 256 + bs[|bs| - 1] as nat
  }

  /** Leading zero bytes, such as the one an SSH mpint adds before a high bit, do not change the value */
  lemma {:induction false} FromBytesBeLeadingZero(bs: seq<byte>)
    ensures FromBytesBe([0 as byte] + bs) == FromBytesBe(bs)
    decreases |bs|
  {
    if bs != [] {
      var z: seq<byte> := [0 as byte];
      assert (z + bs)[..|z + bs| - 1] == z + bs[..|bs| - 1];
      assert (z + bs)[|z + bs| - 1] == bs[|bs| - 1];
      FromBytesBeLeadingZero(bs[..|bs| - 1]);
    }
  }
}
