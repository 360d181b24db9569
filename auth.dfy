/**
 * The trust store of `auth.rs`: three independent name-to-string maps (trusted
 * keys, key-manager keys, credentials) and an optional private key with its
 * name, behind one mutex, and the six event handlers that each upsert into or
 * remove from exactly one of the maps.
 *
 * `Settings` is the store as a value and `Apply` the effect of one event on
 * it; the class `AuthSettings` is the store the source mutates in place, and
 * each of its handlers is proved to leave `Apply` of the old value.
 */
module Auth {
  import opened Wrappers
  import opened AuthLibrary
  import Jwt

  /** The `PublicKey` payload of the key events */
  datatype PublicKey = PublicKey(name: string, publicKey: string)

  /** The `Credentials` payload of the credentials events */
  datatype Credentials = Credentials(identifier: string, secret: string)

  /** The six events the store consumes; an added event's payload is optional */
  datatype AuthEvent =
    | TrustedKeyAdded(name: string, publicKey: Option<PublicKey>)
    | TrustedKeyRemoved(name: string)
    | KeyManagerAdded(name: string, publicKey: Option<PublicKey>)
    | KeyManagerRemoved(name: string)
    | CredentialsAdded(identifier: string, credentials: Option<Credentials>)
    | CredentialsRemoved(identifier: string)

  datatype Namespace = TrustedKeys | KeyManagers | CredentialStore

  /** The fields of the store as one value */
  datatype Settings = Settings(
    keyManagers: map<string, string>,
    trustedKeys: map<string, string>,
    credentials: map<string, string>,
    privateKey: Option<RsaPrivateKey>,
    privateKeyName: string)

  /** The store as the process starts: empty maps, no private key, an empty key name */
  function Initial(): Settings
  {
    Settings(map[], map[], map[], None, "")
  }

  function Table(s: Settings, ns: Namespace): map<string, string>
  {
    match ns
    case TrustedKeys => s.trustedKeys
    case KeyManagers => s.keyManagers
    case CredentialStore => s.credentials
  }

  function Lookup(m: map<string, string>, name: string): Option<string>
  {
    if name in m then Some(m[name]) else None
  }

  /**
   * The effect of one event, as its handler has it: an added event with a
   * payload inserts the payload's own name or identifier with its key or
   * secret; one without a payload does nothing; a removed event deletes the
   * event's name or identifier, present or not.
   */
  function Apply(s: Settings, e: AuthEvent): (r: Settings)
    ensures r.privateKey == s.privateKey && r.privateKeyName == s.privateKeyName
    ensures !TakesLock(e) ==> r == s
  {
    match e
    case TrustedKeyAdded(_, pk) =>
      if pk.Some? then s.(trustedKeys := s.trustedKeys[pk.value.name := pk.value.publicKey]) else s
    case TrustedKeyRemoved(name) =>
      s.(trustedKeys := s.trustedKeys - {name})
    case KeyManagerAdded(_, pk) =>
      if pk.Some? then s.(keyManagers := s.keyManagers[pk.value.name := pk.value.publicKey]) else s
    case KeyManagerRemoved(name) =>
      s.(keyManagers := s.keyManagers - {name})
    case CredentialsAdded(_, c) =>
      if c.Some? then s.(credentials := s.credentials[c.value.identifier := c.value.secret]) else s
    case CredentialsRemoved(identifier) =>
      s.(credentials := s.credentials - {identifier})
  }

  /** Whether an event's handler takes the lock at all: all do except an added event without payload */
  predicate TakesLock(e: AuthEvent)
  {
    match e
    case TrustedKeyAdded(_, pk) => pk.Some?
    case KeyManagerAdded(_, pk) => pk.Some?
    case CredentialsAdded(_, c) => c.Some?
    case _ => true
  }

  /** The one map an event's handler works on */
  function NamespaceOf(e: AuthEvent): Namespace
  {
    match e
    case TrustedKeyAdded(_, _) => TrustedKeys
    case TrustedKeyRemoved(_) => TrustedKeys
    case KeyManagerAdded(_, _) => KeyManagers
    case KeyManagerRemoved(_) => KeyManagers
    case CredentialsAdded(_, _) => CredentialStore
    case CredentialsRemoved(_) => CredentialStore
  }

  /** The entry an event writes, if it writes one: its map and the name it inserts or removes */
  function Target(e: AuthEvent): Option<(Namespace, string)>
  {
    match e
    case TrustedKeyAdded(_, pk) => if pk.Some? then Some((TrustedKeys, pk.value.name)) else None
    case TrustedKeyRemoved(name) => Some((TrustedKeys, name))
    case KeyManagerAdded(_, pk) => if pk.Some? then Some((KeyManagers, pk.value.name)) else None
    case KeyManagerRemoved(name) => Some((KeyManagers, name))
    case CredentialsAdded(_, c) => if c.Some? then Some((CredentialStore, c.value.identifier)) else None
    case CredentialsRemoved(identifier) => Some((CredentialStore, identifier))
  }

  /** What an event leaves in the entry it writes: the added key or secret, or nothing after a removal */
  function Written(e: AuthEvent): Option<string>
  {
    match e
    case TrustedKeyAdded(_, pk) => if pk.Some? then Some(pk.value.publicKey) else None
    case KeyManagerAdded(_, pk) => if pk.Some? then Some(pk.value.publicKey) else None
    case CredentialsAdded(_, c) => if c.Some? then Some(c.value.secret) else None
    case _ => None
  }

  /**
   * Entry by entry, an event changes only the entry it targets, which it sets
   * to what it writes; the private key and its name are never touched.
   */
  lemma ApplyEntry(s: Settings, e: AuthEvent, ns: Namespace, name: string)
    ensures Lookup(Table(Apply(s, e), ns), name) ==
      if Target(e) == Some((ns, name)) then Written(e) else Lookup(Table(s, ns), name)
    ensures Apply(s, e).privateKey == s.privateKey && Apply(s, e).privateKeyName == s.privateKeyName
  {
  }

  /** Each event changes at most one of the three maps, the one its handler works on */
  lemma ApplyTouchesOneNamespace(s: Settings, e: AuthEvent)
    ensures forall ns :: ns != NamespaceOf(e) ==> Table(Apply(s, e), ns) == Table(s, ns)
    ensures Target(e).Some? ==> Target(e).value.0 == NamespaceOf(e)
  {
  }

  /** An added event without payload is a no-op that takes no lock */
  lemma AddedWithoutPayloadIsNoOp(s: Settings, e: AuthEvent)
    requires e.TrustedKeyAdded? || e.KeyManagerAdded? || e.CredentialsAdded?
    requires !TakesLock(e)
    ensures Apply(s, e) == s && Target(e).None?
  {
  }

  /** An added event stores under its payload's name; the name on the event itself plays no part */
  lemma AddedIgnoresEventName(s: Settings, e: AuthEvent, otherName: string)
    requires e.TrustedKeyAdded? || e.KeyManagerAdded? || e.CredentialsAdded?
    ensures Apply(s, e) == Apply(s, match e
      case TrustedKeyAdded(_, pk) => TrustedKeyAdded(otherName, pk)
      case KeyManagerAdded(_, pk) => KeyManagerAdded(otherName, pk)
      case CredentialsAdded(_, c) => CredentialsAdded(otherName, c)
      case _ => e)
  {
  }

  /** Removing a name that is absent leaves the store as it was, so the map keeps its size */
  lemma RemoveAbsentIsNoOp(s: Settings, e: AuthEvent)
    requires e.TrustedKeyRemoved? || e.KeyManagerRemoved? || e.CredentialsRemoved?
    requires Target(e).value.1 !in Table(s, NamespaceOf(e))
    ensures Apply(s, e) == s
    ensures |Table(Apply(s, e), NamespaceOf(e))| == |Table(s, NamespaceOf(e))|
  {
    assert Table(Apply(s, e), NamespaceOf(e)) == Table(s, NamespaceOf(e));
  }

  /** Applying an event twice is applying it once, so redelivery is harmless */
  lemma ApplyIdempotent(s: Settings, e: AuthEvent)
    ensures Apply(Apply(s, e), e) == Apply(s, e)
  {
  }

  /** Of two events that write the same entry, the later one wins outright */
  lemma LastWriteWins(s: Settings, first: AuthEvent, second: AuthEvent)
    requires Target(first).Some? && Target(first) == Target(second)
    ensures Apply(Apply(s, first), second) == Apply(s, second)
  {
  }

  // ---------------------------------------------------------------------
  // Replay: the store rebuilt from a sequence of events
  // ---------------------------------------------------------------------

  function Replay(s: Settings, events: seq<AuthEvent>): Settings
    decreases |events|
  {
    if events == [] then s else Apply(Replay(s, events[..|events| - 1]), events[|events| - 1])
  }

  /** What the last event of `events` that writes `name` in `ns` left there; `None` when no event writes it */
  function LastWrite(events: seq<AuthEvent>, ns: Namespace, name: string): Option<Option<string>>
    decreases |events|
  {
    if events == [] then None
    else if Target(events[|events| - 1]) == Some((ns, name)) then Some(Written(events[|events| - 1]))
    else LastWrite(events[..|events| - 1], ns, name)
  }

  /**
   * After a replay, every entry holds what the last event writing it left
   * there, and entries no event writes keep their starting value.
   */
  lemma {:induction false} ReplayLastWriteWins(s: Settings, events: seq<AuthEvent>, ns: Namespace, name: string)
    ensures Lookup(Table(Replay(s, events), ns), name) ==
      match LastWrite(events, ns, name)
      case None => Lookup(Table(s, ns), name)
      case Some(v) => v
    ensures Replay(s, events).privateKey == s.privateKey
    ensures Replay(s, events).privateKeyName == s.privateKeyName
    decreases |events|
  {
    if events != [] {
      var prefix := events[..|events| - 1];
      ReplayLastWriteWins(s, prefix, ns, name);
      ApplyEntry(Replay(s, prefix), events[|events| - 1], ns, name);
    }
  }

  lemma MapsEqualByLookup(a: map<string, string>, b: map<string, string>)
    requires forall name :: Lookup(a, name) == Lookup(b, name)
    ensures a == b
  {
    forall name | name in a ensures name in b && a[name] == b[name] {
      assert Lookup(a, name) == Lookup(b, name);
    }
    forall name | name in b ensures name in a {
      assert Lookup(a, name) == Lookup(b, name);
    }
  }

  /**
   * The store after a replay depends only on the last write to each entry:
   * two event histories with the same last writes rebuild the same store.
   */
  lemma ReplayDeterminedByLastWrites(s: Settings, a: seq<AuthEvent>, b: seq<AuthEvent>)
    requires forall ns, name :: LastWrite(a, ns, name) == LastWrite(b, ns, name)
    ensures Replay(s, a) == Replay(s, b)
  {
    forall ns: Namespace ensures Table(Replay(s, a), ns) == Table(Replay(s, b), ns) {
      forall name ensures Lookup(Table(Replay(s, a), ns), name) == Lookup(Table(Replay(s, b), ns), name) {
        ReplayLastWriteWins(s, a, ns, name);
        ReplayLastWriteWins(s, b, ns, name);
      }
      MapsEqualByLookup(Table(Replay(s, a), ns), Table(Replay(s, b), ns));
    }
    ReplayLastWriteWins(s, a, TrustedKeys, "");
    ReplayLastWriteWins(s, b, TrustedKeys, "");
    assert Table(Replay(s, a), TrustedKeys) == Table(Replay(s, b), TrustedKeys);
    assert Table(Replay(s, a), KeyManagers) == Table(Replay(s, b), KeyManagers);
    assert Table(Replay(s, a), CredentialStore) == Table(Replay(s, b), CredentialStore);
  }

  /** Replaying two histories one after the other is replaying their concatenation */
  lemma {:induction false} ReplayAppend(s: Settings, a: seq<AuthEvent>, b: seq<AuthEvent>)
    ensures Replay(s, a + b) == Replay(Replay(s, a), b)
    decreases |b|
  {
    if b == [] {
      assert a + b == a;
    } else {
      assert (a + b)[..|a + b| - 1] == a + b[..|b| - 1];
      assert (a + b)[|a + b| - 1] == b[|b| - 1];
      ReplayAppend(s, a, b[..|b| - 1]);
    }
  }

  /**
   * An event delivered twice in a row, anywhere in a history, rebuilds the
   * same store as the event delivered once.
   */
  lemma ReplayToleratesRedelivery(s: Settings, before: seq<AuthEvent>, e: AuthEvent, after: seq<AuthEvent>)
    ensures Replay(s, before + [e, e] + after) == Replay(s, before + [e] + after)
  {
    var once := before + [e];
    var twice := before + [e, e];
    assert twice[..|twice| - 1] == once;
    assert once[..|once| - 1] == before;
    ApplyIdempotent(Replay(s, before), e);
    ReplayAppend(s, twice, after);
    ReplayAppend(s, once, after);
  }

  /**
   * Redelivery with another write in between is not harmless: installing
   * `v1`, then `v2`, then `v1` again under one name leaves `v1`, where the
   * history without the redelivered event leaves `v2`.
   */
  lemma SeparatedRedeliveryChangesStore(s: Settings, name: string, v1: string, v2: string)
    requires v1 != v2
    ensures var first := TrustedKeyAdded(name, Some(PublicKey(name, v1)));
      var second := TrustedKeyAdded(name, Some(PublicKey(name, v2)));
      Replay(s, [first, second, first]).trustedKeys[name] == v1 &&
      Replay(s, [first, second]).trustedKeys[name] == v2
  {
    var first := TrustedKeyAdded(name, Some(PublicKey(name, v1)));
    var second := TrustedKeyAdded(name, Some(PublicKey(name, v2)));
    assert [first, second, first][..2] == [first, second];
    assert [first, second][..1] == [first];
    assert [first][..0] == [];
  }

  // ---------------------------------------------------------------------
  // What the store means for verification
  // ---------------------------------------------------------------------

  /** After `TrustedKeyRemoved(name)` no token whose `kid` is `name` verifies, whatever verified before */
  lemma RemovedKeyNoLongerVerifies(lib: Library, s: Settings, name: string, jwt: string)
    requires lib.parseUnverified(jwt).Some? && lib.parseUnverified(jwt).value.header.keyId == Some(name)
    ensures Jwt.VerifyJwt(lib, false, Apply(s, TrustedKeyRemoved(name)).trustedKeys, jwt) == Err(InvalidSignature)
  {
    Jwt.UnknownKeyIdIsInvalidSignature(lib, Apply(s, TrustedKeyRemoved(name)).trustedKeys, jwt);
  }

  /** A key-manager key is never a trust anchor: a `kid` found only among the key managers is refused */
  lemma KeyManagerIsNotTrusted(lib: Library, s: Settings, jwt: string)
    requires lib.parseUnverified(jwt).Some?
    requires var keyId := lib.parseUnverified(jwt).value.header.keyId;
      keyId.Some? && keyId.value in s.keyManagers && keyId.value !in s.trustedKeys
    ensures Jwt.VerifyJwt(lib, false, s.trustedKeys, jwt) == Err(InvalidSignature)
  {
    Jwt.UnknownKeyIdIsInvalidSignature(lib, s.trustedKeys, jwt);
  }

  /**
   * A key installed by `TrustedKeyAdded` verifies the tokens it signed: when
   * the token names RS256 and the installed key's name as `kid`, the stored
   * line is an RSA key the RSA library accepts, and the PKCS#1 v1.5 check
   * accepts the signature, verification returns the token's claims.
   */
  lemma InstalledKeyVerifies(lib: Library, s: Settings, eventName: string, key: PublicKey, jwt: string)
    requires lib.parseUnverified(jwt).Some?
    requires var token := lib.parseUnverified(jwt).value;
      token.header.algorithm == Rs256 && token.header.keyId == Some(key.name)
    requires lib.parseSshKey(Jwt.SSH_RSA_PREFIX + key.publicKey).Some?
    requires var kind := lib.parseSshKey(Jwt.SSH_RSA_PREFIX + key.publicKey).value.kind;
      kind.Rsa? && lib.rsaKeyValid(FromBytesBe(kind.n), FromBytesBe(kind.e))
    requires lib.base64UrlDecode(lib.parseUnverified(jwt).value.signatureStr).Some?
    requires var token := lib.parseUnverified(jwt).value;
      var kind := lib.parseSshKey(Jwt.SSH_RSA_PREFIX + key.publicKey).value.kind;
      lib.pkcs1v15Verify(RsaPublicKey(FromBytesBe(kind.n), FromBytesBe(kind.e)),
                         lib.sha256(Utf8(Jwt.SigningInput(token.headerStr, token.claimsStr))),
                         lib.base64UrlDecode(token.signatureStr).value)
    ensures Jwt.VerifyJwt(lib, false, Apply(s, TrustedKeyAdded(eventName, Some(key))).trustedKeys, jwt)
      == Ok(lib.parseUnverified(jwt).value.claims)
  {
    var token := lib.parseUnverified(jwt).value;
    var kind := lib.parseSshKey(Jwt.SSH_RSA_PREFIX + key.publicKey).value.kind;
    var after := Apply(s, TrustedKeyAdded(eventName, Some(key))).trustedKeys;
    assert after[key.name] == key.publicKey;
    assert Jwt.DecodeStoredKey(lib, after[key.name]) == Ok(Some(RsaPublicKey(FromBytesBe(kind.n), FromBytesBe(kind.e))));
  }

  /** The outcome of `set_private_key`'s parsing: the PEM text, then the RSA key inside it */
  function ParsePrivateKey(lib: Library, pemString: string): (r: Result<RsaPrivateKey, AuthError>)
    ensures r.Ok? <==> lib.pemParse(pemString).Some? && lib.rsaPrivateKeyFromPem(lib.pemParse(pemString).value).Some?
    ensures r.Ok? ==> lib.rsaPrivateKeyFromPem(lib.pemParse(pemString).value) == Some(r.value)
    ensures r.Err? ==> r.error == if lib.pemParse(pemString).None? then PemMalformed else PrivateKeyMalformed
  {
    match lib.pemParse(pemString)
    case None => Err(PemMalformed)
    case Some(pem) =>
      match lib.rsaPrivateKeyFromPem(pem)
      case None => Err(PrivateKeyMalformed)
      case Some(key) => Ok(key)
  }

  // ---------------------------------------------------------------------
  // The store the source mutates in place
  // ---------------------------------------------------------------------

  /**
   * `AuthSettings` behind its mutex. `poisoned` is the mutex's state: once a
   * thread panics while holding the lock, every later `lock()` fails and the
   * operation returns `LockPoisoned` without touching the store.
   */
  class AuthSettings {
    var keyManagers: map<string, string>
    var trustedKeys: map<string, string>
    var credentials: map<string, string>
    var privateKey: Option<RsaPrivateKey>
    var privateKeyName: string
    var poisoned: bool

    function Snapshot(): Settings
      reads this
    {
      Settings(keyManagers, trustedKeys, credentials, privateKey, privateKeyName)
    }

    /** The process-wide store as `lazy_static!` creates it */
    constructor ()
      ensures Snapshot() == Initial() && !poisoned
    {
      keyManagers, trustedKeys, credentials := map[], map[], map[];
      privateKey, privateKeyName := None, "";
      poisoned := false;
    }

    /**
     * `set_private_key`: parse first, then lock and set the name and the key
     * together; a parse failure or a poisoned lock leaves the store as it was.
     */
    method SetPrivateKey(lib: Library, keyName: string, pemString: string) returns (r: Result<(), AuthError>)
      modifies this`privateKey, this`privateKeyName
      ensures ParsePrivateKey(lib, pemString).Err? ==> r == Err(ParsePrivateKey(lib, pemString).error)
      ensures ParsePrivateKey(lib, pemString).Ok? && poisoned ==> r == Err(LockPoisoned)
      ensures r.Ok? <==> ParsePrivateKey(lib, pemString).Ok? && !poisoned
      ensures r.Ok? ==> privateKeyName == keyName && privateKey == Some(ParsePrivateKey(lib, pemString).value)
      ensures r.Err? ==> privateKeyName == old(privateKeyName) && privateKey == old(privateKey)
    {
      var parsed := ParsePrivateKey(lib, pemString);
      if parsed.Err? {
        return Err(parsed.error);
      }
      if poisoned {
        return Err(LockPoisoned);
      }
      privateKeyName := keyName;
      privateKey := Some(parsed.value);
      r := Ok(());
    }

    /** `unchecked_set_public_key`: upsert into the trusted keys under the payload's name */
    method UncheckedSetPublicKey(publicKey: PublicKey) returns (r: Result<(), AuthError>)
      modifies this`trustedKeys
      ensures r == if poisoned then Err(LockPoisoned) else Ok(())
      ensures !poisoned ==> trustedKeys == old(trustedKeys)[publicKey.name := publicKey.publicKey]
      ensures poisoned ==> trustedKeys == old(trustedKeys)
    {
      if poisoned {
        return Err(LockPoisoned);
      }
      trustedKeys := trustedKeys[publicKey.name := publicKey.publicKey];
      r := Ok(());
    }

    /** `unchecked_set_key_manager`: upsert into the key managers under the payload's name */
    method UncheckedSetKeyManager(publicKey: PublicKey) returns (r: Result<(), AuthError>)
      modifies this`keyManagers
      ensures r == if poisoned then Err(LockPoisoned) else Ok(())
      ensures !poisoned ==> keyManagers == old(keyManagers)[publicKey.name := publicKey.publicKey]
      ensures poisoned ==> keyManagers == old(keyManagers)
    {
      if poisoned {
        return Err(LockPoisoned);
      }
      keyManagers := keyManagers[publicKey.name := publicKey.publicKey];
      r := Ok(());
    }

    /** `unchecked_set_credentials`: upsert into the credentials under the payload's identifier */
    method UncheckedSetCredentials(c: Credentials) returns (r: Result<(), AuthError>)
      modifies this`credentials
      ensures r == if poisoned then Err(LockPoisoned) else Ok(())
      ensures !poisoned ==> credentials == old(credentials)[c.identifier := c.secret]
      ensures poisoned ==> credentials == old(credentials)
    {
      if poisoned {
        return Err(LockPoisoned);
      }
      credentials := credentials[c.identifier := c.secret];
      r := Ok(());
    }

    /** `remove_public_key`: delete from the trusted keys; an absent name is not an error */
    method RemovePublicKey(name: string) returns (r: Result<(), AuthError>)
      modifies this`trustedKeys
      ensures r == if poisoned then Err(LockPoisoned) else Ok(())
      ensures !poisoned ==> trustedKeys == old(trustedKeys) - {name}
      ensures poisoned ==> trustedKeys == old(trustedKeys)
    {
      if poisoned {
        return Err(LockPoisoned);
      }
      trustedKeys := trustedKeys - {name};
      r := Ok(());
    }

    /** `remove_key_manager`: delete from the key managers; an absent name is not an error */
    method RemoveKeyManager(name: string) returns (r: Result<(), AuthError>)
      modifies this`keyManagers
      ensures r == if poisoned then Err(LockPoisoned) else Ok(())
      ensures !poisoned ==> keyManagers == old(keyManagers) - {name}
      ensures poisoned ==> keyManagers == old(keyManagers)
    {
      if poisoned {
        return Err(LockPoisoned);
      }
      keyManagers := keyManagers - {name};
      r := Ok(());
    }

    /** `remove_credentials`: delete from the credentials; an absent identifier is not an error */
    method RemoveCredentials(identifier: string) returns (r: Result<(), AuthError>)
      modifies this`credentials
      ensures r == if poisoned then Err(LockPoisoned) else Ok(())
      ensures !poisoned ==> credentials == old(credentials) - {identifier}
      ensures poisoned ==> credentials == old(credentials)
    {
      if poisoned {
        return Err(LockPoisoned);
      }
      credentials := credentials - {identifier};
      r := Ok(());
    }

    /** `handle_trusted_key_added_event` */
    method HandleTrustedKeyAdded(name: string, publicKey: Option<PublicKey>) returns (r: Result<(), AuthError>)
      modifies this`trustedKeys
      ensures Handled(old(Snapshot()), TrustedKeyAdded(name, publicKey), r)
    {
      r := Ok(());
      if publicKey.Some? {
        r := UncheckedSetPublicKey(publicKey.value);
      }
    }

    /** `handle_trusted_key_removed_event` */
    method HandleTrustedKeyRemoved(name: string) returns (r: Result<(), AuthError>)
      modifies this`trustedKeys
      ensures Handled(old(Snapshot()), TrustedKeyRemoved(name), r)
    {
      r := RemovePublicKey(name);
    }

    /** `handle_key_manager_added_event` */
    method HandleKeyManagerAdded(name: string, publicKey: Option<PublicKey>) returns (r: Result<(), AuthError>)
      modifies this`keyManagers
      ensures Handled(old(Snapshot()), KeyManagerAdded(name, publicKey), r)
    {
      r := Ok(());
      if publicKey.Some? {
        r := UncheckedSetKeyManager(publicKey.value);
      }
    }

    /** `handle_key_manager_removed_event` */
    method HandleKeyManagerRemoved(name: string) returns (r: Result<(), AuthError>)
      modifies this`keyManagers
      ensures Handled(old(Snapshot()), KeyManagerRemoved(name), r)
    {
      r := RemoveKeyManager(name);
    }

    /** `handle_credentials_added_event` */
    method HandleCredentialsAdded(identifier: string, credentials: Option<Credentials>) returns (r: Result<(), AuthError>)
      modifies this`credentials
      ensures Handled(old(Snapshot()), CredentialsAdded(identifier, credentials), r)
    {
      r := Ok(());
      if credentials.Some? {
        r := UncheckedSetCredentials(credentials.value);
      }
    }

    /** `handle_credentials_removed_event` */
    method HandleCredentialsRemoved(identifier: string) returns (r: Result<(), AuthError>)
      modifies this`credentials
      ensures Handled(old(Snapshot()), CredentialsRemoved(identifier), r)
    {
      r := RemoveCredentials(identifier);
    }

    /**
     * A handler's promise: with the lock poisoned, a handler that takes it
     * fails and changes nothing; otherwise it returns `Ok` and the store is
     * `Apply` of the store before.
     */
    ghost predicate Handled(before: Settings, e: AuthEvent, r: Result<(), AuthError>)
      reads this
    {
      if poisoned && TakesLock(e) then r == Err(LockPoisoned) && Snapshot() == before
      else r == Ok(()) && Snapshot() == Apply(before, e)
    }

    /** `verify_jwt` against this store: only the trusted keys and the lock are read */
    method VerifyJwt(lib: Library, jwt: string) returns (r: Result<Claims, AuthError>)
      ensures r == Jwt.VerifyJwt(lib, poisoned, trustedKeys, jwt)
    {
      r := Jwt.VerifyJwt(lib, poisoned, trustedKeys, jwt);
    }
  }
}
