# Trust store, greeter aggregate and search hits of archetype-rust-axon, in Dafny

This project models three pieces of sequential logic of the archetype-rust-axon
example application and proves properties of them.

- **The trust store and JWT check** (`src/example_event/auth.rs`). The store
  holds three independent name-to-string maps: trusted keys, key-manager keys
  and credentials. It also holds an optional RSA private key with its name.
  Six event handlers each upsert into or remove from exactly one map.
  `verify_jwt` reads the token's `kid` (section 4.1.4 of RFC 7515) and looks it
  up among the trusted keys only. It rebuilds an OpenSSH `ssh-rsa` key line
  (section 6.6 of RFC 4253), reads modulus and exponent as unsigned big-endian
  integers, and checks an RS256 signature. RS256 is RSASSA-PKCS1-v1_5 with
  SHA-256 (section 3.3 of RFC 7518, section 8.2.2 of RFC 8017), computed over
  the JWS signing input `header "." claims` (section 5.1 of RFC 7515).
- **The greeter aggregate** (`src/example_command/mod.rs`). It is a two-state
  machine over the projection's `is_recording` flag. Events set the flag in
  place. Three command handlers decide what to emit and what to reply.
- **Search-hit extraction** (`src/example_query/mod.rs`, lines 63-79). A loop
  turns the Elasticsearch hits into greetings and appends a final `"Test!"`.

Files:

- `wrappers.dfy`: `Option` and `Result`.
- `json.dfy`: JSON values and serde_json's string indexing.
- `proto.dfy`: the shared protobuf messages.
- `auth_library.dfy`: the interface to the crates `auth.rs` calls. It also
  defines UTF-8 encoding and big-endian integer decoding.
- `auth_jwt.dfy`: `verify_bytes`, the jwt crate's `verify_with_key` and
  `verify_jwt`.
- `auth.dfy`: the events, the store as a value (`Settings`, `Apply`,
  `Replay`) and the store as a mutable class (`AuthSettings`).
- `greeter.dfy`: the greeter aggregate.
- `search.dfy`: the hit extraction.

The crates that `auth.rs` uses are not modelled. These are SHA-256, RSA,
sshkeys, pem, base64 and JWT parsing. The `Library` record holds one function
per crate call, and every operation takes it as a parameter. So each property
proved here holds whatever those crates compute.

### Behaviour of `verify_jwt` worth knowing

- The `?` operators in `verify_jwt` pass on the errors of token parsing, SSH
  parsing, `RSAPublicKey::new`, the lock and the jwt crate's verification
  unchanged. Only a missing `kid`, an unknown `kid` and a non-RSA key reach
  the final `anyhow!("Invalid signature")` (auth.rs:211). An empty token
  therefore fails with a parse error, not with the error an unknown `kid`
  gives.
- A key line that parses as a non-RSA key ends in "Invalid signature". There
  is no separate unsupported-key-type error.
- `verify_jwt` holds the store's lock until it has checked the signature. The
  lock guard lives to the end of the `if let` block. So the cryptography runs
  inside the lock. The model has no
  concurrency, so this affects no property here.
- The `alg` check and the base64url decoding of the signature segment happen
  in the jwt crate's `verify_with_key` (auth.rs:206). They are modelled as that
  crate does them. A header `alg` other than RS256 fails with an
  algorithm-mismatch error.
- Event handling is idempotent per event, so an event delivered twice in a
  row is harmless anywhere in a history. An event delivered again after
  another write to the same entry is not: it overwrites the later write
  (`Auth.SeparatedRedeliveryChangesStore`).

## Model

| member | source | states |
|---|---|---|
| `AuthLibrary.NewRsaPublicKey` | src/example_event/auth.rs:204 | `RSAPublicKey::new` succeeds if and only if the RSA library accepts modulus and exponent, the key then holds both, and otherwise it fails with the key-material error |
| `AuthLibrary.Utf8` | src/example_event/auth.rs:176-178 | `as_bytes` gives between one and four bytes per character; `Utf8Append` and `Utf8Ascii` state the rest |
| `AuthLibrary.CharUtf8` | src/example_event/auth.rs:176-178 | one character encodes to 1 to 4 bytes, to one byte exactly for ASCII, and that byte is the character's code |
| `AuthLibrary.Utf8Append` | src/example_event/auth.rs:176-179 | the bytes of a concatenation are the concatenated bytes, so three `update` calls hash the bytes of the joined string |
| `AuthLibrary.Utf8Ascii` | src/example_event/auth.rs:176-178 | an ASCII string, such as a base64url JWS segment, is hashed one byte per character, each byte the character's code |
| `AuthLibrary.FromBytesBe` | src/example_event/auth.rs:202-203 | a big-endian byte string of length k decodes to an unsigned integer below 256^k |
| `AuthLibrary.FromBytesBeLeadingZero` | src/example_event/auth.rs:202-203 | a leading zero byte does not change the decoded modulus or exponent |
| `Jwt.VerifyBytes` | src/example_event/auth.rs:174-187 | `verify_bytes` returns `Ok(true)` if and only if the PKCS#1 v1.5 check accepts the signature over SHA-256 of the bytes of `header "." claims`, and otherwise returns the jwt invalid-signature error |
| `Jwt.VerifyWithKey` | src/example_event/auth.rs:206 | the jwt crate's check accepts if and only if the header names RS256, the signature segment decodes, and the PKCS#1 v1.5 check accepts it over the signing input; it then returns the parsed claims |
| `Jwt.DecodeStoredKey` | src/example_event/auth.rs:198-204 | a stored key decodes only when `"ssh-rsa "` plus it parses as a key line; it is `None` exactly for a non-RSA key, and otherwise the RSA key of the big-endian modulus and exponent, which the RSA library accepts |
| `Jwt.VerifyJwt` | src/example_event/auth.rs:190-212 | `verify_jwt` accepts only with the lock healthy, a parsed RS256 token with a trusted `kid`, and returns that token's claims; the lemmas below give the converse and each error |
| `Jwt.VerifyJwtAcceptsExactlyAuthentic` | src/example_event/auth.rs:190-212 | with the lock healthy, `verify_jwt` returns `Ok(claims)` if and only if the token parses with exactly these claims, names RS256 and a trusted `kid`, that key's line is RSA with an accepted modulus and exponent, and the decoded signature verifies over the signing input |
| `Jwt.NoKeyIdIsInvalidSignature` | src/example_event/auth.rs:194-211 | a parsed token without `kid` fails with "Invalid signature", whatever the store and the lock |
| `Jwt.UnknownKeyIdIsInvalidSignature` | src/example_event/auth.rs:195-211 | a `kid` that is not among the trusted keys fails with "Invalid signature" |
| `Jwt.NonRsaKeyIsInvalidSignature` | src/example_event/auth.rs:199-211 | a trusted key whose line parses as a non-RSA key fails with "Invalid signature" |
| `Jwt.RejectedSignatureFails` | src/example_event/auth.rs:206 | a token that reaches the signature check with a signature the PKCS#1 v1.5 check rejects, such as one made with another private key, fails with the jwt invalid-signature error |
| `Jwt.PoisonedLockAcceptsNothing` | src/example_event/auth.rs:195 | with the lock poisoned no token is accepted, and a parsed token with a `kid` fails with the lock error |
| `Jwt.OnlyRs256Accepted` | src/example_event/auth.rs:206-207 | an accepted token names RS256, and the claims returned are the claims the token was parsed with |
| `Jwt.VerifyJwtReadsOnlyKeyIdEntry` | src/example_event/auth.rs:196 | two stores that agree on the token's `kid` entry give the same verdict, so nothing else in the store is read |
| `Auth.Apply` | src/example_event/auth.rs:82-165 | the effect of one event on the store: it never touches the private key or its name, and an added event without payload changes nothing; `ApplyEntry` gives the entry it writes |
| `Auth.ParsePrivateKey` | src/example_event/auth.rs:122-123 | succeeds if and only if PEM parsing and then RSA private-key parsing succeed, giving the parsed key; fails with the PEM error when PEM parsing fails and with the key error otherwise |
| `Auth.ApplyEntry` | src/example_event/auth.rs:131-165 | an event changes only the entry it targets (payload name for an add, event name for a remove) and sets it to the added value or to absent; the private key and its name never change |
| `Auth.ApplyTouchesOneNamespace` | src/example_event/auth.rs:83-119 | each event leaves the two maps other than its handler's map unchanged, and the entry it writes is in its handler's map |
| `Auth.AddedWithoutPayloadIsNoOp` | src/example_event/auth.rs:83-114 | an added event without payload leaves the whole store unchanged and writes no entry |
| `Auth.AddedIgnoresEventName` | src/example_event/auth.rs:84-85 | an added event stores under its payload's name, so the name on the event itself does not affect the result |
| `Auth.RemoveAbsentIsNoOp` | src/example_event/auth.rs:149-165 | removing an absent name leaves the store unchanged and the map's size the same |
| `Auth.ApplyIdempotent` | src/example_event/auth.rs:131-165 | applying an event twice gives the same store as applying it once |
| `Auth.LastWriteWins` | src/example_event/auth.rs:133-163 | of two events that write the same entry, the result is that of the second alone |
| `Auth.ReplayLastWriteWins` | src/example_event/auth.rs:83-165 | after replaying a history, each entry holds what the last event writing it left, or its starting value if no event writes it; the private key is never changed by events |
| `Auth.ReplayDeterminedByLastWrites` | src/example_event/auth.rs:83-165 | two histories with the same last write to every entry rebuild the same store |
| `Auth.ReplayAppend` | src/example_event/auth.rs:82-165 | replaying one history and then another is replaying the two joined |
| `Auth.ReplayToleratesRedelivery` | src/example_event/auth.rs:83-165 | an event delivered twice in a row, anywhere in a history and with any events after it, rebuilds the same store as delivering it once |
| `Auth.SeparatedRedeliveryChangesStore` | src/example_event/auth.rs:131-135 | an event delivered again after a later write to the same entry overwrites that write, so only back-to-back redelivery is harmless |
| `Auth.RemovedKeyNoLongerVerifies` | src/example_event/auth.rs:149-153 | after `TrustedKeyRemoved(name)`, every token whose `kid` is `name` fails with "Invalid signature" |
| `Auth.InstalledKeyVerifies` | src/example_event/auth.rs:84-85 | after `TrustedKeyAdded` installs a key, a token naming RS256 and that key's name as `kid`, whose signature the PKCS#1 v1.5 check accepts under the installed RSA key, verifies and yields its own claims |
| `Auth.KeyManagerIsNotTrusted` | src/example_event/auth.rs:196 | a `kid` found only among the key managers fails with "Invalid signature": key-manager keys are never used to verify |
| `Auth.AuthSettings.constructor` | src/example_event/auth.rs:47-56 | the store starts with three empty maps, no private key, an empty key name and a healthy lock |
| `Auth.AuthSettings.SetPrivateKey` | src/example_event/auth.rs:121-129 | succeeds if and only if both parses succeed and the lock is healthy; it then sets the key name and the key together, and on any failure leaves both as they were |
| `Auth.AuthSettings.UncheckedSetPublicKey` | src/example_event/auth.rs:131-135 | inserts or overwrites the trusted key under the payload's name; touches no other field; fails with the lock error and changes nothing on a poisoned lock |
| `Auth.AuthSettings.UncheckedSetKeyManager` | src/example_event/auth.rs:137-141 | inserts or overwrites the key-manager key under the payload's name and touches nothing else |
| `Auth.AuthSettings.UncheckedSetCredentials` | src/example_event/auth.rs:143-147 | inserts or overwrites the secret under the payload's identifier and touches nothing else |
| `Auth.AuthSettings.RemovePublicKey` | src/example_event/auth.rs:149-153 | deletes the name from the trusted keys, present or not, and returns Ok on a healthy lock |
| `Auth.AuthSettings.RemoveKeyManager` | src/example_event/auth.rs:155-159 | deletes the name from the key managers, present or not, and returns Ok on a healthy lock |
| `Auth.AuthSettings.RemoveCredentials` | src/example_event/auth.rs:161-165 | deletes the identifier from the credentials, present or not, and returns Ok on a healthy lock |
| `Auth.AuthSettings.HandleTrustedKeyAdded` | src/example_event/auth.rs:82-88 | the new store is `Apply` of the old one, and only the trusted keys may change; without payload it returns Ok without locking |
| `Auth.AuthSettings.HandleTrustedKeyRemoved` | src/example_event/auth.rs:90-93 | the new store is `Apply` of the old one, and only the trusted keys may change |
| `Auth.AuthSettings.HandleKeyManagerAdded` | src/example_event/auth.rs:95-101 | the new store is `Apply` of the old one, and only the key managers may change |
| `Auth.AuthSettings.HandleKeyManagerRemoved` | src/example_event/auth.rs:103-106 | the new store is `Apply` of the old one, and only the key managers may change |
| `Auth.AuthSettings.HandleCredentialsAdded` | src/example_event/auth.rs:108-114 | the new store is `Apply` of the old one, and only the credentials may change |
| `Auth.AuthSettings.HandleCredentialsRemoved` | src/example_event/auth.rs:116-119 | the new store is `Apply` of the old one, and only the credentials may change |
| `Auth.AuthSettings.VerifyJwt` | src/example_event/auth.rs:190-212 | verifying against the store reads only the trusted keys and the lock state, and gives the verdict of `Jwt.VerifyJwt` |
| `Greeter.GreeterEvent.ApplyTo` | src/example_command/mod.rs:80-116 | a started event sets the flag, a stopped event clears it, a greeted event leaves it alone |
| `Greeter.GreeterProjection.Clone` | src/example_command/mod.rs:75 | the copy is a new object with the same flag |
| `Greeter.AggregateContext.GetProjection` | src/example_command/mod.rs:126 | returns a new copy of the context's projection with the same flag |
| `Greeter.AggregateContext.Emit` | src/example_command/mod.rs:133-136 | appends the event to those emitted so far and changes nothing else |
| `Greeter.GreeterProjection.Default` | src/example_command/mod.rs:69 | the protobuf default projection is not recording |
| `Greeter.EmptyProjection` | src/example_command/mod.rs:68-72 | the initial projection is a new object that is recording |
| `Greeter.HandleSourcingEvent` | src/example_command/mod.rs:74-78 | returns `Some` of a new projection with the event applied, and leaves the projection passed in untouched |
| `Greeter.HandleGreetCommand` | src/example_command/mod.rs:118-141 | `"ERROR"` fails and emits nothing, whatever the flag; while stopped nothing is emitted and there is no reply; while recording exactly one greeted event carrying the greeting is emitted and the reply is `"ACK! "` plus the message, with `"-/-"` for a missing greeting |
| `Greeter.HandleRecordCommand` | src/example_command/mod.rs:143-153 | replies `Some` if and only if not recording, and then emits exactly one started event; otherwise emits nothing |
| `Greeter.HandleStopCommand` | src/example_command/mod.rs:155-165 | replies `Some` if and only if recording, and then emits exactly one stopped event; otherwise emits nothing |
| `Greeter.CommandEffects` | src/example_command/mod.rs:118-165 | a command emits at most one event; after applying what it emits, record leaves the aggregate recording, stop leaves it stopped, and greet leaves the flag as it was |
| `Greeter.RunIsConsistent` | src/example_command/mod.rs:118-165 | in any run of commands, no start is emitted while recording, no stop while stopped, and no greeting while stopped |
| `Greeter.FirstRecordingEventIsStop` | src/example_command/mod.rs:68-72 | from the initial projection, the first recording event any run emits is a stop |
| `Search.Greetings` | src/example_query/mod.rs:66-74 | the hits contribute at most one greeting each |
| `Search.ExtractGreetings` | src/example_query/mod.rs:63-79 | the result is the greetings of the hits followed by `"Test!"`; its length is between one and the number of hits plus one; it is exactly `["Test!"]` when `hits.hits` is not an array |
| `Search.GreetingsFollowHits` | src/example_query/mod.rs:67-72 | the k-th greeting is the string value of the k-th hit that has one, those hits' positions increase, and no hit with a string value is skipped |
| `Search.GreetingsAppend` | src/example_query/mod.rs:67-74 | the greetings of two hit lists joined are the greetings of each, joined |
| `Search.SingleHit` | src/example_query/mod.rs:68-73 | a hit contributes a greeting if and only if its `_source.value` is a JSON string, and then that string |

## Left out

- The crates `auth.rs` calls are not modelled. These are SHA-256, RSA
  PKCS#1 v1.5 verification, RSA key checks, `sshkeys` parsing, PEM and RSA
  private-key parsing, and base64url and JSON decoding of JWT segments. They
  are parameters, so no property depends on what they compute.
- A signed token does not provably round-trip through `verify_jwt`, and
  tampering with a signature or claims byte does not provably make it fail.
  Both need the correctness of RSA and SHA-256, which are parameters here.
  What is proved is that acceptance needs the PKCS#1 v1.5 check to succeed on
  the digest of the token's own signing input.
- Concurrency is not modelled: the `Mutex`, the `lazy_static` global and the
  async event processor. The store is one owned object. Lock poisoning is the
  `poisoned` field, and nothing in the model sets it, because panics in other
  threads are outside it.
- Event-handler registration, the `TokenStore` stubs, the aggregate and
  command registries and the command worker are not modelled. They are
  plumbing over the dendrite and AxonServer framework.
- Logging (`debug!`, `warn!`, `error!`) is not modelled.
- Greeter.HandleGreetCommand, Greeter.HandleRecordCommand and
  Greeter.HandleStopCommand never fail in `get_projection` or `emit`. Those
  calls go to the dendrite framework and can fail with a network or encoding
  error. The model has no such error path. `emit`'s event-type name is not
  kept, because it is determined by the event.
- Greeter.GreeterEvent.ApplyTo returns nothing. In the source, `apply_to`
  always returns `Ok(())`.
- The Elasticsearch request (src/example_query/mod.rs:54-61) is not modelled:
  it is network I/O. `axon_serialize` (line 81) is not modelled either: it is
  foreign serialisation. JSON numbers keep their text, so no floating point is
  modelled.
- `src/example_api/mod.rs`, `src/example_event/mongo.rs`,
  `src/elastic_search_utils/mod.rs`, `src/application.rs`,
  `present/src/Greet.js`, `src/main.rs`, `src/lib.rs`, `build.rs` and
  `src/example_event/mod.rs` are not part of this model. They hold gRPC
  services, database and search I/O, task wiring, a React UI and module
  declarations.
- `set_private_key` does not check the private key against a public key of
  the same name. The source leaves this as a TODO (auth.rs:124), and the model
  does not invent it.
