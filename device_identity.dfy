/**
 * The device identity used in the gateway connect handshake: an Ed25519 key
 * pair stored in `~/.openclaw/identity/device-identity.json`, a device id
 * derived from the public key, and the `|`-separated payload that is signed.
 *
 * Key generation, DER export, SHA-256, signing and base64url encoding are
 * opaque: they are passed in as functions or values.
 */
module DeviceIdentity {
  import opened Wrappers
  import opened Text

  newtype byte = x: int | 0 <= x < 256

  /**
   * The DER prefix of an Ed25519 SubjectPublicKeyInfo (RFC 8410, section 4):
   * SEQUENCE, SEQUENCE { OID 1.3.101.112 }, BIT STRING of 33 bytes, no unused bits.
   */
  const Ed25519SpkiPrefix: seq<byte> := [0x30, 0x2a, 0x30, 0x05, 0x06, 0x03, 0x2b, 0x65, 0x70, 0x03, 0x21, 0x00]

  /** `derivePublicKeyRaw` on the exported DER: the raw 32-byte key when the DER is an Ed25519 SPKI, else the DER. */
  function PublicKeyRaw(der: seq<byte>): (raw: seq<byte>)
    ensures |der| == |Ed25519SpkiPrefix| + 32 && der[..|Ed25519SpkiPrefix|] == Ed25519SpkiPrefix ==>
      |raw| == 32 && Ed25519SpkiPrefix + raw == der
    ensures !(|der| == |Ed25519SpkiPrefix| + 32 && der[..|Ed25519SpkiPrefix|] == Ed25519SpkiPrefix) ==>
      raw == der
  {
    if |der| == |Ed25519SpkiPrefix| + 32 && der[..|Ed25519SpkiPrefix|] == Ed25519SpkiPrefix
    then der[|Ed25519SpkiPrefix|..]
    else der
  }

  /** Stripping the prefix undoes the SPKI wrapping of any 32-byte key. */
  lemma RawOfWrapped(key: seq<byte>)
    requires |key| == 32
    ensures PublicKeyRaw(Ed25519SpkiPrefix + key) == key
  {
    assert (Ed25519SpkiPrefix + key)[..|Ed25519SpkiPrefix|] == Ed25519SpkiPrefix;
  }

  /**
   * The opaque primitives the identity code relies on. `validPem` says
   * whether a PEM string parses as a public key; on one that does not,
   * `fingerprintPublicKey` throws.
   */
  datatype Crypto = Crypto(
    validPem: string -> bool,
    spkiDer: string -> seq<byte>,
    sha256Hex: seq<byte> -> string,
    sign: (string, string) -> seq<byte>,
    base64Url: seq<byte> -> string)

  /** `fingerprintPublicKey`: the SHA-256 of the raw public key. */
  function Fingerprint(c: Crypto, publicKeyPem: string): string
  {
    c.sha256Hex(PublicKeyRaw(c.spkiDer(publicKeyPem)))
  }

  datatype Identity = Identity(deviceId: string, publicKeyPem: string, privateKeyPem: string)

  /** The identity file as read: `Corrupt` when unreadable; absent or non-string fields are `None`. */
  datatype StoredFile =
    | Corrupt
    | Stored(version: Option<int>, deviceId: Option<string>, publicKeyPem: Option<string>,
             privateKeyPem: Option<string>, createdAtMs: Option<int>)

  /**
   * The check a stored identity must pass to be loaded: version 1, three
   * string fields, and a public key the fingerprint can be taken of (an
   * unparsable one throws into the `catch` that regenerates).
   */
  predicate Loadable(c: Crypto, f: StoredFile)
  {
    f.Stored? && f.version == Some(1) && f.deviceId.Some? && f.publicKeyPem.Some? && f.privateKeyPem.Some? &&
    c.validPem(f.publicKeyPem.value)
  }

  /** What `loadOrCreateDeviceIdentity` hands out when nothing is cached. */
  function LoadedOrNew(c: Crypto, file: Option<StoredFile>, generated: (string, string)): (id: Identity)
    ensures file.Some? && Loadable(c, file.value) ==>
      id.publicKeyPem == file.value.publicKeyPem.value && id.privateKeyPem == file.value.privateKeyPem.value
    ensures !(file.Some? && Loadable(c, file.value)) ==>
      id.publicKeyPem == generated.0 && id.privateKeyPem == generated.1
    ensures id.deviceId == Fingerprint(c, id.publicKeyPem)
  {
    if file.Some? && Loadable(c, file.value) then
      var f := file.value;
      Identity(Fingerprint(c, f.publicKeyPem.value), f.publicKeyPem.value, f.privateKeyPem.value)
    else
      Identity(Fingerprint(c, generated.0), generated.0, generated.1)
  }

  /** A loaded identity's id comes from its key, whatever id the file recorded. */
  lemma StoredIdIgnored(c: Crypto, f: StoredFile, otherId: string, generated: (string, string))
    requires Loadable(c, f)
    ensures LoadedOrNew(c, Some(f), generated) == LoadedOrNew(c, Some(f.(deviceId := Some(otherId))), generated)
  {
  }

  /**
   * Writing a fresh identity and loading it back gives the same identity
   * (the fresh public key is one the crypto module exported, so it parses).
   */
  lemma WrittenIdentityReloads(c: Crypto, file: Option<StoredFile>, generated: (string, string), nowMs: int, later: (string, string))
    requires !(file.Some? && Loadable(c, file.value))
    requires c.validPem(generated.0)
    ensures var id := LoadedOrNew(c, file, generated);
      LoadedOrNew(c, Some(Stored(Some(1), Some(id.deviceId), Some(id.publicKeyPem), Some(id.privateKeyPem), Some(nowMs))), later) == id
  {
  }

  /**
   * The identity store: the identity file on disk (`None` when missing) and
   * the identity cached for the life of the process.
   */
  class IdentityStore {
    var file: Option<StoredFile>
    var cached: Option<Identity>

    constructor(file: Option<StoredFile>)
      ensures this.file == file && cached.None?
    {
      this.file := file;
      cached := None;
    }

    /**
     * `loadOrCreateDeviceIdentity`: the cached identity if any; otherwise the
     * stored one (with its id recomputed) or a newly generated one, which is
     * written to disk. Either way it is cached.
     */
    method LoadOrCreateDeviceIdentity(c: Crypto, generated: (string, string), nowMs: int) returns (id: Identity)
      modifies this
      ensures old(cached).Some? ==> id == old(cached).value && file == old(file)
      ensures old(cached).None? ==> id == LoadedOrNew(c, old(file), generated)
      ensures old(cached).None? && old(file).Some? && Loadable(c, old(file).value) ==> file == old(file)
      ensures old(cached).None? && !(old(file).Some? && Loadable(c, old(file).value)) ==>
        file == Some(Stored(Some(1), Some(id.deviceId), Some(id.publicKeyPem), Some(id.privateKeyPem), Some(nowMs)))
      ensures cached == Some(id)
    {
      if cached.Some? {
        return cached.value;
      }
      if file.Some? && Loadable(c, file.value) {
        var parsed := file.value;
        var derivedId := Fingerprint(c, parsed.publicKeyPem.value);
        id := Identity(derivedId, parsed.publicKeyPem.value, parsed.privateKeyPem.value);
        cached := Some(id);
        return id;
      }
      var deviceId := Fingerprint(c, generated.0);
      id := Identity(deviceId, generated.0, generated.1);
      file := Some(Stored(Some(1), Some(deviceId), Some(generated.0), Some(generated.1), Some(nowMs)));
      cached := Some(id);
    }

    /** `signDeviceAuth`: signs the payload with the (cached or loaded) identity. */
    method SignDeviceAuth(c: Crypto, params: AuthParams, generated: (string, string), nowMs: int)
      returns (result: AuthResult)
      modifies this
      ensures cached.Some? && result.id == cached.value.deviceId
      ensures result.nonce == params.nonce && result.signedAt == nowMs
      ensures result.signature == c.base64Url(c.sign(cached.value.privateKeyPem, Payload(
        PayloadParams(cached.value.deviceId, params.clientId, params.clientMode, params.role,
                      params.scopes, nowMs, params.token, params.nonce))))
      ensures result.publicKey == c.base64Url(PublicKeyRaw(c.spkiDer(cached.value.publicKeyPem)))
      ensures old(cached).Some? ==> cached == old(cached)
    {
      var identity := LoadOrCreateDeviceIdentity(c, generated, nowMs);
      var signedAtMs := nowMs;
      var payload := Payload(PayloadParams(identity.deviceId, params.clientId, params.clientMode, params.role,
                                           params.scopes, signedAtMs, params.token, params.nonce));
      var signature := c.base64Url(c.sign(identity.privateKeyPem, payload));
      var publicKey := c.base64Url(PublicKeyRaw(c.spkiDer(identity.publicKeyPem)));
      result := AuthResult(identity.deviceId, publicKey, signature, signedAtMs, params.nonce);
    }
  }

  datatype AuthParams = AuthParams(
    clientId: string, clientMode: string, role: string, scopes: seq<string>, token: string, nonce: Option<string>)

  datatype AuthResult = AuthResult(id: string, publicKey: string, signature: string, signedAt: int, nonce: Option<string>)

  datatype PayloadParams = PayloadParams(
    deviceId: string, clientId: string, clientMode: string, role: string,
    scopes: seq<string>, signedAtMs: int, token: string, nonce: Option<string>)

  /** A nonce is used only when it is given and non-empty. */
  predicate HasNonce(p: PayloadParams)
  {
    p.nonce.Some? && p.nonce.value != ""
  }

  /** The payload's fields, in order: version, ids, mode, role, scopes, time, token, then the nonce for v2. */
  function PayloadFields(p: PayloadParams): (fields: seq<string>)
    ensures |fields| == if HasNonce(p) then 9 else 8
    ensures fields[0] == (if HasNonce(p) then "v2" else "v1")
  {
    var version := if HasNonce(p) then "v2" else "v1";
    var base := [version, p.deviceId, p.clientId, p.clientMode, p.role, Join(p.scopes, ","),
                 IntToString(p.signedAtMs), p.token];
    if version == "v2" then base + [p.nonce.value] else base
  }

  /** `buildDeviceAuthPayload`. */
  function Payload(p: PayloadParams): (payload: string)
    ensures StartsWith(payload, if HasNonce(p) then "v2" else "v1")
  {
    JoinEnds(PayloadFields(p), "|");
    Join(PayloadFields(p), "|")
  }

  /** None of the caller's strings contains the field separator. */
  predicate SeparatorFree(p: PayloadParams)
  {
    '|' !in p.deviceId && '|' !in p.clientId && '|' !in p.clientMode && '|' !in p.role && '|' !in p.token &&
    (forall i :: 0 <= i < |p.scopes| ==> '|' !in p.scopes[i]) &&
    (p.nonce.Some? ==> '|' !in p.nonce.value)
  }

  /**
   * When no field contains `|`, splitting the payload on `|` recovers the
   * fields: eight for v1, nine (the nonce last) for v2.
   */
  lemma PayloadSplits(p: PayloadParams)
    requires SeparatorFree(p)
    ensures Split(Payload(p), '|') == PayloadFields(p)
    ensures |Split(Payload(p), '|')| == (if HasNonce(p) then 9 else 8)
    ensures HasNonce(p) ==> Split(Payload(p), '|')[8] == p.nonce.value
    ensures Split(Payload(p), '|')[6] == IntToString(p.signedAtMs)
  {
    var fields := PayloadFields(p);
    JoinAvoids(p.scopes, ",", '|');
    NumeralSeparatorFree(p.signedAtMs);
    assert forall i :: 0 <= i < |fields| ==> '|' !in fields[i];
    SplitJoin(fields, '|');
  }

  lemma NumeralSeparatorFree(n: int)
    ensures '|' !in IntToString(n)
  {
  }
}
