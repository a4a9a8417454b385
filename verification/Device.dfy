/**
 One device: the in-memory stores (rust/protocol/src/storage/inmem.rs), pre-key processing
 (rust/protocol/src/session.rs) and the message entry points (rust/protocol/src/session_cipher.rs:19-327).

 `Device` is the value of all stores. The functions give the new stores and the result of each entry point;
 class `InMemSignalProtocolStore` holds the same maps and performs the entry points in place.
 */
module Devices {
  import opened Prelude
  import opened Symbolic
  import opened Messages
  import opened SessionStates
  import opened SessionCipher
  import opened SessionRecords
  import opened Handshake

  type Address = nat
  type PreKeyId = nat

  datatype Device = Device(
    identity: Name,
    registrationId: nat,
    knownKeys: map<Address, Name>,
    preKeys: map<PreKeyId, Name>,
    signedPreKeys: map<PreKeyId, Name>,
    kyberPreKeys: map<PreKeyId, Name>,
    baseKeysSeen: map<(PreKeyId, PreKeyId), seq<Name>>,
    sessions: map<Address, Record>)

  datatype Signature = Signed(signer: Name, key: Name) | RawSignature(bytes: seq<bv8>)

  datatype PreKeyBundle = PreKeyBundle(
    registrationId: nat,
    identityKey: Name,
    signedPreKeyId: PreKeyId, signedPreKey: Name, signedPreKeySignature: Signature,
    kyberPreKeyId: PreKeyId, kyberPreKey: Name, kyberPreKeySignature: Signature,
    preKey: Option<(PreKeyId, Name)>)

  datatype PreKeysUsed = PreKeysUsed(oneTime: Option<PreKeyId>, signed: PreKeyId, kyber: PreKeyId)

  /** The sending half of the post-quantum ratchet, as an arbitrary function of its state. */
  type PqSend = PqState -> Option<(PqState, Option<Term>, PqMessage)>

  // ---------------------------------------------------------------------------------------------
  // Stores

  predicate IsTrusted(d: Device, addr: Address, key: Name) {
    addr !in d.knownKeys || d.knownKeys[addr] == key
  }

  function SaveIdentity(d: Device, addr: Address, key: Name): Device {
    d.(knownKeys := d.knownKeys[addr := key])
  }

  function LoadOrFresh(d: Device, addr: Address): Record {
    if addr in d.sessions then d.sessions[addr] else FRESH_RECORD
  }

  function StoreSession(d: Device, addr: Address, r: Record): Device {
    d.(sessions := d.sessions[addr := r])
  }

  predicate BaseKeySeen(d: Device, kyber: PreKeyId, signed: PreKeyId, base: Name) {
    (kyber, signed) in d.baseKeysSeen && base in d.baseKeysSeen[(kyber, signed)]
  }

  function MarkKyberUsed(d: Device, kyber: PreKeyId, signed: PreKeyId, base: Name): Result<Device, Error> {
    var seen := if (kyber, signed) in d.baseKeysSeen then d.baseKeysSeen[(kyber, signed)] else [];
    if base in seen then Err(InvalidMessage)
    else Ok(d.(baseKeysSeen := d.baseKeysSeen[(kyber, signed) := seen + [base]]))
  }

  // ---------------------------------------------------------------------------------------------
  // Starting a session from a bundle

  function BundleParameters(d: Device, b: PreKeyBundle, base: Name): AliceParameters {
    AliceParameters(d.identity, base, b.identityKey, b.signedPreKey,
                    if b.preKey.Some? then Some(b.preKey.value.1) else None,
                    b.signedPreKey, b.kyberPreKey)
  }

  function NewOutgoing(d: Device, b: PreKeyBundle, now: nat, base: Name, coins: Name, eph: Name, pqInit: PqInit)
    : SessionStructure
  {
    PqxdhAlice(BundleParameters(d, b, base), coins, eph, pqInit)
    .(pendingPreKey := Some(PendingPreKey(if b.preKey.Some? then Some(b.preKey.value.0) else None,
                                          b.signedPreKeyId, base, now)),
      pendingKyber := Some(PendingKyber(b.kyberPreKeyId, Encapsulate(b.kyberPreKey, coins).1)),
      localRegistrationId := d.registrationId,
      remoteRegistrationId := b.registrationId)
  }

  function ProcessPreKeyBundle(d: Device, addr: Address, b: PreKeyBundle, now: nat,
                               base: Name, coins: Name, eph: Name, pqInit: PqInit): Result<Device, Error>
  {
    if !IsTrusted(d, addr, b.identityKey) then Err(UntrustedIdentity)
    else if b.signedPreKeySignature != Signed(b.identityKey, b.signedPreKey) then Err(SignatureValidationFailed)
    else if b.kyberPreKeySignature != Signed(b.identityKey, b.kyberPreKey) then Err(SignatureValidationFailed)
    else
      var r := PromoteState(LoadOrFresh(d, addr), NewOutgoing(d, b, now, base, coins, eph, pqInit));
      Ok(StoreSession(SaveIdentity(d, addr, b.identityKey), addr, r))
  }

  // ---------------------------------------------------------------------------------------------
  // Sending

  predicate Stale(s: SessionStructure, now: nat) {
    s.pendingPreKey.Some? && s.pendingPreKey.value.timestamp + MAX_UNACKNOWLEDGED_SESSION_AGE < now
  }

  /** A message from a session that was not acknowledged yet is wrapped for the peer to start from. */
  function Wrap(s: SessionStructure, m: SignalMessage): CiphertextMessage {
    match s.pendingPreKey
    case None => Whisper(m)
    case Some(p) =>
      PreKey(PreKeySignalMessage(
               SessionVersion(s), s.localRegistrationId, p.preKeyId, p.signedPreKeyId,
               if s.pendingKyber.Some? then Some(s.pendingKyber.value.preKeyId) else None,
               if s.pendingKyber.Some? then Some(s.pendingKyber.value.ciphertext) else None,
               p.baseKey, s.localIdentity, m))
  }

  function MessageEncrypt(d: Device, addr: Address, plaintext: Plaintext, now: nat, pqSend: PqSend)
    : Result<(Device, CiphertextMessage), Error>
  {
    if addr !in d.sessions || d.sessions[addr].current.None? then Err(SessionNotFound)
    else
      var r := d.sessions[addr];
      var s := r.current.value;
      if s.senderChain.None? then Err(InvalidSessionStructure)
      else match pqSend(s.pq)
           case None => Err(InvalidState)
           case Some((pq, pqKey, pqMsg)) =>
             if Stale(s, now) then Err(SessionNotFound)
             else if s.senderChain.value.chainKey.index >= U32_MAX then Err(CounterOverflow)
             else if !IsTrusted(d, addr, s.remoteIdentity) then Err(UntrustedIdentity)
             else
               var (s', m) := EncryptWithState(s, plaintext, pq, pqKey, pqMsg);
               Ok((StoreSession(SaveIdentity(d, addr, s.remoteIdentity), addr, r.(current := Some(s'))), Wrap(s, m)))
  }

  // ---------------------------------------------------------------------------------------------
  // Receiving

  predicate HasPreKeys(d: Device, pm: PreKeySignalMessage) {
    && pm.signedPreKeyId in d.signedPreKeys
    && pm.kyberPreKeyId.Some? && pm.kyberPreKeyId.value in d.kyberPreKeys && pm.kyberCiphertext.Some?
    && (pm.preKeyId.Some? ==> pm.preKeyId.value in d.preKeys)
  }

  function IncomingParameters(d: Device, pm: PreKeySignalMessage): BobParameters
    requires HasPreKeys(d, pm)
  {
    var signed := d.signedPreKeys[pm.signedPreKeyId];
    BobParameters(d.identity, signed,
                  if pm.preKeyId.Some? then Some(d.preKeys[pm.preKeyId.value]) else None,
                  signed, d.kyberPreKeys[pm.kyberPreKeyId.value],
                  pm.identityKey, pm.baseKey, pm.kyberCiphertext.value)
  }

  function NewIncoming(d: Device, pm: PreKeySignalMessage, pqInit: PqInit): SessionStructure
    requires HasPreKeys(d, pm)
  {
    PqxdhBob(IncomingParameters(d, pm), pqInit)
    .(localRegistrationId := d.registrationId, remoteRegistrationId := pm.registrationId)
  }

  /** The working record with a session for the message made current, and the pre-keys a new session used. */
  function ProcessPreKey(d: Device, r: Record, pm: PreKeySignalMessage, o: Oracles, pqInit: PqInit)
    : Result<(Record, Option<PreKeysUsed>), Error>
  {
    match PromoteMatching(r, pm.version, pm.baseKey)
    case Some(promoted) => Ok((promoted, None))
    case None =>
      if pm.version == PRE_KYBER_VERSION then Err(InvalidMessage)
      else if pm.signedPreKeyId !in d.signedPreKeys then Err(InvalidSignedPreKeyId)
      else if pm.kyberPreKeyId.None? then Err(InvalidMessage)
      else if pm.kyberPreKeyId.value !in d.kyberPreKeys then Err(InvalidKyberPreKeyId)
      else if pm.kyberCiphertext.None? then Err(InvalidMessage)
      else if pm.preKeyId.Some? && pm.preKeyId.value !in d.preKeys then Err(InvalidPreKeyId)
      else if !o.canonical(pm.baseKey) then Err(InvalidMessage)
      else Ok((PromoteState(r, NewIncoming(d, pm, pqInit)),
               Some(PreKeysUsed(pm.preKeyId, pm.signedPreKeyId, pm.kyberPreKeyId.value))))
  }

  /** The stores after the pre-keys of a new session were used up; a base key may be used once per key pair. */
  function UsePreKeys(d: Device, used: Option<PreKeysUsed>, base: Name): Result<Device, Error> {
    match used
    case None => Ok(d)
    case Some(u) =>
      var marked :- MarkKyberUsed(d, u.kyber, u.signed, base);
      Ok(if u.oneTime.Some? then marked.(preKeys := marked.preKeys - {u.oneTime.value}) else marked)
  }

  /** Versions a serialized message may have. */
  predicate WireVersion(version: nat) {
    PRE_KYBER_VERSION <= version <= CURRENT_VERSION
  }

  function MessageDecryptPreKey(d: Device, addr: Address, pm: PreKeySignalMessage, eph: Name, o: Oracles,
                                pqInit: PqInit)
    : (Device, Result<Plaintext, Error>)
  {
    if !WireVersion(pm.version) then (d, Err(BadCiphertextVersion(pm.version)))
    else if !IsTrusted(d, addr, pm.identityKey) then (d, Err(UntrustedIdentity))
    else match ProcessPreKey(d, LoadOrFresh(d, addr), pm, o, pqInit)
         case Err(e) => (d, Err(e))
         case Ok((r, used)) =>
           match DecryptWithRecord(r, pm.message, PreKeyKind, eph, o)
           case Err(e) => (d, Err(e))
           case Ok((r', plaintext)) =>
             var saved := SaveIdentity(d, addr, pm.identityKey);
             match UsePreKeys(saved, used, pm.baseKey)
             case Err(e) => (saved, Err(e))
             case Ok(consumed) => (StoreSession(consumed, addr, r'), Ok(plaintext))
  }

  function MessageDecryptSignal(d: Device, addr: Address, m: SignalMessage, eph: Name, o: Oracles)
    : (Device, Result<Plaintext, Error>)
  {
    if addr !in d.sessions then (d, Err(SessionNotFound))
    else match DecryptWithRecord(d.sessions[addr], m, WhisperKind, eph, o)
         case Err(e) => (d, Err(e))
         case Ok((r, plaintext)) =>
           if !IsTrusted(d, addr, r.current.value.remoteIdentity) then (d, Err(UntrustedIdentity))
           else (StoreSession(SaveIdentity(d, addr, r.current.value.remoteIdentity), addr, r), Ok(plaintext))
  }

  function ArchiveSession(d: Device, addr: Address): Device {
    if addr in d.sessions then StoreSession(d, addr, ArchiveCurrent(d.sessions[addr])) else d
  }
}
