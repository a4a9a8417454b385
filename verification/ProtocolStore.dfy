/**
 The entry points in place (rust/protocol/src/storage/inmem.rs, session.rs, session_cipher.rs).

 Each method works on a copy of the stored record, in the order of the source, and stores it last. Its contract says
 that the stores end up as the outcome function says; on failure nothing but a saved identity can have changed.
 */
module ProtocolStores {
  import opened Prelude
  import opened Symbolic
  import opened RatchetKeys
  import opened Messages
  import opened SessionStates
  import opened SessionRecords
  import opened Handshake
  import opened Devices

  class InMemSignalProtocolStore {
    const identity: Name
    const registrationId: nat
    var knownKeys: map<Address, Name>
    var preKeys: map<PreKeyId, Name>
    var signedPreKeys: map<PreKeyId, Name>
    var kyberPreKeys: map<PreKeyId, Name>
    var baseKeysSeen: map<(PreKeyId, PreKeyId), seq<Name>>
    var sessions: map<Address, Record>

    ghost function Value(): Device
      reads this
    {
      Device(identity, registrationId, knownKeys, preKeys, signedPreKeys, kyberPreKeys, baseKeysSeen, sessions)
    }

    constructor (identity: Name, registrationId: nat)
      ensures Value() == Device(identity, registrationId, map[], map[], map[], map[], map[], map[])
    {
      this.identity, this.registrationId := identity, registrationId;
      knownKeys, preKeys, signedPreKeys, kyberPreKeys := map[], map[], map[], map[];
      baseKeysSeen, sessions := map[], map[];
    }

    method LoadSession(addr: Address) returns (r: SessionRecord)
      ensures fresh(r) && r.Value() == LoadOrFresh(Value(), addr)
    {
      r := new SessionRecord(if addr in sessions then sessions[addr] else FRESH_RECORD);
    }

    method SaveSession(addr: Address, r: SessionRecord)
      modifies this`sessions
      ensures Value() == StoreSession(old(Value()), addr, r.Value())
    {
      sessions := sessions[addr := Record(r.current, r.previous)];
    }

    method SaveKnownKey(addr: Address, key: Name)
      modifies this`knownKeys
      ensures Value() == SaveIdentity(old(Value()), addr, key)
    {
      knownKeys := knownKeys[addr := key];
    }

    method Trusts(addr: Address, key: Name) returns (ok: bool)
      ensures ok == IsTrusted(Value(), addr, key)
    {
      ok := addr !in knownKeys || knownKeys[addr] == key;
    }

    method MarkKyberPreKeyUsed(kyber: PreKeyId, signed: PreKeyId, base: Name) returns (r: Result<(), Error>)
      modifies this`baseKeysSeen
      ensures match MarkKyberUsed(old(Value()), kyber, signed, base)
              case Err(e) => r == Err(e) && Value() == old(Value())
              case Ok(d) => r == Ok(()) && Value() == d
    {
      var seen := if (kyber, signed) in baseKeysSeen then baseKeysSeen[(kyber, signed)] else [];
      if base in seen {
        return Err(InvalidMessage);
      }
      baseKeysSeen := baseKeysSeen[(kyber, signed) := seen + [base]];
      return Ok(());
    }

    method ProcessBundle(addr: Address, b: PreKeyBundle, now: nat, base: Name, coins: Name, eph: Name, pqInit: PqInit)
      returns (r: Result<(), Error>)
      modifies this
      ensures match ProcessPreKeyBundle(old(Value()), addr, b, now, base, coins, eph, pqInit)
              case Err(e) => r == Err(e) && Value() == old(Value())
              case Ok(d) => r == Ok(()) && Value() == d
    {
      var trusted := Trusts(addr, b.identityKey);
      if !trusted {
        return Err(UntrustedIdentity);
      }
      if b.signedPreKeySignature != Signed(b.identityKey, b.signedPreKey) {
        return Err(SignatureValidationFailed);
      }
      if b.kyberPreKeySignature != Signed(b.identityKey, b.kyberPreKey) {
        return Err(SignatureValidationFailed);
      }
      var rec := LoadSession(addr);
      var parameters := AliceParameters(identity, base, b.identityKey, b.signedPreKey, None, b.signedPreKey,
                                        b.kyberPreKey);
      if b.preKey.Some? {
        parameters := parameters.(theirOneTimePreKey := Some(b.preKey.value.1));
      }
      var state := InitializeAliceSession(parameters, coins, eph, pqInit);
      var id := if b.preKey.Some? then Some(b.preKey.value.0) else None;
      state.session := state.session.(pendingPreKey := Some(PendingPreKey(id, b.signedPreKeyId, base, now)));
      var pending := state.session.pendingKyber.value;
      state.session := state.session.(pendingKyber := Some(pending.(preKeyId := b.kyberPreKeyId)));
      state.session := state.session.(localRegistrationId := registrationId);
      state.session := state.session.(remoteRegistrationId := b.registrationId);
      SaveKnownKey(addr, b.identityKey);
      rec.PromoteNew(state.session);
      SaveSession(addr, rec);
      return Ok(());
    }

    method Encrypt(addr: Address, plaintext: Plaintext, now: nat, pqSend: PqSend)
      returns (r: Result<CiphertextMessage, Error>)
      modifies this
      ensures match MessageEncrypt(old(Value()), addr, plaintext, now, pqSend)
              case Err(e) => r == Err(e) && Value() == old(Value())
              case Ok((d, m)) => r == Ok(m) && Value() == d
    {
      if addr !in sessions {
        return Err(SessionNotFound);
      }
      var rec := LoadSession(addr);
      if rec.current.None? {
        return Err(SessionNotFound);
      }
      var state := new SessionState(rec.current.value);
      if state.session.senderChain.None? {
        return Err(InvalidSessionStructure);
      }
      var chainKey := state.session.senderChain.value.chainKey;
      var sent := pqSend(state.session.pq);
      if sent.None? {
        return Err(InvalidState);
      }
      var (pq, pqKey, pqMsg) := sent.value;
      state.session := state.session.(pq := pq);
      if Stale(state.session, now) {
        return Err(SessionNotFound);
      }
      if chainKey.index >= U32_MAX {
        return Err(CounterOverflow);
      }
      var m := SealMessage(SessionVersion(state.session), SeedOf(chainKey), pqKey,
                           state.session.senderChain.value.ratchetKey, state.session.previousCounter,
                           state.session.localIdentity, state.session.remoteIdentity, pqMsg, plaintext);
      var message := Wrap(state.session, m);
      state.SetSenderChain(state.session.senderChain.value.ratchetKey, NextChainKey(chainKey));
      var theirs := state.session.remoteIdentity;
      var trusted := Trusts(addr, theirs);
      if !trusted {
        return Err(UntrustedIdentity);
      }
      SaveKnownKey(addr, theirs);
      rec.current := Some(state.session);
      SaveSession(addr, rec);
      return Ok(message);
    }

    /** Prepares the working record for a pre-key message; only the record changes. */
    method ProcessPreKeyMessage(rec: SessionRecord, pm: PreKeySignalMessage, o: Oracles, pqInit: PqInit)
      returns (r: Result<Option<PreKeysUsed>, Error>)
      modifies rec
      ensures match ProcessPreKey(Value(), old(rec.Value()), pm, o, pqInit)
              case Err(e) => r == Err(e)
              case Ok((rec', used)) => r == Ok(used) && rec.Value() == rec'
    {
      var found := rec.PromoteMatchingSession(pm.version, pm.baseKey);
      if found {
        return Ok(None);
      }
      if pm.version == PRE_KYBER_VERSION {
        return Err(InvalidMessage);
      }
      if pm.signedPreKeyId !in signedPreKeys {
        return Err(InvalidSignedPreKeyId);
      }
      if pm.kyberPreKeyId.None? {
        return Err(InvalidMessage);
      }
      if pm.kyberPreKeyId.value !in kyberPreKeys {
        return Err(InvalidKyberPreKeyId);
      }
      if pm.kyberCiphertext.None? {
        return Err(InvalidMessage);
      }
      if pm.preKeyId.Some? && pm.preKeyId.value !in preKeys {
        return Err(InvalidPreKeyId);
      }
      var oneTime := if pm.preKeyId.Some? then Some(preKeys[pm.preKeyId.value]) else None;
      var signed := signedPreKeys[pm.signedPreKeyId];
      var parameters := BobParameters(identity, signed, oneTime, signed, kyberPreKeys[pm.kyberPreKeyId.value],
                                      pm.identityKey, pm.baseKey, pm.kyberCiphertext.value);
      var state :- InitializeBobSession(parameters, o, pqInit);
      state.session := state.session.(localRegistrationId := registrationId);
      state.session := state.session.(remoteRegistrationId := pm.registrationId);
      rec.PromoteNew(state.session);
      return Ok(Some(PreKeysUsed(pm.preKeyId, pm.signedPreKeyId, pm.kyberPreKeyId.value)));
    }

    method DecryptPreKey(addr: Address, pm: PreKeySignalMessage, eph: Name, o: Oracles, pqInit: PqInit)
      returns (r: Result<Plaintext, Error>)
      modifies this
      ensures (Value(), r) == MessageDecryptPreKey(old(Value()), addr, pm, eph, o, pqInit)
    {
      if !WireVersion(pm.version) {
        return Err(BadCiphertextVersion(pm.version));
      }
      var rec := LoadSession(addr);
      var trusted := Trusts(addr, pm.identityKey);
      if !trusted {
        return Err(UntrustedIdentity);
      }
      var used :- ProcessPreKeyMessage(rec, pm, o, pqInit);
      var plaintext :- rec.DecryptMessage(pm.message, PreKeyKind, eph, o);
      SaveKnownKey(addr, pm.identityKey);
      if used.Some? {
        var _ :- MarkKyberPreKeyUsed(used.value.kyber, used.value.signed, pm.baseKey);
        if used.value.oneTime.Some? {
          preKeys := preKeys - {used.value.oneTime.value};
        }
      }
      SaveSession(addr, rec);
      return Ok(plaintext);
    }

    method DecryptSignal(addr: Address, m: SignalMessage, eph: Name, o: Oracles) returns (r: Result<Plaintext, Error>)
      modifies this
      ensures (Value(), r) == MessageDecryptSignal(old(Value()), addr, m, eph, o)
    {
      if addr !in sessions {
        return Err(SessionNotFound);
      }
      var rec := LoadSession(addr);
      var plaintext :- rec.DecryptMessage(m, WhisperKind, eph, o);
      var theirs := rec.current.value.remoteIdentity;
      var trusted := Trusts(addr, theirs);
      if !trusted {
        return Err(UntrustedIdentity);
      }
      SaveKnownKey(addr, theirs);
      SaveSession(addr, rec);
      return Ok(plaintext);
    }
  }
}
