/**
 Why a pre-key may be saved under one ID only (rust/protocol/src/storage/inmem.rs:237-265).

 The record of used base keys is kept per pair of pre-key IDs. The store accepts one key pair under two IDs, at once or
 one after the other, and a pre-key message that was received once is then received again when it names the other ID
 and arrives under another address.
 */
module PreKeyReuse {
  import opened Prelude
  import opened Symbolic
  import opened RatchetKeys
  import opened Messages
  import opened SessionStates
  import opened SessionCipher
  import opened SessionRecords
  import opened Handshake
  import opened Devices
  import opened DeviceRuns
  import opened LockStep
  import opened PairRuns

  /** Whether a message opens, and to what, does not depend on the ratchet key generated on the way. */
  lemma FreshKeyIsIrrelevant(s: SessionStructure, m: SignalMessage, eph: Name, eph': Name, o: Oracles)
    requires DecryptWithState(s, m, eph, o).Ok?
    ensures DecryptWithState(s, m, eph', o).Ok?
    ensures DecryptWithState(s, m, eph', o).value.1 == DecryptWithState(s, m, eph, o).value.1
  {
    if FindChain(s.receiverChains, m.content.ratchetKey).None? {
      var (_, receiving) := CreateChain(s.rootKey, m.content.ratchetKey, s.senderChain.value.ratchetKey);
      FindLast(s.receiverChains, Chain(m.content.ratchetKey, receiving, []));
    }
  }

  /** A device of the same identity holds the message's signed and Kyber pre-keys under the given IDs. */
  ghost predicate HeldAs(d: Device, pm: PreKeySignalMessage, later: Device, signedId: PreKeyId, kyberId: PreKeyId) {
    && HasPreKeys(d, pm) && signedId in later.signedPreKeys && kyberId in later.kyberPreKeys
    && later.signedPreKeys[signedId] == d.signedPreKeys[pm.signedPreKeyId]
    && later.kyberPreKeys[kyberId] == d.kyberPreKeys[pm.kyberPreKeyId.value]
    && later.identity == d.identity
  }

  /** The message with the other IDs in its header, which its MAC does not cover. */
  function Renamed(pm: PreKeySignalMessage, signedId: PreKeyId, kyberId: PreKeyId): PreKeySignalMessage {
    pm.(signedPreKeyId := signedId, kyberPreKeyId := Some(kyberId))
  }

  /**
   A pre-key message that started a session is accepted again at any later time at which the key pairs are held under
   IDs whose record lacks the base key, whether or not they are still held under the first ones.
   */
  lemma OtherIdsReceiveAgain(d: Device, later: Device, addr: Address, other: Address, pm: PreKeySignalMessage,
                             signedId: PreKeyId, kyberId: PreKeyId, eph: Name, eph': Name, o: Oracles, pqInit: PqInit)
    requires ArchiveFits(d, addr) && pm.preKeyId.None? && HeldAs(d, pm, later, signedId, kyberId)
    requires PromoteMatching(LoadOrFresh(d, addr), pm.version, pm.baseKey).None?
    requires MessageDecryptPreKey(d, addr, pm, eph, o, pqInit).1.Ok?
    requires other !in later.sessions && IsTrusted(later, other, pm.identityKey)
             && !BaseKeySeen(later, kyberId, signedId, pm.baseKey)
    ensures MessageDecryptPreKey(later, other, Renamed(pm, signedId, kyberId), eph', o, pqInit).1
         == MessageDecryptPreKey(d, addr, pm, eph, o, pqInit).1
  {
    StartsNew(d, addr, pm, eph, o, pqInit);
    var session := NewIncoming(d, pm, pqInit);
    assert MessageDecryptPreKey(d, addr, pm, eph, o, pqInit).1
        == Ok(DecryptWithState(session, pm.message, eph, o).value.1);
    FreshKeyIsIrrelevant(session, pm.message, eph, eph', o);
    RegistrationIsIrrelevant(session, later.registrationId, session.remoteRegistrationId, pm.message, eph', o);
    assert IncomingParameters(later, Renamed(pm, signedId, kyberId)) == IncomingParameters(d, pm);
    AcceptedFromScratch(later, other, Renamed(pm, signedId, kyberId), eph', o, pqInit);
  }

  /** An address without sessions: a pre-key message is accepted if its new session opens it and its base key is new. */
  lemma AcceptedFromScratch(d: Device, addr: Address, pm: PreKeySignalMessage, eph: Name, o: Oracles, pqInit: PqInit)
    requires addr !in d.sessions && IsTrusted(d, addr, pm.identityKey) && pm.version == CURRENT_VERSION
             && HasPreKeys(d, pm) && o.canonical(pm.baseKey)
    requires !BaseKeySeen(d, pm.kyberPreKeyId.value, pm.signedPreKeyId, pm.baseKey)
    requires DecryptWithState(NewIncoming(d, pm, pqInit), pm.message, eph, o).Ok?
    ensures MessageDecryptPreKey(d, addr, pm, eph, o, pqInit).1
         == Ok(DecryptWithState(NewIncoming(d, pm, pqInit), pm.message, eph, o).value.1)
  {
  }

  // ---------------------------------------------------------------------------------------------
  // A run in which it happens

  lemma RegistrationIsIrrelevant(s: SessionStructure, local: nat, remote: nat, m: SignalMessage, eph: Name, o: Oracles)
    requires DecryptWithState(s, m, eph, o).Ok?
    ensures var s' := s.(localRegistrationId := local, remoteRegistrationId := remote);
            && DecryptWithState(s', m, eph, o).Ok?
            && DecryptWithState(s', m, eph, o).value.1 == DecryptWithState(s, m, eph, o).value.1
  {
  }

  /** What Bob uses for a handshake of Alice without a one-time pre-key. */
  function Counterpart(a: AliceParameters, coins: Name): BobParameters {
    BobParameters(a.theirIdentity, a.theirSignedPreKey, None, a.theirSignedPreKey, a.theirKyberPreKey,
                  a.identity, a.base, Encapsulate(a.theirKyberPreKey, coins).1)
  }

  /** The first message of the session that Alice's handshake starts. */
  function FirstMessage(a: AliceParameters, coins: Name, eph: Name, pqInit: PqInit, plaintext: Plaintext,
                        pqKey: Option<Term>,
                        pq: PqMessage): SignalMessage
  {
    EncryptWithState(PqxdhAlice(a, coins, eph, pqInit), plaintext, [], pqKey, pq).1
  }

  /** Bob's new session opens Alice's first message. */
  lemma FirstMessageOpens(a: AliceParameters, coins: Name, ephA: Name, pqInit: PqInit, plaintext: Plaintext,
                          pqKey: Option<Term>,
                          pq: PqMessage, eph: Name, o: Oracles)
    requires a.theirOneTimePreKey.None? && a.theirRatchetKey == a.theirSignedPreKey != ephA
    requires eph != ephA && eph != a.theirSignedPreKey
    requires var r := o.pqRecv(PqxdhBob(Counterpart(a, coins), pqInit).pq, pq);
             r.Some? && r.value.1 == pqKey
    ensures var r := DecryptWithState(PqxdhBob(Counterpart(a, coins), pqInit),
                                      FirstMessage(a, coins, ephA, pqInit, plaintext, pqKey, pq), eph, o);
            r.Ok? && r.value.1 == plaintext
  {
    var b := Counterpart(a, coins);
    SecretsAgree(a, coins, b);
    var start := StartPair(WhisperText, Symbolic.Concat(BobSecrets(b)), a.theirSignedPreKey, ephA, a.identity,
                           a.theirIdentity, a.base, pqInit);
    var step := PairSend(true, plaintext, [], pqKey, pq);
    StartPairInv(WhisperText, Symbolic.Concat(BobSecrets(b)), a.theirSignedPreKey, ephA, a.identity, a.theirIdentity,
                 a.base, pqInit);
    SendKeepsPair(start, step);
    var sent := start.(me := SendFrom(start.me, step));
    SeenFromKeeps(sent, false);
    var p := SeenFrom(sent, false);
    var x := p.peer.sent[0];
    assert p.schedule.keys == [a.theirSignedPreKey, ephA];
    RecentMessageIsAccepted(p, x, eph, o);
  }

  /** Bob's device, empty but for the pre-keys of the handshake. */
  predicate EmptyButPreKeys(d: Device, a: AliceParameters, signedId: PreKeyId, kyberId: PreKeyId) {
    && d.sessions == map[] && d.knownKeys == map[] && d.baseKeysSeen == map[] && d.identity == a.theirIdentity
    && signedId in d.signedPreKeys && d.signedPreKeys[signedId] == a.theirSignedPreKey
    && kyberId in d.kyberPreKeys && d.kyberPreKeys[kyberId] == a.theirKyberPreKey
  }

  lemma FirstPreKeyMessageOpens(d: Device, a: AliceParameters, coins: Name, ephA: Name, pqInit: PqInit,
                                plaintext: Plaintext,
                                pqKey: Option<Term>, pq: PqMessage, eph: Name, o: Oracles, addr: Address,
                                pm: PreKeySignalMessage)
    requires a.theirOneTimePreKey.None? && a.theirRatchetKey == a.theirSignedPreKey != ephA
    requires eph != ephA && eph != a.theirSignedPreKey
    requires var r := o.pqRecv(PqxdhBob(Counterpart(a, coins), pqInit).pq, pq);
             r.Some? && r.value.1 == pqKey && o.canonical(a.base)
    requires pm.message == FirstMessage(a, coins, ephA, pqInit, plaintext, pqKey, pq)
    requires pm.version == CURRENT_VERSION && pm.preKeyId.None? && pm.baseKey == a.base && pm.identityKey == a.identity
    requires pm.kyberCiphertext == Some(Encapsulate(a.theirKyberPreKey, coins).1) && pm.kyberPreKeyId.Some?
    requires EmptyButPreKeys(d, a, pm.signedPreKeyId, pm.kyberPreKeyId.value)
    ensures MessageDecryptPreKey(d, addr, pm, eph, o, pqInit).1 == Ok(plaintext)
  {
    FirstMessageOpens(a, coins, ephA, pqInit, plaintext, pqKey, pq, eph, o);
    RegistrationIsIrrelevant(PqxdhBob(Counterpart(a, coins), pqInit), d.registrationId, pm.registrationId, pm.message,
                             eph, o);
    assert IncomingParameters(d, pm) == Counterpart(a, coins);
    AcceptedFromScratch(d, addr, pm, eph, o, pqInit);
  }

  /** The first receipt of an empty device knows one address and marks the base key for one pair of IDs. */
  lemma FirstReceiptLeaves(d: Device, addr: Address, pm: PreKeySignalMessage, eph: Name, o: Oracles, pqInit: PqInit)
    requires d.sessions == map[] && d.knownKeys == map[] && d.baseKeysSeen == map[]
    requires MessageDecryptPreKey(d, addr, pm, eph, o, pqInit).1.Ok?
    ensures HasPreKeys(d, pm)
    ensures var d' := MessageDecryptPreKey(d, addr, pm, eph, o, pqInit).0;
            && d'.identity == d.identity && d'.sessions.Keys == d'.knownKeys.Keys == {addr}
            && forall kyber: nat, signed: nat :: BaseKeySeen(d', kyber, signed, pm.baseKey)
                 ==> (kyber, signed) == (pm.kyberPreKeyId.value, pm.signedPreKeyId)
  {
    StartsNew(d, addr, pm, eph, o, pqInit);
    assert MessageDecryptPreKey(d, addr, pm, eph, o, pqInit).0.knownKeys == d.knownKeys[addr := pm.identityKey];
  }

  /**
   So the condition on pre-key IDs is needed: when the key pairs are saved under another pair of IDs, before or after,
   the genuine first message of any handshake is received under one address and received again, with the other IDs in
   its unauthenticated header, under another.
   */
  lemma TwoIdsReceiveTwice(d: Device, a: AliceParameters, coins: Name, ephA: Name, pqInit: PqInit, plaintext: Plaintext,
                           pqKey: Option<Term>, pq: PqMessage, eph: Name, eph': Name, o: Oracles,
                           addr: Address, addr': Address, pm: PreKeySignalMessage, signedId: PreKeyId,
                           kyberId: PreKeyId)
    requires a.theirOneTimePreKey.None? && a.theirRatchetKey == a.theirSignedPreKey != ephA
    requires eph != ephA && eph != a.theirSignedPreKey && addr != addr'
    requires var r := o.pqRecv(PqxdhBob(Counterpart(a, coins), pqInit).pq, pq);
             r.Some? && r.value.1 == pqKey && o.canonical(a.base)
    requires pm.message == FirstMessage(a, coins, ephA, pqInit, plaintext, pqKey, pq)
    requires pm.version == CURRENT_VERSION && pm.preKeyId.None? && pm.baseKey == a.base && pm.identityKey == a.identity
    requires pm.kyberCiphertext == Some(Encapsulate(a.theirKyberPreKey, coins).1) && pm.kyberPreKeyId.Some?
    requires EmptyButPreKeys(d, a, pm.signedPreKeyId, pm.kyberPreKeyId.value)
    requires (kyberId, signedId) != (pm.kyberPreKeyId.value, pm.signedPreKeyId)
    ensures HasPreKeys(d, pm)
    ensures var (d', first) := MessageDecryptPreKey(d, addr, pm, eph, o, pqInit);
            var later := Saved(d, pm, d', signedId, kyberId);
            && first == Ok(plaintext)
            && MessageDecryptPreKey(later, addr', Renamed(pm, signedId, kyberId), eph', o, pqInit).1 == Ok(plaintext)
  {
    FirstPreKeyMessageOpens(d, a, coins, ephA, pqInit, plaintext, pqKey, pq, eph, o, addr, pm);
    FirstReceiptLeaves(d, addr, pm, eph, o, pqInit);
    var d1 := MessageDecryptPreKey(d, addr, pm, eph, o, pqInit).0;
    ReceivedAfterSaving(d, d1, addr, addr', pm, signedId, kyberId, eph, eph', o, pqInit);
  }

  /** The device once calls of `save_signed_pre_key` and `save_kyber_pre_key` stored the key pairs under other IDs. */
  function Saved(d: Device, pm: PreKeySignalMessage, later: Device, signedId: PreKeyId, kyberId: PreKeyId): Device
    requires HasPreKeys(d, pm)
  {
    later.(signedPreKeys := later.signedPreKeys[signedId := d.signedPreKeys[pm.signedPreKeyId]],
           kyberPreKeys := later.kyberPreKeys[kyberId := d.kyberPreKeys[pm.kyberPreKeyId.value]])
  }

  lemma ReceivedAfterSaving(d: Device, later: Device, addr: Address, other: Address, pm: PreKeySignalMessage,
                            signedId: PreKeyId, kyberId: PreKeyId, eph: Name, eph': Name, o: Oracles, pqInit: PqInit)
    requires ArchiveFits(d, addr) && pm.preKeyId.None? && HasPreKeys(d, pm) && later.identity == d.identity
    requires PromoteMatching(LoadOrFresh(d, addr), pm.version, pm.baseKey).None?
    requires MessageDecryptPreKey(d, addr, pm, eph, o, pqInit).1.Ok?
    requires other !in later.sessions && other !in later.knownKeys
    requires !BaseKeySeen(later, kyberId, signedId, pm.baseKey)
    ensures MessageDecryptPreKey(Saved(d, pm, later, signedId, kyberId), other, Renamed(pm, signedId, kyberId), eph', o,
                                 pqInit).1
         == MessageDecryptPreKey(d, addr, pm, eph, o, pqInit).1
  {
    OtherIdsReceiveAgain(d, Saved(d, pm, later, signedId, kyberId), addr, other, pm, signedId, kyberId, eph, eph', o,
                         pqInit);
  }
}
