/**
 At-most-once delivery over all runs of a device, and exactness of every skipped-key store along them.

 A message is received by using up the slot its MAC was made for. The invariant says that no stored session can
 yield a slot that was used before. Sessions are told apart by their family: an initiator's family contains a
 fresh base key, and a responder's family cannot be established twice because the Kyber store refuses the base key.
 */
module AtMostOnce {
  import opened Symbolic
  import opened RatchetKeys
  import opened Messages
  import opened SessionStates
  import opened SessionCipher
  import opened SkippedKeys
  import opened SessionInvariants
  import opened SessionRecords
  import opened Handshake
  import opened Devices
  import opened DeviceRuns
  import opened RecordRuns

  function Fam(s: SessionStructure): Family {
    FamilyOf(s.rootKey)
  }

  ghost predicate SessionOk(s: SessionStructure, taken: iset<Slot>) {
    SessionInv(s) && Unspent(s, taken) && StoresAreWindows(s.receiverChains, taken)
  }

  ghost predicate RecordOk(r: Record, taken: iset<Slot>) {
    && (forall k :: 0 <= k < |Sessions(r)| ==> SessionOk(Sessions(r)[k], taken))
    && (forall j, k :: 0 <= j < k < |Sessions(r)| ==> Fam(Sessions(r)[j]) != Fam(Sessions(r)[k]))
  }

  ghost predicate HasFamily(r: Record, f: Family) {
    exists k :: 0 <= k < |Sessions(r)| && Fam(Sessions(r)[k]) == f
  }

  /** The family of an initiator session this device started. */
  ghost predicate OwnFamily(d: Device, h: History, f: Family, p: AliceParameters, coins: Name) {
    && f == Family(HandshakeRoot(WhisperText, Concat(AliceSecrets(p, coins))), true)
    && p.identity == d.identity && p.base in h.bases
  }

  /** The family of a responder session whose base key the Kyber store has marked as used. */
  ghost predicate MarkedFamily(d: Device, h: History, f: Family, p: BobParameters) {
    && f == Family(HandshakeRoot(WhisperText, Concat(BobSecrets(p))), false)
    && p.identity == d.identity
    && p.kyberPreKey in h.kyberIds && p.signedPreKey in h.signedIds
    && BaseKeySeen(d, h.kyberIds[p.kyberPreKey], h.signedIds[p.signedPreKey], p.theirBase)
  }

  ghost predicate FamilyKnown(d: Device, h: History, f: Family) {
    || (exists p: AliceParameters, coins: Name :: OwnFamily(d, h, f, p, coins))
    || (exists p: BobParameters :: MarkedFamily(d, h, f, p))
  }

  ghost predicate PreKeysKnown(d: Device, h: History) {
    && (forall id :: id in d.kyberPreKeys ==>
          d.kyberPreKeys[id] in h.kyberIds && h.kyberIds[d.kyberPreKeys[id]] == id)
    && (forall id :: id in d.signedPreKeys ==>
          d.signedPreKeys[id] in h.signedIds && h.signedIds[d.signedPreKeys[id]] == id)
  }

  ghost predicate FamiliesKnown(d: Device, h: History) {
    && (forall addr, f :: addr in d.sessions && HasFamily(d.sessions[addr], f) ==> FamilyKnown(d, h, f))
    && (forall slot: Slot :: slot in h.taken ==> IsReceivingOrigin(slot.0) && FamilyKnown(d, h, OriginFamily(slot.0)))
  }

  ghost predicate FamiliesApart(d: Device) {
    forall a, b, f :: a in d.sessions && b in d.sessions && HasFamily(d.sessions[a], f) && HasFamily(d.sessions[b], f)
      ==> a == b
  }

  ghost predicate Inv(w: World) {
    && RecordsInv(w)
    && (forall addr :: addr in w.device.sessions ==> RecordOk(w.device.sessions[addr], w.history.taken))
    && FamiliesApart(w.device)
    && FamiliesKnown(w.device, w.history)
    && PreKeysKnown(w.device, w.history)
  }

  // ---------------------------------------------------------------------------------------------
  // Sessions and records

  lemma YieldsOwnFamily(s: SessionStructure, slot: Slot)
    requires SessionInv(s) && CanYield(s, slot)
    ensures IsReceivingOrigin(slot.0) && OriginFamily(slot.0) == Fam(s)
  {
  }

  /** Using up a slot of another family does not affect a session. */
  lemma OtherFamilyUnaffected(s: SessionStructure, taken: iset<Slot>, slot: Slot)
    requires SessionOk(s, taken) && IsReceivingOrigin(slot.0) && OriginFamily(slot.0) != Fam(s)
    ensures SessionOk(s, taken + iset{slot})
  {
    if CanYield(s, slot) {
      YieldsOwnFamily(s, slot);
    }
    forall i | 0 <= i < |s.receiverChains| ensures HasWindow(s.receiverChains[i], taken + iset{slot}) {
      var c := s.receiverChains[i];
      assert HasWindow(c, taken);
      var f: nat :| FloorOk(c, f) && StoreIsWindow(c, taken, f);
      assert ChainOrigin(c) != slot.0;
      assert StoreIsWindow(c, taken + iset{slot}, f);
    }
  }

  lemma PendingIsIrrelevant(s: SessionStructure, t: SessionStructure, taken: iset<Slot>)
    requires SameButPending(s, t)
    ensures SessionOk(s, taken) == SessionOk(t, taken) && Fam(s) == Fam(t)
  {
    assert s.receiverChains == t.receiverChains && s.rootKey == t.rootKey;
    assert forall slot: Slot :: CanYield(s, slot) <==> CanYield(t, slot);
  }

  lemma ReplaceKeepsOk(r: Record, k: nat, t: SessionStructure, taken: iset<Slot>, slot: Slot)
    requires RecordOk(r, taken) && k < |Sessions(r)|
    requires SessionOk(t, taken + iset{slot}) && Fam(t) == Fam(Sessions(r)[k])
    requires IsReceivingOrigin(slot.0) && OriginFamily(slot.0) == Fam(t)
    ensures RecordOk(Apply(r, Replace(k, t)), taken + iset{slot})
    ensures forall f :: HasFamily(Apply(r, Replace(k, t)), f) ==> HasFamily(r, f)
  {
    ReplaceSessions(r, k, t);
    var ss, ss' := Sessions(r), Sessions(Apply(r, Replace(k, t)));
    forall j | 1 <= j < |ss'|
      ensures SessionOk(ss'[j], taken + iset{slot}) && Fam(ss'[j]) == Fam(ss[Skip(k, j - 1)])
    {
      OtherFamilyUnaffected(ss[Skip(k, j - 1)], taken, slot);
      PendingIsIrrelevant(ss'[j], ss[Skip(k, j - 1)], taken + iset{slot});
    }
  }

  lemma AddKeepsOk(r: Record, t: SessionStructure, taken: iset<Slot>)
    requires RecordOk(r, taken) && SessionOk(t, taken) && !HasFamily(r, Fam(t))
    ensures RecordOk(Apply(r, Add(t)), taken)
    ensures forall f :: HasFamily(Apply(r, Add(t)), f) ==> HasFamily(r, f) || f == Fam(t)
  {
    AddSessions(r, t);
    var ss, ss' := Sessions(r), Sessions(Apply(r, Add(t)));
    forall j | 1 <= j < |ss'| ensures SessionOk(ss'[j], taken) && Fam(ss'[j]) == Fam(ss[j - 1]) {
      PendingIsIrrelevant(ss'[j], ss[j - 1], taken);
    }
  }

  lemma RetireKeepsOk(r: Record, taken: iset<Slot>)
    requires RecordOk(r, taken)
    ensures RecordOk(Apply(r, Retire), taken)
    ensures forall f :: HasFamily(Apply(r, Retire), f) ==> HasFamily(r, f)
  {
    RetireSessions(r);
    var ss, ss' := Sessions(r), Sessions(Apply(r, Retire));
    forall j | 0 <= j < |ss'| ensures SessionOk(ss'[j], taken) && Fam(ss'[j]) == Fam(ss[j]) {
      PendingIsIrrelevant(ss'[j], ss[j], taken);
    }
  }

  /** A record whose families exclude the slot's is unaffected by using the slot up. */
  lemma RecordUnaffected(r: Record, taken: iset<Slot>, slot: Slot)
    requires RecordOk(r, taken) && IsReceivingOrigin(slot.0) && !HasFamily(r, OriginFamily(slot.0))
    ensures RecordOk(r, taken + iset{slot})
  {
    forall k | 0 <= k < |Sessions(r)| ensures SessionOk(Sessions(r)[k], taken + iset{slot}) {
      OtherFamilyUnaffected(Sessions(r)[k], taken, slot);
    }
  }

  lemma SlotsAreOne(m: SignalMessage, slot: Slot)
    requires IsReceivingOrigin(slot.0) && MacUses(m, slot)
    ensures SlotsOf(m) == iset{slot}
  {
    forall other: Slot | other in SlotsOf(m) ensures other == slot {
      MacUsesOneSlot(m, other, slot);
    }
  }

  // ---------------------------------------------------------------------------------------------
  // Families of new sessions

  lemma KnownStaysKnown(d: Device, h: History, d': Device, h': History, f: Family)
    requires FamilyKnown(d, h, f) && d.identity == d'.identity && h.bases <= h'.bases
    requires forall n :: n in h.kyberIds ==> n in h'.kyberIds && h'.kyberIds[n] == h.kyberIds[n]
    requires forall n :: n in h.signedIds ==> n in h'.signedIds && h'.signedIds[n] == h.signedIds[n]
    requires forall a, b, c :: BaseKeySeen(d, a, b, c) ==> BaseKeySeen(d', a, b, c)
    ensures FamilyKnown(d', h', f)
  {
    if p: AliceParameters, coins: Name :| OwnFamily(d, h, f, p, coins) {
      assert OwnFamily(d', h', f, p, coins);
    } else {
      var p: BobParameters :| MarkedFamily(d, h, f, p);
      assert MarkedFamily(d', h', f, p);
    }
  }

  lemma FreshBaseIsUnknown(d: Device, h: History, p: AliceParameters, coins: Name)
    requires p.identity == d.identity && p.base !in h.bases
    ensures !FamilyKnown(d, h, Family(HandshakeRoot(WhisperText, Concat(AliceSecrets(p, coins))), true))
  {
    var f := Family(HandshakeRoot(WhisperText, Concat(AliceSecrets(p, coins))), true);
    forall q: AliceParameters, c: Name | OwnFamily(d, h, f, q, c) ensures false {
      AliceSecretsDetermineBase(p, coins, q, c);
    }
  }

  /** A responder family the Kyber store would accept has not been established before. */
  lemma UnmarkedIsUnknown(d: Device, h: History, pm: PreKeySignalMessage)
    requires PreKeysKnown(d, h) && HasPreKeys(d, pm)
    requires !BaseKeySeen(d, pm.kyberPreKeyId.value, pm.signedPreKeyId, pm.baseKey)
    ensures !FamilyKnown(d, h, Family(HandshakeRoot(WhisperText, Concat(BobSecrets(IncomingParameters(d, pm)))), false))
  {
    var p := IncomingParameters(d, pm);
    var f := Family(HandshakeRoot(WhisperText, Concat(BobSecrets(p))), false);
    forall q: BobParameters | MarkedFamily(d, h, f, q) ensures false {
      BobSecretsDetermine(p, q);
    }
  }

  lemma UnknownIsUntouched(w: World, f: Family, addr: Address)
    requires Inv(w) && !FamilyKnown(w.device, w.history, f)
    ensures FamilyUntouched(f, w.history.taken)
    ensures !HasFamily(LoadOrFresh(w.device, addr), f)
    ensures forall a :: a in w.device.sessions ==> !HasFamily(w.device.sessions[a], f)
  {
  }

  // ---------------------------------------------------------------------------------------------
  // Steps

  /** Replacing one record keeps families apart if its families are old ones or a new one. */
  lemma ApartAfter(d: Device, addr: Address, r': Record, extra: iset<Family>)
    requires FamiliesApart(d)
    requires forall f :: HasFamily(r', f) ==> HasFamily(LoadOrFresh(d, addr), f) || f in extra
    requires forall a, f :: a in d.sessions && f in extra ==> !HasFamily(d.sessions[a], f)
    ensures FamiliesApart(d.(sessions := d.sessions[addr := r']))
  {
  }

  /** The session at position `k` accepted a message: its slot was unused, and the invariant holds with it used. */
  lemma AcceptKeeps(w: World, addr: Address, k: nat, m: SignalMessage, eph: Name, o: Oracles, d': Device, h': History)
    returns (slot: Slot)
    requires Inv(w) && addr in w.device.sessions
    requires k < |Sessions(w.device.sessions[addr])|
    requires DecryptWithState(Sessions(w.device.sessions[addr])[k], m, eph, o).Ok?
    requires var r := w.device.sessions[addr];
             d'.sessions == w.device.sessions[addr := Apply(r, Replace(k, Successor(r, k, m, eph, o)))]
    requires d' == w.device.(sessions := d'.sessions, knownKeys := d'.knownKeys)
    requires h'.taken == w.history.taken + SlotsOf(m)
    requires w.history.bases <= h'.bases && h'.kyberIds == w.history.kyberIds && h'.signedIds == w.history.signedIds
    requires RecordsInv(World(d', h'))
    ensures Inv(World(d', h')) && slot !in w.history.taken && slot in SlotsOf(m)
  {
    var d, h := w.device, w.history;
    var r := d.sessions[addr];
    var s := Sessions(r)[k];
    assert SessionOk(s, h.taken);
    slot := DecryptKeeps(s, m, eph, o, h.taken);
    YieldsOwnFamily(s, slot);
    SlotsAreOne(m, slot);
    var t := Successor(r, k, m, eph, o);
    var r' := Apply(r, Replace(k, t));
    ReplaceKeepsOk(r, k, t, h.taken, slot);
    assert HasFamily(r, Fam(s));
    forall a | a in d'.sessions ensures RecordOk(d'.sessions[a], h'.taken) {
      if a != addr {
        RecordUnaffected(d.sessions[a], h.taken, slot);
      }
    }
    ApartAfter(d, addr, r', iset{});
    assert FamiliesApart(d') by {
      assert d'.sessions == d.(sessions := d.sessions[addr := r']).sessions;
    }
    KnownAfter(w, addr, r', d', h', slot);
  }

  lemma KnownAfter(w: World, addr: Address, r': Record, d': Device, h': History, slot: Slot)
    requires FamiliesKnown(w.device, w.history) && addr in w.device.sessions
    requires forall f :: HasFamily(r', f) ==> HasFamily(w.device.sessions[addr], f)
    requires d'.sessions == w.device.sessions[addr := r']
    requires d' == w.device.(sessions := d'.sessions, knownKeys := d'.knownKeys)
    requires h'.taken == w.history.taken + iset{slot}
    requires w.history.bases <= h'.bases && h'.kyberIds == w.history.kyberIds && h'.signedIds == w.history.signedIds
    requires IsReceivingOrigin(slot.0) && HasFamily(w.device.sessions[addr], OriginFamily(slot.0))
    ensures FamiliesKnown(d', h')
  {
    var d, h := w.device, w.history;
    forall f | FamilyKnown(d, h, f) ensures FamilyKnown(d', h', f) {
      KnownStaysKnown(d, h, d', h', f);
    }
    forall a, f | a in d'.sessions && HasFamily(d'.sessions[a], f) ensures FamilyKnown(d', h', f) {
      assert HasFamily(d.sessions[a], f);
    }
  }

  /** A session was added whose family was unknown before and is known now. */
  lemma AddKeeps(w: World, addr: Address, t: SessionStructure, d': Device, h': History)
    requires Inv(w) && RecordsInv(World(d', h'))
    requires SessionOk(t, h'.taken) && !FamilyKnown(w.device, w.history, Fam(t)) && FamilyKnown(d', h', Fam(t))
    requires d'.identity == w.device.identity && w.history.bases <= h'.bases
    requires h'.kyberIds == w.history.kyberIds && h'.signedIds == w.history.signedIds
    requires d'.kyberPreKeys == w.device.kyberPreKeys && d'.signedPreKeys == w.device.signedPreKeys
    requires forall a, b, c :: BaseKeySeen(w.device, a, b, c) ==> BaseKeySeen(d', a, b, c)
    requires d'.sessions == w.device.sessions[addr := Apply(LoadOrFresh(w.device, addr), Add(t))]
    requires w.history.taken <= h'.taken
    requires forall slot: Slot :: slot in h'.taken && slot !in w.history.taken ==>
               IsReceivingOrigin(slot.0) && OriginFamily(slot.0) == Fam(t)
    requires forall a :: a in w.device.sessions ==> RecordOk(w.device.sessions[a], h'.taken)
    ensures Inv(World(d', h'))
  {
    var d, h := w.device, w.history;
    var r := LoadOrFresh(d, addr);
    var r' := Apply(r, Add(t));
    UnknownIsUntouched(w, Fam(t), addr);
    AddKeepsOk(r, t, h'.taken);
    ApartAfter(d, addr, r', iset{Fam(t)});
    assert FamiliesApart(d') by {
      assert d'.sessions == d.(sessions := d.sessions[addr := r']).sessions;
    }
    forall f | FamilyKnown(d, h, f) ensures FamilyKnown(d', h', f) {
      KnownStaysKnown(d, h, d', h', f);
    }
    forall a, f | a in d'.sessions && HasFamily(d'.sessions[a], f) ensures FamilyKnown(d', h', f) {
      if f != Fam(t) {
        assert a in d.sessions && HasFamily(d.sessions[a], f);
      }
    }
  }

  /** A new responder's session that accepts its message uses a slot of a family that was unknown before. */
  lemma NewIncomingAccepts(w: World, addr: Address, pm: PreKeySignalMessage, eph: Name, o: Oracles, pqInit: PqInit)
    returns (slot: Slot)
    requires Inv(w) && HasPreKeys(w.device, pm)
    requires !BaseKeySeen(w.device, pm.kyberPreKeyId.value, pm.signedPreKeyId, pm.baseKey)
    requires DecryptWithState(NewIncoming(w.device, pm, pqInit), pm.message, eph, o).Ok?
    ensures slot !in w.history.taken && SlotsOf(pm.message) == iset{slot}
    ensures var t := DecryptWithState(NewIncoming(w.device, pm, pqInit), pm.message, eph, o).value.0;
            var p := IncomingParameters(w.device, pm);
            && SessionOk(t, w.history.taken + iset{slot}) && !FamilyKnown(w.device, w.history, Fam(t))
            && Fam(t) == Family(HandshakeRoot(WhisperText, Concat(BobSecrets(p))), false)
            && IsReceivingOrigin(slot.0) && OriginFamily(slot.0) == Fam(t)
    ensures forall a :: a in w.device.sessions ==> RecordOk(w.device.sessions[a], w.history.taken + iset{slot})
  {
    var d, h, s := w.device, w.history, NewIncoming(w.device, pm, pqInit);
    UnmarkedIsUnknown(d, h, pm);
    var f := Family(HandshakeRoot(WhisperText, Concat(BobSecrets(IncomingParameters(d, pm)))), false);
    UnknownIsUntouched(w, f, addr);
    NewIncomingOk(d, pm, pqInit, h.taken);
    slot := DecryptKeeps(s, pm.message, eph, o, h.taken);
    YieldsOwnFamily(s, slot);
    SlotsAreOne(pm.message, slot);
    RecordsUnaffected(w, slot);
  }

  lemma StartedNewKeeps(w: World, step: Step) returns (slot: Slot)
    requires Inv(w) && step.ReceivePreKey? && Fresh(w.history, step)
    requires Exec(w.device, step).1.Received?
    requires StartedNew(w.device, step.addr, step.preKey, step.eph, step.oracles, step.pqInit, Exec(w.device, step).0)
    ensures Inv(Next(w, step)) && slot !in w.history.taken && slot in SlotsOf(step.preKey.message)
  {
    var ReceivePreKey(addr, pm, eph, o, pqInit) := step;
    var d, d', h' := w.device, Next(w, step).device, Next(w, step).history;
    slot := NewIncomingAccepts(w, addr, pm, eph, o, pqInit);
    var t := DecryptWithState(NewIncoming(d, pm, pqInit), pm.message, eph, o).value.0;
    assert MarkedFamily(d', h', Fam(t), IncomingParameters(d, pm));
    StepKeepsRecords(w, step);
    AddKeeps(w, addr, t, d', h');
  }

  lemma RecordsUnaffected(w: World, slot: Slot)
    requires forall a :: a in w.device.sessions ==> RecordOk(w.device.sessions[a], w.history.taken)
    requires IsReceivingOrigin(slot.0)
    requires forall a :: a in w.device.sessions ==> !HasFamily(w.device.sessions[a], OriginFamily(slot.0))
    ensures forall a :: a in w.device.sessions ==> RecordOk(w.device.sessions[a], w.history.taken + iset{slot})
  {
    forall a | a in w.device.sessions ensures RecordOk(w.device.sessions[a], w.history.taken + iset{slot}) {
      RecordUnaffected(w.device.sessions[a], w.history.taken, slot);
    }
  }

  lemma NewIncomingOk(d: Device, pm: PreKeySignalMessage, pqInit: PqInit, taken: iset<Slot>)
    requires HasPreKeys(d, pm)
    requires FamilyUntouched(
               Family(HandshakeRoot(WhisperText, Concat(BobSecrets(IncomingParameters(d, pm)))), false), taken)
    ensures SessionOk(NewIncoming(d, pm, pqInit), taken)
    ensures Fam(NewIncoming(d, pm, pqInit))
         == Family(HandshakeRoot(WhisperText, Concat(BobSecrets(IncomingParameters(d, pm)))), false)
  {
    var p := IncomingParameters(d, pm);
    NewBobSession(WhisperText, Concat(BobSecrets(p)), p.ratchetKey, d.identity, pm.identityKey, pm.baseKey, pqInit,
                  taken);
    SameChains(NewIncoming(d, pm, pqInit), PqxdhBob(p, pqInit), taken);
  }

  lemma SameChains(s: SessionStructure, t: SessionStructure, taken: iset<Slot>)
    requires s.receiverChains == t.receiverChains && s.rootKey == t.rootKey
    ensures SessionOk(s, taken) == SessionOk(t, taken) && Fam(s) == Fam(t)
  {
    assert forall slot: Slot :: CanYield(s, slot) <==> CanYield(t, slot);
  }

  /** Every successful receive uses a slot that was never used before. */
  lemma ReceiveKeeps(w: World, step: Step) returns (slot: Slot)
    requires Inv(w) && (step.ReceivePreKey? || step.ReceiveSignal?)
    requires Fresh(w.history, step) && Exec(w.device, step).1.Received?
    ensures Inv(Next(w, step)) && slot !in w.history.taken && slot in SlotsOf(Exec(w.device, step).1.inner)
  {
    var d := w.device;
    var w' := Next(w, step);
    StepKeepsRecords(w, step);
    RecordAt(w, step.addr);
    if step.ReceiveSignal? {
      var k := SignalChange(d, step.addr, step.signal, step.eph, step.oracles);
      slot := AcceptKeeps(w, step.addr, k, step.signal, step.eph, step.oracles, w'.device, w'.history);
    } else {
      var existing, k := PreKeyChange(d, step.addr, step.preKey, step.eph, step.oracles, step.pqInit);
      if existing {
        slot := AcceptKeeps(w, step.addr, k, step.preKey.message, step.eph, step.oracles, w'.device, w'.history);
      } else {
        slot := StartedNewKeeps(w, step);
      }
    }
  }

  lemma StartKeeps(w: World, step: Step)
    requires Inv(w) && step.Start? && Fresh(w.history, step) && Exec(w.device, step).1.Quiet?
    ensures Inv(Next(w, step))
  {
    var Start(addr, bundle, now, base, coins, eph, pqInit) := step;
    var d, h := w.device, w.history;
    var d', h' := Next(w, step).device, Next(w, step).history;
    var p := BundleParameters(d, bundle, base);
    var secret := Concat(AliceSecrets(p, coins));
    var f := Family(HandshakeRoot(WhisperText, secret), true);
    FreshBaseIsUnknown(d, h, p, coins);
    UnknownIsUntouched(w, f, addr);
    NewAliceSession(WhisperText, secret, p.theirRatchetKey, eph, d.identity, bundle.identityKey, base, pqInit, h.taken);
    var t := NewOutgoing(d, bundle, now, base, coins, eph, pqInit);
    SameChains(t, InitAlice(WhisperText, secret, p.theirRatchetKey, eph, d.identity, bundle.identityKey, base, pqInit),
               h.taken);
    assert OwnFamily(d', h', f, p, coins);
    StepKeepsRecords(w, step);
    AddKeeps(w, addr, t, d', h');
  }

  /** Steps that leave every receiving chain and root alone. */
  lemma QuietKeeps(w: World, addr: Address, r': Record, d': Device, h': History)
    requires Inv(w) && addr in w.device.sessions && RecordsInv(World(d', h'))
    requires d'.sessions == w.device.sessions[addr := r']
    requires d' == w.device.(sessions := d'.sessions, knownKeys := d'.knownKeys)
    requires h'.taken == w.history.taken && h'.bases == w.history.bases
    requires h'.kyberIds == w.history.kyberIds && h'.signedIds == w.history.signedIds
    requires RecordOk(r', h'.taken)
    requires forall f :: HasFamily(r', f) ==> HasFamily(w.device.sessions[addr], f)
    ensures Inv(World(d', h'))
  {
    var d, h := w.device, w.history;
    ApartAfter(d, addr, r', iset{});
    assert FamiliesApart(d') by {
      assert d'.sessions == d.(sessions := d.sessions[addr := r']).sessions;
    }
    forall f | FamilyKnown(d, h, f) ensures FamilyKnown(d', h', f) {
      KnownStaysKnown(d, h, d', h', f);
    }
    forall a, f | a in d'.sessions && HasFamily(d'.sessions[a], f) ensures FamilyKnown(d', h', f) {
      assert HasFamily(d.sessions[a], f);
    }
  }

  lemma SendKeeps(w: World, step: Step)
    requires Inv(w) && step.Send? && Exec(w.device, step).1.Emitted?
    ensures Inv(Next(w, step))
  {
    var d := w.device;
    var r := d.sessions[step.addr];
    var w' := Next(w, step);
    var r' := w'.device.sessions[step.addr];
    SameChains(r'.current.value, r.current.value, w.history.taken);
    var ss, ss' := Sessions(r), Sessions(r');
    forall j | 0 <= j < |ss'| ensures SessionOk(ss'[j], w.history.taken) && Fam(ss'[j]) == Fam(ss[j]) {
      if j == 0 {
        assert ss'[0] == r'.current.value && ss[0] == r.current.value;
        assert SessionOk(ss[0], w.history.taken);
      } else {
        assert ss'[j] == ss[j];
      }
    }
    StepKeepsRecords(w, step);
    QuietKeeps(w, step.addr, r', w'.device, w'.history);
  }

  lemma ArchiveKeeps(w: World, addr: Address)
    requires Inv(w) && addr in w.device.sessions
    ensures Inv(Next(w, Archive(addr)))
  {
    var w' := Next(w, Archive(addr));
    RetireKeepsOk(w.device.sessions[addr], w.history.taken);
    StepKeepsRecords(w, Archive(addr));
    QuietKeeps(w, addr, w'.device.sessions[addr], w'.device, w'.history);
  }

  /** Steps that change no session at all. */
  lemma StoresOnlyKeeps(w: World, d': Device, h': History)
    requires Inv(w) && d'.sessions == w.device.sessions && d'.identity == w.device.identity
    requires d'.baseKeysSeen == w.device.baseKeysSeen
    requires h'.taken == w.history.taken && h'.bases == w.history.bases
    requires forall n :: n in w.history.kyberIds ==> n in h'.kyberIds && h'.kyberIds[n] == w.history.kyberIds[n]
    requires forall n :: n in w.history.signedIds ==> n in h'.signedIds && h'.signedIds[n] == w.history.signedIds[n]
    requires PreKeysKnown(d', h')
    ensures Inv(World(d', h'))
  {
    forall f | FamilyKnown(w.device, w.history, f) ensures FamilyKnown(d', h', f) {
      KnownStaysKnown(w.device, w.history, d', h', f);
    }
  }

  lemma StepKeeps(w: World, step: Step)
    requires Inv(w) && Fresh(w.history, step)
    ensures Inv(Next(w, step))
    ensures w.history.taken <= Next(w, step).history.taken
  {
    var out := Exec(w.device, step).1;
    RememberGrows(w.history, step, out);
    if out.Received? {
      var _ := ReceiveKeeps(w, step);
    } else if out.Emitted? {
      SendKeeps(w, step);
    } else if step.Start? && out.Quiet? {
      StartKeeps(w, step);
    } else if step.Archive? && step.addr in w.device.sessions {
      ArchiveKeeps(w, step.addr);
    } else {
      UntouchedKeeps(w, step);
    }
  }

  lemma UntouchedKeeps(w: World, step: Step)
    requires Inv(w) && Fresh(w.history, step) && Untouching(w, step)
    ensures Inv(Next(w, step))
  {
    UntouchedStep(w, step);
    UntouchedPreKeys(w, step);
    StoresOnlyKeeps(w, Next(w, step).device, Next(w, step).history);
  }

  lemma UntouchedPreKeys(w: World, step: Step)
    requires PreKeysKnown(w.device, w.history) && Fresh(w.history, step) && Untouching(w, step)
    ensures var w' := Next(w, step);
            && PreKeysKnown(w'.device, w'.history)
            && (forall n :: n in w.history.kyberIds ==>
                n in w'.history.kyberIds && w'.history.kyberIds[n] == w.history.kyberIds[n])
            && (forall n :: n in w.history.signedIds ==>
                n in w'.history.signedIds && w'.history.signedIds[n] == w.history.signedIds[n])
  {
  }

  // ---------------------------------------------------------------------------------------------
  // Whole runs

  lemma {:induction false} InvAlways(w: World, steps: seq<Step>)
    requires Inv(w) && IsRun(w, steps)
    ensures Inv(After(w, steps))
    decreases |steps|
  {
    if steps != [] {
      StepKeeps(w, steps[0]);
      InvAlways(Next(w, steps[0]), steps[1..]);
    }
  }

  lemma {:induction false} TakenIsNeverReceived(w: World, steps: seq<Step>, m: SignalMessage, j: nat)
    requires Inv(w) && IsRun(w, steps) && j < |steps|
    requires SlotsOf(m) <= w.history.taken
    ensures Outputs(w, steps)[j].Received? ==> Outputs(w, steps)[j].inner != m
    decreases |steps|
  {
    var out := Exec(w.device, steps[0]).1;
    if j == 0 {
      if out.Received? && out.inner == m {
        var slot := ReceiveKeeps(w, steps[0]);
      }
    } else {
      StepKeeps(w, steps[0]);
      TakenIsNeverReceived(Next(w, steps[0]), steps[1..], m, j - 1);
    }
  }

  lemma ReceivedIsTaken(w: World, step: Step)
    requires Exec(w.device, step).1.Received?
    ensures SlotsOf(Exec(w.device, step).1.inner) <= Next(w, step).history.taken
  {
  }

  lemma {:induction false} NotReceivedAgain(w: World, steps: seq<Step>, i: nat, j: nat)
    requires Inv(w) && IsRun(w, steps) && i < j < |steps|
    requires Outputs(w, steps)[i].Received? && Outputs(w, steps)[j].Received?
    ensures Outputs(w, steps)[i].inner != Outputs(w, steps)[j].inner
    decreases |steps|
  {
    StepKeeps(w, steps[0]);
    OutputsStep(w, steps, i);
    OutputsStep(w, steps, j);
    if i == 0 {
      ReceivedIsTaken(w, steps[0]);
      TakenIsNeverReceived(Next(w, steps[0]), steps[1..], Outputs(w, steps)[0].inner, j - 1);
    } else {
      NotReceivedAgain(Next(w, steps[0]), steps[1..], i - 1, j - 1);
    }
  }

  /** A device with empty stores satisfies the invariant, so the theorems hold from the first call on. */
  lemma InitialInv(w: World)
    requires Initial(w)
    ensures Inv(w)
  {
  }

  /**
   At-most-once delivery: over any run of a device from its first call on, no SignalMessage is received twice, whether
   it arrives on its own or inside pre-key messages, under one address or several.
   */
  lemma ReceivedAtMostOnce(w: World, steps: seq<Step>, i: nat, j: nat)
    requires Initial(w) && IsRun(w, steps) && i < j < |steps|
    requires Outputs(w, steps)[i].Received? && Outputs(w, steps)[j].Received?
    ensures Outputs(w, steps)[i].inner != Outputs(w, steps)[j].inner
  {
    InitialInv(w);
    NotReceivedAgain(w, steps, i, j);
  }

  /**
   In every reachable state, every receiving chain of every stored session is well formed and its skipped-key
   store is exactly the window of indices not yet used at or above some floor.
   */
  lemma StoresAreWindowsAlways(w: World, steps: seq<Step>, addr: Address, k: nat, i: nat) returns (floor: nat)
    requires Initial(w) && IsRun(w, steps)
    requires addr in After(w, steps).device.sessions && k < |Sessions(After(w, steps).device.sessions[addr])|
    requires i < |Sessions(After(w, steps).device.sessions[addr])[k].receiverChains|
    ensures var c := Sessions(After(w, steps).device.sessions[addr])[k].receiverChains[i];
            ChainInv(c) && FloorOk(c, floor) && StoreIsWindow(c, After(w, steps).history.taken, floor)
  {
    InitialInv(w);
    InvAlways(w, steps);
    var s := Sessions(After(w, steps).device.sessions[addr])[k];
    assert SessionOk(s, After(w, steps).history.taken);
    var c := s.receiverChains[i];
    assert HasWindow(c, After(w, steps).history.taken);
    floor :| FloorOk(c, floor) && StoreIsWindow(c, After(w, steps).history.taken, floor);
  }
}
