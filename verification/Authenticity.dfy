/**
 What the identity keys vouch for, over any sequence of calls of one device (rust/protocol/src/session.rs:172-260,
 rust/protocol/src/session_cipher.rs:19-331): pending sessions rest on pre-keys their peer signed, and an address keeps
 the identity it was first used with.
 */
module Authenticity {
  import opened Prelude
  import opened Symbolic
  import opened RatchetKeys
  import opened Messages
  import opened SessionStates
  import opened SessionCipher
  import opened SessionRecords
  import opened SessionInvariants
  import opened Handshake
  import opened Devices
  import opened DeviceRuns
  import opened RecordRuns
  import opened DeviceFrames

  // ---------------------------------------------------------------------------------------------
  // Pending sessions

  /** The keys a bundle shows signatures for, as (signer, key), whoever made them. */
  function SignedInBundle(b: PreKeyBundle): set<(Name, Name)> {
    (if b.signedPreKeySignature.Signed? then {(b.signedPreKeySignature.signer, b.signedPreKeySignature.key)} else {})
    + (if b.kyberPreKeySignature.Signed? then {(b.kyberPreKeySignature.signer, b.kyberPreKeySignature.key)} else {})
  }

  /** The peer's identity key signed both pre-keys of the bundle. */
  predicate SignedByPeer(b: PreKeyBundle) {
    {(b.identityKey, b.signedPreKey), (b.identityKey, b.kyberPreKey)} <= SignedInBundle(b)
  }

  function OneTimeId(b: PreKeyBundle): Option<PreKeyId> {
    if b.preKey.Some? then Some(b.preKey.value.0) else None
  }

  function OneTimeKey(b: PreKeyBundle): Option<Name> {
    if b.preKey.Some? then Some(b.preKey.value.1) else None
  }

  /**
   A session of this device that waits for its peer was started by the step: from pre-keys the peer's identity key had
   signed, which are the ones it names, at the time it remembers.
   */
  ghost predicate RestsOn(t: SessionStructure, d: Device, addr: Address, step: Step) {
    && step.Start? && step.addr == addr && SignedByPeer(step.bundle)
    && var b := step.bundle;
    var a := AliceParameters(d.identity, step.base, b.identityKey, b.signedPreKey, OneTimeKey(b), b.signedPreKey,
                             b.kyberPreKey);
    && t.localIdentity == d.identity && t.remoteIdentity == b.identityKey && t.aliceBaseKey == step.base
    && t.localRegistrationId == d.registrationId && t.remoteRegistrationId == b.registrationId
    && t.rootKey == CreateChain(HandshakeRoot(WhisperText, Concat(AliceSecrets(a, step.coins))), b.signedPreKey,
                                step.eph).0
    && t.pendingPreKey == Some(PendingPreKey(OneTimeId(b), b.signedPreKeyId, step.base, step.now))
    && t.pendingKyber == Some(PendingKyber(b.kyberPreKeyId, Encapsulate(b.kyberPreKey, step.coins).1))
  }

  ghost predicate Vouched(t: SessionStructure, d: Device, addr: Address, past: seq<Step>) {
    t.pendingPreKey.Some? ==> exists j :: 0 <= j < |past| && RestsOn(t, d, addr, past[j])
  }

  ghost predicate RecordVouched(r: Record, d: Device, addr: Address, past: seq<Step>) {
    && |r.previous| <= ARCHIVED_STATES_MAX_LENGTH
    && forall k :: 0 <= k < |Sessions(r)| ==> Vouched(Sessions(r)[k], d, addr, past)
  }

  /** Equal in everything `Vouched` reads, or no longer pending. */
  predicate StillRests(s: SessionStructure, t: SessionStructure) {
    t.pendingPreKey.Some? ==>
      && t.pendingPreKey == s.pendingPreKey && t.pendingKyber == s.pendingKyber && t.rootKey == s.rootKey
      && SameEnds(s, t)
  }

  lemma StaysVouched(s: SessionStructure, t: SessionStructure, d: Device, addr: Address, past: seq<Step>)
    requires Vouched(s, d, addr, past) && StillRests(s, t)
    ensures Vouched(t, d, addr, past)
  {
    if t.pendingPreKey.Some? {
      var j :| 0 <= j < |past| && RestsOn(s, d, addr, past[j]);
      assert RestsOn(t, d, addr, past[j]);
    }
  }

  /** More calls, by the same device. */
  lemma MoreVouched(r: Record, d: Device, d': Device, addr: Address, past: seq<Step>, step: Step)
    requires RecordVouched(r, d, addr, past) && d'.identity == d.identity && d'.registrationId == d.registrationId
    ensures RecordVouched(r, d', addr, past + [step])
  {
    forall k | 0 <= k < |Sessions(r)| ensures Vouched(Sessions(r)[k], d', addr, past + [step]) {
      var t := Sessions(r)[k];
      assert Vouched(t, d, addr, past);
      if t.pendingPreKey.Some? {
        var j :| 0 <= j < |past| && RestsOn(t, d, addr, past[j]);
        assert RestsOn(t, d', addr, (past + [step])[j]);
      }
    }
  }

  lemma ReplaceVouched(r: Record, k: nat, t: SessionStructure, d: Device, addr: Address, past: seq<Step>)
    requires RecordVouched(r, d, addr, past) && k < |Sessions(r)| && StillRests(Sessions(r)[k], t)
    ensures RecordVouched(Apply(r, Replace(k, t)), d, addr, past)
  {
    ReplaceSessions(r, k, t);
    var ss, ss' := Sessions(r), Sessions(Apply(r, Replace(k, t)));
    forall j | 0 <= j < |ss'| ensures Vouched(ss'[j], d, addr, past) {
      StaysVouched(ss[if j == 0 then k else Skip(k, j - 1)], ss'[j], d, addr, past);
    }
  }

  lemma AddVouched(r: Record, t: SessionStructure, d: Device, addr: Address, past: seq<Step>)
    requires RecordVouched(r, d, addr, past) && Vouched(t, d, addr, past)
    ensures RecordVouched(Apply(r, Add(t)), d, addr, past)
  {
    AddSessions(r, t);
    PromoteStateConserves(r, t);
    var ss, ss' := Sessions(r), Sessions(Apply(r, Add(t)));
    forall j | 1 <= j < |ss'| ensures Vouched(ss'[j], d, addr, past) {
      StaysVouched(ss[j - 1], ss'[j], d, addr, past);
    }
  }

  lemma RetireVouched(r: Record, d: Device, addr: Address, past: seq<Step>)
    requires RecordVouched(r, d, addr, past)
    ensures RecordVouched(Apply(r, Retire), d, addr, past)
  {
    RetireSessions(r);
    var ss, ss' := Sessions(r), Sessions(Apply(r, Retire));
    forall j | 0 <= j < |ss'| ensures Vouched(ss'[j], d, addr, past) {
      StaysVouched(ss[j], ss'[j], d, addr, past);
    }
  }

  // ---------------------------------------------------------------------------------------------
  // Calls

  lemma StartVouched(d: Device, step: Step, past: seq<Step>)
    requires step.Start? && RecordVouched(LoadOrFresh(d, step.addr), d, step.addr, past)
    ensures RecordVouched(LoadOrFresh(Exec(d, step).0, step.addr), d, step.addr, past + [step])
  {
    var Start(addr, b, now, base, coins, eph, pqInit) := step;
    MoreVouched(LoadOrFresh(d, addr), d, d, addr, past, step);
    if ProcessPreKeyBundle(d, addr, b, now, base, coins, eph, pqInit).Ok? {
      var t := NewOutgoing(d, b, now, base, coins, eph, pqInit);
      assert RestsOn(t, d, addr, (past + [step])[|past|]);
      AddVouched(LoadOrFresh(d, addr), t, d, addr, past + [step]);
    }
  }

  lemma SendVouched(d: Device, addr: Address, plaintext: Plaintext, now: nat, pqSend: PqSend, past: seq<Step>)
    requires RecordVouched(LoadOrFresh(d, addr), d, addr, past) && MessageEncrypt(d, addr, plaintext, now, pqSend).Ok?
    ensures RecordVouched(LoadOrFresh(MessageEncrypt(d, addr, plaintext, now, pqSend).value.0, addr), d, addr, past)
  {
    var r := d.sessions[addr];
    var (pq, pqKey, pqMsg) := pqSend(r.current.value.pq).value;
    ReplaceVouched(r, 0, EncryptWithState(r.current.value, plaintext, pq, pqKey, pqMsg).0, d, addr, past);
  }

  lemma SignalVouched(d: Device, addr: Address, m: SignalMessage, eph: Name, o: Oracles, past: seq<Step>)
    requires RecordVouched(LoadOrFresh(d, addr), d, addr, past)
    ensures RecordVouched(LoadOrFresh(MessageDecryptSignal(d, addr, m, eph, o).0, addr), d, addr, past)
  {
    if MessageDecryptSignal(d, addr, m, eph, o).1.Ok? {
      var r := d.sessions[addr];
      var k := SignalChange(d, addr, m, eph, o);
      DecryptEnds(Sessions(r)[k], m, eph, o);
      ReplaceVouched(r, k, Successor(r, k, m, eph, o), d, addr, past);
    }
  }

  lemma PreKeyVouched(d: Device, addr: Address, pm: PreKeySignalMessage, eph: Name, o: Oracles, pqInit: PqInit,
                      past: seq<Step>)
    requires RecordVouched(LoadOrFresh(d, addr), d, addr, past)
    ensures RecordVouched(LoadOrFresh(MessageDecryptPreKey(d, addr, pm, eph, o, pqInit).0, addr), d, addr, past)
  {
    var r := LoadOrFresh(d, addr);
    if MessageDecryptPreKey(d, addr, pm, eph, o, pqInit).1.Ok? {
      var existing, k := PreKeyChange(d, addr, pm, eph, o, pqInit);
      if existing {
        DecryptEnds(Sessions(r)[k], pm.message, eph, o);
        ReplaceVouched(r, k, Successor(r, k, pm.message, eph, o), d, addr, past);
      } else {
        DecryptEnds(NewIncoming(d, pm, pqInit), pm.message, eph, o);
        AddVouched(r, DecryptWithState(NewIncoming(d, pm, pqInit), pm.message, eph, o).value.0, d, addr, past);
      }
    }
  }

  lemma OtherCallVouched(d: Device, step: Step, addr: Address, past: seq<Step>)
    requires RecordVouched(LoadOrFresh(d, addr), d, addr, past) && !(step.Start? && step.addr == addr)
    ensures RecordVouched(LoadOrFresh(Exec(d, step).0, addr), d, addr, past)
  {
    if AddressOf(step) != Some(addr) {
      ElsewhereKeeps(d, step, addr);
    } else {
      match step {
        case Send(_, plaintext, now, pqSend) =>
          if MessageEncrypt(d, addr, plaintext, now, pqSend).Ok? {
            SendVouched(d, addr, plaintext, now, pqSend, past);
          }
        case ReceivePreKey(_, pm, eph, o, pqInit) => PreKeyVouched(d, addr, pm, eph, o, pqInit, past);
        case ReceiveSignal(_, m, eph, o) => SignalVouched(d, addr, m, eph, o, past);
        case Archive(_) => RetireVouched(LoadOrFresh(d, addr), d, addr, past);
      }
    }
  }

  lemma CallVouched(d: Device, step: Step, addr: Address, past: seq<Step>)
    requires RecordVouched(LoadOrFresh(d, addr), d, addr, past)
    ensures var d' := Exec(d, step).0;
            && RecordVouched(LoadOrFresh(d', addr), d', addr, past + [step])
            && d'.identity == d.identity && d'.registrationId == d.registrationId
  {
    ExecOnlyAt(d, step);
    var d' := Exec(d, step).0;
    if step.Start? && step.addr == addr {
      StartVouched(d, step, past);
      SameOwner(LoadOrFresh(d', addr), d, d', addr, past + [step]);
    } else {
      OtherCallVouched(d, step, addr, past);
      MoreVouched(LoadOrFresh(d', addr), d, d', addr, past, step);
    }
  }

  lemma SameOwner(r: Record, d: Device, d': Device, addr: Address, past: seq<Step>)
    requires RecordVouched(r, d, addr, past) && d'.identity == d.identity && d'.registrationId == d.registrationId
    ensures RecordVouched(r, d', addr, past)
  {
    forall k | 0 <= k < |Sessions(r)| ensures Vouched(Sessions(r)[k], d', addr, past) {
      var t := Sessions(r)[k];
      assert Vouched(t, d, addr, past);
      if t.pendingPreKey.Some? {
        var j :| 0 <= j < |past| && RestsOn(t, d, addr, past[j]);
        assert RestsOn(t, d', addr, past[j]);
      }
    }
  }

  lemma CallAtVouched(ds: seq<Device>, outs: seq<Output>, steps: seq<Step>, i: nat, addr: Address)
    requires Calls(ds, outs, steps) && i < |steps| && RecordVouched(LoadOrFresh(ds[i], addr), ds[i], addr, steps[..i])
    ensures RecordVouched(LoadOrFresh(ds[i + 1], addr), ds[i + 1], addr, steps[..i + 1])
    ensures ds[i + 1].identity == ds[i].identity && ds[i + 1].registrationId == ds[i].registrationId
  {
    assert CallAt(ds, outs, steps, i);
    CallVouched(ds[i], steps[i], addr, steps[..i]);
    assert steps[..i] + [steps[i]] == steps[..i + 1];
  }

  lemma {:induction false} AlwaysVouched(ds: seq<Device>, outs: seq<Output>, steps: seq<Step>, n: nat, addr: Address)
    requires Calls(ds, outs, steps) && ds[0].sessions == map[] && n < |ds|
    ensures RecordVouched(LoadOrFresh(ds[n], addr), ds[n], addr, steps[..n])
    ensures ds[n].identity == ds[0].identity && ds[n].registrationId == ds[0].registrationId
  {
    if n > 0 {
      AlwaysVouched(ds, outs, steps, n - 1, addr);
      CallAtVouched(ds, outs, steps, n - 1, addr);
    }
  }

  /**
   Authenticity of pending sessions: whatever a device called and was sent, every stored session that still waits for
   its peer was derived from the pre-keys of a bundle that its peer's identity key had signed, and names them.
   */
  lemma PendingRestsOnSignedKeys(ds: seq<Device>, outs: seq<Output>, steps: seq<Step>, n: nat, addr: Address, k: nat)
    returns (j: nat)
    requires Calls(ds, outs, steps) && ds[0].sessions == map[] && n < |ds| && addr in ds[n].sessions
    requires k < |Sessions(ds[n].sessions[addr])| && Sessions(ds[n].sessions[addr])[k].pendingPreKey.Some?
    ensures j < n && RestsOn(Sessions(ds[n].sessions[addr])[k], ds[0], addr, steps[j])
  {
    AlwaysVouched(ds, outs, steps, n, addr);
    var t := Sessions(ds[n].sessions[addr])[k];
    assert Vouched(t, ds[n], addr, steps[..n]);
    j :| 0 <= j < n && RestsOn(t, ds[n], addr, steps[..n][j]);
    assert RestsOn(t, ds[0], addr, steps[j]);
  }

  // ---------------------------------------------------------------------------------------------
  // Pre-key messages

  /** The header names the device and what it was given in the bundle, and not longer than 30 days after that. */
  ghost predicate HeaderOf(pm: PreKeySignalMessage, d: Device, step: Step, now: nat) {
    && step.Start? && SignedByPeer(step.bundle) && now <= step.now + 30 * 24 * 60 * 60
    && pm.identityKey == d.identity && pm.registrationId == d.registrationId && pm.baseKey == step.base
    && pm.preKeyId == OneTimeId(step.bundle) && pm.signedPreKeyId == step.bundle.signedPreKeyId
    && pm.kyberPreKeyId == Some(step.bundle.kyberPreKeyId)
    && pm.kyberCiphertext == Some(Encapsulate(step.bundle.kyberPreKey, step.coins).1)
    && pm.message.mac.Mac? && pm.message.mac.sender == d.identity && pm.message.mac.receiver == step.bundle.identityKey
  }

  lemma WrappedHeader(d: Device, addr: Address, plaintext: Plaintext, now: nat, pqSend: PqSend, step: Step)
    requires MessageEncrypt(d, addr, plaintext, now, pqSend).Ok?
    requires MessageEncrypt(d, addr, plaintext, now, pqSend).value.1.PreKey?
    requires addr in d.sessions && d.sessions[addr].current.Some?
    requires RestsOn(d.sessions[addr].current.value, d, addr, step)
    ensures HeaderOf(MessageEncrypt(d, addr, plaintext, now, pqSend).value.1.preKey, d, step, now)
  {
  }

  lemma PendingToWrap(d: Device, addr: Address, plaintext: Plaintext, now: nat, pqSend: PqSend)
    requires MessageEncrypt(d, addr, plaintext, now, pqSend).Ok?
    requires MessageEncrypt(d, addr, plaintext, now, pqSend).value.1.PreKey?
    ensures addr in d.sessions && d.sessions[addr].current.Some?
            && d.sessions[addr].current.value.pendingPreKey.Some?
            && Sessions(d.sessions[addr])[0] == d.sessions[addr].current.value
  {
  }

  /**
   Every pre-key message a device emits belongs to a session it started for the address with a bundle, names the
   device and the pre-keys and IDs of that bundle, and is emitted within 30 days of that start.
   */
  lemma PreKeyMessagesNameTheirBundle(ds: seq<Device>, outs: seq<Output>, steps: seq<Step>, i: nat) returns (j: nat)
    requires Calls(ds, outs, steps) && ds[0].sessions == map[] && i < |steps|
    requires steps[i].Send? && outs[i].Emitted? && outs[i].message.PreKey?
    ensures j < i && steps[j].Start? && steps[j].addr == steps[i].addr
    ensures HeaderOf(outs[i].message.preKey, ds[0], steps[j], steps[i].now)
  {
    var Send(addr, plaintext, now, pqSend) := steps[i];
    assert CallAt(ds, outs, steps, i);
    PendingToWrap(ds[i], addr, plaintext, now, pqSend);
    j := PendingRestsOnSignedKeys(ds, outs, steps, i, addr, 0);
    AlwaysVouched(ds, outs, steps, i, addr);
    WrappedHeader(ds[i], addr, plaintext, now, pqSend, steps[j]);
  }

  /** A bundle is refused, and nothing changes, unless its identity key signed both pre-keys in it. */
  lemma UnsignedBundleIsRefused(d: Device, step: Step)
    requires step.Start? && !SignedByPeer(step.bundle)
    ensures Exec(d, step).0 == d && Exec(d, step).1.Failed?
  {
  }

  /** A session started by a pre-key message names this device and what the header said of the other one. */
  lemma NewSessionNames(d: Device, addr: Address, pm: PreKeySignalMessage, eph: Name, o: Oracles, pqInit: PqInit)
    requires ArchiveFits(d, addr) && MessageDecryptPreKey(d, addr, pm, eph, o, pqInit).1.Ok?
    requires PromoteMatching(LoadOrFresh(d, addr), pm.version, pm.baseKey).None?
    ensures var d' := MessageDecryptPreKey(d, addr, pm, eph, o, pqInit).0;
            && addr in d'.sessions && d'.sessions[addr].current.Some?
            && var t := d'.sessions[addr].current.value;
            && t.localIdentity == d.identity && t.remoteIdentity == pm.identityKey && t.aliceBaseKey == pm.baseKey
            && t.localRegistrationId == d.registrationId && t.remoteRegistrationId == pm.registrationId
            && t.version == CURRENT_VERSION && !HasPending(t)
  {
    StartsNew(d, addr, pm, eph, o, pqInit);
    DecryptEnds(NewIncoming(d, pm, pqInit), pm.message, eph, o);
  }

  // ---------------------------------------------------------------------------------------------
  // Trust on first use

  /** The identity keys a message's MAC was made for. */
  predicate MadeFor(m: SignalMessage, sender: Name, receiver: Name) {
    m.mac.Mac? && m.mac.sender == sender && m.mac.receiver == receiver
  }

  /** The known keys are as they were, or hold a key for the address that was trusted before. */
  predicate SavedOnlyTrusted(d: Device, d': Device, addr: Address, key: Name) {
    d'.knownKeys == d.knownKeys || (IsTrusted(d, addr, key) && d'.knownKeys == d.knownKeys[addr := key])
  }

  /** What was accepted or emitted was accepted or emitted under this key. */
  predicate UnderKey(d: Device, d': Device, addr: Address, key: Name) {
    IsTrusted(d, addr, key) && d'.knownKeys == d.knownKeys[addr := key]
  }

  lemma StartTrusts(d: Device, step: Step)
    requires step.Start?
    ensures var (d', out) := Exec(d, step);
            if out.Quiet? then UnderKey(d, d', step.addr, step.bundle.identityKey) else d'.knownKeys == d.knownKeys
  {
  }

  lemma SendTrusts(d: Device, addr: Address, plaintext: Plaintext, now: nat, pqSend: PqSend)
    requires MessageEncrypt(d, addr, plaintext, now, pqSend).Ok?
    ensures addr in d.sessions && d.sessions[addr].current.Some?
    ensures var (d', m) := MessageEncrypt(d, addr, plaintext, now, pqSend).value;
            var s := d.sessions[addr].current.value;
            UnderKey(d, d', addr, s.remoteIdentity) && MadeFor(InnerOf(m), s.localIdentity, s.remoteIdentity)
  {
  }

  lemma DecryptNames(s: SessionStructure, m: SignalMessage, eph: Name, o: Oracles)
    requires DecryptWithState(s, m, eph, o).Ok?
    ensures MadeFor(m, s.remoteIdentity, s.localIdentity)
  {
    DecryptEnds(s, m, eph, o);
  }

  lemma SignalTrusts(d: Device, addr: Address, m: SignalMessage, eph: Name, o: Oracles) returns (theirs: Name)
    requires ArchiveFits(d, addr)
    ensures var (d', r) := MessageDecryptSignal(d, addr, m, eph, o);
            if r.Ok? then UnderKey(d, d', addr, theirs) && m.mac.Mac? && m.mac.sender == theirs
            else d'.knownKeys == d.knownKeys
  {
    theirs := 0;
    if MessageDecryptSignal(d, addr, m, eph, o).1.Ok? {
      var k := DecryptConserves(d.sessions[addr], m, WhisperKind, eph, o);
      var s := Sessions(d.sessions[addr])[k];
      DecryptNames(s, m, eph, o);
      DecryptEnds(s, m, eph, o);
      theirs := s.remoteIdentity;
    }
  }

  lemma PreKeyTrusts(d: Device, addr: Address, pm: PreKeySignalMessage, eph: Name, o: Oracles, pqInit: PqInit)
    ensures var (d', r) := MessageDecryptPreKey(d, addr, pm, eph, o, pqInit);
            if r.Ok? then UnderKey(d, d', addr, pm.identityKey) else SavedOnlyTrusted(d, d', addr, pm.identityKey)
  {
    var processed := ProcessPreKey(d, LoadOrFresh(d, addr), pm, o, pqInit);
    if processed.Ok? && UsePreKeys(SaveIdentity(d, addr, pm.identityKey), processed.value.1, pm.baseKey).Ok? {
      assert UsePreKeys(SaveIdentity(d, addr, pm.identityKey), processed.value.1, pm.baseKey).value.knownKeys
          == d.knownKeys[addr := pm.identityKey];
    }
  }

  lemma OtherCallTrusts(d: Device, step: Step)
    requires AddressOf(step).None? || step.Archive?
    ensures Exec(d, step).0.knownKeys == d.knownKeys
  {
  }

  /**
   Every call that accepts or emits something for an address does so under an identity key that was trusted for the
   address and is known for it from then on; the message accepted or emitted names that key. Other calls save no key
   that was not trusted.
   */
  lemma CallTrusts(d: Device, step: Step) returns (theirs: Name)
    requires AddressOf(step).Some? ==> ArchiveFits(d, AddressOf(step).value)
    ensures var (d', out) := Exec(d, step);
            match AddressOf(step)
            case None => d'.knownKeys == d.knownKeys
            case Some(addr) => SavedOnlyTrusted(d, d', addr, theirs)
                               && (out.Received? || out.Emitted? ==> UnderKey(d, d', addr, theirs))
    ensures var out := Exec(d, step).1;
            && (out.Emitted? ==> InnerOf(out.message).mac.Mac? && InnerOf(out.message).mac.receiver == theirs)
            && (step.ReceiveSignal? && out.Received? ==> out.inner.mac.Mac? && out.inner.mac.sender == theirs)
            && (step.ReceivePreKey? ==> theirs == step.preKey.identityKey)
            && (step.Start? ==> theirs == step.bundle.identityKey)
  {
    theirs := 0;
    match step {
      case Start(_, b, _, _, _, _, _) =>
        theirs := b.identityKey;
        StartTrusts(d, step);
      case Send(addr, plaintext, now, pqSend) =>
        if MessageEncrypt(d, addr, plaintext, now, pqSend).Ok? {
          SendTrusts(d, addr, plaintext, now, pqSend);
          theirs := d.sessions[addr].current.value.remoteIdentity;
        }
      case ReceivePreKey(addr, pm, eph, o, pqInit) =>
        theirs := pm.identityKey;
        PreKeyTrusts(d, addr, pm, eph, o, pqInit);
      case ReceiveSignal(addr, m, eph, o) => theirs := SignalTrusts(d, addr, m, eph, o);
      case _ => OtherCallTrusts(d, step);
    }
  }

  lemma CallAtPins(ds: seq<Device>, outs: seq<Output>, steps: seq<Step>, i: nat, addr: Address)
    requires Calls(ds, outs, steps) && ds[0].sessions == map[] && i < |steps| && addr in ds[i].knownKeys
    ensures addr in ds[i + 1].knownKeys && ds[i + 1].knownKeys[addr] == ds[i].knownKeys[addr]
  {
    assert CallAt(ds, outs, steps, i);
    if AddressOf(steps[i]).Some? {
      AlwaysVouched(ds, outs, steps, i, AddressOf(steps[i]).value);
    }
    var theirs := CallTrusts(ds[i], steps[i]);
  }

  /** Trust on first use: whatever was called and received, an address keeps the identity key it was first used with. */
  lemma {:induction false} IdentityIsPinned(ds: seq<Device>, outs: seq<Output>, steps: seq<Step>, i: nat, j: nat,
                                            addr: Address)
    requires Calls(ds, outs, steps) && ds[0].sessions == map[] && i <= j < |ds| && addr in ds[i].knownKeys
    ensures addr in ds[j].knownKeys && ds[j].knownKeys[addr] == ds[i].knownKeys[addr]
    decreases j
  {
    if i < j {
      IdentityIsPinned(ds, outs, steps, i, j - 1, addr);
      CallAtPins(ds, outs, steps, j - 1, addr);
    }
  }

  /** Everything emitted for or received from an address names the one identity key it was first used with. */
  lemma AllNameTheSameKey(ds: seq<Device>, outs: seq<Output>, steps: seq<Step>, i: nat, addr: Address)
    requires Calls(ds, outs, steps) && ds[0].sessions == map[] && i < |steps| && AddressOf(steps[i]) == Some(addr)
    requires outs[i].Emitted? || (outs[i].Received? && steps[i].ReceiveSignal?)
    ensures addr in ds[|steps|].knownKeys
    ensures var theirs := ds[|steps|].knownKeys[addr];
            && (outs[i].Emitted? ==> InnerOf(outs[i].message).mac.Mac?
                                     && InnerOf(outs[i].message).mac.receiver == theirs)
            && (outs[i].Received? ==> outs[i].inner.mac.Mac? && outs[i].inner.mac.sender == theirs)
  {
    assert CallAt(ds, outs, steps, i);
    AlwaysVouched(ds, outs, steps, i, addr);
    var theirs := CallTrusts(ds[i], steps[i]);
    IdentityIsPinned(ds, outs, steps, i + 1, |steps|, addr);
  }
}
