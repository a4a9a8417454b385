/**
 What one call leaves alone on a device, and sequences of calls from any stores at all.
 */
module DeviceFrames {
  import opened Prelude
  import opened Symbolic
  import opened Messages
  import opened SessionRecords
  import opened Handshake
  import opened Devices
  import opened DeviceRuns

  ghost predicate CallAt(ds: seq<Device>, outs: seq<Output>, steps: seq<Step>, i: nat) {
    i < |steps| && i < |outs| && i + 1 < |ds| && (ds[i + 1], outs[i]) == Exec(ds[i], steps[i])
  }

  /** Any sequence of calls, from any stores: the stores before and after each call, and what it returned. */
  ghost predicate Calls(ds: seq<Device>, outs: seq<Output>, steps: seq<Step>) {
    && |ds| == |steps| + 1 && |outs| == |steps|
    && forall i {:trigger CallAt(ds, outs, steps, i)} :: 0 <= i < |steps| ==> CallAt(ds, outs, steps, i)
  }

  // ---------------------------------------------------------------------------------------------
  // What a call leaves alone

  ghost predicate SeenGrows(d: Device, d': Device) {
    forall kyber, signed, base :: BaseKeySeen(d, kyber, signed, base) ==> BaseKeySeen(d', kyber, signed, base)
  }

  /** At most the record and the known key of one address changed, and no used base key was forgotten. */
  ghost predicate OnlyAt(d: Device, d': Device, addr: Address) {
    && d'.identity == d.identity && d'.registrationId == d.registrationId && SeenGrows(d, d')
    && d'.sessions - {addr} == d.sessions - {addr} && d'.knownKeys - {addr} == d.knownKeys - {addr}
  }

  lemma StoredOnlyAt(d: Device, d': Device, addr: Address, r: Record)
    requires OnlyAt(d, d', addr)
    ensures OnlyAt(d, StoreSession(d', addr, r), addr)
  {
    var d'' := StoreSession(d', addr, r);
    assert d''.sessions - {addr} == d'.sessions - {addr};
    forall kyber, signed, base | BaseKeySeen(d, kyber, signed, base) ensures BaseKeySeen(d'', kyber, signed, base) {
      assert BaseKeySeen(d', kyber, signed, base);
    }
  }

  lemma SavedOnlyAt(d: Device, addr: Address, key: Name)
    ensures OnlyAt(d, SaveIdentity(d, addr, key), addr)
  {
    var d' := SaveIdentity(d, addr, key);
    assert d'.knownKeys - {addr} == d.knownKeys - {addr};
    forall kyber, signed, base ensures BaseKeySeen(d', kyber, signed, base) == BaseKeySeen(d, kyber, signed, base) {
    }
  }

  lemma UsedOnlyAt(d: Device, addr: Address, key: Name, used: Option<PreKeysUsed>, base: Name)
    requires UsePreKeys(SaveIdentity(d, addr, key), used, base).Ok?
    ensures OnlyAt(d, UsePreKeys(SaveIdentity(d, addr, key), used, base).value, addr)
  {
    SavedOnlyAt(d, addr, key);
    var saved := SaveIdentity(d, addr, key);
    if used.Some? {
      PreKeysUsedUp(saved, used.value, base);
      var d' := UsePreKeys(saved, used, base).value;
      forall kyber, signed, b | BaseKeySeen(d, kyber, signed, b) ensures BaseKeySeen(d', kyber, signed, b) {
        assert BaseKeySeen(saved, kyber, signed, b);
      }
    }
  }

  lemma PreKeyOnlyAt(d: Device, addr: Address, pm: PreKeySignalMessage, eph: Name, o: Oracles, pqInit: PqInit)
    ensures OnlyAt(d, MessageDecryptPreKey(d, addr, pm, eph, o, pqInit).0, addr)
  {
    var d', key := MessageDecryptPreKey(d, addr, pm, eph, o, pqInit).0, pm.identityKey;
    var saved := SaveIdentity(d, addr, key);
    if d' == saved {
      SavedOnlyAt(d, addr, key);
    } else if d' != d {
      var (r, used) := ProcessPreKey(d, LoadOrFresh(d, addr), pm, o, pqInit).value;
      UsedOnlyAt(d, addr, key, used, pm.baseKey);
      var consumed := UsePreKeys(saved, used, pm.baseKey).value;
      StoredOnlyAt(d, consumed, addr, DecryptWithRecord(r, pm.message, PreKeyKind, eph, o).value.0);
    }
  }

  function AddressOf(step: Step): Option<Address> {
    match step
    case Start(a, _, _, _, _, _, _) => Some(a)
    case Send(a, _, _, _) => Some(a)
    case ReceivePreKey(a, _, _, _, _) => Some(a)
    case ReceiveSignal(a, _, _, _) => Some(a)
    case Archive(a) => Some(a)
    case _ => None
  }

  lemma SavedAndStored(d: Device, addr: Address, key: Name, r: Record)
    ensures OnlyAt(d, StoreSession(SaveIdentity(d, addr, key), addr, r), addr)
  {
    SavedOnlyAt(d, addr, key);
    StoredOnlyAt(d, SaveIdentity(d, addr, key), addr, r);
  }

  lemma SentOnlyAt(d: Device, addr: Address, plaintext: Plaintext, now: nat, pqSend: PqSend)
    requires MessageEncrypt(d, addr, plaintext, now, pqSend).Ok?
    ensures OnlyAt(d, MessageEncrypt(d, addr, plaintext, now, pqSend).value.0, addr)
  {
    var s := d.sessions[addr].current.value;
    SavedAndStored(d, addr, s.remoteIdentity, MessageEncrypt(d, addr, plaintext, now, pqSend).value.0.sessions[addr]);
  }

  lemma SignalOnlyAt(d: Device, addr: Address, m: SignalMessage, eph: Name, o: Oracles)
    ensures OnlyAt(d, MessageDecryptSignal(d, addr, m, eph, o).0, addr)
  {
    if MessageDecryptSignal(d, addr, m, eph, o).1.Ok? {
      var r := DecryptWithRecord(d.sessions[addr], m, WhisperKind, eph, o).value.0;
      SavedAndStored(d, addr, r.current.value.remoteIdentity, r);
    }
  }

  lemma ExecOnlyAt(d: Device, step: Step)
    ensures var d' := Exec(d, step).0;
            if AddressOf(step).Some? then OnlyAt(d, d', AddressOf(step).value)
            else
              && d'.identity == d.identity && d'.registrationId == d.registrationId && SeenGrows(d, d')
              && d'.sessions == d.sessions && d'.knownKeys == d.knownKeys
  {
    match step {
      case Start(addr, bundle, now, base, coins, eph, pqInit) =>
        SavedAndStored(d, addr, bundle.identityKey,
                       PromoteState(LoadOrFresh(d, addr), NewOutgoing(d, bundle, now, base, coins, eph, pqInit)));
      case Send(addr, plaintext, now, pqSend) =>
        if MessageEncrypt(d, addr, plaintext, now, pqSend).Ok? {
          SentOnlyAt(d, addr, plaintext, now, pqSend);
        }
      case ReceivePreKey(addr, pm, eph, o, pqInit) => PreKeyOnlyAt(d, addr, pm, eph, o, pqInit);
      case ReceiveSignal(addr, m, eph, o) => SignalOnlyAt(d, addr, m, eph, o);
      case Archive(addr) => StoredOnlyAt(d, d, addr, ArchiveCurrent(LoadOrFresh(d, addr)));
      case _ =>
    }
  }

  /** A call about another address, or none, leaves the record and the known key alone. */
  lemma ElsewhereKeeps(d: Device, step: Step, addr: Address)
    requires AddressOf(step) != Some(addr)
    ensures var d' := Exec(d, step).0;
            && LoadOrFresh(d', addr) == LoadOrFresh(d, addr)
            && forall key :: IsTrusted(d', addr, key) == IsTrusted(d, addr, key)
  {
    ExecOnlyAt(d, step);
    var d' := Exec(d, step).0;
    if AddressOf(step).Some? {
      var a := AddressOf(step).value;
      assert addr in d.sessions <==> addr in d.sessions - {a};
      assert addr in d'.sessions <==> addr in d'.sessions - {a};
      assert addr in d.knownKeys <==> addr in d.knownKeys - {a};
      assert addr in d'.knownKeys <==> addr in d'.knownKeys - {a};
    }
  }

  /** A call that fails leaves every record alone, and trust in the key it was about. */
  lemma FailedKeeps(d: Device, step: Step, addr: Address, key: Name)
    requires Exec(d, step).1.Failed? && (step.ReceivePreKey? ==> step.preKey.identityKey == key)
    ensures var d' := Exec(d, step).0;
            LoadOrFresh(d', addr) == LoadOrFresh(d, addr) && (IsTrusted(d, addr, key) ==> IsTrusted(d', addr, key))
  {
  }
}
