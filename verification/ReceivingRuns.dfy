/**
 What accepted messages and reported duplicates have in common over all runs of a device
 (rust/protocol/src/session_cipher.rs:149-660): no message of another version is ever accepted, and a message reported
 as a duplicate meets a chain that passed its index and keeps no key for it.
 */
module ReceivingRuns {
  import opened Prelude
  import opened Symbolic
  import opened RatchetKeys
  import opened Messages
  import opened SessionStates
  import opened SessionCipher
  import opened SessionRecords
  import opened Handshake
  import opened Devices
  import opened DeviceRuns
  import opened RecordRuns

  // ---------------------------------------------------------------------------------------------
  // Versions

  lemma AcceptedVersion(s: SessionStructure, m: SignalMessage, eph: Name, o: Oracles)
    requires DecryptWithState(s, m, eph, o).Ok?
    ensures m.content.version == SessionVersion(s)
  {
  }

  /** Over any run, everything received is of the version this library writes. */
  lemma OnlyCurrentVersion(start: World, steps: seq<Step>, step: Step)
    requires Initial(start) && IsRun(start, steps)
    requires Exec(After(start, steps).device, step).1.Received?
    ensures Exec(After(start, steps).device, step).1.inner.content.version == CURRENT_VERSION
  {
    var w := After(start, steps);
    RunKeepsRecords(start, steps);
    match step {
      case ReceivePreKey(addr, pm, eph, o, pqInit) =>
        RecordAt(w, addr);
        var existing, k := PreKeyChange(w.device, addr, pm, eph, o, pqInit);
        var s := if existing then Sessions(LoadOrFresh(w.device, addr))[k] else NewIncoming(w.device, pm, pqInit);
        AcceptedVersion(s, pm.message, eph, o);
      case ReceiveSignal(addr, m, eph, o) =>
        RecordAt(w, addr);
        var k := SignalChange(w.device, addr, m, eph, o);
        AcceptedVersion(Sessions(w.device.sessions[addr])[k], m, eph, o);
    }
  }

  // ---------------------------------------------------------------------------------------------
  // Duplicates

  /** The session's chain for the message is at the index, past the message, and keeps no key for it. */
  predicate Passed(s: SessionStructure, m: SignalMessage, index: nat) {
    var found := FindChain(s.receiverChains, m.content.ratchetKey);
    && found.Some? && s.receiverChains[found.value].chainKey.index == index && m.content.counter < index
    && FindKey(s.receiverChains[found.value].messageKeys, m.content.counter).None?
  }

  ghost predicate SomePassed(ss: seq<SessionStructure>, m: SignalMessage, index: nat) {
    exists k :: 0 <= k < |ss| && Passed(ss[k], m, index)
  }

  lemma DuplicateOfSession(s: SessionStructure, m: SignalMessage, eph: Name, o: Oracles, index: nat, counter: nat)
    requires DecryptWithState(s, m, eph, o) == Err(DuplicatedMessage(index, counter))
    ensures counter == m.content.counter && Passed(s, m, index)
  {
    var theirs := m.content.ratchetKey;
    if FindChain(s.receiverChains, theirs).None? {
      var (_, receiving) := CreateChain(s.rootKey, theirs, s.senderChain.value.ratchetKey);
      FindLast(s.receiverChains, Chain(theirs, receiving, []));
    }
  }

  lemma {:induction false} DuplicateOfArchive(ss: seq<SessionStructure>, i: nat, m: SignalMessage, eph: Name,
                                              o: Oracles, index: nat, counter: nat)
    requires i <= |ss| && TryFrom(ss, i, m, eph, o) == StoppedAt(DuplicatedMessage(index, counter))
    ensures counter == m.content.counter && SomePassed(ss, m, index)
    decreases |ss| - i
  {
    var first := DecryptWithState(ss[i], m, eph, o);
    if first.Err? && first.error.DuplicatedMessage? {
      DuplicateOfSession(ss[i], m, eph, o, first.error.chainIndex, first.error.counter);
    } else {
      DuplicateOfArchive(ss, i + 1, m, eph, o, index, counter);
    }
  }

  lemma DuplicateOfRecord(r: Record, m: SignalMessage, kind: MessageKind, eph: Name, o: Oracles, index: nat,
                          counter: nat)
    requires DecryptWithRecord(r, m, kind, eph, o) == Err(DuplicatedMessage(index, counter))
    ensures counter == m.content.counter && SomePassed(Sessions(r), m, index)
  {
    var ss := Sessions(r);
    if r.current.Some? && DecryptWithState(r.current.value, m, eph, o).error.DuplicatedMessage? {
      DuplicateOfSession(r.current.value, m, eph, o, index, counter);
      assert Passed(ss[0], m, index);
    } else {
      DuplicateOfArchive(r.previous, 0, m, eph, o, index, counter);
      var k :| 0 <= k < |r.previous| && Passed(r.previous[k], m, index);
      assert ss[ArchivedAt(r, k)] == r.previous[k];
    }
  }

  /** The message handed to the device in the step. */
  function Given(step: Step): SignalMessage
    requires step.ReceivePreKey? || step.ReceiveSignal?
  {
    if step.ReceivePreKey? then step.preKey.message else step.signal
  }

  /**
   Over any run, a duplicate is reported for a message received, names its counter, and is one for a session stored for
   the address: its chain is at the index named, past the counter, and keeps no key for it.
   */
  lemma DuplicateIsReported(start: World, steps: seq<Step>, step: Step, index: nat, counter: nat)
    requires Initial(start) && IsRun(start, steps)
    requires Exec(After(start, steps).device, step).1 == Failed(DuplicatedMessage(index, counter))
    ensures (step.ReceivePreKey? || step.ReceiveSignal?) && counter == Given(step).content.counter
    ensures SomePassed(Sessions(LoadOrFresh(After(start, steps).device, step.addr)), Given(step), index)
  {
    var w := After(start, steps);
    RunKeepsRecords(start, steps);
    match step {
      case ReceiveSignal(addr, m, eph, o) =>
        DuplicateOfRecord(w.device.sessions[addr], m, WhisperKind, eph, o, index, counter);
      case ReceivePreKey(addr, pm, eph, o, pqInit) =>
        RecordAt(w, addr);
        DuplicateOfPreKey(w.device, addr, pm, eph, o, pqInit, index, counter);
    }
  }

  lemma DuplicateOfPreKey(d: Device, addr: Address, pm: PreKeySignalMessage, eph: Name, o: Oracles, pqInit: PqInit,
                          index: nat, counter: nat)
    requires ArchiveFits(d, addr)
    requires MessageDecryptPreKey(d, addr, pm, eph, o, pqInit).1 == Err(DuplicatedMessage(index, counter))
    ensures counter == pm.message.content.counter
    ensures SomePassed(Sessions(LoadOrFresh(d, addr)), pm.message, index)
  {
    var r := LoadOrFresh(d, addr);
    var s := ProcessPreKey(d, r, pm, o, pqInit).value.0.current.value;
    DuplicateOfSession(s, pm.message, eph, o, index, counter);
    if PromoteMatching(r, pm.version, pm.baseKey).Some? {
      var k := PromoteMatchingConserves(r, pm.version, pm.baseKey);
      assert Passed(Sessions(r)[k], pm.message, index);
    }
  }
}
