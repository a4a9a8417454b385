/**
 One-time pre-keys over any sequence of calls of one device (rust/protocol/src/session_cipher.rs:254-276,
 rust/protocol/src/storage/inmem.rs:121-147): a key is removed by the one receipt that starts a session with it.
 */
module OneTimeKeys {
  import opened Prelude
  import opened Symbolic
  import opened Messages
  import opened SessionRecords
  import opened Handshake
  import opened Devices
  import opened DeviceRuns
  import opened DeviceFrames

  predicate HoldsSession(r: Record, version: nat, base: Name) {
    exists k :: 0 <= k < |Sessions(r)| && Matches(Sessions(r)[k], version, base)
  }

  /** The call received a pre-key message for which the address had no session, naming the one-time pre-key. */
  predicate StartsWith(d: Device, step: Step, out: Output, id: PreKeyId) {
    && step.ReceivePreKey? && out.Received? && step.preKey.preKeyId == Some(id)
    && !HoldsSession(LoadOrFresh(d, step.addr), step.preKey.version, step.preKey.baseKey)
  }

  lemma PromotesIff(r: Record, version: nat, base: Name)
    ensures PromoteMatching(r, version, base).Some? <==> HoldsSession(r, version, base)
  {
    assert forall k :: 0 <= k < |r.previous| ==> r.previous[k] == Sessions(r)[ArchivedAt(r, k)];
    assert r.current.Some? ==> Sessions(r)[0] == r.current.value;
  }

  /** What a receipt does to all one-time pre-keys: the one a new session used is gone, the others keep their keys. */
  lemma ReceiptKeys(d: Device, addr: Address, pm: PreKeySignalMessage, eph: Name, o: Oracles, pqInit: PqInit)
    ensures var (d', r) := MessageDecryptPreKey(d, addr, pm, eph, o, pqInit);
            if r.Ok? && pm.preKeyId.Some? && PromoteMatching(LoadOrFresh(d, addr), pm.version, pm.baseKey).None?
            then pm.preKeyId.value in d.preKeys && d'.preKeys == d.preKeys - {pm.preKeyId.value}
            else d'.preKeys == d.preKeys
  {
    ProcessedKeys(d, LoadOrFresh(d, addr), pm, o, pqInit);
    var processed := ProcessPreKey(d, LoadOrFresh(d, addr), pm, o, pqInit);
    if processed.Ok? {
      ConsumedKeys(SaveIdentity(d, addr, pm.identityKey), processed.value.1, pm.baseKey);
    }
  }

  lemma ProcessedKeys(d: Device, r: Record, pm: PreKeySignalMessage, o: Oracles, pqInit: PqInit)
    ensures var processed := ProcessPreKey(d, r, pm, o, pqInit);
            processed.Ok? ==>
              var used := processed.value.1;
              && (used.None? <==> PromoteMatching(r, pm.version, pm.baseKey).Some?)
              && (used.Some? ==> used.value.oneTime == pm.preKeyId)
              && (used.Some? && pm.preKeyId.Some? ==> pm.preKeyId.value in d.preKeys)
  {
  }

  lemma ConsumedKeys(d: Device, used: Option<PreKeysUsed>, base: Name)
    ensures var r := UsePreKeys(d, used, base);
            r.Ok? ==> r.value.preKeys == if used.Some? && used.value.oneTime.Some?
                                         then d.preKeys - {used.value.oneTime.value} else d.preKeys
  {
  }

  lemma OtherCallKeys(d: Device, step: Step)
    requires !step.ReceivePreKey? && !step.SavePreKey?
    ensures Exec(d, step).0.preKeys == d.preKeys
  {
  }

  /** A call saves a one-time pre-key, or removes it as the receipt that used it, or leaves it as it was. */
  lemma OneTimeKeyAfter(d: Device, step: Step, id: PreKeyId)
    ensures var (d', out) := Exec(d, step);
            if step.SavePreKey? && step.id == id then id in d'.preKeys && d'.preKeys[id] == step.key
            else if StartsWith(d, step, out, id) then id !in d'.preKeys && id in d.preKeys
            else (id in d'.preKeys <==> id in d.preKeys) && (id in d.preKeys ==> d'.preKeys[id] == d.preKeys[id])
  {
    if step.ReceivePreKey? {
      PromotesIff(LoadOrFresh(d, step.addr), step.preKey.version, step.preKey.baseKey);
      ReceiptKeys(d, step.addr, step.preKey, step.eph, step.oracles, step.pqInit);
    } else if !step.SavePreKey? {
      OtherCallKeys(d, step);
    }
  }

  lemma StartedAt(ds: seq<Device>, outs: seq<Output>, steps: seq<Step>, i: nat, id: PreKeyId)
    requires Calls(ds, outs, steps) && i < |steps| && StartsWith(ds[i], steps[i], outs[i], id)
    ensures id in ds[i].preKeys && id !in ds[i + 1].preKeys
  {
    assert CallAt(ds, outs, steps, i);
    OneTimeKeyAfter(ds[i], steps[i], id);
  }

  lemma AbsentStays(ds: seq<Device>, outs: seq<Output>, steps: seq<Step>, i: nat, id: PreKeyId)
    requires Calls(ds, outs, steps) && i < |steps| && id !in ds[i].preKeys
    requires !(steps[i].SavePreKey? && steps[i].id == id)
    ensures id !in ds[i + 1].preKeys
  {
    assert CallAt(ds, outs, steps, i);
    OneTimeKeyAfter(ds[i], steps[i], id);
  }

  lemma {:induction false} AbsentUntilSaved(ds: seq<Device>, outs: seq<Output>, steps: seq<Step>, i: nat, j: nat,
                                            id: PreKeyId)
    requires Calls(ds, outs, steps) && i <= j < |ds| && id !in ds[i].preKeys
    requires forall k :: i <= k < j ==> !(steps[k].SavePreKey? && steps[k].id == id)
    ensures id !in ds[j].preKeys
    decreases j
  {
    if i < j {
      AbsentUntilSaved(ds, outs, steps, i, j - 1, id);
      AbsentStays(ds, outs, steps, j - 1, id);
    }
  }

  /** A one-time pre-key starts at most one session: between two that it starts, its ID was saved again. */
  lemma OneSessionPerOneTimeKey(ds: seq<Device>, outs: seq<Output>, steps: seq<Step>, i: nat, j: nat, id: PreKeyId)
    returns (k: nat)
    requires Calls(ds, outs, steps) && i < j < |steps|
    requires StartsWith(ds[i], steps[i], outs[i], id) && StartsWith(ds[j], steps[j], outs[j], id)
    ensures i < k < j && steps[k].SavePreKey? && steps[k].id == id
  {
    StartedAt(ds, outs, steps, i, id);
    StartedAt(ds, outs, steps, j, id);
    if k' :| i < k' < j && steps[k'].SavePreKey? && steps[k'].id == id {
      k := k';
    } else {
      k := 0;
      AbsentUntilSaved(ds, outs, steps, i + 1, j, id);
    }
  }
}
