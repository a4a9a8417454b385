/**
 What a device emits over a run: no two emitted messages share ratchet key and counter, and a session emits
 pre-key messages first and only plain SignalMessages from then on.
 */
module EmissionRuns {
  import opened Prelude
  import opened Symbolic
  import opened Messages
  import opened SessionStates
  import opened SessionCipher
  import opened SessionRecords
  import opened Devices
  import opened DeviceRuns
  import opened RecordRuns

  function SenderKey(s: SessionStructure): Name {
    if s.senderChain.Some? then s.senderChain.value.ratchetKey else 0
  }

  ghost predicate HasRatchet(r: Record, key: Name) {
    exists k :: 0 <= k < |Sessions(r)| && SenderKey(Sessions(r)[k]) == key
  }

  /** The session sends on a generated ratchet key and has not emitted its current index yet. */
  ghost predicate SenderOk(s: SessionStructure, h: History) {
    && s.senderChain.Some? && s.senderChain.value.ratchetKey in h.ratchetKeys
    && forall c: nat :: (s.senderChain.value.ratchetKey, c) in h.emitted ==> c < s.senderChain.value.chainKey.index
  }

  ghost predicate SendersOk(r: Record, h: History) {
    && (forall k :: 0 <= k < |Sessions(r)| ==> SenderOk(Sessions(r)[k], h))
    && (forall j, k :: 0 <= j < k < |Sessions(r)| ==> SenderKey(Sessions(r)[j]) != SenderKey(Sessions(r)[k]))
  }

  ghost predicate NotSettled(addr: Address, r: Record, h: History) {
    r.current.Some? && r.current.value.pendingPreKey.Some? ==> (addr, r.current.value.aliceBaseKey) !in h.settled
  }

  ghost predicate RatchetsApart(d: Device) {
    forall a, b, key ::
      a in d.sessions && b in d.sessions && HasRatchet(d.sessions[a], key) && HasRatchet(d.sessions[b], key) ==> a == b
  }

  ghost predicate EmitInv(w: World) {
    && RecordsInv(w)
    && (forall addr :: addr in w.device.sessions ==>
          SendersOk(w.device.sessions[addr], w.history) && NotSettled(addr, w.device.sessions[addr], w.history))
    && RatchetsApart(w.device)
    && (forall e :: e in w.history.emitted ==> e.0 in w.history.ratchetKeys)
    && (forall e :: e in w.history.settled ==> e.1 in w.history.bases)
  }

  /**
   A receive keeps the sender chain, or replaces it by a new one on the fresh key; a new session always does the latter.
   */
  lemma DecryptSender(s: SessionStructure, m: SignalMessage, eph: Name, o: Oracles)
    requires DecryptWithState(s, m, eph, o).Ok?
    ensures var t := DecryptWithState(s, m, eph, o).value.0;
            || (t.senderChain == s.senderChain && s.receiverChains != [])
            || (t.senderChain.Some? && t.senderChain.value.ratchetKey == eph)
  {
  }

  /** The successor sends as before, or on a key never used. */
  ghost predicate Renewed(s: SessionStructure, t: SessionStructure, eph: Name) {
    t.senderChain == s.senderChain || (t.senderChain.Some? && SenderKey(t) == eph)
  }

  lemma SenderGrows(s: SessionStructure, h: History, h': History)
    requires SenderOk(s, h) && h'.emitted == h.emitted && h.ratchetKeys <= h'.ratchetKeys
    ensures SenderOk(s, h')
  {
  }

  lemma ReplaceKeepsSenders(r: Record, k: nat, t: SessionStructure, eph: Name, h: History, h': History)
    requires SendersOk(r, h) && k < |Sessions(r)| && Renewed(Sessions(r)[k], t, eph) && eph !in h.ratchetKeys
    requires forall e :: e in h.emitted ==> e.0 in h.ratchetKeys
    requires h'.emitted == h.emitted && h'.ratchetKeys == h.ratchetKeys + {eph}
    ensures SendersOk(Apply(r, Replace(k, t)), h')
    ensures forall key :: HasRatchet(Apply(r, Replace(k, t)), key) ==> HasRatchet(r, key) || key == eph
  {
    ReplaceSessions(r, k, t);
    var ss, ss' := Sessions(r), Sessions(Apply(r, Replace(k, t)));
    assert SenderOk(ss[k], h);
    forall j | 1 <= j < |ss'| ensures SenderOk(ss'[j], h') && ss'[j].senderChain == ss[Skip(k, j - 1)].senderChain {
      assert SenderOk(ss[Skip(k, j - 1)], h);
      SenderGrows(ss[Skip(k, j - 1)], h, h');
    }
    assert SenderOk(t, h');
  }

  lemma AddKeepsSenders(r: Record, t: SessionStructure, eph: Name, h: History, h': History)
    requires SendersOk(r, h) && t.senderChain.Some? && SenderKey(t) == eph && eph !in h.ratchetKeys
    requires forall e :: e in h.emitted ==> e.0 in h.ratchetKeys
    requires h'.emitted == h.emitted && h'.ratchetKeys == h.ratchetKeys + {eph}
    ensures SendersOk(Apply(r, Add(t)), h')
    ensures forall key :: HasRatchet(Apply(r, Add(t)), key) ==> HasRatchet(r, key) || key == eph
  {
    AddSessions(r, t);
    var ss, ss' := Sessions(r), Sessions(Apply(r, Add(t)));
    forall j | 1 <= j < |ss'| ensures SenderOk(ss'[j], h') && ss'[j].senderChain == ss[j - 1].senderChain {
      assert SenderOk(ss[j - 1], h);
      SenderGrows(ss[j - 1], h, h');
    }
    assert SenderOk(t, h');
  }

  lemma RetireKeepsSenders(r: Record, h: History)
    requires SendersOk(r, h)
    ensures SendersOk(Apply(r, Retire), h)
    ensures forall key :: HasRatchet(Apply(r, Retire), key) ==> HasRatchet(r, key)
  {
    RetireSessions(r);
    var ss, ss' := Sessions(r), Sessions(Apply(r, Retire));
    forall j | 0 <= j < |ss'| ensures SenderOk(ss'[j], h) && ss'[j].senderChain == ss[j].senderChain {
      assert SenderOk(ss[j], h);
    }
  }

  /** The other records of the device are unaffected by a new ratchet key. */
  lemma OthersKeepSenders(r: Record, h: History, h': History)
    requires SendersOk(r, h) && h'.emitted == h.emitted && h.ratchetKeys <= h'.ratchetKeys
    ensures SendersOk(r, h')
  {
    forall k | 0 <= k < |Sessions(r)| ensures SenderOk(Sessions(r)[k], h') {
      SenderGrows(Sessions(r)[k], h, h');
    }
  }

  lemma RatchetsKnown(w: World, a: Address, key: Name)
    requires EmitInv(w) && a in w.device.sessions && HasRatchet(w.device.sessions[a], key)
    ensures key in w.history.ratchetKeys
  {
    var k :| 0 <= k < |Sessions(w.device.sessions[a])| && SenderKey(Sessions(w.device.sessions[a])[k]) == key;
    assert SenderOk(Sessions(w.device.sessions[a])[k], w.history);
  }

  /** A record was replaced, with at most the fresh ratchet key added. */
  lemma RenewedRecord(w: World, addr: Address, r': Record, eph: Name, w': World)
    requires EmitInv(w) && RecordsInv(w') && eph !in w.history.ratchetKeys
    requires w'.device.sessions == w.device.sessions[addr := r']
    requires w'.history.emitted == w.history.emitted && w'.history.settled == w.history.settled
    requires w'.history.ratchetKeys == w.history.ratchetKeys + {eph} && w.history.bases <= w'.history.bases
    requires SendersOk(r', w'.history) && NotSettled(addr, r', w'.history)
    requires forall key :: HasRatchet(r', key) ==> HasRatchet(LoadOrFresh(w.device, addr), key) || key == eph
    ensures EmitInv(w')
  {
    var d, d' := w.device, w'.device;
    forall a | a in d'.sessions && a != addr ensures SendersOk(d'.sessions[a], w'.history) {
      OthersKeepSenders(d.sessions[a], w.history, w'.history);
    }
    assert RatchetsApart(d') by {
      forall a, key | a in d.sessions && HasRatchet(d.sessions[a], key) ensures key != eph {
        RatchetsKnown(w, a, key);
      }
      ApartAfter(d, addr, r', eph);
      assert d'.sessions == d.(sessions := d.sessions[addr := r']).sessions;
    }
    forall e | e in w'.history.emitted ensures e.0 in w'.history.ratchetKeys {
      assert e.0 in w.history.ratchetKeys;
    }
  }

  lemma ApartAfter(d: Device, addr: Address, r': Record, eph: Name)
    requires RatchetsApart(d)
    requires forall key :: HasRatchet(r', key) ==> HasRatchet(LoadOrFresh(d, addr), key) || key == eph
    requires forall a, key :: a in d.sessions && HasRatchet(d.sessions[a], key) ==> key != eph
    ensures RatchetsApart(d.(sessions := d.sessions[addr := r']))
  {
  }

  lemma ReceiveKeepsEmit(w: World, step: Step)
    requires EmitInv(w) && (step.ReceivePreKey? || step.ReceiveSignal?)
    requires Fresh(w.history, step) && Exec(w.device, step).1.Received?
    ensures EmitInv(Next(w, step))
  {
    var d, h, w' := w.device, w.history, Next(w, step);
    StepKeepsRecords(w, step);
    RecordAt(w, step.addr);
    var r := LoadOrFresh(d, step.addr);
    if step.ReceiveSignal? {
      var k := SignalChange(d, step.addr, step.signal, step.eph, step.oracles);
      var t := Successor(r, k, step.signal, step.eph, step.oracles);
      DecryptSender(Sessions(r)[k], step.signal, step.eph, step.oracles);
      DecryptEnds(Sessions(r)[k], step.signal, step.eph, step.oracles);
      ReplaceKeepsSenders(r, k, t, step.eph, h, w'.history);
      RenewedRecord(w, step.addr, Apply(r, Replace(k, t)), step.eph, w');
    } else {
      var m := step.preKey.message;
      var existing, k := PreKeyChange(d, step.addr, step.preKey, step.eph, step.oracles, step.pqInit);
      if existing {
        var t := Successor(r, k, m, step.eph, step.oracles);
        DecryptSender(Sessions(r)[k], m, step.eph, step.oracles);
        DecryptEnds(Sessions(r)[k], m, step.eph, step.oracles);
        ReplaceKeepsSenders(r, k, t, step.eph, h, w'.history);
        RenewedRecord(w, step.addr, Apply(r, Replace(k, t)), step.eph, w');
      } else {
        var s := NewIncoming(d, step.preKey, step.pqInit);
        var t := DecryptWithState(s, m, step.eph, step.oracles).value.0;
        DecryptSender(s, m, step.eph, step.oracles);
        DecryptEnds(s, m, step.eph, step.oracles);
        AddKeepsSenders(r, t, step.eph, h, w'.history);
        RenewedRecord(w, step.addr, Apply(r, Add(t)), step.eph, w');
      }
    }
  }

  lemma StartKeepsEmit(w: World, step: Step)
    requires EmitInv(w) && step.Start? && Fresh(w.history, step) && Exec(w.device, step).1.Quiet?
    ensures EmitInv(Next(w, step))
  {
    var w' := Next(w, step);
    StepKeepsRecords(w, step);
    var r := LoadOrFresh(w.device, step.addr);
    var t := NewOutgoing(w.device, step.bundle, step.now, step.base, step.coins, step.eph, step.pqInit);
    AddKeepsSenders(r, t, step.eph, w.history, w'.history);
    RenewedRecord(w, step.addr, Apply(r, Add(t)), step.eph, w');
  }

  /** The emitted message carries the current ratchet key and index, and is wrapped exactly while pending. */
  lemma EmittedMessage(w: World, step: Step)
    requires step.Send? && Exec(w.device, step).1.Emitted?
    ensures step.addr in w.device.sessions && w.device.sessions[step.addr].current.Some?
    ensures var s := w.device.sessions[step.addr].current.value;
            var out := Exec(w.device, step).1;
            && out.addr == step.addr && out.base == s.aliceBaseKey && s.senderChain.Some?
            && InnerOf(out.message).content.ratchetKey == s.senderChain.value.ratchetKey
            && InnerOf(out.message).content.counter == s.senderChain.value.chainKey.index
            && (out.message.PreKey? <==> s.pendingPreKey.Some?)
  {
  }

  lemma SendKeepsEmit(w: World, step: Step)
    requires EmitInv(w) && step.Send? && Exec(w.device, step).1.Emitted?
    ensures EmitInv(Next(w, step))
    ensures var content := InnerOf(Exec(w.device, step).1.message).content;
            (content.ratchetKey, content.counter) !in w.history.emitted
    ensures Exec(w.device, step).1.message.PreKey? ==>
            (Exec(w.device, step).1.addr, Exec(w.device, step).1.base) !in w.history.settled
  {
    StepKeepsRecords(w, step);
    EmittedMessage(w, step);
    var s' := Next(w, step).device.sessions[step.addr].current.value;
    assert SenderOk(Sessions(w.device.sessions[step.addr])[0], w.history);
    SentWorld(w, Next(w, step), step.addr, s');
  }

  /** The current session sends on: same key, next index, and its current index goes on record as emitted. */
  ghost predicate Sends(s: SessionStructure, s': SessionStructure, h: History, h': History) {
    && s.senderChain.Some? && s'.senderChain.Some? && SenderKey(s') == SenderKey(s)
    && s'.senderChain.value.chainKey.index == s.senderChain.value.chainKey.index + 1
    && s'.aliceBaseKey == s.aliceBaseKey && s'.pendingPreKey == s.pendingPreKey
    && h'.emitted == h.emitted + {(SenderKey(s), s.senderChain.value.chainKey.index)}
    && h'.ratchetKeys == h.ratchetKeys && h'.bases == h.bases
  }

  lemma OthersAfterSend(r: Record, h: History, h': History, e: (Name, nat))
    requires SendersOk(r, h) && !HasRatchet(r, e.0) && h'.emitted == h.emitted + {e} && h'.ratchetKeys == h.ratchetKeys
    ensures SendersOk(r, h')
  {
    forall k | 0 <= k < |Sessions(r)| ensures SenderOk(Sessions(r)[k], h') {
      assert SenderOk(Sessions(r)[k], h) && SenderKey(Sessions(r)[k]) != e.0;
    }
  }

  lemma RecordAfterSend(r: Record, s': SessionStructure, h: History, h': History)
    requires SendersOk(r, h) && r.current.Some? && Sends(r.current.value, s', h, h')
    ensures SendersOk(r.(current := Some(s')), h')
    ensures forall n :: HasRatchet(r.(current := Some(s')), n) ==> HasRatchet(r, n)
  {
    var ss, ss' := Sessions(r), Sessions(r.(current := Some(s')));
    assert SenderOk(ss[0], h);
    forall k | 1 <= k < |ss'| ensures SenderOk(ss'[k], h') && ss'[k] == ss[k] {
      assert SenderOk(ss[k], h) && SenderKey(ss[k]) != SenderKey(ss[0]);
    }
    assert SenderOk(ss'[0], h');
  }

  lemma SentWorld(w: World, w': World, addr: Address, s': SessionStructure)
    requires EmitInv(w) && RecordsInv(w') && addr in w.device.sessions && w.device.sessions[addr].current.Some?
    requires var r := w.device.sessions[addr];
             var s := r.current.value;
             && w'.device.sessions == w.device.sessions[addr := r.(current := Some(s'))]
                && Sends(s, s', w.history, w'.history)
             && w'.history.settled == if s.pendingPreKey.Some? then w.history.settled
                    else w.history.settled + {(addr, s.aliceBaseKey)}
    ensures EmitInv(w')
  {
    var d, h, h', r := w.device, w.history, w'.history, w.device.sessions[addr];
    var s := r.current.value;
    var key := SenderKey(s);
    assert s == Sessions(r)[0] && SenderOk(s, h) && HasRatchet(r, key) && BasesKnown(r, h.bases);
    RecordAfterSend(r, s', h, h');
    forall a | a in d.sessions && a != addr ensures SendersOk(d.sessions[a], h') {
      OthersAfterSend(d.sessions[a], h, h', (key, s.senderChain.value.chainKey.index));
    }
  }

  lemma ArchiveKeepsEmit(w: World, addr: Address)
    requires EmitInv(w) && addr in w.device.sessions
    ensures EmitInv(Next(w, Archive(addr)))
  {
    StepKeepsRecords(w, Archive(addr));
    RetireKeepsSenders(w.device.sessions[addr], w.history);
  }

  lemma StepKeepsEmit(w: World, step: Step)
    requires EmitInv(w) && Fresh(w.history, step)
    ensures EmitInv(Next(w, step))
    ensures w.history.emitted <= Next(w, step).history.emitted && w.history.settled <= Next(w, step).history.settled
  {
    var out := Exec(w.device, step).1;
    RememberGrows(w.history, step, out);
    if out.Received? {
      ReceiveKeepsEmit(w, step);
    } else if out.Emitted? {
      SendKeepsEmit(w, step);
    } else if step.Start? && out.Quiet? {
      StartKeepsEmit(w, step);
    } else if step.Archive? && step.addr in w.device.sessions {
      ArchiveKeepsEmit(w, step.addr);
    } else {
      UntouchedKeepsEmit(w, step);
    }
  }

  lemma UntouchedKeepsEmit(w: World, step: Step)
    requires EmitInv(w) && Fresh(w.history, step) && Untouching(w, step)
    ensures EmitInv(Next(w, step))
  {
    StepKeepsRecords(w, step);
    UntouchedStep(w, step);
    SameSessionsKeepEmit(w, Next(w, step));
  }

  lemma SameSessionsKeepEmit(w: World, w': World)
    requires EmitInv(w) && RecordsInv(w') && w'.device.sessions == w.device.sessions
    requires w'.history == w.history.(signedIds := w'.history.signedIds, kyberIds := w'.history.kyberIds)
    ensures EmitInv(w')
  {
    forall addr | addr in w.device.sessions ensures SendersOk(w.device.sessions[addr], w'.history) {
      OthersKeepSenders(w.device.sessions[addr], w.history, w'.history);
    }
  }

  // ---------------------------------------------------------------------------------------------
  // Whole runs

  ghost predicate EmitsPair(out: Output, e: (Name, nat)) {
    out.Emitted? && (InnerOf(out.message).content.ratchetKey, InnerOf(out.message).content.counter) == e
  }

  lemma {:induction false} EmittedIsNotRepeated(w: World, steps: seq<Step>, e: (Name, nat), j: nat)
    requires EmitInv(w) && IsRun(w, steps) && j < |steps| && e in w.history.emitted
    ensures !EmitsPair(Outputs(w, steps)[j], e)
    decreases |steps|
  {
    if j == 0 {
      if Exec(w.device, steps[0]).1.Emitted? {
        SendKeepsEmit(w, steps[0]);
      }
    } else {
      StepKeepsEmit(w, steps[0]);
      EmittedIsNotRepeated(Next(w, steps[0]), steps[1..], e, j - 1);
    }
  }

  lemma {:induction false} NotEmittedAgain(w: World, steps: seq<Step>, i: nat, j: nat, e: (Name, nat))
    requires EmitInv(w) && IsRun(w, steps) && i < j < |steps|
    requires EmitsPair(Outputs(w, steps)[i], e)
    ensures !EmitsPair(Outputs(w, steps)[j], e)
    decreases |steps|
  {
    StepKeepsEmit(w, steps[0]);
    OutputsStep(w, steps, i);
    OutputsStep(w, steps, j);
    if i == 0 {
      EmittedIsNotRepeated(Next(w, steps[0]), steps[1..], e, j - 1);
    } else {
      NotEmittedAgain(Next(w, steps[0]), steps[1..], i - 1, j - 1, e);
    }
  }

  lemma {:induction false} SettledStaysSettled(w: World, steps: seq<Step>, e: (Address, Name), j: nat)
    requires EmitInv(w) && IsRun(w, steps) && j < |steps| && e in w.history.settled
    ensures var out := Outputs(w, steps)[j];
            out.Emitted? && (out.addr, out.base) == e ==> out.message.Whisper?
    decreases |steps|
  {
    if j == 0 {
      if Exec(w.device, steps[0]).1.Emitted? {
        SendKeepsEmit(w, steps[0]);
      }
    } else {
      StepKeepsEmit(w, steps[0]);
      SettledStaysSettled(Next(w, steps[0]), steps[1..], e, j - 1);
    }
  }

  lemma {:induction false} NotWrappedAgain(w: World, steps: seq<Step>, i: nat, j: nat)
    requires EmitInv(w) && IsRun(w, steps) && i < j < |steps|
    requires Outputs(w, steps)[i].Emitted? && Outputs(w, steps)[j].Emitted?
    requires Outputs(w, steps)[i].addr == Outputs(w, steps)[j].addr
    requires Outputs(w, steps)[i].base == Outputs(w, steps)[j].base
    requires Outputs(w, steps)[i].message.Whisper?
    ensures Outputs(w, steps)[j].message.Whisper?
    decreases |steps|
  {
    StepKeepsEmit(w, steps[0]);
    OutputsStep(w, steps, i);
    OutputsStep(w, steps, j);
    if i == 0 {
      var out := Outputs(w, steps)[0];
      SettledStaysSettled(Next(w, steps[0]), steps[1..], (out.addr, out.base), j - 1);
    } else {
      NotWrappedAgain(Next(w, steps[0]), steps[1..], i - 1, j - 1);
    }
  }

  lemma InitialEmitInv(w: World)
    requires Initial(w)
    ensures EmitInv(w)
  {
  }

  /** Nonce freshness: no two messages emitted by a device from its first call on share ratchet key and counter. */
  lemma NoncesAreFresh(w: World, steps: seq<Step>, i: nat, j: nat, e: (Name, nat))
    requires Initial(w) && IsRun(w, steps) && i < j < |steps|
    requires EmitsPair(Outputs(w, steps)[i], e)
    ensures !EmitsPair(Outputs(w, steps)[j], e)
  {
    InitialEmitInv(w);
    NotEmittedAgain(w, steps, i, j, e);
  }

  /**
   Emission order: once a plain SignalMessage was emitted for an address and a base key, no pre-key message is. A
   session keeps its address and its base key, so this holds of every session.
   */
  lemma PreKeyMessagesComeFirst(w: World, steps: seq<Step>, i: nat, j: nat)
    requires Initial(w) && IsRun(w, steps) && i < j < |steps|
    requires Outputs(w, steps)[i].Emitted? && Outputs(w, steps)[j].Emitted?
    requires Outputs(w, steps)[i].addr == Outputs(w, steps)[j].addr
    requires Outputs(w, steps)[i].base == Outputs(w, steps)[j].base
    requires Outputs(w, steps)[i].message.Whisper?
    ensures Outputs(w, steps)[j].message.Whisper?
  {
    InitialEmitInv(w);
    NotWrappedAgain(w, steps, i, j);
  }
}
