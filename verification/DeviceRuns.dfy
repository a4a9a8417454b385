/**
 Runs of one device: any sequence of API calls, with any messages at all delivered under any address.

 A `World` is a device together with what happened so far. Freshly generated names are parameters of a step and
 are required not to have been generated before; nothing is assumed about messages, bundles or the
 post-quantum ratchet.
 */
module DeviceRuns {
  import opened Prelude
  import opened Symbolic
  import opened RatchetKeys
  import opened Messages
  import opened SessionStates
  import opened SessionCipher
  import opened SessionInvariants
  import opened SessionRecords
  import opened Handshake
  import opened Devices

  datatype Step =
    | Start(addr: Address, bundle: PreKeyBundle, now: nat, base: Name, coins: Name, eph: Name, pqInit: PqInit)
    | Send(addr: Address, plaintext: Plaintext, now: nat, pqSend: PqSend)
    | ReceivePreKey(addr: Address, preKey: PreKeySignalMessage, eph: Name, oracles: Oracles, pqInit: PqInit)
    | ReceiveSignal(addr: Address, signal: SignalMessage, eph: Name, oracles: Oracles)
    | Archive(addr: Address)
    | SavePreKey(id: PreKeyId, key: Name)
    | SaveSignedPreKey(id: PreKeyId, key: Name)
    | SaveKyberPreKey(id: PreKeyId, key: Name)

  datatype Output =
    | Quiet
    | Failed(error: Error)
    | Emitted(addr: Address, base: Name, message: CiphertextMessage)
    | Received(inner: SignalMessage, plaintext: Plaintext)

  datatype History = History(
    taken: iset<Slot>,               // slots of the messages received so far
    bases: set<Name>,                // base keys of all sessions there ever were
    kyberIds: map<Name, PreKeyId>,   // the id each Kyber pre-key was saved under
    signedIds: map<Name, PreKeyId>,
    ratchetKeys: set<Name>,          // ratchet key pairs generated so far
    emitted: set<(Name, nat)>,       // (ratchet key, counter) of the messages emitted so far
    settled: set<(Address, Name)>)   // sessions that emitted a plain SignalMessage

  datatype World = World(device: Device, history: History)

  /** Generated keys are new. */
  predicate Fresh(h: History, step: Step) {
    match step
    case Start(_, _, _, base, _, eph, _) => base !in h.bases && eph !in h.ratchetKeys
    case ReceivePreKey(_, _, eph, _, _) => eph !in h.ratchetKeys
    case ReceiveSignal(_, _, eph, _) => eph !in h.ratchetKeys
    case SaveSignedPreKey(id, key) => key in h.signedIds ==> h.signedIds[key] == id
    case SaveKyberPreKey(id, key) => key in h.kyberIds ==> h.kyberIds[key] == id
    case _ => true
  }

  function Exec(d: Device, step: Step): (Device, Output)
  {
    match step
    case Start(addr, bundle, now, base, coins, eph, pqInit) =>
      (match ProcessPreKeyBundle(d, addr, bundle, now, base, coins, eph, pqInit)
       case Ok(d') => (d', Quiet)
       case Err(e) => (d, Failed(e)))
    case Send(addr, plaintext, now, pqSend) =>
      (match MessageEncrypt(d, addr, plaintext, now, pqSend)
       case Ok((d', m)) => (d', Emitted(addr, d.sessions[addr].current.value.aliceBaseKey, m))
       case Err(e) => (d, Failed(e)))
    case ReceivePreKey(addr, pm, eph, o, pqInit) =>
      var (d', r) := MessageDecryptPreKey(d, addr, pm, eph, o, pqInit);
      (d', if r.Ok? then Received(pm.message, r.value) else Failed(r.error))
    case ReceiveSignal(addr, m, eph, o) =>
      var (d', r) := MessageDecryptSignal(d, addr, m, eph, o);
      (d', if r.Ok? then Received(m, r.value) else Failed(r.error))
    case Archive(addr) => (ArchiveSession(d, addr), Quiet)
    case SavePreKey(id, key) => (d.(preKeys := d.preKeys[id := key]), Quiet)
    case SaveSignedPreKey(id, key) => (d.(signedPreKeys := d.signedPreKeys[id := key]), Quiet)
    case SaveKyberPreKey(id, key) => (d.(kyberPreKeys := d.kyberPreKeys[id := key]), Quiet)
  }

  ghost function SlotsOf(m: SignalMessage): iset<Slot> {
    iset slot: Slot | IsReceivingOrigin(slot.0) && MacUses(m, slot)
  }

  function InnerOf(m: CiphertextMessage): SignalMessage {
    match m
    case Whisper(w) => w
    case PreKey(p) => p.message
  }

  /** What the history gains from a step and its output. */
  ghost function Remember(h: History, step: Step, out: Output): History {
    match step
    case Start(_, _, _, base, _, eph, _) =>
      if out.Quiet? then h.(bases := h.bases + {base}, ratchetKeys := h.ratchetKeys + {eph}) else h
    case Send(_, _, _, _) =>
      if out.Emitted? then
        var content := InnerOf(out.message).content;
        h.(emitted := h.emitted + {(content.ratchetKey, content.counter)},
           settled := if out.message.Whisper? then h.settled + {(out.addr, out.base)} else h.settled)
      else h
    case ReceivePreKey(_, pm, eph, _, _) =>
      if out.Received? then h.(taken := h.taken + SlotsOf(pm.message), bases := h.bases + {pm.baseKey},
                               ratchetKeys := h.ratchetKeys + {eph}) else h
    case ReceiveSignal(_, m, eph, _) =>
      if out.Received? then h.(taken := h.taken + SlotsOf(m), ratchetKeys := h.ratchetKeys + {eph}) else h
    case SaveSignedPreKey(id, key) => h.(signedIds := h.signedIds[key := id])
    case SaveKyberPreKey(id, key) => h.(kyberIds := h.kyberIds[key := id])
    case _ => h
  }

  lemma RememberGrows(h: History, step: Step, out: Output)
    ensures var h' := Remember(h, step, out);
            h.taken <= h'.taken && h.emitted <= h'.emitted && h.settled <= h'.settled
  {
  }

  ghost function Next(w: World, step: Step): World
  {
    var (d, out) := Exec(w.device, step);
    World(d, Remember(w.history, step, out))
  }

  /** The step fails, or only fills the pre-key stores. */
  ghost predicate Untouching(w: World, step: Step)
  {
    var out := Exec(w.device, step).1;
    !out.Received? && !out.Emitted? && !(step.Start? && out.Quiet?)
    && !(step.Archive? && step.addr in w.device.sessions)
  }

  /** Such a step leaves sessions and the record of what was sent and received alone. */
  lemma UntouchedStep(w: World, step: Step)
    requires Untouching(w, step)
    ensures var w' := Next(w, step);
            && w'.device.sessions == w.device.sessions && w'.device.identity == w.device.identity
            && w'.device.baseKeysSeen == w.device.baseKeysSeen
            && w'.history == w.history.(signedIds := w'.history.signedIds, kyberIds := w'.history.kyberIds)
  {
  }

  /** A run from `w`: each step is enabled and uses fresh names when its turn comes. */
  ghost predicate IsRun(w: World, steps: seq<Step>)
    decreases |steps|
  {
    steps == [] ||
    (Fresh(w.history, steps[0]) && IsRun(Next(w, steps[0]), steps[1..]))
  }

  ghost function After(w: World, steps: seq<Step>): World
    requires IsRun(w, steps)
    decreases |steps|
  {
    if steps == [] then w else After(Next(w, steps[0]), steps[1..])
  }

  ghost function Outputs(w: World, steps: seq<Step>): (outs: seq<Output>)
    requires IsRun(w, steps)
    ensures |outs| == |steps|
    decreases |steps|
  {
    if steps == [] then [] else [Exec(w.device, steps[0]).1] + Outputs(Next(w, steps[0]), steps[1..])
  }

  lemma OutputsStep(w: World, steps: seq<Step>, k: nat)
    requires IsRun(w, steps) && k < |steps|
    ensures Outputs(w, steps)[k] == if k == 0 then Exec(w.device, steps[0]).1
                else Outputs(Next(w, steps[0]), steps[1..])[k - 1]
  {
  }

  /** A device before its first session. */
  ghost predicate Initial(w: World) {
    && w.device.sessions == map[]
    && w.device.preKeys == map[] && w.device.signedPreKeys == map[] && w.device.kyberPreKeys == map[]
    && w.history == History(iset{}, {}, map[], map[], {}, {}, {})
  }

  // ---------------------------------------------------------------------------------------------
  // How a step changes the record of one address

  /** A session was replaced by its successor and made current, a session was added, or the current one archived. */
  datatype Change = Replace(k: nat, session: SessionStructure) | Add(session: SessionStructure) | Retire

  predicate Applicable(r: Record, c: Change) {
    c.Replace? ==> c.k < |Sessions(r)|
  }

  function Apply(r: Record, c: Change): Record
    requires Applicable(r, c)
  {
    match c
    case Replace(k, s) => Record(Some(s), Others(r, k))
    case Add(s) => PromoteState(r, s)
    case Retire => ArchiveCurrent(r)
  }

  /** Position in the old list of the session at position `j` of the list without position `k`. */
  function Skip(k: nat, j: nat): nat {
    if j < k then j else j + 1
  }

  /** Equal except that pending fields may have been cleared. */
  predicate SameButPending(s: SessionStructure, t: SessionStructure) {
    s == t || s == ClearPending(t)
  }

  lemma OthersAre(r: Record, k: nat)
    requires k < |Sessions(r)|
    ensures |Others(r, k)| == |Sessions(r)| - 1
    ensures forall j :: 0 <= j < |Others(r, k)| ==> SameButPending(Others(r, k)[j], Sessions(r)[Skip(k, j)])
  {
  }

  lemma ReplaceSessions(r: Record, k: nat, s: SessionStructure)
    requires k < |Sessions(r)|
    ensures var ss := Sessions(Apply(r, Replace(k, s)));
            && |ss| == |Sessions(r)| && ss[0] == s
            && forall j :: 1 <= j < |ss| ==> SameButPending(ss[j], Sessions(r)[Skip(k, j - 1)])
  {
    OthersAre(r, k);
    var ss := Sessions(Apply(r, Replace(k, s)));
    assert forall j :: 1 <= j < |ss| ==> ss[j] == Others(r, k)[j - 1];
  }

  lemma AddSessions(r: Record, s: SessionStructure)
    ensures var ss := Sessions(Apply(r, Add(s)));
            && 1 <= |ss| <= |Sessions(r)| + 1 && ss[0] == s
            && forall j :: 1 <= j < |ss| ==> SameButPending(ss[j], Sessions(r)[j - 1])
  {
  }

  lemma RetireSessions(r: Record)
    ensures var ss := Sessions(Apply(r, Retire));
            && |ss| <= |Sessions(r)|
            && forall j :: 0 <= j < |ss| ==> SameButPending(ss[j], Sessions(r)[j])
  {
  }

  // ---------------------------------------------------------------------------------------------
  // What the receiving entry points do to the stores when they succeed

  predicate ArchiveFits(d: Device, addr: Address) {
    |LoadOrFresh(d, addr).previous| <= ARCHIVED_STATES_MAX_LENGTH
  }

  /** The session at position `k` of a record, after it accepted a message. */
  function Successor(r: Record, k: nat, m: SignalMessage, eph: Name, o: Oracles): SessionStructure
    requires k < |Sessions(r)| && DecryptWithState(Sessions(r)[k], m, eph, o).Ok?
  {
    DecryptWithState(Sessions(r)[k], m, eph, o).value.0
  }

  lemma SignalChange(d: Device, addr: Address, m: SignalMessage, eph: Name, o: Oracles) returns (k: nat)
    requires ArchiveFits(d, addr)
    requires MessageDecryptSignal(d, addr, m, eph, o).1.Ok?
    ensures addr in d.sessions
    ensures var r := d.sessions[addr];
            && k < |Sessions(r)| && DecryptWithState(Sessions(r)[k], m, eph, o).Ok?
            && var t := Successor(r, k, m, eph, o);
            MessageDecryptSignal(d, addr, m, eph, o).0
            == StoreSession(SaveIdentity(d, addr, t.remoteIdentity), addr, Apply(r, Replace(k, t)))
  {
    k := DecryptConserves(d.sessions[addr], m, WhisperKind, eph, o);
  }

  ghost predicate JoinedExisting(d: Device, addr: Address, pm: PreKeySignalMessage, eph: Name, o: Oracles, d': Device,
                                 k: nat)
  {
    var r := LoadOrFresh(d, addr);
    && k < |Sessions(r)| && Matches(Sessions(r)[k], pm.version, pm.baseKey)
    && DecryptWithState(Sessions(r)[k], pm.message, eph, o).Ok?
    && d' == StoreSession(SaveIdentity(d, addr, pm.identityKey), addr,
                          Apply(r, Replace(k, Successor(r, k, pm.message, eph, o))))
  }

  ghost predicate StartedNew(d: Device, addr: Address, pm: PreKeySignalMessage, eph: Name, o: Oracles, pqInit: PqInit,
                             d': Device)
  {
    var r := LoadOrFresh(d, addr);
    && pm.version == CURRENT_VERSION && HasPreKeys(d, pm) && o.canonical(pm.baseKey)
    && (forall k :: 0 <= k < |Sessions(r)| ==> !Matches(Sessions(r)[k], pm.version, pm.baseKey))
    && !BaseKeySeen(d, pm.kyberPreKeyId.value, pm.signedPreKeyId, pm.baseKey)
    && DecryptWithState(NewIncoming(d, pm, pqInit), pm.message, eph, o).Ok?
    && d'.sessions == d.sessions[addr :=
         Apply(r, Add(DecryptWithState(NewIncoming(d, pm, pqInit), pm.message, eph, o).value.0))]
    && d' == d.(sessions := d'.sessions, knownKeys := d'.knownKeys, preKeys := d'.preKeys,
                baseKeysSeen := d'.baseKeysSeen)
    && d'.preKeys == (if pm.preKeyId.Some? then d.preKeys - {pm.preKeyId.value} else d.preKeys)
    && (forall kyber, signed, base ::
          BaseKeySeen(d', kyber, signed, base) <==>
          BaseKeySeen(d, kyber, signed, base)
          || (kyber == pm.kyberPreKeyId.value && signed == pm.signedPreKeyId && base == pm.baseKey))
  }

  /** A received pre-key message was either for a session the record already had, or started a new one. */
  lemma PreKeyChange(d: Device, addr: Address, pm: PreKeySignalMessage, eph: Name, o: Oracles, pqInit: PqInit)
    returns (existing: bool, k: nat)
    requires ArchiveFits(d, addr)
    requires MessageDecryptPreKey(d, addr, pm, eph, o, pqInit).1.Ok?
    ensures var d' := MessageDecryptPreKey(d, addr, pm, eph, o, pqInit).0;
            if existing then JoinedExisting(d, addr, pm, eph, o, d', k)
            else StartedNew(d, addr, pm, eph, o, pqInit, d')
  {
    var r := LoadOrFresh(d, addr);
    k := 0;
    existing := PromoteMatching(r, pm.version, pm.baseKey).Some?;
    if existing {
      k := JoinsExisting(d, addr, pm, eph, o, pqInit);
    } else {
      StartsNew(d, addr, pm, eph, o, pqInit);
    }
  }

  lemma JoinsExisting(d: Device, addr: Address, pm: PreKeySignalMessage, eph: Name, o: Oracles, pqInit: PqInit)
    returns (k: nat)
    requires ArchiveFits(d, addr)
    requires MessageDecryptPreKey(d, addr, pm, eph, o, pqInit).1.Ok?
    requires PromoteMatching(LoadOrFresh(d, addr), pm.version, pm.baseKey).Some?
    ensures JoinedExisting(d, addr, pm, eph, o, MessageDecryptPreKey(d, addr, pm, eph, o, pqInit).0, k)
  {
    k := PromoteMatchingConserves(LoadOrFresh(d, addr), pm.version, pm.baseKey);
  }

  lemma StartsNew(d: Device, addr: Address, pm: PreKeySignalMessage, eph: Name, o: Oracles, pqInit: PqInit)
    requires ArchiveFits(d, addr)
    requires MessageDecryptPreKey(d, addr, pm, eph, o, pqInit).1.Ok?
    requires PromoteMatching(LoadOrFresh(d, addr), pm.version, pm.baseKey).None?
    ensures StartedNew(d, addr, pm, eph, o, pqInit, MessageDecryptPreKey(d, addr, pm, eph, o, pqInit).0)
  {
    NoMatch(LoadOrFresh(d, addr), pm.version, pm.baseKey);
    var consumed := NewSessionOutcome(d, addr, pm, eph, o, pqInit);
    PreKeysUsedUp(SaveIdentity(d, addr, pm.identityKey), UsedBy(pm), pm.baseKey);
    StartedBy(d, addr, pm, eph, o, pqInit, consumed);
  }

  function UsedBy(pm: PreKeySignalMessage): PreKeysUsed
    requires pm.kyberPreKeyId.Some?
  {
    PreKeysUsed(pm.preKeyId, pm.signedPreKeyId, pm.kyberPreKeyId.value)
  }

  lemma NewSessionOutcome(d: Device, addr: Address, pm: PreKeySignalMessage, eph: Name, o: Oracles, pqInit: PqInit)
    returns (consumed: Device)
    requires MessageDecryptPreKey(d, addr, pm, eph, o, pqInit).1.Ok?
    requires PromoteMatching(LoadOrFresh(d, addr), pm.version, pm.baseKey).None?
    ensures pm.version == CURRENT_VERSION && HasPreKeys(d, pm) && o.canonical(pm.baseKey)
            && DecryptWithState(NewIncoming(d, pm, pqInit), pm.message, eph, o).Ok?
    ensures UsePreKeys(SaveIdentity(d, addr, pm.identityKey), Some(UsedBy(pm)), pm.baseKey) == Ok(consumed)
    ensures MessageDecryptPreKey(d, addr, pm, eph, o, pqInit).0
         == StoreSession(consumed, addr,
                         Apply(LoadOrFresh(d, addr),
                               Add(DecryptWithState(NewIncoming(d, pm, pqInit), pm.message, eph, o).value.0)))
  {
    consumed := UsePreKeys(SaveIdentity(d, addr, pm.identityKey), Some(UsedBy(pm)), pm.baseKey).value;
  }

  lemma StartedBy(d: Device, addr: Address, pm: PreKeySignalMessage, eph: Name, o: Oracles, pqInit: PqInit,
                  consumed: Device)
    requires pm.version == CURRENT_VERSION && HasPreKeys(d, pm) && o.canonical(pm.baseKey)
    requires forall k :: 0 <= k < |Sessions(LoadOrFresh(d, addr))| ==>
               !Matches(Sessions(LoadOrFresh(d, addr))[k], pm.version, pm.baseKey)
    requires DecryptWithState(NewIncoming(d, pm, pqInit), pm.message, eph, o).Ok?
    requires UsedUp(SaveIdentity(d, addr, pm.identityKey), UsedBy(pm), pm.baseKey, consumed)
    ensures StartedNew(d, addr, pm, eph, o, pqInit, StoreSession(consumed, addr,
              Apply(LoadOrFresh(d, addr),
                    Add(DecryptWithState(NewIncoming(d, pm, pqInit), pm.message, eph, o).value.0))))
  {
    var saved := SaveIdentity(d, addr, pm.identityKey);
    var d' := StoreSession(consumed, addr,
      Apply(LoadOrFresh(d, addr), Add(DecryptWithState(NewIncoming(d, pm, pqInit), pm.message, eph, o).value.0)));
    assert saved.baseKeysSeen == d.baseKeysSeen && saved.preKeys == d.preKeys && saved.sessions == d.sessions;
    assert d'.baseKeysSeen == consumed.baseKeysSeen;
    forall kyber, signed, base ensures BaseKeySeen(d', kyber, signed, base)
        == BaseKeySeen(consumed, kyber, signed, base) {
    }
    forall kyber, signed, base ensures BaseKeySeen(saved, kyber, signed, base) == BaseKeySeen(d, kyber, signed, base) {
    }
  }

  /** Exactly one more base key is on record, and exactly the one-time key is gone. */
  ghost predicate UsedUp(d: Device, u: PreKeysUsed, base: Name, d': Device) {
    && !BaseKeySeen(d, u.kyber, u.signed, base)
    && d' == d.(preKeys := d'.preKeys, baseKeysSeen := d'.baseKeysSeen)
    && d'.preKeys == (if u.oneTime.Some? then d.preKeys - {u.oneTime.value} else d.preKeys)
    && (forall kyber, signed, b :: BaseKeySeen(d', kyber, signed, b) <==>
          BaseKeySeen(d, kyber, signed, b) || (kyber == u.kyber && signed == u.signed && b == base))
  }

  lemma PreKeysUsedUp(d: Device, u: PreKeysUsed, base: Name)
    ensures var r := UsePreKeys(d, Some(u), base);
            r.Ok? ==> UsedUp(d, u, base, r.value)
  {
  }

  lemma NoMatch(r: Record, version: nat, base: Name)
    requires PromoteMatching(r, version, base).None?
    ensures forall k :: 0 <= k < |Sessions(r)| ==> !Matches(Sessions(r)[k], version, base)
  {
  }
}
