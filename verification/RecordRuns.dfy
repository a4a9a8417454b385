/** The invariant of session records over all runs of a device. */
module RecordRuns {
  import opened Symbolic
  import opened Messages
  import opened SessionStates
  import opened SessionCipher
  import opened SessionInvariants
  import opened SessionRecords
  import opened Handshake
  import opened Devices
  import opened DeviceRuns

  ghost predicate RecordInv(r: Record) {
    && |r.previous| <= ARCHIVED_STATES_MAX_LENGTH
    && (forall i :: 0 <= i < |r.previous| ==> !HasPending(r.previous[i]))
    && (forall k :: 0 <= k < |Sessions(r)| ==> Sessions(r)[k].version == CURRENT_VERSION)
    && (forall j, k :: 0 <= j < k < |Sessions(r)| ==> Sessions(r)[j].aliceBaseKey != Sessions(r)[k].aliceBaseKey)
  }

  /** Archived sessions are at most 40 and not pending; no two sessions share version and base key. */
  ghost predicate RecordsInv(w: World) {
    forall addr :: addr in w.device.sessions ==>
      && RecordInv(w.device.sessions[addr])
      && BasesKnown(w.device.sessions[addr], w.history.bases)
  }

  ghost predicate BasesKnown(r: Record, bases: set<Name>) {
    forall k :: 0 <= k < |Sessions(r)| ==> Sessions(r)[k].aliceBaseKey in bases
  }

  /** The change introduces no base key and no version the record must not have. */
  ghost predicate Sound(r: Record, c: Change)
    requires Applicable(r, c)
  {
    match c
    case Replace(k, t) => SameEnds(Sessions(r)[k], t)
    case Add(t) => t.version == CURRENT_VERSION
                   && forall k :: 0 <= k < |Sessions(r)| ==> Sessions(r)[k].aliceBaseKey != t.aliceBaseKey
    case Retire => true
  }

  lemma ChangeKeepsRecord(r: Record, c: Change, bases: set<Name>)
    requires RecordInv(r) && BasesKnown(r, bases) && Applicable(r, c) && Sound(r, c)
    ensures RecordInv(Apply(r, c))
    ensures BasesKnown(Apply(r, c), if c.Add? then bases + {c.session.aliceBaseKey} else bases)
  {
    match c {
      case Replace(k, t) => ReplaceKeepsRecord(r, k, t, bases);
      case Add(t) => AddKeepsRecord(r, t, bases);
      case Retire => RetireKeepsRecord(r, bases);
    }
  }

  lemma ReplaceKeepsRecord(r: Record, k: nat, t: SessionStructure, bases: set<Name>)
    requires RecordInv(r) && BasesKnown(r, bases) && k < |Sessions(r)| && SameEnds(Sessions(r)[k], t)
    ensures RecordInv(Apply(r, Replace(k, t))) && BasesKnown(Apply(r, Replace(k, t)), bases)
  {
    var ss, r' := Sessions(r), Apply(r, Replace(k, t));
    var ss' := Sessions(r');
    ReplaceSessions(r, k, t);
    assert r'.previous == Others(r, k);
    forall j | 0 <= j < |ss'|
      ensures FormerAt(k, j) < |ss| && ss'[j].version == ss[FormerAt(k, j)].version
      ensures ss'[j].aliceBaseKey == ss[FormerAt(k, j)].aliceBaseKey
    {
    }
    forall i, j | 0 <= i < j < |ss'| ensures ss'[i].aliceBaseKey != ss'[j].aliceBaseKey {
      assert FormerAt(k, i) != FormerAt(k, j);
    }
  }

  /** Position in the old list of the session at position `j` once the one at position `k` was made current. */
  function FormerAt(k: nat, j: nat): nat {
    if j == 0 then k else Skip(k, j - 1)
  }

  lemma AddKeepsRecord(r: Record, t: SessionStructure, bases: set<Name>)
    requires RecordInv(r) && BasesKnown(r, bases) && Sound(r, Add(t))
    ensures RecordInv(Apply(r, Add(t))) && BasesKnown(Apply(r, Add(t)), bases + {t.aliceBaseKey})
  {
    AddSessions(r, t);
    var ss, ss' := Sessions(r), Sessions(Apply(r, Add(t)));
    forall j | 1 <= j < |ss'|
      ensures ss'[j].aliceBaseKey == ss[j - 1].aliceBaseKey && ss'[j].version == ss[j - 1].version
    {
    }
  }

  lemma RetireKeepsRecord(r: Record, bases: set<Name>)
    requires RecordInv(r) && BasesKnown(r, bases)
    ensures RecordInv(Apply(r, Retire)) && BasesKnown(Apply(r, Retire), bases)
  {
    RetireSessions(r);
    var ss, ss' := Sessions(r), Sessions(Apply(r, Retire));
    forall j | 0 <= j < |ss'|
      ensures ss'[j].aliceBaseKey == ss[j].aliceBaseKey && ss'[j].version == ss[j].version
    {
    }
  }

  lemma DecryptEnds(s: SessionStructure, m: SignalMessage, eph: Name, o: Oracles)
    requires DecryptWithState(s, m, eph, o).Ok?
    ensures var t := DecryptWithState(s, m, eph, o).value.0;
            SameEnds(s, t) && !HasPending(t)
  {
  }

  lemma RecordAt(w: World, addr: Address)
    requires RecordsInv(w)
    ensures RecordInv(LoadOrFresh(w.device, addr)) && BasesKnown(LoadOrFresh(w.device, addr), w.history.bases)
  {
  }

  lemma PreKeyKeepsRecords(w: World, step: Step)
    requires RecordsInv(w) && step.ReceivePreKey?
    ensures RecordsInv(Next(w, step))
  {
    var ReceivePreKey(addr, pm, eph, o, pqInit) := step;
    RecordAt(w, addr);
    PreKeyKeepsRecord(w.device, addr, pm, eph, o, pqInit, w.history.bases);
  }

  lemma PreKeyKeepsRecord(d: Device, addr: Address, pm: PreKeySignalMessage, eph: Name, o: Oracles, pqInit: PqInit,
                          bases: set<Name>)
    requires RecordInv(LoadOrFresh(d, addr)) && BasesKnown(LoadOrFresh(d, addr), bases)
    ensures var (d', res) := MessageDecryptPreKey(d, addr, pm, eph, o, pqInit);
            if res.Ok? then
              && addr in d'.sessions && d'.sessions == d.sessions[addr := d'.sessions[addr]]
              && RecordInv(d'.sessions[addr]) && BasesKnown(d'.sessions[addr], bases + {pm.baseKey})
            else d'.sessions == d.sessions
  {
    var (d', res) := MessageDecryptPreKey(d, addr, pm, eph, o, pqInit);
    if res.Ok? {
      var existing, k := PreKeyChange(d, addr, pm, eph, o, pqInit);
      if existing {
        JoinedKeepsRecord(d, addr, pm, eph, o, d', k, bases);
      } else {
        StartedKeepsRecord(d, addr, pm, eph, o, pqInit, d', bases);
      }
    }
  }

  lemma JoinedKeepsRecord(d: Device, addr: Address, pm: PreKeySignalMessage, eph: Name, o: Oracles, d': Device, k: nat,
                          bases: set<Name>)
    requires JoinedExisting(d, addr, pm, eph, o, d', k)
    requires RecordInv(LoadOrFresh(d, addr)) && BasesKnown(LoadOrFresh(d, addr), bases)
    ensures addr in d'.sessions && d'.sessions == d.sessions[addr := d'.sessions[addr]]
    ensures RecordInv(d'.sessions[addr]) && BasesKnown(d'.sessions[addr], bases)
  {
    var r := LoadOrFresh(d, addr);
    DecryptEnds(Sessions(r)[k], pm.message, eph, o);
    ChangeKeepsRecord(r, Replace(k, Successor(r, k, pm.message, eph, o)), bases);
  }

  lemma StartedKeepsRecord(d: Device, addr: Address, pm: PreKeySignalMessage, eph: Name, o: Oracles, pqInit: PqInit,
                           d': Device, bases: set<Name>)
    requires StartedNew(d, addr, pm, eph, o, pqInit, d')
    requires RecordInv(LoadOrFresh(d, addr)) && BasesKnown(LoadOrFresh(d, addr), bases)
    ensures addr in d'.sessions && d'.sessions == d.sessions[addr := d'.sessions[addr]]
    ensures RecordInv(d'.sessions[addr]) && BasesKnown(d'.sessions[addr], bases + {pm.baseKey})
  {
    var r, s := LoadOrFresh(d, addr), NewIncoming(d, pm, pqInit);
    DecryptEnds(s, pm.message, eph, o);
    assert forall j :: 0 <= j < |Sessions(r)| ==> SessionVersion(Sessions(r)[j]) == CURRENT_VERSION;
    ChangeKeepsRecord(r, Add(DecryptWithState(s, pm.message, eph, o).value.0), bases);
  }

  lemma SignalKeepsRecords(w: World, step: Step)
    requires RecordsInv(w) && step.ReceiveSignal?
    ensures RecordsInv(Next(w, step))
  {
    var ReceiveSignal(addr, m, eph, o) := step;
    var d, h := w.device, w.history;
    RecordAt(w, addr);
    if MessageDecryptSignal(d, addr, m, eph, o).1.Ok? {
      var r := d.sessions[addr];
      var k := SignalChange(d, addr, m, eph, o);
      DecryptEnds(Sessions(r)[k], m, eph, o);
      ChangeKeepsRecord(r, Replace(k, Successor(r, k, m, eph, o)), h.bases);
    }
  }

  lemma OthersKeepRecords(w: World, step: Step)
    requires RecordsInv(w) && !step.ReceivePreKey? && !step.ReceiveSignal?
    requires Fresh(w.history, step)
    ensures RecordsInv(Next(w, step))
  {
    var d, h := w.device, w.history;
    match step {
      case Start(addr, bundle, now, base, coins, eph, pqInit) =>
        RecordAt(w, addr);
        ChangeKeepsRecord(LoadOrFresh(d, addr), Add(NewOutgoing(d, bundle, now, base, coins, eph, pqInit)), h.bases);
      case Send(addr, plaintext, now, pqSend) =>
        if MessageEncrypt(d, addr, plaintext, now, pqSend).Ok? {
          var r := d.sessions[addr];
          var r' := MessageEncrypt(d, addr, plaintext, now, pqSend).value.0.sessions[addr];
          assert r' == Apply(r, Replace(0, r'.current.value));
          ChangeKeepsRecord(r, Replace(0, r'.current.value), h.bases);
        }
      case Archive(addr) =>
        if addr in d.sessions {
          ChangeKeepsRecord(d.sessions[addr], Retire, h.bases);
        }
      case _ =>
    }
  }

  lemma {:induction false} RunKeepsRecords(w: World, steps: seq<Step>)
    requires RecordsInv(w) && IsRun(w, steps)
    ensures RecordsInv(After(w, steps))
    decreases |steps|
  {
    if steps != [] {
      StepKeepsRecords(w, steps[0]);
      RunKeepsRecords(Next(w, steps[0]), steps[1..]);
    }
  }

  /** Every record reached from empty stores satisfies the invariant. */
  lemma RecordsInvAlways(w: World, steps: seq<Step>, addr: Address)
    requires Initial(w) && IsRun(w, steps) && addr in After(w, steps).device.sessions
    ensures RecordInv(After(w, steps).device.sessions[addr])
  {
    RunKeepsRecords(w, steps);
  }

  lemma StepKeepsRecords(w: World, step: Step)
    requires RecordsInv(w) && Fresh(w.history, step)
    ensures RecordsInv(Next(w, step))
  {
    if step.ReceivePreKey? {
      PreKeyKeepsRecords(w, step);
    } else if step.ReceiveSignal? {
      SignalKeepsRecords(w, step);
    } else {
      OthersKeepRecords(w, step);
    }
  }
}
