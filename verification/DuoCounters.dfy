/**
 The counters on the messages of two devices (rust/protocol/src/session_cipher.rs:42-52 and 716-727): in every state of
 every run they are what was sent on the session of their base key, whatever was archived, promoted or started.
 */
module DuoCounters {
  import opened Symbolic
  import opened Messages
  import opened Handshake
  import opened Devices
  import opened DeviceRuns
  import opened LockStep
  import opened MessageCounters
  import opened Bonds
  import opened TwoDevices
  import opened DuoRuns

  ghost predicate BondsCounted(bonds: map<Name, Bond>) {
    forall c :: c in bonds ==> PairCounted(bonds[c].pair)
  }

  lemma SentOnCounted(b: Bond, side: bool, step: PairStep)
    requires PairCounted(b.pair) && step.PairSend? && CanSend(View(b, side).me)
    ensures PairCounted(SentOn(b, side, step).pair)
  {
    SendKeepsCounts(View(b, side).me, step);
  }

  lemma AcceptedOnCounted(b: Bond, side: bool, x: Sent, eph: Name, o: Oracles)
    requires PairCounted(b.pair) && x.epoch < |b.pair.schedule.keys| && Outcome(View(b, side), x, eph, o).Ok?
    ensures PairCounted(AcceptedOn(b, side, x, Outcome(View(b, side), x, eph, o).value.0, eph).pair)
  {
    AcceptKeepsCounts(View(b, side), x, eph, o);
  }

  lemma StartKeepsBondsCounted(w: Duo, s: DuoStep)
    requires BondsCounted(w.bonds) && s.Local? && s.step.Start?
    ensures BondsCounted(DuoNext(w, s).bonds)
  {
    var Start(_, bundle, _, base, coins, eph, pqInit) := s.step;
    var a := BundleParameters(WorldOf(w, s.side).device, bundle, base);
    StartCounted(WhisperText, Concat(AliceSecrets(a, coins)), a.theirSignedPreKey, eph, a.identity, a.theirIdentity,
                 a.base, pqInit);
  }

  lemma SendKeepsBondsCounted(w: Duo, s: DuoStep)
    requires BondsCounted(w.bonds) && s.Local? && s.step.Send?
    ensures BondsCounted(DuoNext(w, s).bonds)
  {
    var out := OutputOf(w, s);
    if out.Emitted? && out.base in w.bonds {
      var step := SendingStep(w.bonds[out.base], s.side, s.step.plaintext, s.step.pqSend);
      if step.Some? {
        SentOnCounted(w.bonds[out.base], s.side, step.value);
      }
    }
  }

  lemma DeliverKeepsBondsCounted(w: Duo, s: DuoStep)
    requires BondsCounted(w.bonds) && s.Deliver?
    ensures BondsCounted(DuoNext(w, s).bonds)
  {
    var Deliver(side, e, eph, o) := s;
    if e.base in w.bonds && e.entry.epoch < |w.bonds[e.base].pair.schedule.keys|
       && Outcome(View(w.bonds[e.base], side), e.entry, eph, o).Ok? {
      AcceptedOnCounted(w.bonds[e.base], side, e.entry, eph, o);
    }
  }

  lemma StepKeepsBondsCounted(w: Duo, s: DuoStep)
    requires BondsCounted(w.bonds)
    ensures BondsCounted(DuoNext(w, s).bonds)
  {
    if s.Deliver? {
      DeliverKeepsBondsCounted(w, s);
    } else if s.step.Start? {
      StartKeepsBondsCounted(w, s);
    } else if s.step.Send? {
      SendKeepsBondsCounted(w, s);
    }
  }

  lemma StepAtKeepsCounted(ws: seq<Duo>, steps: seq<DuoStep>, i: nat)
    requires Steps(ws, steps) && i < |steps| && BondsCounted(ws[i].bonds)
    ensures BondsCounted(ws[i + 1].bonds)
  {
    assert StepTo(ws, steps, i);
    StepKeepsBondsCounted(ws[i], steps[i]);
  }

  lemma {:induction false} CountedAlways(ws: seq<Duo>, steps: seq<DuoStep>, n: nat)
    requires Steps(ws, steps) && BondsCounted(ws[0].bonds) && n < |ws|
    ensures BondsCounted(ws[n].bonds)
  {
    if n > 0 {
      CountedAlways(ws, steps, n - 1);
      StepAtKeepsCounted(ws, steps, n - 1);
    }
  }

  /**
   In every state of every run, for every message one device emitted for the other: its index is the number of messages
   sent before it in its epoch, and its previous counter the last index of the epoch before, of the same device.
   */
  lemma EmittedCountersCount(ws: seq<Duo>, steps: seq<DuoStep>, n: nat, who: bool, e: Packet) returns (i: nat)
    requires IsDuoRun(ws, steps) && n < |ws| && e in From(ws[n], who)
    ensures e.base in ws[n].bonds
    ensures var sent, m := View(ws[n].bonds[e.base], who).me.sent, InnerOf(e.message).content;
            && i < |sent| && sent[i] == e.entry && m.counter == Count(sent[..i], e.entry.epoch)
            && m.previousCounter == LastIndex(Count(sent, e.entry.epoch - 2))
  {
    DuoInvAlways(ws, steps, n);
    CountedAlways(ws, steps, n);
    i := CountersOfPacket(ws[n], who, e);
  }

  lemma CountersOfPacket(w: Duo, who: bool, e: Packet) returns (i: nat)
    requires NetOk(w, who) && BondsCounted(w.bonds) && e in From(w, who)
    ensures e.base in w.bonds
    ensures var sent, m := View(w.bonds[e.base], who).me.sent, InnerOf(e.message).content;
            && i < |sent| && sent[i] == e.entry && m.counter == Count(sent[..i], e.entry.epoch)
            && m.previousCounter == LastIndex(Count(sent, e.entry.epoch - 2))
  {
    assert PacketGood(w.bonds, who, e);
    var end := View(w.bonds[e.base], who).me;
    assert PairCounted(w.bonds[e.base].pair);
    i :| 0 <= i < |end.sent| && end.sent[i] == e.entry;
    assert Numbered(end, i);
  }
}
