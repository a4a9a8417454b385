/**
 First contact between two devices (rust/protocol/src/session.rs:85-260): a pre-key message is received while the keys
 of the bundle it was started from are still in the stores of the other device.
 */
module DuoContact {
  import opened Prelude
  import opened Symbolic
  import opened Messages
  import opened Handshake
  import opened Devices
  import opened DeviceRuns
  import opened LockStep
  import opened PairRuns
  import opened Bonds
  import opened TwoDevices
  import opened DuoSteps
  import opened DuoRuns

  /** The handshake of the bond is the one that the step started, with the keys and IDs of its bundle. */
  ghost predicate StartedBy(b: Bond, starter: bool, local: Name, step: Step) {
    && step.Start? && b.starter == starter && b.coins == step.coins
    && var k := step.bundle;
    && b.alice == AliceParameters(local, step.base, k.identityKey, k.signedPreKey,
                                  if k.preKey.Some? then Some(k.preKey.value.1) else None, k.signedPreKey,
                                  k.kyberPreKey)
    && b.ids == PreKeysUsed(if k.preKey.Some? then Some(k.preKey.value.0) else None, k.signedPreKeyId, k.kyberPreKeyId)
  }

  predicate SameHandshake(b: Bond, b': Bond) {
    b'.starter == b.starter && b'.alice == b.alice && b'.coins == b.coins && b'.ids == b.ids
  }

  lemma StepKeepsHandshakes(w: Duo, s: DuoStep, base: Name)
    requires base in DuoNext(w, s).bonds
    ensures || (base in w.bonds && SameHandshake(w.bonds[base], DuoNext(w, s).bonds[base]))
            || (Starts(w, s) && s.step.base == base
                && StartedBy(DuoNext(w, s).bonds[base], s.side, IdentityOf(w, s.side), s.step))
  {
  }

  lemma StepAtKeepsHandshakes(ws: seq<Duo>, steps: seq<DuoStep>, i: nat, base: Name)
    requires Steps(ws, steps) && i < |steps| && base in ws[i + 1].bonds
    ensures || (base in ws[i].bonds && SameHandshake(ws[i].bonds[base], ws[i + 1].bonds[base]))
            || (Starts(ws[i], steps[i]) && steps[i].step.base == base
                && StartedBy(ws[i + 1].bonds[base], steps[i].side, IdentityOf(ws[i], steps[i].side), steps[i].step))
  {
    assert StepTo(ws, steps, i);
    StepKeepsHandshakes(ws[i], steps[i], base);
  }

  /** Every bond was started by a call with a bundle, and keeps its handshake. */
  lemma {:induction false} BondWasStarted(ws: seq<Duo>, steps: seq<DuoStep>, n: nat, base: Name) returns (i: nat)
    requires Steps(ws, steps) && ws[0].bonds == map[] && n < |ws| && base in ws[n].bonds
    ensures i < n && Starts(ws[i], steps[i]) && steps[i].step.base == base
    ensures StartedBy(ws[n].bonds[base], steps[i].side, IdentityOf(ws[i], steps[i].side), steps[i].step)
  {
    assert n > 0;
    StepAtKeepsHandshakes(ws, steps, n - 1, base);
    if base in ws[n - 1].bonds && SameHandshake(ws[n - 1].bonds[base], ws[n].bonds[base]) {
      i := BondWasStarted(ws, steps, n - 1, base);
    } else {
      i := n - 1;
    }
  }

  /** The keys in the bundle are the device's, and are stored under the IDs in the bundle. */
  predicate Publishes(d: Device, b: PreKeyBundle) {
    && b.identityKey == d.identity
    && b.signedPreKeyId in d.signedPreKeys && d.signedPreKeys[b.signedPreKeyId] == b.signedPreKey
    && b.kyberPreKeyId in d.kyberPreKeys && d.kyberPreKeys[b.kyberPreKeyId] == b.kyberPreKey
    && (b.preKey.Some? ==> b.preKey.value.0 in d.preKeys && d.preKeys[b.preKey.value.0] == b.preKey.value.1)
  }

  lemma PublishedKeysAreStored(d: Device, b: Bond, starter: bool, local: Name, step: Step, pm: PreKeySignalMessage)
    requires StartedBy(b, starter, local, step) && HeaderOk(pm, b) && Publishes(d, step.bundle)
    ensures KeysStored(d, pm, b)
  {
  }

  /** The responder's end before the first message takes any message of the initiator's first chain. */
  lemma NewEndTakes(b: Bond, side: bool, e: Packet, pqInit: PqInit, floor: nat, o: Oracles)
    requires PairInv(b.pair) && Entered(b, pqInit) && !b.joined && side != b.starter && UnderWay(b, side, e)
    requires PairInv(View(b, side)) && e.entry.epoch < |View(b, side).schedule.keys|
    requires IsFloor(View(b, side), e.entry.epoch, floor)
    requires e.entry.counter <= MAX_FORWARD_JUMPS && PqDelivers(View(b, side), e.entry, o)
    ensures Takes(View(b, side), e.entry, floor, o)
  {
    EpochsDelivered(View(b, side), e.entry);
  }

  /**
   The device still stores the keys of the bundle, the base key is canonical and new for them, the index is among the
   first 25001, and the post-quantum ratchet delivers.
   */
  ghost predicate CanJoin(w: Duo, side: bool, e: Packet, b: PreKeyBundle, o: Oracles)
    requires e.base in w.bonds
  {
    var d := WorldOf(w, side).device;
    && Publishes(d, b) && o.canonical(e.base) && !BaseKeySeen(d, b.kyberPreKeyId, b.signedPreKeyId, e.base)
    && e.entry.counter <= MAX_FORWARD_JUMPS && PqDelivers(View(w.bonds[e.base], side), e.entry, o)
  }

  /**
   First contact: a pre-key message under one of the first 25001 indices is received, with the plaintext that was sent,
   while the device still stores the keys of the bundle under their IDs, if the base key is canonical and new for them
   and the post-quantum ratchet delivers.
   */
  lemma FirstContactSucceeds(ws: seq<Duo>, steps: seq<DuoStep>, n: nat, side: bool, e: Packet, eph: Name, o: Oracles)
    returns (start: nat, send: nat)
    requires IsDuoRun(ws, steps) && n < |ws| && e in From(ws[n], !side) && e.message.PreKey? && NewName(ws[n], eph)
    ensures start < n && Starts(ws[start], steps[start]) && steps[start].side == !side
            && steps[start].step.base == e.base
    ensures send < n && steps[send].side == !side && Emits(ws[send], steps[send], e)
    ensures e.base in ws[n].bonds
    ensures CanJoin(ws[n], side, e, steps[start].step.bundle, o) ==>
              OutputOf(ws[n], Deliver(side, e, eph, o))
              == Received(e.message.preKey.message, steps[send].step.plaintext)
  {
    var floor;
    send, floor := Decided(ws, steps, n, side, e, eph, o);
    start := BondWasStarted(ws, steps, n, e.base);
    StarterIsSender(ws, steps, n, side, e, start);
    if CanJoin(ws[n], side, e, steps[start].step.bundle, o) {
      JoinsInRun(ws, steps, n, side, e, start, floor, o);
    }
  }

  /** What of the decision a pre-key message needs. */
  lemma Decided(ws: seq<Duo>, steps: seq<DuoStep>, n: nat, side: bool, e: Packet, eph: Name, o: Oracles)
    returns (send: nat, floor: nat)
    requires IsDuoRun(ws, steps) && n < |ws| && e in From(ws[n], !side) && e.message.PreKey? && NewName(ws[n], eph)
    ensures send < n && steps[send].side == !side && Emits(ws[send], steps[send], e)
    ensures e.base in ws[n].bonds && HasFloor(ws[n], side, e, floor)
    ensures Settles(ws[n], side, e, floor, o) ==>
              OutputOf(ws[n], Deliver(side, e, eph, o))
              == Received(e.message.preKey.message, steps[send].step.plaintext)
  {
    send, floor := EveryMessageIsDecided(ws, steps, n, side, e, eph, o);
  }

  ghost predicate HasFloor(w: Duo, side: bool, e: Packet, floor: nat)
    requires e.base in w.bonds
  {
    var p := View(w.bonds[e.base], side);
    PairInv(p) && e.entry.epoch < |p.schedule.keys| && IsFloor(p, e.entry.epoch, floor)
  }

  /** The record has the session of the message or can start it, and the session takes the message. */
  ghost predicate Settles(w: Duo, side: bool, e: Packet, floor: nat, o: Oracles)
    requires e.base in w.bonds && HasFloor(w, side, e, floor)
  {
    HasOrJoins(w, side, e, o) && Takes(View(w.bonds[e.base], side), e.entry, floor, o)
  }

  lemma JoinsInRun(ws: seq<Duo>, steps: seq<DuoStep>, n: nat, side: bool, e: Packet, start: nat, floor: nat, o: Oracles)
    requires IsDuoRun(ws, steps) && n < |ws| && e in From(ws[n], !side) && e.message.PreKey? && e.base in ws[n].bonds
    requires HasFloor(ws[n], side, e, floor) && start < n && steps[start].Local? && steps[start].step.Start?
    requires StartedBy(ws[n].bonds[e.base], !side, IdentityOf(ws[start], !side), steps[start].step)
    requires CanJoin(ws[n], side, e, steps[start].step.bundle, o)
    ensures Settles(ws[n], side, e, floor, o)
  {
    DuoInvAlways(ws, steps, n);
    Joins(ws[n], side, e, !side, IdentityOf(ws[start], !side), steps[start].step, floor, o);
  }

  /** A pre-key message comes from the side that started its session. */
  lemma StarterIsSender(ws: seq<Duo>, steps: seq<DuoStep>, n: nat, side: bool, e: Packet, start: nat)
    requires IsDuoRun(ws, steps) && n < |ws| && e in From(ws[n], !side) && e.message.PreKey? && e.base in ws[n].bonds
    requires start < n && steps[start].Local?
             && StartedBy(ws[n].bonds[e.base], steps[start].side, IdentityOf(ws[start], steps[start].side),
                          steps[start].step)
    ensures steps[start].side == !side
  {
    DuoInvAlways(ws, steps, n);
    HeaderFacts(ws[n], side, e, e.message.preKey);
  }

  lemma Joins(w: Duo, side: bool, e: Packet, starter: bool, local: Name, step: Step, floor: nat, o: Oracles)
    requires BondsOk(w) && NetOk(w, !side) && e in From(w, !side) && e.message.PreKey? && e.base in w.bonds
    requires StartedBy(w.bonds[e.base], starter, local, step)
    requires PairInv(View(w.bonds[e.base], side)) && e.entry.epoch < |View(w.bonds[e.base], side).schedule.keys|
    requires IsFloor(View(w.bonds[e.base], side), e.entry.epoch, floor)
    requires CanJoin(w, side, e, step.bundle, o)
    ensures HasOrJoins(w, side, e, o) && Takes(View(w.bonds[e.base], side), e.entry, floor, o)
  {
    var b := w.bonds[e.base];
    HeaderFacts(w, side, e, e.message.preKey);
    PacketFacts(w, side, e);
    BondAt(w, e.base);
    PublishedKeysAreStored(WorldOf(w, side).device, b, starter, local, step, e.message.preKey);
    NewEndTakes(b, side, e, w.pqInit, floor, o);
  }
}
