/**
 Whole runs of two devices: what is on the network is what was emitted, sessions with one base key are in lock step, and
 the fate of every message that one device emitted for the other is decided.
 */
module DuoRuns {
  import opened Symbolic
  import opened RatchetKeys
  import opened Messages
  import opened SessionStates
  import opened SessionCipher
  import opened SessionRecords
  import opened Devices
  import opened DeviceRuns
  import opened LockStep
  import opened PairRuns
  import opened Bonds
  import opened TwoDevices
  import opened DuoSteps

  // ---------------------------------------------------------------------------------------------
  // Runs

  ghost predicate StepTo(ws: seq<Duo>, steps: seq<DuoStep>, i: nat) {
    && i < |steps| && i + 1 < |ws|
    && DuoEnabled(ws[i], steps[i]) && ws[i + 1] == DuoNext(ws[i], steps[i])
  }

  ghost predicate Steps(ws: seq<Duo>, steps: seq<DuoStep>) {
    |ws| == |steps| + 1 && forall i {:trigger StepTo(ws, steps, i)} :: 0 <= i < |steps| ==> StepTo(ws, steps, i)
  }

  /** A run, as its states and the steps between them. */
  ghost predicate IsDuoRun(ws: seq<Duo>, steps: seq<DuoStep>) {
    Steps(ws, steps) && InitialDuo(ws[0])
  }

  /** Two devices with empty stores that do not distrust each other. */
  ghost predicate InitialDuo(w: Duo) {
    && Initial(w.left) && Initial(w.right) && w.bonds == map[] && w.fromLeft == w.fromRight == {}
    && w.generated == w.published == {}
    && IsTrusted(w.left.device, w.leftPeer, w.right.device.identity)
    && IsTrusted(w.right.device, w.rightPeer, w.left.device.identity)
  }

  lemma InitialDuoInv(w: Duo)
    requires InitialDuo(w)
    ensures DuoInv(w)
  {
  }

  lemma StepKeepsAt(ws: seq<Duo>, steps: seq<DuoStep>, i: nat)
    requires Steps(ws, steps) && i < |steps| && DuoInv(ws[i])
    ensures DuoInv(ws[i + 1])
  {
    assert StepTo(ws, steps, i);
    StepKeepsDuo(ws[i], steps[i]);
  }

  lemma {:induction false} StepsKeepDuo(ws: seq<Duo>, steps: seq<DuoStep>, i: nat)
    requires Steps(ws, steps) && DuoInv(ws[0]) && i < |ws|
    ensures DuoInv(ws[i])
  {
    if i > 0 {
      StepsKeepDuo(ws, steps, i - 1);
      StepKeepsAt(ws, steps, i - 1);
    }
  }

  /** The invariant holds in every state of every run. */
  lemma DuoInvAlways(ws: seq<Duo>, steps: seq<DuoStep>, i: nat)
    requires IsDuoRun(ws, steps) && i < |ws|
    ensures DuoInv(ws[i])
  {
    InitialDuoInv(ws[0]);
    StepsKeepDuo(ws, steps, i);
  }

  // ---------------------------------------------------------------------------------------------
  // What is on the network

  /** The step is a call of `message_encrypt` that returned the packet's message for its plaintext. */
  ghost predicate Emits(w: Duo, s: DuoStep, e: Packet) {
    Sends(w, s) && OutputOf(w, s) == Emitted(PeerOf(w, s.side), e.base, e.message)
    && s.step.plaintext == e.entry.plaintext
  }

  lemma FromGrows(w: Duo, s: DuoStep, who: bool)
    ensures From(w, who) <= From(DuoNext(w, s), who)
  {
  }

  /** A step puts on the network only what it emits. */
  lemma StepEmits(w: Duo, s: DuoStep, who: bool, e: Packet)
    requires DuoInv(w) && DuoEnabled(w, s) && e in From(DuoNext(w, s), who) && e !in From(w, who)
    ensures s.side == who && Emits(w, s, e)
  {
    if Sends(w, s) {
      var sent := SendEmits(w, s);
    } else {
      QuietNetwork(w, s, who);
    }
  }

  lemma QuietNetwork(w: Duo, s: DuoStep, who: bool)
    requires DuoEnabled(w, s) && !Sends(w, s)
    ensures From(DuoNext(w, s), who) == From(w, who)
  {
  }

  lemma SendEmits(w: Duo, s: DuoStep) returns (e: Packet)
    requires HalfOk(w, s.side) && BondsOk(w) && Sends(w, s)
    ensures Acted(w, DuoNext(w, s), s.side) && From(DuoNext(w, s), s.side) == From(w, s.side) + {e} && Emits(w, s, e)
  {
    var t, pq, pqKey, pqMsg := SendShape(WorldOf(w, s.side).device, s.step);
    CurrentFacts(w, s.side, t);
    SentShape(w, s, t, pq, pqKey, pqMsg);
    var b := w.bonds[t.aliceBaseKey];
    var b' := SentOn(b, s.side, SendOf(b, s.side, s.step, pq, pqKey, pqMsg));
    SendEvolves(b, s.side, SendOf(b, s.side, s.step, pq, pqKey, pqMsg));
    e := Packet(t.aliceBaseKey, Wrap(t, EncryptWithState(t, s.step.plaintext, pq, pqKey, pqMsg).1),
                LastEntry(b', s.side));
  }

  lemma StepEmitsAt(ws: seq<Duo>, steps: seq<DuoStep>, i: nat, who: bool, e: Packet)
    requires Steps(ws, steps) && i < |steps| && DuoInv(ws[i]) && e in From(ws[i + 1], who) && e !in From(ws[i], who)
    ensures steps[i].side == who && Emits(ws[i], steps[i], e)
  {
    assert StepTo(ws, steps, i);
    StepEmits(ws[i], steps[i], who, e);
  }

  /** Everything on the network was emitted at some step, for the plaintext of its entry. */
  lemma {:induction false} PacketWasEmitted(ws: seq<Duo>, steps: seq<DuoStep>, n: nat, who: bool, e: Packet)
    returns (i: nat)
    requires IsDuoRun(ws, steps) && n < |ws| && e in From(ws[n], who)
    ensures i < n && steps[i].side == who && Emits(ws[i], steps[i], e)
  {
    assert n > 0;
    if e in From(ws[n - 1], who) {
      i := PacketWasEmitted(ws, steps, n - 1, who, e);
    } else {
      DuoInvAlways(ws, steps, n - 1);
      StepEmitsAt(ws, steps, n - 1, who, e);
      i := n - 1;
    }
  }

  lemma FromGrowsAt(ws: seq<Duo>, steps: seq<DuoStep>, i: nat, who: bool)
    requires Steps(ws, steps) && i < |steps|
    ensures From(ws[i], who) <= From(ws[i + 1], who)
  {
    assert StepTo(ws, steps, i);
    FromGrows(ws[i], steps[i], who);
  }

  lemma {:induction false} PacketsStay(ws: seq<Duo>, steps: seq<DuoStep>, i: nat, n: nat, who: bool)
    requires IsDuoRun(ws, steps) && i <= n < |ws|
    ensures From(ws[i], who) <= From(ws[n], who)
    decreases n
  {
    if i < n {
      PacketsStay(ws, steps, i, n - 1, who);
      FromGrowsAt(ws, steps, n - 1, who);
    }
  }

  /** Everything emitted at some step is on the network from then on. */
  lemma EmittedStays(ws: seq<Duo>, steps: seq<DuoStep>, i: nat, n: nat) returns (e: Packet)
    requires IsDuoRun(ws, steps) && i < n < |ws| && Sends(ws[i], steps[i])
    ensures e in From(ws[n], steps[i].side) && Emits(ws[i], steps[i], e)
  {
    DuoInvAlways(ws, steps, i);
    e := SendEmitsAt(ws, steps, i);
    PacketsStay(ws, steps, i + 1, n, steps[i].side);
  }

  lemma SendEmitsAt(ws: seq<Duo>, steps: seq<DuoStep>, i: nat) returns (e: Packet)
    requires Steps(ws, steps) && i < |steps| && DuoInv(ws[i]) && Sends(ws[i], steps[i])
    ensures e in From(ws[i + 1], steps[i].side) && Emits(ws[i], steps[i], e)
  {
    assert StepTo(ws, steps, i);
    e := SendEmits(ws[i], steps[i]);
  }

  // ---------------------------------------------------------------------------------------------
  // Theorems

  /**
   Sessions with one base key are in lock step: whatever the two devices did, the sessions their records hold under the
   same base key know each other and have roots one Diffie-Hellman step apart.
   */
  lemma SharedSessionsInLockStep(ws: seq<Duo>, steps: seq<DuoStep>, n: nat, s: SessionStructure, t: SessionStructure)
    requires IsDuoRun(ws, steps) && n < |ws|
    requires s in Sessions(RecordOf(ws[n], true)) && t in Sessions(RecordOf(ws[n], false))
    requires s.aliceBaseKey == t.aliceBaseKey
    ensures s.senderChain.Some? && t.senderChain.Some?
    ensures s.localIdentity == t.remoteIdentity && s.remoteIdentity == t.localIdentity
    ensures var secret := Agree(s.senderChain.value.ratchetKey, t.senderChain.value.ratchetKey);
            s.rootKey == NextRoot(t.rootKey, secret) || t.rootKey == NextRoot(s.rootKey, secret)
  {
    DuoInvAlways(ws, steps, n);
    assert Tracked(ws[n].bonds, true, s) && Tracked(ws[n].bonds, false, t);
    BondAt(ws[n], s.aliceBaseKey);
    EndsInLockStep(ws[n].bonds[s.aliceBaseKey], s, t);
  }

  lemma EndsInLockStep(b: Bond, s: SessionStructure, t: SessionStructure)
    requires PairInv(b.pair) && SameRatchet(s, View(b, true).me.session) && SameRatchet(t, View(b, false).me.session)
    ensures s.senderChain.Some? && t.senderChain.Some?
    ensures s.localIdentity == t.remoteIdentity && s.remoteIdentity == t.localIdentity
    ensures var secret := Agree(s.senderChain.value.ratchetKey, t.senderChain.value.ratchetKey);
            s.rootKey == NextRoot(t.rootKey, secret) || t.rootKey == NextRoot(s.rootKey, secret)
  {
    var p := View(b, true);
    SeenFromKeeps(b.pair, true == b.starter);
    RootsOneStepApart(p);
    AgreeCancels(p.schedule.keys[p.me.epoch], p.schedule.keys[p.peer.epoch], 0);
  }

  /** The bond's end can take the packet: in reach, not taken before, not evicted, not too far ahead. */
  ghost predicate Takes(p: Pair, x: Sent, floor: nat, o: Oracles)
    requires PairInv(p) && x.epoch < |p.schedule.keys|
  {
    && InReach(p.me.epoch, x.epoch)
    && (OriginAt(p.schedule, x.epoch), x.counter) !in p.me.taken && x.counter >= floor
    && !TooFar(p.me.session, MeetingChain(p, x.epoch).chainKey.index, x.counter) && PqDelivers(p, x, o)
  }

  /** The device has the packet's session, or the packet is a pre-key message it can start that session from. */
  ghost predicate HasOrJoins(w: Duo, side: bool, e: Packet, o: Oracles)
    requires e.base in w.bonds
  {
    || (exists t :: t in Sessions(RecordOf(w, side)) && t.aliceBaseKey == e.base)
    || (e.message.PreKey? && CanJoin(WorldOf(w, side).device, e.message.preKey, w.bonds[e.base], o))
  }

  lemma OutputDecided(w: Duo, side: bool, e: Packet, k: nat, eph: Name, o: Oracles)
    requires DuoInv(w) && e in From(w, !side) && HeldAt(RecordOf(w, side), e.base, k)
    ensures e.base in w.bonds && UnderWay(w.bonds[e.base], side, e)
    ensures var x, y := OutputOf(w, Deliver(side, e, eph, o)), Outcome(View(w.bonds[e.base], side), e.entry, eph, o);
            var joins := e.message.PreKey? && CanJoin(WorldOf(w, side).device, e.message.preKey, w.bonds[e.base], o);
            if (k < |Sessions(RecordOf(w, side))| || joins) && y.Ok?
            then x == Received(InnerOf(e.message), y.value.1) else !x.Received?
  {
    if e.message.Whisper? {
      SignalDecided(w, side, e, k, eph, o);
    } else {
      PreKeyDecided(w, side, e, k, eph, o);
    }
  }

  lemma SignalDecided(w: Duo, side: bool, e: Packet, k: nat, eph: Name, o: Oracles)
    requires DuoInv(w) && e in From(w, !side) && HeldAt(RecordOf(w, side), e.base, k) && e.message.Whisper?
    ensures e.base in w.bonds && UnderWay(w.bonds[e.base], side, e)
    ensures var x, y := OutputOf(w, Deliver(side, e, eph, o)), Outcome(View(w.bonds[e.base], side), e.entry, eph, o);
            if k < |Sessions(RecordOf(w, side))| && y.Ok?
            then x == Received(InnerOf(e.message), y.value.1) else !x.Received?
  {
    SignalOutcome(w, side, e, e.message.whisper, k, eph, o);
  }

  lemma PreKeyDecided(w: Duo, side: bool, e: Packet, k: nat, eph: Name, o: Oracles)
    requires DuoInv(w) && e in From(w, !side) && HeldAt(RecordOf(w, side), e.base, k) && e.message.PreKey?
    ensures e.base in w.bonds && UnderWay(w.bonds[e.base], side, e)
    ensures var x, y := OutputOf(w, Deliver(side, e, eph, o)), Outcome(View(w.bonds[e.base], side), e.entry, eph, o);
            var joins := CanJoin(WorldOf(w, side).device, e.message.preKey, w.bonds[e.base], o);
            if (k < |Sessions(RecordOf(w, side))| || joins) && y.Ok?
            then x == Received(InnerOf(e.message), y.value.1) else !x.Received?
  {
    PreKeyOutcome(w, side, e, e.message.preKey, k, eph, o);
  }

  /** What delivering a packet in a state with the invariant gives. */
  lemma DeliveryDecided(w: Duo, side: bool, e: Packet, eph: Name, o: Oracles) returns (floor: nat)
    requires DuoInv(w) && e in From(w, !side) && NewName(w, eph)
    ensures e.base in w.bonds && e.entry.epoch < |w.bonds[e.base].pair.schedule.keys|
    ensures var p, out := View(w.bonds[e.base], side), OutputOf(w, Deliver(side, e, eph, o));
            && PairInv(p) && e.entry in p.peer.sent && IsFloor(p, e.entry.epoch, floor)
            && (out.Received? <==> HasOrJoins(w, side, e, o) && Takes(p, e.entry, floor, o))
            && (out.Received? ==> out == Received(InnerOf(e.message), e.entry.plaintext))
  {
    RecordOfInv(w, side);
    var k := FindHeld(RecordOf(w, side), e.base);
    HeldIff(RecordOf(w, side), e.base, k);
    OutputDecided(w, side, e, k, eph, o);
    CanReceiveNew(w, side, e, eph);
    floor := EndDecides(w, side, e, eph, o);
  }

  lemma HeldIff(r: Record, base: Name, k: nat)
    requires HeldAt(r, base, k)
    ensures k < |Sessions(r)| <==> exists t :: t in Sessions(r) && t.aliceBaseKey == base
  {
    if k < |Sessions(r)| {
      assert Sessions(r)[k] in Sessions(r);
    }
  }

  lemma EndDecides(w: Duo, side: bool, e: Packet, eph: Name, o: Oracles) returns (floor: nat)
    requires BondsOk(w) && e.base in w.bonds && UnderWay(w.bonds[e.base], side, e)
    requires CanReceive(View(w.bonds[e.base], side), e.entry, eph)
    ensures var p := View(w.bonds[e.base], side);
            && PairInv(p) && IsFloor(p, e.entry.epoch, floor)
            && (Outcome(p, e.entry, eph, o).Ok? <==> Takes(p, e.entry, floor, o))
            && (Outcome(p, e.entry, eph, o).Ok? ==> Outcome(p, e.entry, eph, o).value.1 == e.entry.plaintext)
  {
    var b := w.bonds[e.base];
    BondAt(w, e.base);
    SeenFromKeeps(b.pair, side == b.starter);
    floor := OutcomeInAnyPair(View(b, side), e.entry, eph, o);
  }

  /**
   The fate of every message: in every state of every run, whatever one device emitted for the other was emitted at some
   step for some plaintext, and delivering it now gives that plaintext if and only if the receiving device has the
   session of its base key or can start it from the message, and that session's window still has the message's slot.
   */
  lemma EveryMessageIsDecided(ws: seq<Duo>, steps: seq<DuoStep>, n: nat, side: bool, e: Packet, eph: Name, o: Oracles)
    returns (i: nat, floor: nat)
    requires IsDuoRun(ws, steps) && n < |ws| && e in From(ws[n], !side) && NewName(ws[n], eph)
    ensures i < n && steps[i].side == !side && Emits(ws[i], steps[i], e)
    ensures e.base in ws[n].bonds && e.entry.epoch < |ws[n].bonds[e.base].pair.schedule.keys|
    ensures var p, out := View(ws[n].bonds[e.base], side), OutputOf(ws[n], Deliver(side, e, eph, o));
            && PairInv(p) && IsFloor(p, e.entry.epoch, floor)
            && (out.Received? <==> HasOrJoins(ws[n], side, e, o) && Takes(p, e.entry, floor, o))
            && (out.Received? ==> out == Received(InnerOf(e.message), steps[i].step.plaintext))
  {
    i := PacketWasEmitted(ws, steps, n, !side, e);
    DuoInvAlways(ws, steps, n);
    floor := DeliveryDecided(ws[n], side, e, eph, o);
  }

  /** The other device holds the session of the packet, and the packet is in reach of it, new to it and recent. */
  ghost predicate Timely(w: Duo, side: bool, e: Packet)
    requires e.base in w.bonds && PairInv(View(w.bonds[e.base], side))
    requires e.entry.epoch < |w.bonds[e.base].pair.schedule.keys|
  {
    var p, x := View(w.bonds[e.base], side), e.entry;
    && (exists t :: t in Sessions(RecordOf(w, side)) && t.aliceBaseKey == e.base)
    && InReach(p.me.epoch, x.epoch) && Recent(p, x) && (OriginAt(p.schedule, x.epoch), x.counter) !in p.me.taken
  }

  /**
   The promise to the users: what one device emitted at any step is received by the other, at any later time at which it
   holds the session of the message, with the plaintext that was sent, if the message is on a retained or the next
   chain, was not accepted before, is at most 2001 behind and at most 25000 ahead, and the post-quantum ratchet
   delivers.
   */
  lemma EmittedIsReceived(ws: seq<Duo>, steps: seq<DuoStep>, i: nat, n: nat, eph: Name, o: Oracles)
    returns (e: Packet)
    requires IsDuoRun(ws, steps) && i < n < |ws| && Sends(ws[i], steps[i]) && NewName(ws[n], eph)
    ensures e in From(ws[n], steps[i].side) && Emits(ws[i], steps[i], e)
    ensures e.base in ws[n].bonds && e.entry.epoch < |ws[n].bonds[e.base].pair.schedule.keys|
    ensures var side := !steps[i].side;
            var p, out := View(ws[n].bonds[e.base], side), OutputOf(ws[n], Deliver(side, e, eph, o));
            && PairInv(p)
            && (Timely(ws[n], side, e) && PqDelivers(p, e.entry, o) ==>
                out == Received(InnerOf(e.message), steps[i].step.plaintext))
  {
    e := EmittedStays(ws, steps, i, n);
    DuoInvAlways(ws, steps, n);
    var floor := DeliveryDecided(ws[n], !steps[i].side, e, eph, o);
    RecentIsTaken(ws[n], !steps[i].side, e, floor, o);
  }

  lemma RecentIsTaken(w: Duo, side: bool, e: Packet, floor: nat, o: Oracles)
    requires e.base in w.bonds && e.entry.epoch < |w.bonds[e.base].pair.schedule.keys|
    requires PairInv(View(w.bonds[e.base], side)) && IsFloor(View(w.bonds[e.base], side), e.entry.epoch, floor)
    ensures Timely(w, side, e) && PqDelivers(View(w.bonds[e.base], side), e.entry, o) ==>
              HasOrJoins(w, side, e, o) && Takes(View(w.bonds[e.base], side), e.entry, floor, o)
  {
  }
}
