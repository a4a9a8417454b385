/**
 What every step of two devices keeps: each record holds ends of bonds, the ends of each bond are in lock step, and
 everything on the network was emitted by one of these ends.
 */
module DuoSteps {
  import opened Prelude
  import opened Symbolic
  import opened Messages
  import opened SessionStates
  import opened SessionCipher
  import opened SessionRecords
  import opened Handshake
  import opened Devices
  import opened DeviceRuns
  import opened DeviceFrames
  import opened RecordRuns
  import opened LockStep
  import opened Bonds
  import opened TwoDevices

  // ---------------------------------------------------------------------------------------------
  // What an action of one device does to the rest

  /** Device `side` acted, and what belongs to the other one is as it was. */
  ghost predicate Acted(w: Duo, w': Duo, side: bool) {
    && w'.leftPeer == w.leftPeer && w'.rightPeer == w.rightPeer && w'.pqInit == w.pqInit
    && WorldOf(w', !side) == WorldOf(w, !side) && IdentityOf(w', side) == IdentityOf(w, side)
    && SeenGrows(WorldOf(w, side).device, WorldOf(w', side).device)
    && From(w', !side) == From(w, !side)
  }

  ghost predicate BondEvolves(bonds: map<Name, Bond>, bonds': map<Name, Bond>, side: bool, c: Name) {
    c in bonds && c in bonds' && Evolves(bonds[c], bonds'[c], side)
  }

  ghost predicate BondsEvolve(bonds: map<Name, Bond>, bonds': map<Name, Bond>, side: bool) {
    forall c :: c in bonds ==> BondEvolves(bonds, bonds', side, c)
  }

  /** One bond was replaced or added. */
  lemma OneEvolves(bonds: map<Name, Bond>, base: Name, b': Bond, side: bool)
    requires base in bonds ==> Evolves(bonds[base], b', side)
    ensures BondsEvolve(bonds, bonds[base := b'], side)
  {
    forall c | c in bonds ensures BondEvolves(bonds, bonds[base := b'], side, c) {
      assert Evolves(bonds[c], bonds[c], side);
    }
  }

  lemma TrackedByOther(bonds: map<Name, Bond>, bonds': map<Name, Bond>, side: bool, t: SessionStructure)
    requires Tracked(bonds, !side, t) && BondEvolves(bonds, bonds', side, t.aliceBaseKey)
    ensures Tracked(bonds', !side, t)
  {
  }

  lemma OtherHalf(w: Duo, w': Duo, side: bool)
    requires Acted(w, w', side) && BondsEvolve(w.bonds, w'.bonds, side) && HalfOk(w, !side)
    ensures HalfOk(w', !side)
  {
    var r := RecordOf(w, !side);
    forall k | 0 <= k < |Sessions(r)| ensures Tracked(w'.bonds, !side, Sessions(r)[k]) {
      assert Tracked(w.bonds, !side, Sessions(r)[k]);
      assert BondEvolves(w.bonds, w'.bonds, side, Sessions(r)[k].aliceBaseKey);
      TrackedByOther(w.bonds, w'.bonds, side, Sessions(r)[k]);
    }
  }

  lemma NetKept(bonds: map<Name, Bond>, bonds': map<Name, Bond>, side: bool, who: bool, packets: set<Packet>)
    requires BondsEvolve(bonds, bonds', side) && forall e :: e in packets ==> PacketGood(bonds, who, e)
    ensures forall e :: e in packets ==> PacketGood(bonds', who, e)
  {
    forall e | e in packets ensures PacketGood(bonds', who, e) {
      assert PacketGood(bonds, who, e);
      assert BondEvolves(bonds, bonds', side, e.base);
      PacketKept(bonds[e.base], bonds'[e.base], side, who, e);
    }
  }

  lemma GoodStays(w: Duo, w': Duo, side: bool, c: Name)
    requires Acted(w, w', side) && BondGood(w, c) && c in w'.bonds && w'.bonds[c] == w.bonds[c]
    ensures BondGood(w', c)
  {
  }

  /** A bond that changed in an admissible way is good if its base key counts as used once the responder has joined. */
  lemma GoodAgain(w: Duo, w': Duo, side: bool, base: Name, b: Bond, b': Bond)
    requires Acted(w, w', side) && base !in {IdentityOf(w, true), IdentityOf(w, false)}
    requires base in w'.bonds && w'.bonds[base] == b' && b'.starter == b.starter && b'.ids == b.ids
    requires BondOk(b', base, IdentityOf(w, b.starter), IdentityOf(w, !b.starter), w.pqInit)
    requires b.joined ==> BaseUsed(w, b, base)
    requires b'.joined && !b.joined ==> BaseUsed(w', b', base)
    ensures BondGood(w', base)
  {
  }

  /** All bonds but one are as they were. */
  lemma BondsStay(w: Duo, w': Duo, side: bool, base: Name, b': Bond)
    requires Acted(w, w', side) && BondsOk(w) && w'.bonds == w.bonds[base := b'] && BondGood(w', base)
    ensures BondsOk(w')
  {
    forall c | c in w'.bonds ensures BondGood(w', c) {
      if c != base {
        assert BondGood(w, c);
        GoodStays(w, w', side, c);
      }
    }
  }

  lemma NetsStay(w: Duo, w': Duo, side: bool, packets: set<Packet>)
    requires Acted(w, w', side) && BondsEvolve(w.bonds, w'.bonds, side) && NetOk(w, side) && NetOk(w, !side)
    requires From(w', side) == From(w, side) + packets && forall e :: e in packets ==> PacketGood(w'.bonds, side, e)
    ensures NetOk(w', side) && NetOk(w', !side)
  {
    NetKept(w.bonds, w'.bonds, side, side, From(w, side));
    NetKept(w.bonds, w'.bonds, side, !side, From(w, !side));
  }

  lemma FromBothSides(w: Duo, side: bool)
    requires HalfOk(w, side) && HalfOk(w, !side) && NetOk(w, side) && NetOk(w, !side)
    requires BondsOk(w) && KeysApart(w.bonds, w.generated, w.published)
    ensures DuoInv(w)
  {
    if side {
      assert !side == false;
    } else {
      assert !side == true;
    }
  }

  lemma RestStays(w: Duo, w': Duo, side: bool, packets: set<Packet>)
    requires NetOk(w, side) && NetOk(w, !side) && HalfOk(w, !side)
    requires Acted(w, w', side) && BondsEvolve(w.bonds, w'.bonds, side)
    requires From(w', side) == From(w, side) + packets && forall e :: e in packets ==> PacketGood(w'.bonds, side, e)
    ensures HalfOk(w', !side) && NetOk(w', side) && NetOk(w', !side)
  {
    OtherHalf(w, w', side);
    NetsStay(w, w', side, packets);
  }

  // ---------------------------------------------------------------------------------------------
  // Ratchet keys

  lemma KeysAfterEvolving(bonds: map<Name, Bond>, generated: set<Name>, published: set<Name>, base: Name, b': Bond,
                          eph: Name)
    requires KeysApart(bonds, generated, published) && eph !in generated && eph !in published && base in bonds
    requires b'.pair.schedule.keys in {bonds[base].pair.schedule.keys, bonds[base].pair.schedule.keys + [eph]}
    requires bonds[base].pair.schedule.keys != []
    ensures KeysApart(bonds[base := b'], generated + {eph}, published)
  {
  }

  lemma KeysAfterSending(bonds: map<Name, Bond>, generated: set<Name>, published: set<Name>, base: Name, b': Bond)
    requires KeysApart(bonds, generated, published) && base in bonds
    requires b'.pair.schedule.keys == bonds[base].pair.schedule.keys
    ensures KeysApart(bonds[base := b'], generated, published)
  {
  }

  lemma KeysAfterStarting(bonds: map<Name, Bond>, generated: set<Name>, published: set<Name>, base: Name, b': Bond,
                          preKey: Name, eph: Name)
    requires KeysApart(bonds, generated, published) && eph !in generated && eph !in published && base !in bonds
    requires b'.pair.schedule.keys == [preKey, eph] && preKey !in generated && preKey != eph
    ensures KeysApart(bonds[base := b'], generated + {eph}, published + {preKey})
  {
  }

  // ---------------------------------------------------------------------------------------------
  // Records

  lemma TrackedCleared(bonds: map<Name, Bond>, side: bool, s: SessionStructure, t: SessionStructure)
    requires Tracked(bonds, side, t) && SameButPending(s, t)
    ensures Tracked(bonds, side, s)
  {
  }

  lemma ReplaceTracked(bonds: map<Name, Bond>, base: Name, b': Bond, side: bool, r: Record, k: nat,
                       t: SessionStructure)
    requires RecordTracked(bonds, side, r) && HeldAt(r, base, k) && k < |Sessions(r)|
    requires Tracked(bonds[base := b'], side, t)
    ensures RecordTracked(bonds[base := b'], side, Apply(r, Replace(k, t)))
  {
    ReplaceSessions(r, k, t);
    var ss, ss' := Sessions(r), Sessions(Apply(r, Replace(k, t)));
    forall j | 1 <= j < |ss'| ensures Tracked(bonds[base := b'], side, ss'[j]) {
      assert Tracked(bonds, side, ss[Skip(k, j - 1)]);
      assert ss[Skip(k, j - 1)].aliceBaseKey != base;
      TrackedCleared(bonds, side, ss'[j], ss[Skip(k, j - 1)]);
    }
  }

  lemma AddTracked(bonds: map<Name, Bond>, base: Name, b': Bond, side: bool, r: Record, t: SessionStructure)
    requires RecordTracked(bonds, side, r) && HeldAt(r, base, |Sessions(r)|) && Tracked(bonds[base := b'], side, t)
    ensures RecordTracked(bonds[base := b'], side, Apply(r, Add(t)))
  {
    AddSessions(r, t);
    var ss, ss' := Sessions(r), Sessions(Apply(r, Add(t)));
    forall j | 1 <= j < |ss'| ensures Tracked(bonds[base := b'], side, ss'[j]) {
      assert Tracked(bonds, side, ss[j - 1]);
      assert ss[j - 1].aliceBaseKey != base;
      TrackedCleared(bonds, side, ss'[j], ss[j - 1]);
    }
  }

  lemma RetireTracked(bonds: map<Name, Bond>, side: bool, r: Record)
    requires RecordTracked(bonds, side, r)
    ensures RecordTracked(bonds, side, Apply(r, Retire))
  {
    RetireSessions(r);
    var ss, ss' := Sessions(r), Sessions(Apply(r, Retire));
    forall j | 0 <= j < |ss'| ensures Tracked(bonds, side, ss'[j]) {
      assert Tracked(bonds, side, ss[j]);
      TrackedCleared(bonds, side, ss'[j], ss[j]);
    }
  }

  // ---------------------------------------------------------------------------------------------
  // Steps that touch no bond

  lemma PassiveKeeps(w: Duo, side: bool, v: World)
    requires DuoInv(w) && Acted(w, WithWorld(w, side, v), side) && HalfOk(WithWorld(w, side, v), side)
    ensures DuoInv(WithWorld(w, side, v))
  {
    PassiveRest(w, side, v);
    FromBothSides(WithWorld(w, side, v), side);
  }

  lemma PassiveRest(w: Duo, side: bool, v: World)
    requires NetOk(w, side) && NetOk(w, !side) && HalfOk(w, !side) && BondsOk(w)
    requires Acted(w, WithWorld(w, side, v), side)
    ensures var w' := WithWorld(w, side, v);
            HalfOk(w', !side) && NetOk(w', side) && NetOk(w', !side) && BondsOk(w')
  {
    var w' := WithWorld(w, side, v);
    forall c | c in w.bonds ensures BondEvolves(w.bonds, w'.bonds, side, c) {
      assert Evolves(w.bonds[c], w.bonds[c], side);
    }
    RestStays(w, w', side, {});
    forall c | c in w.bonds ensures BondGood(w', c) {
      assert BondGood(w, c);
      GoodStays(w, w', side, c);
    }
  }

  /** The call is about another address, or fails, or only archives. */
  ghost predicate Passive(w: Duo, s: DuoStep) {
    var step, out := DeviceStep(w, s), OutputOf(w, s);
    AddressOf(step) != Some(PeerOf(w, s.side)) || out.Failed? || step.Archive?
  }

  lemma PassiveStep(w: Duo, s: DuoStep)
    requires DuoInv(w) && DuoEnabled(w, s) && Passive(w, s)
    ensures DuoInv(WithWorld(w, s.side, Next(WorldOf(w, s.side), DeviceStep(w, s))))
  {
    var side, step := s.side, DeviceStep(w, s);
    var d, v := WorldOf(w, side).device, Next(WorldOf(w, side), step);
    ActedByCall(w, side, step);
    PassiveHalf(w, s);
    PassiveKeeps(w, side, v);
  }

  lemma ActedByCall(w: Duo, side: bool, step: Step)
    ensures Acted(w, WithWorld(w, side, Next(WorldOf(w, side), step)), side)
  {
    ExecOnlyAt(WorldOf(w, side).device, step);
  }

  lemma PassiveHalf(w: Duo, s: DuoStep)
    requires HalfOk(w, s.side) && BondsOk(w) && NetOk(w, !s.side) && DuoEnabled(w, s) && Passive(w, s)
    ensures HalfOk(WithWorld(w, s.side, Next(WorldOf(w, s.side), DeviceStep(w, s))), s.side)
  {
    var side, step := s.side, DeviceStep(w, s);
    var d, addr, theirs := WorldOf(w, side).device, PeerOf(w, side), IdentityOf(w, !side);
    StepKeepsRecords(WorldOf(w, side), step);
    if AddressOf(step) != Some(addr) {
      ElsewhereKeeps(d, step, addr);
    } else if step.Archive? {
      RetireTracked(w.bonds, side, RecordOf(w, side));
      assert LoadOrFresh(Exec(d, step).0, addr) == Apply(RecordOf(w, side), Retire);
    } else {
      if step.ReceivePreKey? {
        HeaderFacts(w, side, s.packet, step.preKey);
      }
      FailedKeeps(d, step, addr, theirs);
    }
  }

  // ---------------------------------------------------------------------------------------------
  // Starting a session with the other device

  ghost predicate Starts(w: Duo, s: DuoStep) {
    s.Local? && s.step.Start? && s.step.addr == PeerOf(w, s.side) && OutputOf(w, s).Quiet?
  }

  function StartedBond(w: Duo, side: bool, step: Step): Bond
    requires step.Start?
  {
    NewBond(side, BundleParameters(WorldOf(w, side).device, step.bundle, step.base), step.coins, IdsOf(step.bundle),
            step.eph, step.pqInit)
  }

  lemma NewIsNotHeld(w: Duo, side: bool, base: Name)
    requires RecordTracked(w.bonds, side, RecordOf(w, side)) && base !in w.bonds
    ensures HeldAt(RecordOf(w, side), base, |Sessions(RecordOf(w, side))|)
  {
    var ss := Sessions(RecordOf(w, side));
    forall j | 0 <= j < |ss| ensures ss[j].aliceBaseKey != base {
      assert Tracked(w.bonds, side, ss[j]);
    }
  }

  lemma StartedHalf(w: Duo, s: DuoStep)
    requires HalfOk(w, s.side) && DuoEnabled(w, s) && Starts(w, s)
    ensures HalfOk(DuoNext(w, s), s.side)
  {
    var side, step := s.side, s.step;
    var d, r, addr := WorldOf(w, side).device, RecordOf(w, side), PeerOf(w, side);
    var b := StartedBond(w, side, step);
    StepKeepsRecords(WorldOf(w, side), step);
    NewIsNotHeld(w, side, step.base);
    NewBondOk(side, b.alice, step.coins, b.ids, step.eph, step.pqInit);
    var t := NewOutgoing(d, step.bundle, step.now, step.base, step.coins, step.eph, step.pqInit);
    assert Tracked(w.bonds[step.base := b], side, t);
    AddTracked(w.bonds, step.base, b, side, r, t);
    assert LoadOrFresh(Exec(d, step).0, addr) == Apply(r, Add(t));
  }

  lemma StartedGood(w: Duo, s: DuoStep)
    requires DuoEnabled(w, s) && Starts(w, s)
    ensures BondGood(DuoNext(w, s), s.step.base)
  {
    var side, step := s.side, s.step;
    var b := StartedBond(w, side, step);
    NewBondOk(side, b.alice, step.coins, b.ids, step.eph, step.pqInit);
    ActedByCall(w, side, step);
  }

  /** The shape of the step: one bond is new, and so are its names. */
  ghost predicate NextBy(w: Duo, s: DuoStep, w': Duo, base: Name, b: Bond, packets: set<Packet>, keys: set<Name>,
                         preKeys: set<Name>)
  {
    && Acted(w, w', s.side) && w'.bonds == w.bonds[base := b]
    && WorldOf(w', s.side) == Next(WorldOf(w, s.side), DeviceStep(w, s))
    && From(w', s.side) == From(w, s.side) + packets
    && w'.generated == w.generated + keys && w'.published == w.published + preKeys
  }

  lemma StartedShape(w: Duo, s: DuoStep)
    requires Starts(w, s)
    ensures NextBy(w, s, DuoNext(w, s), s.step.base, StartedBond(w, s.side, s.step), {}, {s.step.eph},
                   {s.step.bundle.signedPreKey})
  {
    ActedByCall(w, s.side, s.step);
  }

  lemma StartedBonds(w: Duo, s: DuoStep)
    requires BondsOk(w) && DuoEnabled(w, s) && Starts(w, s)
    ensures BondsOk(DuoNext(w, s))
  {
    StartedShape(w, s);
    StartedGood(w, s);
    BondsStay(w, DuoNext(w, s), s.side, s.step.base, StartedBond(w, s.side, s.step));
  }

  lemma StartStep(w: Duo, s: DuoStep)
    requires DuoInv(w) && DuoEnabled(w, s) && Starts(w, s)
    ensures DuoInv(DuoNext(w, s))
  {
    var b := StartedBond(w, s.side, s.step);
    StartedShape(w, s);
    StartedHalf(w, s);
    StartedBonds(w, s);
    KeysAfterStarting(w.bonds, w.generated, w.published, s.step.base, b, s.step.bundle.signedPreKey, s.step.eph);
    Conclude(w, s, DuoNext(w, s), s.step.base, b, {}, {s.step.eph}, {s.step.bundle.signedPreKey});
  }

  /** The invariant after an action that replaced or added one bond, from what is particular to the action. */
  lemma Conclude(w: Duo, s: DuoStep, w': Duo, base: Name, b: Bond, packets: set<Packet>, keys: set<Name>,
                 preKeys: set<Name>)
    requires NetOk(w, s.side) && NetOk(w, !s.side) && HalfOk(w, !s.side)
    requires NextBy(w, s, w', base, b, packets, keys, preKeys)
    requires base in w.bonds ==> Evolves(w.bonds[base], b, s.side)
    requires forall e :: e in packets ==> PacketGood(w'.bonds, s.side, e)
    requires HalfOk(w', s.side) && BondsOk(w') && KeysApart(w'.bonds, w'.generated, w'.published)
    ensures DuoInv(w')
  {
    OneEvolves(w.bonds, base, b, s.side);
    RestStays(w, w', s.side, packets);
    FromBothSides(w', s.side);
  }

  // ---------------------------------------------------------------------------------------------
  // Sending to the other device

  ghost predicate Sends(w: Duo, s: DuoStep) {
    s.Local? && s.step.Send? && s.step.addr == PeerOf(w, s.side) && OutputOf(w, s).Emitted?
  }

  /** The session a device sends on, and the post-quantum ratchet's part of the message. */
  ghost predicate SendsOn(d: Device, step: Step, t: SessionStructure, pq: PqState, pqKey: Option<Term>,
                          pqMsg: PqMessage)
    requires step.Send?
  {
    && step.addr in d.sessions && d.sessions[step.addr].current == Some(t)
    && t.senderChain.Some? && t.senderChain.value.chainKey.index < U32_MAX
    && step.pqSend(t.pq) == Some((pq, pqKey, pqMsg))
    && var (t', m) := EncryptWithState(t, step.plaintext, pq, pqKey, pqMsg);
    && Exec(d, step).1 == Emitted(step.addr, t.aliceBaseKey, Wrap(t, m))
    && Exec(d, step).0 == StoreSession(SaveIdentity(d, step.addr, t.remoteIdentity), step.addr,
                                       Apply(d.sessions[step.addr], Replace(0, t')))
  }

  lemma SendShape(d: Device, step: Step)
    returns (t: SessionStructure, pq: PqState, pqKey: Option<Term>, pqMsg: PqMessage)
    requires step.Send? && Exec(d, step).1.Emitted?
    ensures SendsOn(d, step, t, pq, pqKey, pqMsg)
  {
    t := d.sessions[step.addr].current.value;
    var r := step.pqSend(t.pq).value;
    pq, pqKey, pqMsg := r.0, r.1, r.2;
  }

  /** The packet a send puts on the network is the one of its entry, wrapped as the bond's header says. */
  lemma SendPacket(b: Bond, base: Name, side: bool, t: SessionStructure, send: PairStep)
    requires PairInv(b.pair) && SameRatchet(t, View(b, side).me.session) && PendingOk(t, b, side)
    requires t.localIdentity == b.alice.identity || side != b.starter
    requires send.PairSend? && CanSend(View(b, side).me)
    ensures var b' := SentOn(b, side, send);
            var (t', m) := EncryptWithState(t, send.plaintext, send.pqState, send.pqKey, send.pq);
            var entries := View(b', side).me.sent;
            && SameRatchet(t', View(b', side).me.session) && entries != []
            && PacketOk(b', side, Packet(base, Wrap(t, m), entries[|entries| - 1]))
            && entries[|entries| - 1].plaintext == send.plaintext
  {
    var p := View(b, side);
    EncryptSame(t, p.me.session, send.plaintext, send.pqState, send.pqKey, send.pq);
    SendEvolves(b, side, send);
    assert p.schedule == View(SentOn(b, side, send), side).schedule;
    SentMessage(p, send, b.starter == side);
  }

  lemma SentMessage(p: Pair, send: PairStep, initiator: bool)
    requires PairInv(SeenFrom(p, initiator)) && send.PairSend? && CanSend(p.me)
    ensures var end, entry := SendFrom(p.me, send), SendFrom(p.me, send).sent[|p.me.sent|];
            && entry.epoch < |p.schedule.keys|
            && EncryptWithState(p.me.session, send.plaintext, send.pqState, send.pqKey, send.pq).1
               == MessageOf(p.schedule, end.session, entry)
  {
    SeenFromKeeps(SeenFrom(p, initiator), p.initiator);
    SendKeepsPair(p, send);
  }

  /** The step of the bond behind a call that sends on session `t`. */
  function SendOf(b: Bond, side: bool, step: Step, pq: PqState, pqKey: Option<Term>, pqMsg: PqMessage): PairStep
    requires step.Send?
  {
    PairSend(side == b.starter, step.plaintext, pq, pqKey, pqMsg)
  }

  function LastEntry(b: Bond, side: bool): Sent
    requires View(b, side).me.sent != []
  {
    var entries := View(b, side).me.sent;
    entries[|entries| - 1]
  }

  lemma SentShape(w: Duo, s: DuoStep, t: SessionStructure, pq: PqState, pqKey: Option<Term>, pqMsg: PqMessage)
    requires Sends(w, s) && SendsOn(WorldOf(w, s.side).device, s.step, t, pq, pqKey, pqMsg)
    requires t.aliceBaseKey in w.bonds && SameRatchet(t, View(w.bonds[t.aliceBaseKey], s.side).me.session)
    ensures CanSend(View(w.bonds[t.aliceBaseKey], s.side).me)
    ensures var b := w.bonds[t.aliceBaseKey];
            var b' := SentOn(b, s.side, SendOf(b, s.side, s.step, pq, pqKey, pqMsg));
            var m := EncryptWithState(t, s.step.plaintext, pq, pqKey, pqMsg).1;
            && View(b', s.side).me.sent != []
            && NextBy(w, s, DuoNext(w, s), t.aliceBaseKey, b',
                      {Packet(t.aliceBaseKey, Wrap(t, m), LastEntry(b', s.side))}, {}, {})
  {
    var b := w.bonds[t.aliceBaseKey];
    SendEvolves(b, s.side, SendOf(b, s.side, s.step, pq, pqKey, pqMsg));
    ActedByCall(w, s.side, s.step);
  }

  lemma SentHalf(w: Duo, s: DuoStep, w': Duo, t: SessionStructure, pq: PqState, pqKey: Option<Term>, pqMsg: PqMessage,
                 b': Bond)
    requires HalfOk(w, s.side) && DuoEnabled(w, s) && Sends(w, s)
    requires SendsOn(WorldOf(w, s.side).device, s.step, t, pq, pqKey, pqMsg)
    requires t.remoteIdentity == IdentityOf(w, !s.side) && Acted(w, w', s.side)
    requires WorldOf(w', s.side) == Next(WorldOf(w, s.side), s.step) && w'.bonds == w.bonds[t.aliceBaseKey := b']
    requires Tracked(w'.bonds, s.side, EncryptWithState(t, s.step.plaintext, pq, pqKey, pqMsg).0)
    ensures HalfOk(w', s.side)
  {
    var side, r, addr := s.side, RecordOf(w, s.side), PeerOf(w, s.side);
    var t' := EncryptWithState(t, s.step.plaintext, pq, pqKey, pqMsg).0;
    StepKeepsRecords(WorldOf(w, side), s.step);
    RecordOfInv(w, side);
    assert Sessions(r)[0] == t;
    assert HeldAt(r, t.aliceBaseKey, 0);
    ReplaceTracked(w.bonds, t.aliceBaseKey, b', side, r, 0, t');
    assert RecordOf(w', side) == Apply(r, Replace(0, t'));
  }

  lemma SentGood(w: Duo, w': Duo, side: bool, base: Name, send: PairStep)
    requires Acted(w, w', side) && BondGood(w, base) && send.PairSend? && CanSend(View(w.bonds[base], side).me)
    requires side == w.bonds[base].starter || w.bonds[base].joined
    requires w'.bonds == w.bonds[base := SentOn(w.bonds[base], side, send)]
    ensures BondGood(w', base)
  {
    var b := w.bonds[base];
    SendKeepsBond(b, base, IdentityOf(w, b.starter), IdentityOf(w, !b.starter), w.pqInit, side, send);
    GoodAgain(w, w', side, base, b, w'.bonds[base]);
  }

  lemma CurrentFacts(w: Duo, side: bool, t: SessionStructure)
    requires HalfOk(w, side) && BondsOk(w) && RecordOf(w, side).current == Some(t)
    ensures Tracked(w.bonds, side, t)
    ensures t.remoteIdentity == IdentityOf(w, !side) && t.localIdentity == IdentityOf(w, side)
  {
    assert Sessions(RecordOf(w, side))[0] == t;
    BondAt(w, t.aliceBaseKey);
    var b := w.bonds[t.aliceBaseKey];
    EndNames(b, t.aliceBaseKey, IdentityOf(w, b.starter), IdentityOf(w, !b.starter), side);
  }

  /** The session and the packet after a send belong to the bond after it. */
  lemma SentTracked(w: Duo, side: bool, t: SessionStructure, send: PairStep)
    requires BondsOk(w) && Tracked(w.bonds, side, t) && t.localIdentity == IdentityOf(w, side)
    requires send.PairSend? && CanSend(View(w.bonds[t.aliceBaseKey], side).me)
    ensures var b' := SentOn(w.bonds[t.aliceBaseKey], side, send);
            var (t', m) := EncryptWithState(t, send.plaintext, send.pqState, send.pqKey, send.pq);
            var bonds := w.bonds[t.aliceBaseKey := b'];
            && Evolves(w.bonds[t.aliceBaseKey], b', side) && b'.pair.schedule == w.bonds[t.aliceBaseKey].pair.schedule
            && View(b', side).me.sent != [] && Tracked(bonds, side, t')
            && PacketGood(bonds, side, Packet(t.aliceBaseKey, Wrap(t, m), LastEntry(b', side)))
  {
    var b := w.bonds[t.aliceBaseKey];
    RootedAt(w, t.aliceBaseKey);
    assert PairInv(b.pair) by {
      BondAt(w, t.aliceBaseKey);
    }
    SendPacket(b, t.aliceBaseKey, side, t, send);
    SendEvolves(b, side, send);
  }

  lemma SentHalfBy(w: Duo, s: DuoStep, w': Duo, t: SessionStructure, pq: PqState, pqKey: Option<Term>,
                   pqMsg: PqMessage)
    requires HalfOk(w, s.side) && BondsOk(w) && DuoEnabled(w, s) && Sends(w, s) && Acted(w, w', s.side)
    requires SendsOn(WorldOf(w, s.side).device, s.step, t, pq, pqKey, pqMsg) && Tracked(w.bonds, s.side, t)
    requires t.remoteIdentity == IdentityOf(w, !s.side) && t.localIdentity == IdentityOf(w, s.side)
    requires CanSend(View(w.bonds[t.aliceBaseKey], s.side).me)
    requires WorldOf(w', s.side) == Next(WorldOf(w, s.side), s.step)
    requires var b := w.bonds[t.aliceBaseKey];
             w'.bonds == w.bonds[t.aliceBaseKey := SentOn(b, s.side, SendOf(b, s.side, s.step, pq, pqKey, pqMsg))]
    ensures HalfOk(w', s.side)
  {
    var b := w.bonds[t.aliceBaseKey];
    var send := SendOf(b, s.side, s.step, pq, pqKey, pqMsg);
    SentTracked(w, s.side, t, send);
    SentHalf(w, s, w', t, pq, pqKey, pqMsg, SentOn(b, s.side, send));
  }

  lemma SentBonds(w: Duo, w': Duo, side: bool, t: SessionStructure, send: PairStep)
    requires Acted(w, w', side) && BondsOk(w) && Tracked(w.bonds, side, t)
    requires send.PairSend? && CanSend(View(w.bonds[t.aliceBaseKey], side).me)
    requires w'.bonds == w.bonds[t.aliceBaseKey := SentOn(w.bonds[t.aliceBaseKey], side, send)]
    ensures BondsOk(w')
  {
    var base := t.aliceBaseKey;
    assert BondGood(w, base);
    SentGood(w, w', side, base, send);
    BondsStay(w, w', side, base, SentOn(w.bonds[base], side, send));
  }

  lemma SendFinish(w: Duo, s: DuoStep, w': Duo, t: SessionStructure, send: PairStep)
    requires NetOk(w, s.side) && NetOk(w, !s.side) && HalfOk(w, !s.side) && BondsOk(w)
    requires KeysApart(w.bonds, w.generated, w.published)
    requires Tracked(w.bonds, s.side, t) && t.localIdentity == IdentityOf(w, s.side)
    requires send.PairSend? && CanSend(View(w.bonds[t.aliceBaseKey], s.side).me) && HalfOk(w', s.side)
    requires var b' := SentOn(w.bonds[t.aliceBaseKey], s.side, send);
             var m := EncryptWithState(t, send.plaintext, send.pqState, send.pqKey, send.pq).1;
             && View(b', s.side).me.sent != []
             && NextBy(w, s, w', t.aliceBaseKey, b',
                       {Packet(t.aliceBaseKey, Wrap(t, m), LastEntry(b', s.side))}, {}, {})
    ensures DuoInv(w')
  {
    var side, base, b := s.side, t.aliceBaseKey, w.bonds[t.aliceBaseKey];
    var b', m := SentOn(b, side, send), EncryptWithState(t, send.plaintext, send.pqState, send.pqKey, send.pq).1;
    SentBonds(w, w', side, t, send);
    SentTracked(w, side, t, send);
    KeysAfterSending(w.bonds, w.generated, w.published, base, b');
    Conclude(w, s, w', base, b', {Packet(base, Wrap(t, m), LastEntry(b', side))}, {}, {});
  }

  lemma SendStep(w: Duo, s: DuoStep)
    requires DuoInv(w) && DuoEnabled(w, s) && Sends(w, s)
    ensures DuoInv(DuoNext(w, s))
  {
    var side := s.side;
    var t, pq, pqKey, pqMsg := SendShape(WorldOf(w, side).device, s.step);
    CurrentFacts(w, side, t);
    SentShape(w, s, t, pq, pqKey, pqMsg);
    SentHalfBy(w, s, DuoNext(w, s), t, pq, pqKey, pqMsg);
    SendFinish(w, s, DuoNext(w, s), t, SendOf(w.bonds[t.aliceBaseKey], side, s.step, pq, pqKey, pqMsg));
  }

  // ---------------------------------------------------------------------------------------------
  // Receiving from the other device

  ghost predicate Receives(w: Duo, s: DuoStep) {
    s.Deliver? && OutputOf(w, s).Received?
  }

  lemma ReceivedShape(w: Duo, s: DuoStep)
    requires Receives(w, s) && s.packet.base in w.bonds
    requires s.packet.entry.epoch < |w.bonds[s.packet.base].pair.schedule.keys|
    requires Outcome(View(w.bonds[s.packet.base], s.side), s.packet.entry, s.eph, s.oracles).Ok?
    ensures var e, b := s.packet, w.bonds[s.packet.base];
            var session := Outcome(View(b, s.side), e.entry, s.eph, s.oracles).value.0;
            NextBy(w, s, DuoNext(w, s), e.base, AcceptedOn(b, s.side, e.entry, session, s.eph), {}, {s.eph}, {})
  {
    ActedByCall(w, s.side, DeviceStep(w, s));
  }

  /** What the bond's end becomes is tracked by any session that agrees with it and is not pending. */
  lemma ReceivedTracked(w: Duo, side: bool, e: Packet, eph: Name, o: Oracles, t: SessionStructure)
    requires BondsOk(w) && e.base in w.bonds && e.entry.epoch < |w.bonds[e.base].pair.schedule.keys|
    requires Outcome(View(w.bonds[e.base], side), e.entry, eph, o).Ok? && !HasPending(t)
    requires SameRatchet(t, Outcome(View(w.bonds[e.base], side), e.entry, eph, o).value.0)
    ensures var b := w.bonds[e.base];
            var b' := AcceptedOn(b, side, e.entry, Outcome(View(b, side), e.entry, eph, o).value.0, eph);
            && Tracked(w.bonds[e.base := b'], side, t) && Evolves(b, b', side)
            && b'.pair.schedule.keys in {b.pair.schedule.keys, b.pair.schedule.keys + [eph]}
  {
    var b := w.bonds[e.base];
    BaseKeyAt(w, e.base, side);
    AcceptEvolves(b, side, e.entry, eph, o);
  }

  lemma BaseKeyAt(w: Duo, base: Name, side: bool)
    requires BondsOk(w) && base in w.bonds
    ensures View(w.bonds[base], side).me.session.aliceBaseKey == base
    ensures w.bonds[base].pair.schedule.keys != []
  {
    BondAt(w, base);
  }

  lemma CanReceiveNew(w: Duo, side: bool, e: Packet, eph: Name)
    requires KeysApart(w.bonds, w.generated, w.published) && NewName(w, eph)
    requires e.base in w.bonds && UnderWay(w.bonds[e.base], side, e)
    ensures CanReceive(View(w.bonds[e.base], side), e.entry, eph)
  {
    var keys := w.bonds[e.base].pair.schedule.keys;
    forall i | 0 <= i < |keys| ensures keys[i] != eph {
    }
  }

  lemma ReceivedGood(w: Duo, w': Duo, side: bool, e: Packet, eph: Name, o: Oracles)
    requires Acted(w, w', side) && BondGood(w, e.base) && CanReceive(View(w.bonds[e.base], side), e.entry, eph)
    requires Outcome(View(w.bonds[e.base], side), e.entry, eph, o).Ok?
    requires var b := w.bonds[e.base];
             w'.bonds == w.bonds[e.base :=
               AcceptedOn(b, side, e.entry, Outcome(View(b, side), e.entry, eph, o).value.0, eph)]
    requires side != w.bonds[e.base].starter && !w.bonds[e.base].joined ==>
               BaseKeySeen(WorldOf(w', side).device, w.bonds[e.base].ids.kyber, w.bonds[e.base].ids.signed, e.base)
    ensures BondGood(w', e.base)
  {
    var b := w.bonds[e.base];
    AcceptKeepsBond(b, e.base, IdentityOf(w, b.starter), IdentityOf(w, !b.starter), w.pqInit, side, e.entry, eph, o);
    GoodAgain(w, w', side, e.base, b, w'.bonds[e.base]);
  }

  /** What a received packet did to the record of its device: its own session was replaced, or it was added. */
  ghost predicate ReceivedAs(d: Device, d': Device, addr: Address, c: Change, theirs: Name) {
    Applicable(LoadOrFresh(d, addr), c)
    && LoadOrFresh(d', addr) == Apply(LoadOrFresh(d, addr), c) && IsTrusted(d', addr, theirs)
  }

  lemma SignalReceivedAs(w: Duo, s: DuoStep, m: SignalMessage, k: nat)
    requires DuoInv(w) && DuoEnabled(w, s) && Receives(w, s) && s.packet.message == Whisper(m)
    requires HeldAt(RecordOf(w, s.side), s.packet.base, k)
    ensures s.packet.base in w.bonds && UnderWay(w.bonds[s.packet.base], s.side, s.packet)
    ensures k < |Sessions(RecordOf(w, s.side))|
    ensures DecryptWithState(Sessions(RecordOf(w, s.side))[k], m, s.eph, s.oracles).Ok?
    ensures Outcome(View(w.bonds[s.packet.base], s.side), s.packet.entry, s.eph, s.oracles).Ok?
    ensures var d, addr := WorldOf(w, s.side).device, PeerOf(w, s.side);
            var t := DecryptWithState(Sessions(RecordOf(w, s.side))[k], m, s.eph, s.oracles).value.0;
            ReceivedAs(d, Exec(d, DeviceStep(w, s)).0, addr, Replace(k, t), IdentityOf(w, !s.side))
  {
    var side, e, d, addr := s.side, s.packet, WorldOf(w, s.side).device, PeerOf(w, s.side);
    SignalOutcome(w, side, e, m, k, s.eph, s.oracles);
    RecordOfInv(w, side);
    var i := SignalChange(d, addr, m, s.eph, s.oracles);
    OthersRefused(w, side, e, k, s.eph, s.oracles);
    assert i != k ==> RefusedAt(Sessions(RecordOf(w, side)), i, m, s.eph, s.oracles);
    AcceptedIsTrusted(w, side, e, s.eph, s.oracles);
    TrackedAt(w, side, e.base, k);
    OwnSession(Sessions(RecordOf(w, side))[k], w.bonds[e.base], side, e, s.eph, s.oracles);
  }

  lemma PreKeySaves(d: Device, addr: Address, pm: PreKeySignalMessage, eph: Name, o: Oracles, pqInit: PqInit)
    requires MessageDecryptPreKey(d, addr, pm, eph, o, pqInit).1.Ok?
    ensures IsTrusted(MessageDecryptPreKey(d, addr, pm, eph, o, pqInit).0, addr, pm.identityKey)
  {
  }

  lemma PreKeyHeldAs(d: Device, addr: Address, pm: PreKeySignalMessage, k: nat, eph: Name, o: Oracles, pqInit: PqInit)
    requires RecordInv(LoadOrFresh(d, addr)) && HeldAt(LoadOrFresh(d, addr), pm.baseKey, k)
    requires k < |Sessions(LoadOrFresh(d, addr))|
    requires pm.version == CURRENT_VERSION && MessageDecryptPreKey(d, addr, pm, eph, o, pqInit).1.Ok?
    ensures DecryptWithState(Sessions(LoadOrFresh(d, addr))[k], pm.message, eph, o).Ok?
    ensures var t := DecryptWithState(Sessions(LoadOrFresh(d, addr))[k], pm.message, eph, o).value.0;
            ReceivedAs(d, MessageDecryptPreKey(d, addr, pm, eph, o, pqInit).0, addr, Replace(k, t), pm.identityKey)
  {
    PreKeySaves(d, addr, pm, eph, o, pqInit);
    assert Matches(Sessions(LoadOrFresh(d, addr))[k], pm.version, pm.baseKey);
    var existing, i := PreKeyChange(d, addr, pm, eph, o, pqInit);
    assert existing && i == k;
  }

  lemma PreKeyNewAs(d: Device, addr: Address, pm: PreKeySignalMessage, eph: Name, o: Oracles, pqInit: PqInit)
    requires RecordInv(LoadOrFresh(d, addr))
    requires HeldAt(LoadOrFresh(d, addr), pm.baseKey, |Sessions(LoadOrFresh(d, addr))|)
    requires MessageDecryptPreKey(d, addr, pm, eph, o, pqInit).1.Ok?
    ensures HasPreKeys(d, pm) && DecryptWithState(NewIncoming(d, pm, pqInit), pm.message, eph, o).Ok?
    ensures !BaseKeySeen(d, pm.kyberPreKeyId.value, pm.signedPreKeyId, pm.baseKey)
    ensures var d' := MessageDecryptPreKey(d, addr, pm, eph, o, pqInit).0;
            var t := DecryptWithState(NewIncoming(d, pm, pqInit), pm.message, eph, o).value.0;
            && ReceivedAs(d, d', addr, Add(t), pm.identityKey)
            && BaseKeySeen(d', pm.kyberPreKeyId.value, pm.signedPreKeyId, pm.baseKey)
  {
    PreKeySaves(d, addr, pm, eph, o, pqInit);
    var existing, i := PreKeyChange(d, addr, pm, eph, o, pqInit);
  }

  /** The half of the device that received, once its record has the session that tracks the bond. */
  lemma ReceivedHalf(w: Duo, s: DuoStep, w': Duo, c: Change, b': Bond)
    requires HalfOk(w, s.side) && DuoEnabled(w, s) && s.Deliver? && Acted(w, w', s.side)
    requires WorldOf(w', s.side) == Next(WorldOf(w, s.side), DeviceStep(w, s))
    requires w'.bonds == w.bonds[s.packet.base := b']
    requires ReceivedAs(WorldOf(w, s.side).device, WorldOf(w', s.side).device, PeerOf(w, s.side), c,
                        IdentityOf(w, !s.side))
    requires match c
             case Replace(k, t) => HeldAt(RecordOf(w, s.side), s.packet.base, k) && Tracked(w'.bonds, s.side, t)
             case Add(t) => HeldAt(RecordOf(w, s.side), s.packet.base, |Sessions(RecordOf(w, s.side))|)
                            && Tracked(w'.bonds, s.side, t)
             case Retire => false
    ensures HalfOk(w', s.side)
  {
    var side, r := s.side, RecordOf(w, s.side);
    StepKeepsRecords(WorldOf(w, side), DeviceStep(w, s));
    match c {
      case Replace(k, t) => ReplaceTracked(w.bonds, s.packet.base, b', side, r, k, t);
      case Add(t) => AddTracked(w.bonds, s.packet.base, b', side, r, t);
    }
  }

  /** Everything a receipt says about the device's record and the bond's end. */
  ghost predicate ReceivedWell(w: Duo, s: DuoStep, c: Change)
    requires s.Deliver?
  {
    var e, side, r := s.packet, s.side, RecordOf(w, s.side);
    var d, d' := WorldOf(w, side).device, Exec(WorldOf(w, side).device, DeviceStep(w, s)).0;
    && e.base in w.bonds && UnderWay(w.bonds[e.base], side, e)
    && var b := w.bonds[e.base];
    && Outcome(View(b, side), e.entry, s.eph, s.oracles).Ok?
    && (c.Replace? || c.Add?) && !HasPending(c.session)
    && SameRatchet(c.session, Outcome(View(b, side), e.entry, s.eph, s.oracles).value.0)
    && HeldAt(r, e.base, if c.Replace? then c.k else |Sessions(r)|)
    && ReceivedAs(d, d', PeerOf(w, side), c, IdentityOf(w, !side))
    && (side != b.starter && !b.joined ==> BaseKeySeen(d', b.ids.kyber, b.ids.signed, e.base))
  }

  lemma SignalReceivedWell(w: Duo, s: DuoStep, m: SignalMessage) returns (c: Change)
    requires DuoInv(w) && DuoEnabled(w, s) && Receives(w, s) && s.packet.message == Whisper(m)
    ensures ReceivedWell(w, s, c)
  {
    var side, e, r := s.side, s.packet, RecordOf(w, s.side);
    RecordOfInv(w, side);
    var k := FindHeld(r, e.base);
    SignalReceivedAs(w, s, m, k);
    TrackedAt(w, side, e.base, k);
    DecryptEnds(Sessions(r)[k], m, s.eph, s.oracles);
    OwnSession(Sessions(r)[k], w.bonds[e.base], side, e, s.eph, s.oracles);
    c := Replace(k, DecryptWithState(Sessions(r)[k], m, s.eph, s.oracles).value.0);
  }

  lemma PreKeyReceivedWell(w: Duo, s: DuoStep, pm: PreKeySignalMessage) returns (c: Change)
    requires DuoInv(w) && DuoEnabled(w, s) && Receives(w, s) && s.packet.message == PreKey(pm)
    ensures ReceivedWell(w, s, c)
  {
    var side, e, r := s.side, s.packet, RecordOf(w, s.side);
    var d, addr := WorldOf(w, side).device, PeerOf(w, side);
    RecordOfInv(w, side);
    var k := FindHeld(r, e.base);
    PreKeyOutcome(w, side, e, pm, k, s.eph, s.oracles);
    HeaderFacts(w, side, e, pm);
    if k < |Sessions(r)| {
      TrackedAt(w, side, e.base, k);
      PreKeyHeldAs(d, addr, pm, k, s.eph, s.oracles, w.pqInit);
      DecryptEnds(Sessions(r)[k], pm.message, s.eph, s.oracles);
      OwnSession(Sessions(r)[k], w.bonds[e.base], side, e, s.eph, s.oracles);
      c := Replace(k, DecryptWithState(Sessions(r)[k], pm.message, s.eph, s.oracles).value.0);
    } else {
      PreKeyNewAs(d, addr, pm, s.eph, s.oracles, w.pqInit);
      NewOutcome(w, side, e, pm, s.eph, s.oracles);
      DecryptEnds(NewIncoming(d, pm, w.pqInit), pm.message, s.eph, s.oracles);
      c := Add(DecryptWithState(NewIncoming(d, pm, w.pqInit), pm.message, s.eph, s.oracles).value.0);
    }
  }

  lemma ReceiveStep(w: Duo, s: DuoStep)
    requires DuoInv(w) && DuoEnabled(w, s) && Receives(w, s)
    ensures DuoInv(DuoNext(w, s))
  {
    var c;
    match s.packet.message {
      case Whisper(m) => c := SignalReceivedWell(w, s, m);
      case PreKey(pm) => c := PreKeyReceivedWell(w, s, pm);
    }
    ReceivedShape(w, s);
    ReceiveFinish(w, s, DuoNext(w, s), c);
  }

  lemma ReceiveFinish(w: Duo, s: DuoStep, w': Duo, c: Change)
    requires DuoInv(w) && DuoEnabled(w, s) && s.Deliver? && ReceivedWell(w, s, c)
    requires var e, b := s.packet, w.bonds[s.packet.base];
             var session := Outcome(View(b, s.side), e.entry, s.eph, s.oracles).value.0;
             NextBy(w, s, w', e.base, AcceptedOn(b, s.side, e.entry, session, s.eph), {}, {s.eph}, {})
    ensures DuoInv(w')
  {
    var side, e, b := s.side, s.packet, w.bonds[s.packet.base];
    var b' := AcceptedOn(b, side, e.entry, Outcome(View(b, side), e.entry, s.eph, s.oracles).value.0, s.eph);
    assert BondsOk(w') by {
      CanReceiveNew(w, side, e, s.eph);
      assert BondGood(w, e.base);
      ReceivedGood(w, w', side, e, s.eph, s.oracles);
      BondsStay(w, w', side, e.base, b');
    }
    ReceivedTracked(w, side, e, s.eph, s.oracles, c.session);
    ReceivedHalf(w, s, w', c, b');
    BaseKeyAt(w, e.base, side);
    KeysAfterEvolving(w.bonds, w.generated, w.published, e.base, b', s.eph);
    Conclude(w, s, w', e.base, b', {}, {s.eph}, {});
  }

  // ---------------------------------------------------------------------------------------------
  // Any step

  lemma OtherwisePassive(w: Duo, s: DuoStep)
    requires DuoEnabled(w, s) && !Starts(w, s) && !Sends(w, s) && !Receives(w, s)
    ensures Passive(w, s) && DuoNext(w, s) == WithWorld(w, s.side, Next(WorldOf(w, s.side), DeviceStep(w, s)))
  {
  }

  /** Every call at either device and every delivery, accepted or not, keeps the invariant. */
  lemma StepKeepsDuo(w: Duo, s: DuoStep)
    requires DuoInv(w) && DuoEnabled(w, s)
    ensures DuoInv(DuoNext(w, s))
  {
    if Starts(w, s) {
      StartStep(w, s);
    } else if Sends(w, s) {
      SendStep(w, s);
    } else if Receives(w, s) {
      ReceiveStep(w, s);
    } else {
      OtherwisePassive(w, s);
      PassiveStep(w, s);
    }
  }
}
