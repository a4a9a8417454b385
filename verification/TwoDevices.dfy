/**
 Runs of two devices over a network that loses, reorders and duplicates.

 Both devices have their stores and records. Each may start sessions with the other at any time, send, archive, fill its
 pre-key stores, and do anything at all under other addresses; whatever one of them emitted for the other may be
 delivered at any time, any number of times.
 */
module TwoDevices {
  import opened Prelude
  import opened Symbolic
  import opened RatchetKeys
  import opened Messages
  import opened SessionStates
  import opened SessionCipher
  import opened SessionRecords
  import opened Handshake
  import opened Devices
  import opened DeviceRuns
  import opened RecordRuns
  import opened LockStep
  import opened Bonds

  /**
   Two devices, `true` naming the left one. `leftPeer` is the address the left device knows the right one by. The other
   fields record the handshakes between the two, what each emitted for the other, the ratchet keys generated for these
   sessions and the signed pre-keys they started from.
   */
  datatype Duo = Duo(
    left: World, right: World, leftPeer: Address, rightPeer: Address, pqInit: PqInit,
    bonds: map<Name, Bond>, fromLeft: set<Packet>, fromRight: set<Packet>,
    generated: set<Name>, published: set<Name>)

  function WorldOf(w: Duo, side: bool): World {
    if side then w.left else w.right
  }

  function PeerOf(w: Duo, side: bool): Address {
    if side then w.leftPeer else w.rightPeer
  }

  function IdentityOf(w: Duo, side: bool): Name {
    WorldOf(w, side).device.identity
  }

  function From(w: Duo, side: bool): set<Packet> {
    if side then w.fromLeft else w.fromRight
  }

  /** The sessions a device keeps with the other one. */
  function RecordOf(w: Duo, side: bool): Record {
    LoadOrFresh(WorldOf(w, side).device, PeerOf(w, side))
  }

  function WithWorld(w: Duo, side: bool, v: World): Duo {
    if side then w.(left := v) else w.(right := v)
  }

  function WithPacket(w: Duo, side: bool, e: Packet): Duo {
    if side then w.(fromLeft := w.fromLeft + {e}) else w.(fromRight := w.fromRight + {e})
  }

  // ---------------------------------------------------------------------------------------------
  // Steps

  datatype DuoStep =
    | Local(side: bool, step: Step)     // any call but the receipt of something under the other device's address
    | Deliver(side: bool, packet: Packet, eph: Name, oracles: Oracles)  // to the named device, from the other one

  function DeviceStep(w: Duo, s: DuoStep): Step {
    match s
    case Local(_, step) => step
    case Deliver(side, e, eph, o) =>
      match e.message
      case Whisper(m) => ReceiveSignal(PeerOf(w, side), m, eph, o)
      case PreKey(pm) => ReceivePreKey(PeerOf(w, side), pm, eph, o, w.pqInit)
  }

  function OutputOf(w: Duo, s: DuoStep): Output {
    Exec(WorldOf(w, s.side).device, DeviceStep(w, s)).1
  }

  predicate NewName(w: Duo, n: Name) {
    n !in w.generated && n !in w.published
  }

  /** Generated keys are new, the other device's bundle carries its identity key, and the network is honest. */
  ghost predicate DuoEnabled(w: Duo, s: DuoStep) {
    && Fresh(WorldOf(w, s.side).history, DeviceStep(w, s))
    && match s
       case Local(side, Start(addr, bundle, _, base, _, eph, pqInit)) =>
         addr == PeerOf(w, side) ==>
           && bundle.identityKey == IdentityOf(w, !side) && bundle.signedPreKey !in w.generated
           && NewName(w, eph) && eph != bundle.signedPreKey && pqInit == w.pqInit
           && base !in w.bonds && base !in {IdentityOf(w, true), IdentityOf(w, false)}
       case Local(side, ReceivePreKey(addr, _, _, _, _)) => addr != PeerOf(w, side)
       case Local(side, ReceiveSignal(addr, _, _, _)) => addr != PeerOf(w, side)
       case Local(_, _) => true
       case Deliver(side, e, eph, _) => e in From(w, !side) && NewName(w, eph)
  }

  function IdsOf(b: PreKeyBundle): PreKeysUsed {
    PreKeysUsed(if b.preKey.Some? then Some(b.preKey.value.0) else None, b.signedPreKeyId, b.kyberPreKeyId)
  }

  /** The sending step of a bond that a call of `message_encrypt` performs. */
  function SendingStep(b: Bond, side: bool, plaintext: Plaintext, pqSend: PqSend): Option<PairStep> {
    var end := View(b, side).me;
    match pqSend(end.session.pq)
    case None => None
    case Some((pq, pqKey, pqMsg)) =>
      if CanSend(end) then Some(PairSend(side == b.starter, plaintext, pq, pqKey, pqMsg)) else None
  }

  ghost function DuoNext(w: Duo, s: DuoStep): Duo {
    var side, st, out := s.side, DeviceStep(w, s), OutputOf(w, s);
    var w1 := WithWorld(w, side, Next(WorldOf(w, side), st));
    match s
    case Local(_, Start(addr, bundle, _, base, coins, eph, pqInit)) =>
      if addr == PeerOf(w, side) && out.Quiet? then
        var alice := BundleParameters(WorldOf(w, side).device, bundle, base);
        w1.(bonds := w.bonds[base := NewBond(side, alice, coins, IdsOf(bundle), eph, pqInit)],
            generated := w.generated + {eph}, published := w.published + {bundle.signedPreKey})
      else w1
    case Local(_, Send(addr, plaintext, _, pqSend)) =>
      if addr == PeerOf(w, side) && out.Emitted? && out.base in w.bonds then
        var b := w.bonds[out.base];
        match SendingStep(b, side, plaintext, pqSend)
        case None => w1
        case Some(step) =>
          var b' := SentOn(b, side, step);
          var entries := View(b', side).me.sent;
          WithPacket(w1.(bonds := w.bonds[out.base := b']), side,
                     Packet(out.base, out.message, entries[|entries| - 1]))
      else w1
    case Deliver(_, e, eph, o) =>
      if out.Received? && e.base in w.bonds && e.entry.epoch < |w.bonds[e.base].pair.schedule.keys| then
        var b := w.bonds[e.base];
        match Outcome(View(b, side), e.entry, eph, o)
        case Err(_) => w1
        case Ok((session, _)) =>
          w1.(bonds := w.bonds[e.base := AcceptedOn(b, side, e.entry, session, eph)],
              generated := w.generated + {eph})
      else w1
    case _ => w1
  }

  // ---------------------------------------------------------------------------------------------
  // The invariant

  /** What a pending session will wrap its messages with. */
  predicate PendingOk(t: SessionStructure, b: Bond, side: bool) {
    t.pendingPreKey.Some? ==>
      var pending := t.pendingPreKey.value;
      && side == b.starter && pending.baseKey == b.alice.base
      && pending.preKeyId == b.ids.oneTime && pending.signedPreKeyId == b.ids.signed
      && t.pendingKyber == Some(PendingKyber(b.ids.kyber, Encapsulate(b.alice.theirKyberPreKey, b.coins).1))
  }

  /** A stored session is the device's end of the bond with its base key. */
  ghost predicate Tracked(bonds: map<Name, Bond>, side: bool, t: SessionStructure) {
    t.aliceBaseKey in bonds &&
    var b := bonds[t.aliceBaseKey];
    SameRatchet(t, View(b, side).me.session) && (side != b.starter ==> b.joined) && PendingOk(t, b, side)
  }

  ghost predicate RecordTracked(bonds: map<Name, Bond>, side: bool, r: Record) {
    forall k :: 0 <= k < |Sessions(r)| ==> Tracked(bonds, side, Sessions(r)[k])
  }

  ghost predicate HalfOk(w: Duo, side: bool) {
    && RecordsInv(WorldOf(w, side)) && RecordTracked(w.bonds, side, RecordOf(w, side))
    && IsTrusted(WorldOf(w, side).device, PeerOf(w, side), IdentityOf(w, !side))
  }

  predicate BaseUsed(w: Duo, b: Bond, base: Name) {
    BaseKeySeen(WorldOf(w, !b.starter).device, b.ids.kyber, b.ids.signed, base)
  }

  ghost predicate BondGood(w: Duo, base: Name) {
    base in w.bonds &&
    var b := w.bonds[base];
    && BondOk(b, base, IdentityOf(w, b.starter), IdentityOf(w, !b.starter), w.pqInit)
    && base !in {IdentityOf(w, true), IdentityOf(w, false)} && (b.joined ==> BaseUsed(w, b, base))
  }

  ghost predicate BondsOk(w: Duo) {
    forall base {:trigger BondGood(w, base)} :: base in w.bonds ==> BondGood(w, base)
  }

  /** Ratchet keys generated for different handshakes differ, and none is a signed pre-key. */
  ghost predicate KeysApart(bonds: map<Name, Bond>, generated: set<Name>, published: set<Name>) {
    && generated !! published
    && (forall c, i :: c in bonds && 0 <= i < |bonds[c].pair.schedule.keys| ==>
          bonds[c].pair.schedule.keys[i] in (if i == 0 then published else generated))
    && (forall c, d, i, j ::
          && c in bonds && d in bonds && c != d
          && 1 <= i < |bonds[c].pair.schedule.keys| && 1 <= j < |bonds[d].pair.schedule.keys| ==>
          bonds[c].pair.schedule.keys[i] != bonds[d].pair.schedule.keys[j])
  }

  ghost predicate PacketGood(bonds: map<Name, Bond>, side: bool, e: Packet) {
    e.base in bonds && PacketOk(bonds[e.base], side, e)
  }

  ghost predicate NetOk(w: Duo, side: bool) {
    forall e :: e in From(w, side) ==> PacketGood(w.bonds, side, e)
  }

  ghost predicate DuoInv(w: Duo) {
    && HalfOk(w, true) && HalfOk(w, false) && BondsOk(w) && KeysApart(w.bonds, w.generated, w.published)
    && NetOk(w, true) && NetOk(w, false)
  }

  // ---------------------------------------------------------------------------------------------
  // Which session takes a packet

  lemma BondAt(w: Duo, base: Name)
    requires BondsOk(w) && base in w.bonds
    ensures var b := w.bonds[base];
            && PairInv(b.pair) && Rooted(b, base, IdentityOf(w, b.starter), IdentityOf(w, !b.starter))
            && Entered(b, w.pqInit) && base !in {IdentityOf(w, true), IdentityOf(w, false)}
            && (b.joined ==> BaseUsed(w, b, base))
  {
    assert BondGood(w, base);
  }

  lemma RootedAt(w: Duo, base: Name)
    requires BondsOk(w) && base in w.bonds
    ensures var b := w.bonds[base];
            && b.alice.base == base != b.alice.identity
            && b.alice.identity == IdentityOf(w, b.starter) && b.alice.theirIdentity == IdentityOf(w, !b.starter)
            && b.pair.schedule.info == WhisperText && b.pair.schedule.secret == Secret(b)
            && b.alice.theirRatchetKey == b.alice.theirSignedPreKey
  {
    BondAt(w, base);
  }

  /** Facts about a packet that is under way to a device. */
  ghost predicate UnderWay(b: Bond, side: bool, e: Packet) {
    var p := View(b, side);
    && e.entry in p.peer.sent && 1 <= e.entry.epoch < |p.schedule.keys| && e.entry.counter < U32_MAX
    && InnerOf(e.message) == MessageOf(p.schedule, p.peer.session, e.entry)
  }

  lemma PacketUnderWay(b: Bond, side: bool, e: Packet, pqInit: PqInit)
    requires PairInv(b.pair) && Entered(b, pqInit) && PacketOk(b, !side, e)
    ensures UnderWay(b, side, e)
  {
    var p := View(b, side);
    SeenFromKeeps(b.pair, side == b.starter);
    EpochsDelivered(p, e.entry);
    var i :| 0 <= i < |p.peer.sent| && p.peer.sent[i] == e.entry;
    EntryEpoch(b, side, i);
  }

  lemma EntryEpoch(b: Bond, side: bool, i: nat)
    requires EndInv(b.pair.schedule, View(b, side).peer, (!side) == b.starter) && i < |View(b, side).peer.sent|
    requires PastPreKey(View(b, !b.starter).me)
    ensures View(b, side).peer.sent[i].epoch >= 1
  {
    var end := View(b, side).peer;
    assert SentInv(end, end.sent[i], (!side) == b.starter);
  }

  lemma PacketFacts(w: Duo, side: bool, e: Packet)
    requires BondsOk(w) && NetOk(w, !side) && e in From(w, !side)
    ensures e.base in w.bonds && UnderWay(w.bonds[e.base], side, e)
  {
    assert PacketGood(w.bonds, !side, e);
    BondAt(w, e.base);
    PacketUnderWay(w.bonds[e.base], side, e, w.pqInit);
  }

  lemma RootsDiffer(w: Duo, c: Name, d: Name)
    requires BondsOk(w) && c in w.bonds && d in w.bonds && c != d
    ensures var x, y := w.bonds[c].pair.schedule, w.bonds[d].pair.schedule;
            HandshakeRoot(x.info, x.secret) != HandshakeRoot(y.info, y.secret)
  {
    RootedAt(w, c);
    RootedAt(w, d);
    SecretsDiffer(w.bonds[c], w.bonds[d]);
  }

  /** A session of another bond refuses the packet. */
  lemma OtherBondRefuses(t: SessionStructure, c: Bond, b: Bond, side: bool, e: Packet, eph: Name, o: Oracles)
    requires PairInv(c.pair) && SameRatchet(t, View(c, side).me.session) && UnderWay(b, side, e)
    requires IsHandshakeLabel(b.pair.schedule.info)
    requires var x, y := c.pair.schedule, b.pair.schedule;
             HandshakeRoot(x.info, x.secret) != HandshakeRoot(y.info, y.secret)
    requires b.pair.schedule.keys[e.entry.epoch] !in c.pair.schedule.keys
    ensures DecryptWithState(t, InnerOf(e.message), eph, o) == Err(InvalidMessage)
  {
    var v := View(c, side);
    SeenFromKeeps(c.pair, side == c.starter);
    assert EndInv(v.schedule, v.me, v.initiator);
    ForeignRefuses(v.me.session, v.schedule, v.me.epoch, View(b, side), e.entry, eph, o);
    DecryptSame(t, v.me.session, InnerOf(e.message), eph, o);
  }

  /** The other sessions of the record refuse it. */
  lemma OthersRefuse(w: Duo, side: bool, e: Packet, k: nat, eph: Name, o: Oracles)
    requires BondsOk(w) && NetOk(w, !side) && KeysApart(w.bonds, w.generated, w.published) && e in From(w, !side)
    requires k < |Sessions(RecordOf(w, side))| && Tracked(w.bonds, side, Sessions(RecordOf(w, side))[k])
    requires Sessions(RecordOf(w, side))[k].aliceBaseKey != e.base
    ensures DecryptWithState(Sessions(RecordOf(w, side))[k], InnerOf(e.message), eph, o) == Err(InvalidMessage)
  {
    var t := Sessions(RecordOf(w, side))[k];
    PacketFacts(w, side, e);
    RootsDiffer(w, t.aliceBaseKey, e.base);
    assert PairInv(w.bonds[t.aliceBaseKey].pair) by {
      BondAt(w, t.aliceBaseKey);
    }
    RootedAt(w, e.base);
    KeyIsForeign(w.bonds, w.generated, w.published, e.base, t.aliceBaseKey, e.entry.epoch);
    OtherBondRefuses(t, w.bonds[t.aliceBaseKey], w.bonds[e.base], side, e, eph, o);
  }

  lemma KeyIsForeign(bonds: map<Name, Bond>, generated: set<Name>, published: set<Name>, c: Name, d: Name, i: nat)
    requires KeysApart(bonds, generated, published) && c in bonds && d in bonds && c != d
    requires 1 <= i < |bonds[c].pair.schedule.keys|
    ensures bonds[c].pair.schedule.keys[i] !in bonds[d].pair.schedule.keys
  {
    var key, keys := bonds[c].pair.schedule.keys[i], bonds[d].pair.schedule.keys;
    forall j | 0 <= j < |keys| ensures keys[j] != key {
      if j == 0 {
        assert keys[0] in published && key in generated;
      }
    }
  }

  /** Its own session does what the bond's end does. */
  lemma OwnSession(t: SessionStructure, b: Bond, side: bool, e: Packet, eph: Name, o: Oracles)
    requires SameRatchet(t, View(b, side).me.session) && UnderWay(b, side, e)
    ensures var x := DecryptWithState(t, InnerOf(e.message), eph, o);
            var y := Outcome(View(b, side), e.entry, eph, o);
            (x.Ok? <==> y.Ok?) && (x.Ok? ==> SameRatchet(x.value.0, y.value.0) && x.value.1 == y.value.1)
  {
    DecryptSame(t, View(b, side).me.session, InnerOf(e.message), eph, o);
  }

  /** The session refuses the message, and not as a duplicate, so the search goes on. */
  ghost predicate RefusedAt(ss: seq<SessionStructure>, j: nat, m: SignalMessage, eph: Name, o: Oracles) {
    j < |ss| && DecryptWithState(ss[j], m, eph, o) == Err(InvalidMessage)
  }

  lemma TryNext(ss: seq<SessionStructure>, i: nat, m: SignalMessage, eph: Name, o: Oracles)
    requires RefusedAt(ss, i, m, eph, o)
    ensures TryFrom(ss, i, m, eph, o) == TryFrom(ss, i + 1, m, eph, o)
  {
  }

  lemma {:induction false} TryReaches(ss: seq<SessionStructure>, i: nat, at: nat, m: SignalMessage, eph: Name,
                                      o: Oracles)
    requires i <= at <= |ss| && forall j :: i <= j < at ==> RefusedAt(ss, j, m, eph, o)
    ensures TryFrom(ss, i, m, eph, o) == TryFrom(ss, at, m, eph, o)
    decreases at - i
  {
    if i < at {
      TryNext(ss, i, m, eph, o);
      TryReaches(ss, i + 1, at, m, eph, o);
    }
  }

  /** If all sessions but one refuse a message, that one decides; if all do, the record does. */
  lemma OneDecides(r: Record, k: nat, m: SignalMessage, eph: Name, o: Oracles)
    requires k <= |Sessions(r)|
    requires forall j :: 0 <= j < |Sessions(r)| && j != k ==> RefusedAt(Sessions(r), j, m, eph, o)
    ensures var a := DecryptWithRecord(r, m, WhisperKind, eph, o);
            if k < |Sessions(r)| && DecryptWithState(Sessions(r)[k], m, eph, o).Ok?
            then
              var (t, plaintext) := DecryptWithState(Sessions(r)[k], m, eph, o).value;
              a.Ok? && a.value.0.current == Some(t) && a.value.1 == plaintext
            else a.Err?
  {
    var shift := if r.current.Some? then 1 else 0;
    PreviousRefused(r, k, shift, m, eph, o);
    if r.current.Some? && k == 0 {
      assert Sessions(r)[0] == r.current.value;
      PreviousDecides(r, |r.previous|, m, eph, o);
    } else {
      assert r.current.Some? ==> RefusedAt(Sessions(r), 0, m, eph, o);
      assert k - shift < |r.previous| ==> r.previous[k - shift] == Sessions(r)[k];
      PreviousDecides(r, k - shift, m, eph, o);
    }
  }

  lemma PreviousRefused(r: Record, k: nat, shift: nat, m: SignalMessage, eph: Name, o: Oracles)
    requires shift == if r.current.Some? then 1 else 0
    requires forall j :: 0 <= j < |Sessions(r)| && j != k ==> RefusedAt(Sessions(r), j, m, eph, o)
    ensures forall j :: 0 <= j < |r.previous| && j != k - shift ==> RefusedAt(r.previous, j, m, eph, o)
  {
    forall j | 0 <= j < |r.previous| && j != k - shift ensures RefusedAt(r.previous, j, m, eph, o) {
      assert RefusedAt(Sessions(r), j + shift, m, eph, o);
      assert Sessions(r)[j + shift] == r.previous[j];
    }
  }

  lemma PreviousDecides(r: Record, at: nat, m: SignalMessage, eph: Name, o: Oracles)
    requires at <= |r.previous|
    requires forall j :: 0 <= j < |r.previous| && j != at ==> RefusedAt(r.previous, j, m, eph, o)
    ensures var a := TryPrevious(r, m, eph, o);
            if at < |r.previous| && DecryptWithState(r.previous[at], m, eph, o).Ok?
            then
              var (t, plaintext) := DecryptWithState(r.previous[at], m, eph, o).value;
              a.Ok? && a.value.0.current == Some(t) && a.value.1 == plaintext
            else a.Err?
  {
    TryReaches(r.previous, 0, at, m, eph, o);
    if TryPrevious(r, m, eph, o).Ok? {
      var i, _ := PreviousAccepts(r, m, eph, o);
      assert i != at ==> RefusedAt(r.previous, i, m, eph, o);
    }
  }

  // ---------------------------------------------------------------------------------------------
  // The outcome of a delivery

  /** The position of the session with a base key, or the number of sessions if there is none. */
  ghost predicate HeldAt(r: Record, base: Name, k: nat) {
    && k <= |Sessions(r)| && (k < |Sessions(r)| ==> Sessions(r)[k].aliceBaseKey == base)
    && (forall j :: 0 <= j < |Sessions(r)| && j != k ==> Sessions(r)[j].aliceBaseKey != base)
  }

  lemma FindHeld(r: Record, base: Name) returns (k: nat)
    requires RecordInv(r)
    ensures HeldAt(r, base, k)
  {
    if j :| 0 <= j < |Sessions(r)| && Sessions(r)[j].aliceBaseKey == base {
      k := j;
    } else {
      k := |Sessions(r)|;
    }
  }

  lemma RecordOfInv(w: Duo, side: bool)
    requires HalfOk(w, side)
    ensures RecordInv(RecordOf(w, side)) && ArchiveFits(WorldOf(w, side).device, PeerOf(w, side))
  {
    RecordAt(WorldOf(w, side), PeerOf(w, side));
  }

  lemma EndNames(b: Bond, base: Name, starter: Name, other: Name, side: bool)
    requires PairInv(b.pair) && Rooted(b, base, starter, other)
    ensures var s := View(b, side).me.session;
            && s.localIdentity == (if side == b.starter then starter else other)
            && s.remoteIdentity == (if side == b.starter then other else starter)
  {
  }

  lemma OthersRefused(w: Duo, side: bool, e: Packet, k: nat, eph: Name, o: Oracles)
    requires BondsOk(w) && NetOk(w, !side) && KeysApart(w.bonds, w.generated, w.published) && e in From(w, !side)
    requires RecordTracked(w.bonds, side, RecordOf(w, side)) && HeldAt(RecordOf(w, side), e.base, k)
    ensures var ss := Sessions(RecordOf(w, side));
            forall j :: 0 <= j < |ss| && j != k ==> RefusedAt(ss, j, InnerOf(e.message), eph, o)
  {
    var ss := Sessions(RecordOf(w, side));
    forall j | 0 <= j < |ss| && j != k ensures RefusedAt(ss, j, InnerOf(e.message), eph, o) {
      OthersRefuse(w, side, e, j, eph, o);
    }
  }

  /** What the record makes of a packet is what the bond's end makes of it, if the record has that end. */
  lemma RecordOutcome(r: Record, b: Bond, side: bool, e: Packet, k: nat, eph: Name, o: Oracles)
    requires k <= |Sessions(r)| && UnderWay(b, side, e)
    requires k < |Sessions(r)| ==> SameRatchet(Sessions(r)[k], View(b, side).me.session)
    requires forall j :: 0 <= j < |Sessions(r)| && j != k ==> RefusedAt(Sessions(r), j, InnerOf(e.message), eph, o)
    ensures var a := DecryptWithRecord(r, InnerOf(e.message), WhisperKind, eph, o);
            var b := Outcome(View(b, side), e.entry, eph, o);
            if k < |Sessions(r)| && b.Ok?
            then a.Ok? && a.value.1 == b.value.1 && SameRatchet(a.value.0.current.value, b.value.0)
            else a.Err?
  {
    OneDecides(r, k, InnerOf(e.message), eph, o);
    if k < |Sessions(r)| {
      OwnSession(Sessions(r)[k], b, side, e, eph, o);
    }
  }

  lemma TrackedAt(w: Duo, side: bool, base: Name, k: nat)
    requires RecordTracked(w.bonds, side, RecordOf(w, side)) && HeldAt(RecordOf(w, side), base, k)
    requires k < |Sessions(RecordOf(w, side))|
    ensures base in w.bonds && SameRatchet(Sessions(RecordOf(w, side))[k], View(w.bonds[base], side).me.session)
    ensures side != w.bonds[base].starter ==> w.bonds[base].joined
  {
    assert Tracked(w.bonds, side, Sessions(RecordOf(w, side))[k]);
  }

  /** A plain message is received exactly when the bond's end takes it and the record still holds that end. */
  lemma SignalOutcome(w: Duo, side: bool, e: Packet, m: SignalMessage, k: nat, eph: Name, o: Oracles)
    requires DuoInv(w) && e in From(w, !side) && HeldAt(RecordOf(w, side), e.base, k) && e.message == Whisper(m)
    ensures e.base in w.bonds && UnderWay(w.bonds[e.base], side, e)
    ensures var a := MessageDecryptSignal(WorldOf(w, side).device, PeerOf(w, side), m, eph, o).1;
            var b := Outcome(View(w.bonds[e.base], side), e.entry, eph, o);
            if k < |Sessions(RecordOf(w, side))| && b.Ok? then a == Ok(b.value.1) else a.Err?
  {
    var r, d := RecordOf(w, side), WorldOf(w, side).device;
    PacketFacts(w, side, e);
    OthersRefused(w, side, e, k, eph, o);
    if k < |Sessions(r)| {
      TrackedAt(w, side, e.base, k);
    }
    var b := w.bonds[e.base];
    RecordOutcome(r, b, side, e, k, eph, o);
    AcceptedIsTrusted(w, side, e, eph, o);
    SignalByRecord(d, PeerOf(w, side), m, eph, o, IdentityOf(w, !side));
  }

  lemma AcceptedIsTrusted(w: Duo, side: bool, e: Packet, eph: Name, o: Oracles)
    requires BondsOk(w) && e.base in w.bonds && UnderWay(w.bonds[e.base], side, e)
    ensures var b := Outcome(View(w.bonds[e.base], side), e.entry, eph, o);
            b.Ok? ==> b.value.0.remoteIdentity == IdentityOf(w, !side)
  {
    var b := w.bonds[e.base];
    BondAt(w, e.base);
    EndNames(b, e.base, IdentityOf(w, b.starter), IdentityOf(w, !b.starter), side);
    if Outcome(View(b, side), e.entry, eph, o).Ok? {
      SummaryOfFields(View(b, side).me.session, InnerOf(e.message), eph, o);
    }
  }

  lemma SignalByRecord(d: Device, addr: Address, m: SignalMessage, eph: Name, o: Oracles, theirs: Name)
    requires IsTrusted(d, addr, theirs)
    requires var a := DecryptWithRecord(LoadOrFresh(d, addr), m, WhisperKind, eph, o);
             a.Ok? ==> a.value.0.current.value.remoteIdentity == theirs
    ensures var a := DecryptWithRecord(LoadOrFresh(d, addr), m, WhisperKind, eph, o);
            var b := MessageDecryptSignal(d, addr, m, eph, o).1;
            if a.Ok? then b == Ok(a.value.1) else b.Err?
  {
  }

  /** A pre-key message for a session the record holds is left to that session. */
  lemma PreKeyForHeld(d: Device, addr: Address, pm: PreKeySignalMessage, k: nat, eph: Name, o: Oracles, pqInit: PqInit)
    requires RecordInv(LoadOrFresh(d, addr)) && HeldAt(LoadOrFresh(d, addr), pm.baseKey, k)
    requires k < |Sessions(LoadOrFresh(d, addr))|
    requires pm.version == CURRENT_VERSION && IsTrusted(d, addr, pm.identityKey)
    ensures var a := MessageDecryptPreKey(d, addr, pm, eph, o, pqInit).1;
            var b := DecryptWithState(Sessions(LoadOrFresh(d, addr))[k], pm.message, eph, o);
            if b.Ok? then a == Ok(b.value.1) else a.Err?
  {
    var r := LoadOrFresh(d, addr);
    assert Matches(Sessions(r)[k], pm.version, pm.baseKey);
    if PromoteMatching(r, pm.version, pm.baseKey).None? {
      NoMatch(r, pm.version, pm.baseKey);
    }
    var i := PromoteMatchingConserves(r, pm.version, pm.baseKey);
    assert i == k;
  }

  /** One for a session the record does not hold is left to the session its pre-keys make. */
  lemma PreKeyForNew(d: Device, addr: Address, pm: PreKeySignalMessage, eph: Name, o: Oracles, pqInit: PqInit)
    requires RecordInv(LoadOrFresh(d, addr))
    requires HeldAt(LoadOrFresh(d, addr), pm.baseKey, |Sessions(LoadOrFresh(d, addr))|)
    requires pm.version == CURRENT_VERSION && IsTrusted(d, addr, pm.identityKey)
    ensures var a := MessageDecryptPreKey(d, addr, pm, eph, o, pqInit).1;
            if HasPreKeys(d, pm) && o.canonical(pm.baseKey)
               && !BaseKeySeen(d, pm.kyberPreKeyId.value, pm.signedPreKeyId, pm.baseKey)
               && DecryptWithState(NewIncoming(d, pm, pqInit), pm.message, eph, o).Ok?
            then a == Ok(DecryptWithState(NewIncoming(d, pm, pqInit), pm.message, eph, o).value.1) else a.Err?
  {
    var r := LoadOrFresh(d, addr);
    if PromoteMatching(r, pm.version, pm.baseKey).Some? {
      var i := PromoteMatchingConserves(r, pm.version, pm.baseKey);
    }
  }

  /** The pre-keys the handshake used are still stored under the IDs it named. */
  ghost predicate KeysStored(d: Device, pm: PreKeySignalMessage, b: Bond) {
    HasPreKeys(d, pm) && IncomingParameters(d, pm) == Responder(b)
  }

  /** With other keys under these IDs, the new session is one of another handshake and refuses. */
  lemma WrongKeysRefuse(d: Device, pm: PreKeySignalMessage, b: Bond, side: bool, e: Packet, eph: Name, o: Oracles,
                        pqInit: PqInit)
    requires HasPreKeys(d, pm) && IncomingParameters(d, pm) != Responder(b) && HeaderOk(pm, b)
    requires d.identity == b.alice.theirIdentity && UnderWay(b, side, e)
    requires b.pair.schedule.info == WhisperText && b.pair.schedule.secret == Secret(b)
             && b.alice.theirRatchetKey == b.alice.theirSignedPreKey
    ensures DecryptWithState(NewIncoming(d, pm, pqInit), InnerOf(e.message), eph, o).Err?
  {
    var q, s, p, x := IncomingParameters(d, pm), NewIncoming(d, pm, pqInit), View(b, side), e.entry;
    if BobSecrets(q) == BobSecrets(Responder(b)) {
      BobSecretsDetermine(q, Responder(b));
    }
    SecretsAgree(b.alice, b.coins, Responder(b));
    RootBaseAt(p.schedule, x.epoch - 1);
    var secret := Agree(s.senderChain.value.ratchetKey, p.schedule.keys[x.epoch]);
    WrongChainRefuses(s, NewChain(s.rootKey, secret), p, x, eph, o);
  }

  /** With its own keys, the new session is the bond's end, which nobody has entered yet. */
  lemma RightKeysDecide(d: Device, pm: PreKeySignalMessage, b: Bond, side: bool, e: Packet, eph: Name, o: Oracles,
                        pqInit: PqInit)
    requires KeysStored(d, pm, b) && Entered(b, pqInit) && side != b.starter && !b.joined && UnderWay(b, side, e)
    ensures var x := DecryptWithState(NewIncoming(d, pm, pqInit), InnerOf(e.message), eph, o);
            var y := Outcome(View(b, side), e.entry, eph, o);
            (x.Ok? <==> y.Ok?) && (x.Ok? ==> SameRatchet(x.value.0, y.value.0) && x.value.1 == y.value.1)
  {
    OwnSession(NewIncoming(d, pm, pqInit), b, side, e, eph, o);
  }

  /** A device can start the session of a pre-key message: the keys are there and the base key was not used. */
  ghost predicate CanJoin(d: Device, pm: PreKeySignalMessage, b: Bond, o: Oracles) {
    && KeysStored(d, pm, b) && o.canonical(pm.baseKey)
    && !BaseKeySeen(d, pm.kyberPreKeyId.value, pm.signedPreKeyId, pm.baseKey)
  }

  /**
   A pre-key message is received exactly when the bond's end takes it and the record holds that end or the device can
   start it.
   */
  lemma PreKeyOutcome(w: Duo, side: bool, e: Packet, pm: PreKeySignalMessage, k: nat, eph: Name, o: Oracles)
    requires DuoInv(w) && e in From(w, !side) && HeldAt(RecordOf(w, side), e.base, k) && e.message == PreKey(pm)
    ensures e.base in w.bonds && UnderWay(w.bonds[e.base], side, e)
    ensures var d, b := WorldOf(w, side).device, w.bonds[e.base];
            var x := MessageDecryptPreKey(d, PeerOf(w, side), pm, eph, o, w.pqInit).1;
            var y := Outcome(View(b, side), e.entry, eph, o);
            if (k < |Sessions(RecordOf(w, side))| || CanJoin(d, pm, b, o)) && y.Ok? then x == Ok(y.value.1) else x.Err?
  {
    PacketFacts(w, side, e);
    RecordOfInv(w, side);
    HeaderFacts(w, side, e, pm);
    if k < |Sessions(RecordOf(w, side))| {
      TrackedAt(w, side, e.base, k);
      HeldOutcome(WorldOf(w, side).device, PeerOf(w, side), pm, k, w.bonds[e.base], side, e, eph, o, w.pqInit);
    } else {
      JoinOutcome(w, side, e, pm, eph, o);
    }
  }

  lemma HeaderFacts(w: Duo, side: bool, e: Packet, pm: PreKeySignalMessage)
    requires BondsOk(w) && NetOk(w, !side) && e in From(w, !side) && e.message == PreKey(pm)
    ensures e.base in w.bonds
    ensures side != w.bonds[e.base].starter && HeaderOk(pm, w.bonds[e.base])
    ensures pm.baseKey == e.base && pm.identityKey == IdentityOf(w, !side)
  {
    assert PacketGood(w.bonds, !side, e);
    RootedAt(w, e.base);
  }

  lemma HeldOutcome(d: Device, addr: Address, pm: PreKeySignalMessage, k: nat, b: Bond, side: bool, e: Packet,
                    eph: Name, o: Oracles, pqInit: PqInit)
    requires RecordInv(LoadOrFresh(d, addr)) && HeldAt(LoadOrFresh(d, addr), pm.baseKey, k)
    requires k < |Sessions(LoadOrFresh(d, addr))| && e.message == PreKey(pm) && UnderWay(b, side, e)
    requires SameRatchet(Sessions(LoadOrFresh(d, addr))[k], View(b, side).me.session)
    requires pm.version == CURRENT_VERSION && IsTrusted(d, addr, pm.identityKey)
    ensures var x := MessageDecryptPreKey(d, addr, pm, eph, o, pqInit).1;
            var y := Outcome(View(b, side), e.entry, eph, o);
            if y.Ok? then x == Ok(y.value.1) else x.Err?
  {
    PreKeyForHeld(d, addr, pm, k, eph, o, pqInit);
    OwnSession(Sessions(LoadOrFresh(d, addr))[k], b, side, e, eph, o);
  }

  lemma JoinOutcome(w: Duo, side: bool, e: Packet, pm: PreKeySignalMessage, eph: Name, o: Oracles)
    requires BondsOk(w) && e.base in w.bonds && UnderWay(w.bonds[e.base], side, e) && e.message == PreKey(pm)
    requires side != w.bonds[e.base].starter && HeaderOk(pm, w.bonds[e.base])
    requires pm.baseKey == e.base && IsTrusted(WorldOf(w, side).device, PeerOf(w, side), pm.identityKey)
    requires RecordInv(RecordOf(w, side)) && HeldAt(RecordOf(w, side), e.base, |Sessions(RecordOf(w, side))|)
    ensures var d, b := WorldOf(w, side).device, w.bonds[e.base];
            var x := MessageDecryptPreKey(d, PeerOf(w, side), pm, eph, o, w.pqInit).1;
            var y := Outcome(View(b, side), e.entry, eph, o);
            if CanJoin(d, pm, b, o) && y.Ok? then x == Ok(y.value.1) else x.Err?
  {
    var d := WorldOf(w, side).device;
    PreKeyForNew(d, PeerOf(w, side), pm, eph, o, w.pqInit);
    if HasPreKeys(d, pm) && !BaseKeySeen(d, pm.kyberPreKeyId.value, pm.signedPreKeyId, pm.baseKey) {
      NewOutcome(w, side, e, pm, eph, o);
    }
  }

  lemma NewOutcome(w: Duo, side: bool, e: Packet, pm: PreKeySignalMessage, eph: Name, o: Oracles)
    requires BondsOk(w) && e.base in w.bonds && UnderWay(w.bonds[e.base], side, e) && e.message == PreKey(pm)
    requires side != w.bonds[e.base].starter && HeaderOk(pm, w.bonds[e.base])
    requires HasPreKeys(WorldOf(w, side).device, pm)
    requires !BaseKeySeen(WorldOf(w, side).device, pm.kyberPreKeyId.value, pm.signedPreKeyId, pm.baseKey)
    ensures var d, b := WorldOf(w, side).device, w.bonds[e.base];
            var x := DecryptWithState(NewIncoming(d, pm, w.pqInit), pm.message, eph, o);
            var y := Outcome(View(b, side), e.entry, eph, o);
            && (x.Ok? <==> KeysStored(d, pm, b) && y.Ok?)
            && (x.Ok? ==> SameRatchet(x.value.0, y.value.0) && x.value.1 == y.value.1)
  {
    var d, b := WorldOf(w, side).device, w.bonds[e.base];
    RootedAt(w, e.base);
    if KeysStored(d, pm, b) {
      BondAt(w, e.base);
      RightKeysDecide(d, pm, b, side, e, eph, o, w.pqInit);
    } else {
      WrongKeysRefuse(d, pm, b, side, e, eph, o, w.pqInit);
    }
  }
}
