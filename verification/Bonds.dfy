/**
 Two devices and the sessions they share.

 Every handshake between two devices is a bond: the pair of ends it leads to, under the base key that names the session
 in both records. The responder's end exists from the start and is entered when the responder accepts the first message.
 */
module Bonds {
  import opened Prelude
  import opened Symbolic
  import opened RatchetKeys
  import opened Messages
  import opened SessionStates
  import opened SessionCipher
  import opened Handshake
  import opened Devices
  import opened DeviceRuns
  import opened RecordRuns
  import opened LockStep
  import opened PairRuns

  /** One handshake: who started it, with which keys and pre-key IDs, and whether the responder has joined. */
  datatype Bond = Bond(pair: Pair, starter: bool, alice: AliceParameters, coins: Name, ids: PreKeysUsed, joined: bool)

  /** The bond seen from one of the two devices. */
  function View(b: Bond, side: bool): Pair {
    SeenFrom(b.pair, side == b.starter)
  }

  function Secret(b: Bond): Term {
    Concat(AliceSecrets(b.alice, b.coins))
  }

  /** What the responder uses for the bond's handshake. */
  function Responder(b: Bond): BobParameters {
    BobParameters(b.alice.theirIdentity, b.alice.theirSignedPreKey, b.alice.theirOneTimePreKey,
                  b.alice.theirSignedPreKey, b.alice.theirKyberPreKey, b.alice.identity, b.alice.base,
                  Encapsulate(b.alice.theirKyberPreKey, b.coins).1)
  }

  /** Who the ends are, and that the schedule is the one of the handshake. */
  ghost predicate Rooted(b: Bond, base: Name, starter: Name, other: Name) {
    && b.alice.base == base && b.alice.identity == starter && b.alice.theirIdentity == other
    && b.alice.theirRatchetKey == b.alice.theirSignedPreKey
    && b.pair.schedule.info == WhisperText && b.pair.schedule.secret == Secret(b)
    && |b.pair.schedule.keys| >= 2 && b.pair.schedule.keys[0] == b.alice.theirSignedPreKey
    && View(b, b.starter).me.session.localIdentity == starter
    && View(b, b.starter).me.session.remoteIdentity == other
    && View(b, true).me.session.aliceBaseKey == base && View(b, false).me.session.aliceBaseKey == base
  }

  /** Before the responder has joined its end is as new; from then on it is past its pre-key epoch. */
  ghost predicate Entered(b: Bond, pqInit: PqInit) {
    var responder := View(b, !b.starter).me;
    && (if b.joined then responder.epoch >= 2
        else responder == End(PqxdhBob(Responder(b), pqInit), 0, [], iset{}))
    && PastPreKey(responder)
  }

  /** Nothing was sent under the pre-key itself. */
  predicate PastPreKey(end: End) {
    forall i :: 0 <= i < |end.sent| ==> end.sent[i].epoch >= 1
  }

  ghost predicate BondOk(b: Bond, base: Name, starter: Name, other: Name, pqInit: PqInit) {
    PairInv(b.pair) && Rooted(b, base, starter, other) && Entered(b, pqInit)
  }

  // ---------------------------------------------------------------------------------------------
  // Sessions of a record and ends of a bond

  /** Equal in everything the ratchet uses. */
  predicate SameRatchet(s: SessionStructure, t: SessionStructure) {
    s == t.(pendingPreKey := s.pendingPreKey, pendingKyber := s.pendingKyber,
            localRegistrationId := s.localRegistrationId, remoteRegistrationId := s.remoteRegistrationId)
  }

  lemma ReadySame(s: SessionStructure, t: SessionStructure, theirs: Name, eph: Name)
    requires SameRatchet(s, t)
    ensures var a, b := WithChainFor(s, theirs, eph), WithChainFor(t, theirs, eph);
            && (a.Ok? <==> b.Ok?) && (a.Err? ==> a.error == b.error)
            && (a.Ok? ==> SameRatchet(a.value, b.value))
  {
  }

  lemma TakeSame(s: SessionStructure, t: SessionStructure, theirs: Name, counter: nat)
    requires SameRatchet(s, t) && FindChain(s.receiverChains, theirs).Some?
    ensures var a, b := TakeKeyFor(s, theirs, counter), TakeKeyFor(t, theirs, counter);
            && (a.Ok? <==> b.Ok?) && (a.Err? ==> a.error == b.error)
            && (a.Ok? ==> SameRatchet(a.value.0, b.value.0) && a.value.1 == b.value.1)
  {
    var c := s.receiverChains[FindChain(s.receiverChains, theirs).value];
    assert TakeKey(s, c, counter) == TakeKey(t, c, counter);
  }

  lemma OpenSame(s: SessionStructure, t: SessionStructure, m: SignalMessage, seed: MessageSeed, o: Oracles)
    requires SameRatchet(s, t)
    ensures var a, b := OpenWith(s, m, seed, o), OpenWith(t, m, seed, o);
            && (a.Ok? <==> b.Ok?) && (a.Err? ==> a.error == b.error)
            && (a.Ok? ==> SameRatchet(a.value.0, b.value.0) && a.value.1 == b.value.1)
  {
  }

  lemma DecryptSame(s: SessionStructure, t: SessionStructure, m: SignalMessage, eph: Name, o: Oracles)
    requires SameRatchet(s, t)
    ensures var a, b := DecryptWithState(s, m, eph, o), DecryptWithState(t, m, eph, o);
            && (a.Ok? <==> b.Ok?) && (a.Err? ==> a.error == b.error)
            && (a.Ok? ==> SameRatchet(a.value.0, b.value.0) && a.value.1 == b.value.1)
  {
    var theirs, counter := m.content.ratchetKey, m.content.counter;
    ReadySame(s, t, theirs, eph);
    if m.content.version == SessionVersion(s) && WithChainFor(s, theirs, eph).Ok? {
      var s1, t1 := WithChainFor(s, theirs, eph).value, WithChainFor(t, theirs, eph).value;
      WithChainForFinds(s, theirs, eph);
      TakeSame(s1, t1, theirs, counter);
      if TakeKeyFor(s1, theirs, counter).Ok? {
        var (s2, seed) := TakeKeyFor(s1, theirs, counter).value;
        OpenSame(s2, TakeKeyFor(t1, theirs, counter).value.0, m, seed, o);
      }
    }
  }

  lemma EncryptSame(s: SessionStructure, t: SessionStructure, plaintext: Plaintext, pq: PqState, pqKey: Option<Term>,
                    pqMsg: PqMessage)
    requires SameRatchet(s, t) && s.senderChain.Some? && s.senderChain.value.chainKey.index < U32_MAX
    ensures var a, b := EncryptWithState(s, plaintext, pq, pqKey, pqMsg),
                        EncryptWithState(t, plaintext, pq, pqKey, pqMsg);
            SameRatchet(a.0, b.0) && a.1 == b.1
  {
  }

  // ---------------------------------------------------------------------------------------------
  // Bonds do not mix

  /** The handshakes of two bonds with different base keys start from different secrets. */
  lemma SecretsDiffer(b: Bond, c: Bond)
    requires b.alice.base != c.alice.base && b.alice.base != b.alice.identity
    requires b.starter == c.starter ==> b.alice.identity == c.alice.identity
    requires b.starter != c.starter ==>
               b.alice.identity == c.alice.theirIdentity && c.alice.identity == b.alice.theirIdentity
    ensures Secret(b) != Secret(c)
  {
    assert AliceSecrets(b.alice, b.coins)[2] == Agree(b.alice.base, b.alice.theirIdentity);
    assert AliceSecrets(c.alice, c.coins)[2] == Agree(c.alice.base, c.alice.theirIdentity);
    if Secret(b) == Secret(c) && b.starter == c.starter {
      AliceSecretsDetermineBase(b.alice, b.coins, c.alice, c.coins);
    }
  }

  lemma {:induction false} RootBaseAt(sch: Schedule, e: nat)
    requires e < |sch.keys| && IsHandshakeLabel(sch.info)
    ensures RootBase(RootAt(sch, e)) == HandshakeRoot(sch.info, sch.secret)
  {
    if e > 0 {
      RootBaseAt(sch, e - 1);
    }
  }

  /** A session of another handshake has no chain for the message and would make another one. */
  lemma ForeignChain(s: SessionStructure, sch: Schedule, t: nat, p: Pair, x: Sent)
    requires OnSchedule(sch, s, t) && IsHandshakeLabel(sch.info) && IsHandshakeLabel(p.schedule.info)
    requires HandshakeRoot(sch.info, sch.secret) != HandshakeRoot(p.schedule.info, p.schedule.secret)
    requires 1 <= x.epoch < |p.schedule.keys| && p.schedule.keys[x.epoch] !in sch.keys
    ensures FindChain(s.receiverChains, p.schedule.keys[x.epoch]).None?
    ensures forall secret :: NewChain(s.rootKey, secret) != OriginAt(p.schedule, x.epoch)
  {
    forall j | 0 <= j < |s.receiverChains| ensures s.receiverChains[j].ratchetKey != p.schedule.keys[x.epoch] {
      assert ChainMatches(sch, s.receiverChains[j], ChainEpoch(t, |s.receiverChains|, j));
    }
    RootBaseAt(sch, t);
    RootBaseAt(p.schedule, x.epoch - 1);
  }

  /** So it refuses the message, and not as a duplicate. */
  lemma ForeignRefuses(s: SessionStructure, sch: Schedule, t: nat, p: Pair, x: Sent, eph: Name, o: Oracles)
    requires OnSchedule(sch, s, t) && s.version == CURRENT_VERSION && IsHandshakeLabel(sch.info)
    requires IsHandshakeLabel(p.schedule.info)
    requires HandshakeRoot(sch.info, sch.secret) != HandshakeRoot(p.schedule.info, p.schedule.secret)
    requires 1 <= x.epoch < |p.schedule.keys| && p.schedule.keys[x.epoch] !in sch.keys && x.counter < U32_MAX
    ensures DecryptWithState(s, MessageOf(p.schedule, p.peer.session, x), eph, o) == Err(InvalidMessage)
  {
    var theirs, ours := p.schedule.keys[x.epoch], s.senderChain.value.ratchetKey;
    ForeignChain(s, sch, t, p, x);
    WrongChainRefuses(s, NewChain(s.rootKey, Agree(ours, theirs)), p, x, eph, o);
  }

  // ---------------------------------------------------------------------------------------------
  // How a bond evolves

  /** A message between the two devices, the handshake it belongs to, and the entry of its sender. */
  datatype Packet = Packet(base: Name, message: CiphertextMessage, entry: Sent)

  /** The header a pending session wraps its messages with. */
  predicate HeaderOk(pm: PreKeySignalMessage, b: Bond) {
    && pm.version == CURRENT_VERSION && pm.baseKey == b.alice.base && pm.identityKey == b.alice.identity
    && pm.preKeyId == b.ids.oneTime && pm.signedPreKeyId == b.ids.signed && pm.kyberPreKeyId == Some(b.ids.kyber)
    && pm.kyberCiphertext == Some(Encapsulate(b.alice.theirKyberPreKey, b.coins).1)
  }

  /** The packet holds the message that device `who` emitted for the entry. */
  ghost predicate PacketOk(b: Bond, who: bool, e: Packet) {
    var p := View(b, who);
    && e.entry in p.me.sent && e.entry.epoch < |p.schedule.keys|
    && InnerOf(e.message) == MessageOf(p.schedule, p.me.session, e.entry)
    && (e.message.PreKey? ==> who == b.starter && HeaderOk(e.message.preKey, b))
  }

  /** What an action of device `side` may do to a bond. */
  ghost predicate Evolves(b: Bond, b': Bond, side: bool) {
    && b' == b.(pair := b'.pair, joined := b'.joined) && (b.joined ==> b'.joined)
    && View(b', !side).me == View(b, !side).me
    && Continues(b.pair.schedule, View(b, side).me, b'.pair.schedule, View(b', side).me)
    && View(b, side).me.sent <= View(b', side).me.sent
  }

  lemma PacketKept(b: Bond, b': Bond, side: bool, who: bool, e: Packet)
    requires Evolves(b, b', side) && PacketOk(b, who, e)
    ensures PacketOk(b', who, e)
  {
    var p, p' := View(b, who), View(b', who);
    MessageIsFixed(p.schedule, p.me, p'.schedule, p'.me, e.entry);
  }

  /** The bond a device's own handshake makes. */
  function NewBond(starter: bool, alice: AliceParameters, coins: Name, ids: PreKeysUsed, first: Name, pqInit: PqInit)
    : Bond
  {
    Bond(StartPair(WhisperText, Concat(AliceSecrets(alice, coins)), alice.theirSignedPreKey, first, alice.identity,
                   alice.theirIdentity, alice.base, pqInit),
         starter, alice, coins, ids, false)
  }

  lemma NewBondOk(starter: bool, alice: AliceParameters, coins: Name, ids: PreKeysUsed, first: Name, pqInit: PqInit)
    requires alice.theirRatchetKey == alice.theirSignedPreKey != first
    ensures var b := NewBond(starter, alice, coins, ids, first, pqInit);
            && BondOk(b, alice.base, alice.identity, alice.theirIdentity, pqInit)
            && SameRatchet(PqxdhAlice(alice, coins, first, pqInit), View(b, starter).me.session)
  {
    var b := NewBond(starter, alice, coins, ids, first, pqInit);
    SecretsAgree(alice, coins, Responder(b));
    StartPairInv(WhisperText, Secret(b), alice.theirSignedPreKey, first, alice.identity, alice.theirIdentity,
                 alice.base, pqInit);
  }

  /** The bond after device `side` sent a message on it. */
  function SentOn(b: Bond, side: bool, step: PairStep): Bond
    requires step.PairSend? && CanSend(View(b, side).me)
  {
    var p := View(b, side);
    b.(pair := p.(me := SendFrom(p.me, step)))
  }

  lemma SendEvolves(b: Bond, side: bool, step: PairStep)
    requires step.PairSend? && CanSend(View(b, side).me)
    ensures var b' := SentOn(b, side, step);
            Evolves(b, b', side) && View(b', side) == View(b, side).(me := SendFrom(View(b, side).me, step))
  {
  }

  lemma SendKeepsBond(b: Bond, base: Name, starter: Name, other: Name, pqInit: PqInit, side: bool, step: PairStep)
    requires BondOk(b, base, starter, other, pqInit) && step.PairSend? && CanSend(View(b, side).me)
    requires side == b.starter || b.joined
    ensures BondOk(SentOn(b, side, step), base, starter, other, pqInit)
  {
    var p, b' := View(b, side), SentOn(b, side, step);
    assert PairInv(b'.pair) by {
      SeenFromKeeps(b.pair, side == b.starter);
      SendKeepsPair(p, step);
    }
    SendEvolves(b, side, step);
    BondFromParts(b, b', base, starter, other, pqInit, side);
  }

  /** The end that acted is past its pre-key epoch if it is the responder's, and the rest is as it was. */
  lemma BondFromParts(b: Bond, b': Bond, base: Name, starter: Name, other: Name, pqInit: PqInit, side: bool)
    requires Rooted(b, base, starter, other) && Entered(b, pqInit) && Evolves(b, b', side) && PairInv(b'.pair)
    requires View(b', side).me.session.aliceBaseKey == base
    requires side == b.starter ==> b'.joined == b.joined
    requires side != b.starter ==>
               var was, now := View(b, side).me, View(b', side).me;
               && b'.joined && now.epoch >= 2
               && forall i :: |was.sent| <= i < |now.sent| ==> now.sent[i].epoch >= 1
    ensures BondOk(b', base, starter, other, pqInit)
  {
    if side != b.starter {
      var was, now := View(b, side).me, View(b', side).me;
      forall i | 0 <= i < |now.sent| ensures now.sent[i].epoch >= 1 {
        if i < |was.sent| {
          assert now.sent[i] == was.sent[i];
        }
      }
    }
  }

  /** The bond after device `side` accepted a message on it, its end's session becoming `s`. */
  ghost function AcceptedOn(b: Bond, side: bool, x: Sent, s: SessionStructure, eph: Name): Bond
    requires x.epoch < |b.pair.schedule.keys|
  {
    b.(pair := Accepted(View(b, side), x, s, eph), joined := b.joined || side != b.starter)
  }

  lemma AcceptEvolves(b: Bond, side: bool, x: Sent, eph: Name, o: Oracles)
    requires x.epoch < |b.pair.schedule.keys| && Outcome(View(b, side), x, eph, o).Ok?
    ensures var s := Outcome(View(b, side), x, eph, o).value.0;
            var b' := AcceptedOn(b, side, x, s, eph);
            && Evolves(b, b', side) && View(b', side) == Accepted(View(b, side), x, s, eph)
            && s.aliceBaseKey == View(b, side).me.session.aliceBaseKey
  {
    var p := View(b, side);
    AcceptContinues(p, x, eph, o);
    DecryptEnds(p.me.session, MessageOf(p.schedule, p.peer.session, x), eph, o);
  }

  lemma AcceptKeepsPairOf(p: Pair, x: Sent, eph: Name, o: Oracles)
    requires PairInv(p) && CanReceive(p, x, eph) && Outcome(p, x, eph, o).Ok?
    ensures PairInv(Accepted(p, x, Outcome(p, x, eph, o).value.0, eph))
  {
    var s := Outcome(p, x, eph, o).value.0;
    AcceptSummarised(p, x, eph, o, s);
    AcceptKeepsPair(p, x, s, eph);
  }

  /** A responder that accepts its first message ratchets at once. */
  lemma JoinsPastPreKey(b: Bond, x: Sent, s: SessionStructure, eph: Name, pqInit: PqInit)
    requires Entered(b, pqInit) && x.epoch < |b.pair.schedule.keys|
    ensures Accepted(View(b, !b.starter), x, s, eph).me.epoch >= 2
  {
  }

  lemma AcceptKeepsBond(b: Bond, base: Name, starter: Name, other: Name, pqInit: PqInit, side: bool, x: Sent, eph: Name,
                        o: Oracles)
    requires BondOk(b, base, starter, other, pqInit) && CanReceive(View(b, side), x, eph)
    requires Outcome(View(b, side), x, eph, o).Ok?
    ensures BondOk(AcceptedOn(b, side, x, Outcome(View(b, side), x, eph, o).value.0, eph), base, starter, other, pqInit)
  {
    var p, s := View(b, side), Outcome(View(b, side), x, eph, o).value.0;
    var b' := AcceptedOn(b, side, x, s, eph);
    assert PairInv(b'.pair) by {
      SeenFromKeeps(b.pair, side == b.starter);
      AcceptKeepsPairOf(p, x, eph, o);
    }
    AcceptEvolves(b, side, x, eph, o);
    if side != b.starter {
      JoinsPastPreKey(b, x, s, eph, pqInit);
    }
    AcceptedBond(b, b', base, starter, other, pqInit, side, x, s, eph);
  }

  lemma AcceptedBond(b: Bond, b': Bond, base: Name, starter: Name, other: Name, pqInit: PqInit, side: bool, x: Sent,
                     s: SessionStructure, eph: Name)
    requires Rooted(b, base, starter, other) && Entered(b, pqInit) && x.epoch < |b.pair.schedule.keys|
    requires b' == AcceptedOn(b, side, x, s, eph) && PairInv(b'.pair) && Evolves(b, b', side)
    requires View(b', side) == Accepted(View(b, side), x, s, eph)
    requires s.aliceBaseKey == View(b, side).me.session.aliceBaseKey
    requires side != b.starter ==> View(b', side).me.epoch >= 2
    ensures BondOk(b', base, starter, other, pqInit)
  {
    BondFromParts(b, b', base, starter, other, pqInit, side);
  }
}
