/**
 Two parties in lock step.

 Both ends of a session run over a network that loses, reorders and duplicates: any message ever sent may be
 delivered at any time, any number of times. The ratchet keys generated by the two ends alternate: epoch 0 is the
 responder's pre-key, odd epochs are the initiator's, even ones the responder's. The invariant ties each end's root,
 sending chain and receiving chains to this common schedule; the outcome of every delivery follows from it.
 */
module LockStep {
  import opened Prelude
  import opened Symbolic
  import opened RatchetKeys
  import opened Messages
  import opened SessionStates
  import opened SessionCipher
  import opened SkippedKeys
  import opened SessionInvariants
  import opened Handshake

  // ---------------------------------------------------------------------------------------------
  // The common schedule

  datatype Schedule = Schedule(info: Label, secret: Term, keys: seq<Name>)

  function RootAt(sch: Schedule, e: nat): Term
    requires e < |sch.keys|
  {
    if e == 0 then HandshakeRoot(sch.info, sch.secret)
    else NextRoot(RootAt(sch, e - 1), Agree(sch.keys[e - 1], sch.keys[e]))
  }

  /** Origin of the chain on which the owner of epoch `e` sends. */
  function OriginAt(sch: Schedule, e: nat): Term
    requires e < |sch.keys|
  {
    if e == 0 then HandshakeChain(sch.info, sch.secret)
    else NewChain(RootAt(sch, e - 1), Agree(sch.keys[e - 1], sch.keys[e]))
  }

  ghost predicate Distinct(keys: seq<Name>) {
    forall i, j :: 0 <= i < j < |keys| ==> keys[i] != keys[j]
  }

  function Extend(sch: Schedule, key: Name): Schedule {
    sch.(keys := sch.keys + [key])
  }

  lemma {:induction false} ExtendKeeps(sch: Schedule, key: Name, e: nat)
    requires e < |sch.keys|
    ensures RootAt(Extend(sch, key), e) == RootAt(sch, e) && OriginAt(Extend(sch, key), e) == OriginAt(sch, e)
  {
    if e > 0 {
      ExtendKeeps(sch, key, e - 1);
    }
  }

  lemma {:induction false} DepthOfRootAt(sch: Schedule, e: nat)
    requires e < |sch.keys|
    ensures RootDepth(RootAt(sch, e)) == e
  {
    if e > 0 {
      DepthOfRootAt(sch, e - 1);
    }
  }

  /** Chains of different epochs have different origins; so does a chain created from a later root. */
  lemma OriginsDiffer(sch: Schedule, e: nat, t: nat, secret: Term)
    requires e <= t < |sch.keys|
    ensures NewChain(RootAt(sch, t), secret) != OriginAt(sch, e)
    ensures e < t ==> OriginAt(sch, e) != OriginAt(sch, t)
  {
    DepthOfRootAt(sch, t);
    if e > 0 {
      DepthOfRootAt(sch, e - 1);
    }
    if t > 0 {
      DepthOfRootAt(sch, t - 1);
    }
  }

  // ---------------------------------------------------------------------------------------------
  // The pair

  datatype Sent = Sent(epoch: nat, counter: nat, previousCounter: nat, pqKey: Option<Term>, pq: PqMessage,
                       plaintext: Plaintext)

  /** One end: its session, its epoch, what it sent, and the slots of the messages it accepted. */
  datatype End = End(session: SessionStructure, epoch: nat, sent: seq<Sent>, taken: iset<Slot>)

  /** Both ends, seen from one of them. */
  datatype Pair = Pair(schedule: Schedule, me: End, peer: End, initiator: bool)

  function SeenFrom(p: Pair, initiator: bool): Pair {
    if p.initiator == initiator then p else Pair(p.schedule, p.peer, p.me, initiator)
  }

  /** The message a `Sent` entry stands for. */
  function MessageOf(sch: Schedule, s: SessionStructure, x: Sent): SignalMessage
    requires x.epoch < |sch.keys|
  {
    SealMessage(CURRENT_VERSION, SeedAt(OriginAt(sch, x.epoch), x.counter), x.pqKey, sch.keys[x.epoch],
                x.previousCounter,
                s.localIdentity, s.remoteIdentity, x.pq, x.plaintext)
  }

  /** Epoch of the `j`-th of `n` receiving chains of an end at epoch `t`. */
  function ChainEpoch(t: nat, n: nat, j: nat): int {
    t - 1 - 2 * (n - 1 - j)
  }

  ghost predicate ChainMatches(sch: Schedule, c: Chain, e: int) {
    0 <= e < |sch.keys| && ChainOrigin(c) == OriginAt(sch, e) && c.ratchetKey == sch.keys[e]
  }

  /** The receiving chains are those of the last (at most five) epochs of the peer before `t`, oldest first. */
  ghost predicate ChainsMatch(sch: Schedule, chains: seq<Chain>, t: nat) {
    && |chains| == Min(MAX_RECEIVER_CHAINS, (t + 1) / 2)
    && forall j :: 0 <= j < |chains| ==> ChainMatches(sch, chains[j], ChainEpoch(t, |chains|, j))
  }

  /** Root, sending chain and receiving chains are those of epoch `t`. */
  ghost predicate OnSchedule(sch: Schedule, s: SessionStructure, t: nat) {
    && t < |sch.keys|
    && s.rootKey == RootAt(sch, t)
    && s.senderChain.Some? && s.senderChain.value.ratchetKey == sch.keys[t]
    && s.senderChain.value.chainKey == ChainAt(OriginAt(sch, t), s.senderChain.value.chainKey.index)
    && ChainsMatch(sch, s.receiverChains, t)
  }

  ghost predicate EndInv(sch: Schedule, end: End, initiator: bool) {
    && OnSchedule(sch, end.session, end.epoch) && (end.epoch % 2 == 1 <==> initiator)
    && end.session.version == CURRENT_VERSION
    && SessionInv(end.session) && Unspent(end.session, end.taken)
    && StoresAreWindows(end.session.receiverChains, end.taken)
    && (forall i :: 0 <= i < |end.sent| ==> SentInv(end, end.sent[i], initiator))
  }

  ghost predicate SentInv(end: End, x: Sent, initiator: bool) {
    && x.epoch <= end.epoch && (x.epoch % 2 == 1 <==> initiator) && x.counter < U32_MAX
    && (x.epoch == end.epoch ==>
        end.session.senderChain.Some? && x.counter < end.session.senderChain.value.chainKey.index)
  }

  /** The ends are one Diffie-Hellman step apart and know each other. */
  ghost predicate Adjacent(sch: Schedule, me: End, peer: End) {
    && (me.epoch == peer.epoch + 1 || peer.epoch == me.epoch + 1)
    && |sch.keys| == Max(me.epoch, peer.epoch) + 1
    && me.session.localIdentity == peer.session.remoteIdentity
    && me.session.remoteIdentity == peer.session.localIdentity
  }

  ghost predicate PairInv(p: Pair) {
    && Distinct(p.schedule.keys) && IsHandshakeLabel(p.schedule.info)
    && EndInv(p.schedule, p.me, p.initiator) && EndInv(p.schedule, p.peer, !p.initiator)
    && Adjacent(p.schedule, p.me, p.peer)
  }

  lemma SeenFromKeeps(p: Pair, initiator: bool)
    requires PairInv(p)
    ensures PairInv(SeenFrom(p, initiator))
  {
  }

  /** The roots of the two ends are exactly one Diffie-Hellman step apart. */
  lemma RootsOneStepApart(p: Pair)
    requires PairInv(p)
    ensures var secret := Agree(p.schedule.keys[p.me.epoch], p.schedule.keys[p.peer.epoch]);
            || p.me.session.rootKey == NextRoot(p.peer.session.rootKey, secret)
            || p.peer.session.rootKey == NextRoot(p.me.session.rootKey, secret)
  {
  }

  // ---------------------------------------------------------------------------------------------
  // Steps of the end the pair is seen from

  datatype PairStep =
    | PairSend(initiator: bool, plaintext: Plaintext, pqState: PqState, pqKey: Option<Term>, pq: PqMessage)
    | PairDeliver(initiator: bool, index: nat, eph: Name, oracles: Oracles)  // to the named end, from its peer

  predicate CanSend(end: End) {
    end.session.senderChain.Some? && end.session.senderChain.value.chainKey.index < U32_MAX
  }

  predicate CanReceive(p: Pair, x: Sent, eph: Name) {
    x in p.peer.sent && x.epoch < |p.schedule.keys| && eph !in p.schedule.keys
  }

  function SendFrom(end: End, step: PairStep): End
    requires step.PairSend? && CanSend(end)
  {
    var s := end.session;
    end.(session := EncryptWithState(s, step.plaintext, step.pqState, step.pqKey, step.pq).0,
         sent := end.sent + [Sent(end.epoch, s.senderChain.value.chainKey.index, s.previousCounter,
                                  step.pqKey, step.pq, step.plaintext)])
  }

  /** What delivering a sent message makes of the receiving session. */
  function Outcome(p: Pair, x: Sent, eph: Name, o: Oracles): Result<(SessionStructure, Plaintext), Error>
    requires x.epoch < |p.schedule.keys|
  {
    DecryptWithState(p.me.session, MessageOf(p.schedule, p.peer.session, x), eph, o)
  }

  /** The pair after `me` accepted `x`, its session becoming `s`; a new epoch starts if it had no chain for `x`. */
  ghost function Accepted(p: Pair, x: Sent, s: SessionStructure, eph: Name): Pair
    requires x.epoch < |p.schedule.keys|
  {
    var ratcheted := FindChain(p.me.session.receiverChains, p.schedule.keys[x.epoch]).None?;
    p.(me := p.me.(session := s,
                   epoch := if ratcheted then p.me.epoch + 2 else p.me.epoch,
                   taken := p.me.taken + iset{(OriginAt(p.schedule, x.epoch), x.counter)}),
       schedule := if ratcheted then Extend(p.schedule, eph) else p.schedule)
  }

  // ---------------------------------------------------------------------------------------------
  // Which chain a delivery meets

  /** The epoch's chain is retained by an end at epoch `t`. */
  predicate Retained(t: nat, e: nat) {
    e < t && (t - e) % 2 == 1 && (t - 1 - e) / 2 < MAX_RECEIVER_CHAINS
  }

  function PositionOf(t: nat, e: nat): int {
    Min(MAX_RECEIVER_CHAINS, (t + 1) / 2) - 1 - (t - 1 - e) / 2
  }

  /** Positions and epochs of retained chains correspond. */
  lemma PositionArithmetic(t: nat, e: nat, j: int)
    ensures var n := Min(MAX_RECEIVER_CHAINS, (t + 1) / 2);
            0 <= j < n && ChainEpoch(t, n, j) == e <==> Retained(t, e) && j == PositionOf(t, e)
  {
    var n := Min(MAX_RECEIVER_CHAINS, (t + 1) / 2);
    if Retained(t, e) {
      var q := (t - 1 - e) / 2;
      assert t - 1 - e == 2 * q;
    }
  }

  lemma RetainedPosition(sch: Schedule, chains: seq<Chain>, t: nat, e: nat)
    requires t < |sch.keys| && Distinct(sch.keys) && ChainsMatch(sch, chains, t) && e < |sch.keys|
    ensures Retained(t, e) ==>
              && 0 <= PositionOf(t, e) < |chains|
              && FindChain(chains, sch.keys[e]) == Some(PositionOf(t, e))
              && ChainOrigin(chains[PositionOf(t, e)]) == OriginAt(sch, e)
    ensures !Retained(t, e) ==> FindChain(chains, sch.keys[e]).None?
  {
    var found := FindChain(chains, sch.keys[e]);
    if found.Some? {
      var j := found.value;
      assert ChainMatches(sch, chains[j], ChainEpoch(t, |chains|, j));
      assert ChainEpoch(t, |chains|, j) == e;
      PositionArithmetic(t, e, j);
    }
    if Retained(t, e) {
      var j := PositionOf(t, e);
      PositionArithmetic(t, e, j);
      assert ChainMatches(sch, chains[j], e);
      assert chains[j].ratchetKey == sch.keys[e];
    }
  }

  /** An end at epoch `t` can meet the chain of epoch `e`: it retains it, or it is the peer's next one. */
  predicate InReach(t: nat, e: nat) {
    Retained(t, e) || e == t + 1
  }

  /** An epoch that reaches an end is in its reach or was trimmed: there is no other case. */
  lemma EpochsDelivered(p: Pair, x: Sent)
    requires PairInv(p) && x in p.peer.sent
    ensures x.epoch <= p.me.epoch + 1 && x.epoch != p.me.epoch && x.epoch < |p.schedule.keys| && x.counter < U32_MAX
  {
    var i :| 0 <= i < |p.peer.sent| && p.peer.sent[i] == x;
    assert SentInv(p.peer, p.peer.sent[i], !p.initiator);
  }

  /** The chain an end receives epoch `e` on. */
  ghost function MeetingChain(p: Pair, e: nat): Chain
    requires PairInv(p) && e < |p.schedule.keys| && InReach(p.me.epoch, e)
  {
    RetainedPosition(p.schedule, p.me.session.receiverChains, p.me.epoch, e);
    if Retained(p.me.epoch, e) then p.me.session.receiverChains[PositionOf(p.me.epoch, e)]
    else Chain(p.schedule.keys[e], ChainKey(OriginAt(p.schedule, e), 0), [])
  }

  lemma MeetingChainInv(p: Pair, e: nat)
    requires PairInv(p) && e < |p.schedule.keys| && InReach(p.me.epoch, e)
    ensures ChainInv(MeetingChain(p, e)) && ChainOrigin(MeetingChain(p, e)) == OriginAt(p.schedule, e)
  {
    RetainedPosition(p.schedule, p.me.session.receiverChains, p.me.epoch, e);
    if !Retained(p.me.epoch, e) {
      FreshChainInv(p.schedule.keys[e], OriginAt(p.schedule, e));
    }
  }

  /** The session just before the key is taken has the meeting chain in place. */
  lemma ReadyToReceive(p: Pair, e: nat, eph: Name)
    requires PairInv(p) && e < |p.schedule.keys| && InReach(p.me.epoch, e)
    ensures var ready := WithChainFor(p.me.session, p.schedule.keys[e], eph);
            && ready.Ok? && FindChain(ready.value.receiverChains, p.schedule.keys[e]).Some?
            && ready.value.receiverChains[FindChain(ready.value.receiverChains, p.schedule.keys[e]).value]
               == MeetingChain(p, e)
  {
    var s, theirs := p.me.session, p.schedule.keys[e];
    RetainedPosition(p.schedule, s.receiverChains, p.me.epoch, e);
    if !Retained(p.me.epoch, e) {
      var (_, receiving) := CreateChain(s.rootKey, theirs, s.senderChain.value.ratchetKey);
      assert receiving == ChainKey(OriginAt(p.schedule, e), 0);
      FindLast(s.receiverChains, Chain(theirs, receiving, []));
    }
  }

  // ---------------------------------------------------------------------------------------------
  // The outcome of a delivery

  /** The message is within the window its receiver keeps: right epoch, index not used or evicted, not too far ahead. */
  ghost predicate InWindow(p: Pair, x: Sent)
    requires PairInv(p) && x.epoch < |p.schedule.keys|
  {
    && InReach(p.me.epoch, x.epoch)
    && Available(MeetingChain(p, x.epoch), x.counter)
    && !TooFar(p.me.session, MeetingChain(p, x.epoch).chainKey.index, x.counter)
  }

  /** The post-quantum ratchet returns the key its sending half produced for the message. */
  ghost predicate PqDelivers(p: Pair, x: Sent, o: Oracles) {
    var r := o.pqRecv(p.me.session.pq, x.pq);
    r.Some? && r.value.1 == x.pqKey
  }

  /** Decryption is taking a key from the chain found or created, then opening with it. */
  lemma OutcomeVia(s: SessionStructure, m: SignalMessage, eph: Name, o: Oracles, c: Chain)
    returns (s2: SessionStructure)
    requires m.content.version == SessionVersion(s)
    requires WithChainFor(s, m.content.ratchetKey, eph).Ok?
    requires var s1 := WithChainFor(s, m.content.ratchetKey, eph).value;
             var i := FindChain(s1.receiverChains, m.content.ratchetKey);
             i.Some? && s1.receiverChains[i.value] == c
    ensures match TakeKey(s, c, m.content.counter)
            case Err(e) => DecryptWithState(s, m, eph, o) == Err(e)
            case Ok((_, seed)) =>
              && DecryptWithState(s, m, eph, o) == OpenWith(s2, m, seed, o)
              && s2.pq == s.pq && s2.localIdentity == s.localIdentity && s2.remoteIdentity == s.remoteIdentity
  {
    var s1 := WithChainFor(s, m.content.ratchetKey, eph).value;
    assert TakeKey(s1, c, m.content.counter) == TakeKey(s, c, m.content.counter);
    s2 := s;
    if TakeKey(s, c, m.content.counter).Ok? {
      s2 := TakeKeyFor(s1, m.content.ratchetKey, m.content.counter).value.0;
    }
  }

  /** Opening a message with its own seed succeeds exactly when the post-quantum keys agree. */
  lemma OpenSealed(s: SessionStructure, m: SignalMessage, seed: MessageSeed, o: Oracles, sender: SessionStructure,
                   x: Sent)
    requires s.remoteIdentity == sender.localIdentity && s.localIdentity == sender.remoteIdentity
    requires m == SealMessage(CURRENT_VERSION, seed, x.pqKey, m.content.ratchetKey, x.previousCounter,
                              sender.localIdentity, sender.remoteIdentity, x.pq, x.plaintext)
    ensures OpenWith(s, m, seed, o).Ok? <==> o.pqRecv(s.pq, x.pq).Some? && o.pqRecv(s.pq, x.pq).value.1 == x.pqKey
    ensures OpenWith(s, m, seed, o).Ok? ==> OpenWith(s, m, seed, o).value.1 == x.plaintext
    ensures OpenWith(s, m, seed, o).Err? ==> !OpenWith(s, m, seed, o).error.DuplicatedMessage?
  {
  }

  /** On a retained or next chain, a message is accepted exactly when it is in the window, with its own plaintext. */
  lemma OutcomeOnKnownChain(p: Pair, x: Sent, eph: Name, o: Oracles)
    requires PairInv(p) && CanReceive(p, x, eph) && InReach(p.me.epoch, x.epoch)
    ensures Outcome(p, x, eph, o).Ok? <==> InWindow(p, x) && PqDelivers(p, x, o)
    ensures Outcome(p, x, eph, o).Ok? ==> Outcome(p, x, eph, o).value.1 == x.plaintext
    ensures Outcome(p, x, eph, o).Err? && Outcome(p, x, eph, o).error.DuplicatedMessage?
            <==> !Available(MeetingChain(p, x.epoch), x.counter)
  {
    var m, s, c := MessageOf(p.schedule, p.peer.session, x), p.me.session, MeetingChain(p, x.epoch);
    ReadyToReceive(p, x.epoch, eph);
    var s2 := OutcomeVia(s, m, eph, o, c);
    MeetingChainInv(p, x.epoch);
    RejectedIsUnavailable(s, c, x.counter);
    if TakeKey(s, c, x.counter).Ok? {
      TakeKeyKeepsChain(s, c, x.counter);
      OpenSealed(s2, m, TakeKey(s, c, x.counter).value.1, o, p.peer.session, x);
    }
  }

  lemma WrongSeedFails(s: SessionStructure, m: SignalMessage, origin: Term, origin': Term, x: Sent,
                       sender: SessionStructure, o: Oracles)
    requires origin != origin' && IsOrigin(origin) && IsOrigin(origin')
    requires m == SealMessage(CURRENT_VERSION, SeedAt(origin', x.counter), x.pqKey, m.content.ratchetKey,
                              x.previousCounter,
                              sender.localIdentity, sender.remoteIdentity, x.pq, x.plaintext)
    ensures OpenWith(s, m, SeedAt(origin, x.counter), o) == Err(InvalidMessage)
  {
    var r := o.pqRecv(s.pq, m.content.pq);
    if r.Some? && m.mac == ExpectedMac(s, m.content, SeedAt(origin, x.counter), r.value.1) {
      MacKeyDeterminesSlot(origin, x.counter, r.value.1, origin', x.counter, x.pqKey);
    }
  }

  /** A session without a chain for the message makes one; if that is not the sender's, the message is refused. */
  lemma WrongChainRefuses(s: SessionStructure, origin: Term, p: Pair, x: Sent, eph: Name, o: Oracles)
    requires s.version == CURRENT_VERSION && s.senderChain.Some? && x.epoch < |p.schedule.keys| && x.counter < U32_MAX
    requires var theirs := p.schedule.keys[x.epoch];
             && FindChain(s.receiverChains, theirs).None?
             && origin == NewChain(s.rootKey, Agree(s.senderChain.value.ratchetKey, theirs))
             && origin != OriginAt(p.schedule, x.epoch)
    ensures DecryptWithState(s, MessageOf(p.schedule, p.peer.session, x), eph, o) == Err(InvalidMessage)
  {
    var m, theirs := MessageOf(p.schedule, p.peer.session, x), p.schedule.keys[x.epoch];
    var c := Chain(theirs, ChainKey(origin, 0), []);
    FindLast(s.receiverChains, c);
    var s2 := OutcomeVia(s, m, eph, o, c);
    FreshChainInv(theirs, origin);
    RejectedIsUnavailable(s, c, x.counter);
    if TakeKey(s, c, x.counter).Ok? {
      TakeKeyKeepsChain(s, c, x.counter);
      WrongSeedFails(s2, m, origin, OriginAt(p.schedule, x.epoch), x, p.peer.session, o);
    }
  }

  /** On a chain that was trimmed, the end builds a different chain, and the message fails its MAC or is too far. */
  lemma OutcomeOnTrimmedChain(p: Pair, x: Sent, eph: Name, o: Oracles)
    requires PairInv(p) && CanReceive(p, x, eph) && !InReach(p.me.epoch, x.epoch)
    ensures Outcome(p, x, eph, o) == Err(InvalidMessage)
  {
    var s, theirs := p.me.session, p.schedule.keys[x.epoch];
    EpochsDelivered(p, x);
    RetainedPosition(p.schedule, s.receiverChains, p.me.epoch, x.epoch);
    var secret := Agree(s.senderChain.value.ratchetKey, theirs);
    OriginsDiffer(p.schedule, x.epoch, p.me.epoch, secret);
    WrongChainRefuses(s, NewChain(s.rootKey, secret), p, x, eph, o);
  }

  /**
   The exact outcome of every delivery in every reachable pair: a message is accepted if and only if it is in the
   receiver's window and the post-quantum ratchet delivers, and then it yields exactly the plaintext that was sent.
   */
  lemma DeliveryOutcome(p: Pair, x: Sent, eph: Name, o: Oracles)
    requires PairInv(p) && CanReceive(p, x, eph)
    ensures Outcome(p, x, eph, o).Ok? <==> InWindow(p, x) && PqDelivers(p, x, o)
    ensures Outcome(p, x, eph, o).Ok? ==> Outcome(p, x, eph, o).value.1 == x.plaintext
  {
    if InReach(p.me.epoch, x.epoch) {
      OutcomeOnKnownChain(p, x, eph, o);
    } else {
      OutcomeOnTrimmedChain(p, x, eph, o);
    }
  }

  // ---------------------------------------------------------------------------------------------
  // Staying on the schedule

  lemma ExtendKeepsSchedule(sch: Schedule, key: Name, s: SessionStructure, t: nat)
    requires OnSchedule(sch, s, t)
    ensures OnSchedule(Extend(sch, key), s, t)
  {
    var sch' := Extend(sch, key);
    ExtendKeeps(sch, key, t);
    forall j | 0 <= j < |s.receiverChains|
      ensures ChainMatches(sch', s.receiverChains[j], ChainEpoch(t, |s.receiverChains|, j))
    {
      var e := ChainEpoch(t, |s.receiverChains|, j);
      assert ChainMatches(sch, s.receiverChains[j], e);
      ExtendKeeps(sch, key, e);
    }
  }

  /** The receiving chains after an end at epoch `t` met the chain of epoch `t + 1`. */
  lemma RatchetKeepsMatch(sch: Schedule, chains: seq<Chain>, t: nat, c: Chain)
    requires t + 2 < |sch.keys| && ChainsMatch(sch, chains, t) && ChainMatches(sch, c, t + 1)
    ensures ChainsMatch(sch, AddChain(chains, c), t + 2)
  {
    var all := AddChain(chains, c);
    var n := |chains|;
    assert n == Min(MAX_RECEIVER_CHAINS, (t + 1) / 2) && (t + 3) / 2 == (t + 1) / 2 + 1;
    forall j | 0 <= j < |all| ensures ChainMatches(sch, all[j], ChainEpoch(t + 2, |all|, j)) {
      if j == |all| - 1 {
        assert all[j] == c;
      } else {
        var from := if |all| == n then j + 1 else j;
        assert all[j] == chains[from] && ChainEpoch(t + 2, |all|, j) == ChainEpoch(t, n, from);
        assert ChainMatches(sch, chains[from], ChainEpoch(t, n, from));
      }
    }
  }

  /** A ratchet step against the peer's next key moves the session two epochs on. */
  lemma RatchetStaysOnSchedule(sch: Schedule, s: SessionStructure, t: nat, eph: Name)
    requires |sch.keys| == t + 2 && OnSchedule(sch, s, t) && IsHandshakeLabel(sch.info)
    ensures OnSchedule(Extend(sch, eph), RatchetStep(s, sch.keys[t + 1], eph), t + 2)
  {
    var sch', theirs := Extend(sch, eph), sch.keys[t + 1];
    ExtendKeepsSchedule(sch, eph, s, t);
    ExtendKeeps(sch, eph, t);
    ExtendKeeps(sch, eph, t + 1);
    AgreeCancels(eph, theirs, theirs);
    var s1 := RatchetStep(s, theirs, eph);
    var c := Chain(theirs, ChainKey(OriginAt(sch, t + 1), 0), []);
    assert s1.receiverChains == AddChain(s.receiverChains, c);
    assert s1.rootKey == NextRoot(RootAt(sch, t + 1), Agree(theirs, eph)) == RootAt(sch', t + 2);
    assert s1.senderChain.value.chainKey == ChainKey(OriginAt(sch', t + 2), 0);
    FreshChainInv(theirs, OriginAt(sch, t + 1));
    RatchetKeepsMatch(sch', s.receiverChains, t, c);
  }

  /** Just before the key is taken, the session already sits on the new schedule. */
  lemma ReadyStaysOnSchedule(sch: Schedule, s: SessionStructure, t: nat, e: nat, eph: Name)
    requires OnSchedule(sch, s, t) && Distinct(sch.keys) && IsHandshakeLabel(sch.info)
    requires e < |sch.keys| && (Retained(t, e) || (e == t + 1 && |sch.keys| == t + 2))
    ensures var ready := WithChainFor(s, sch.keys[e], eph);
            && ready.Ok?
            && (if Retained(t, e) then OnSchedule(sch, ready.value, t)
                else OnSchedule(Extend(sch, eph), ready.value, t + 2))
  {
    RetainedPosition(sch, s.receiverChains, t, e);
    if !Retained(t, e) {
      RatchetStaysOnSchedule(sch, s, t, eph);
    }
  }

  /** Taking a key from a chain keeps the session on the schedule. */
  lemma TakeStaysOnSchedule(sch: Schedule, s1: SessionStructure, t: nat, i: nat, counter: nat, s2: SessionStructure)
    requires OnSchedule(sch, s1, t) && i < |s1.receiverChains|
    requires ChainInv(s1.receiverChains[i]) && TakeKey(s1, s1.receiverChains[i], counter).Ok?
    requires s2.receiverChains == s1.receiverChains[i := TakeKey(s1, s1.receiverChains[i], counter).value.0]
    requires s2.rootKey == s1.rootKey && s2.senderChain == s1.senderChain
    ensures OnSchedule(sch, s2, t)
  {
    TakeKeyKeepsChain(s1, s1.receiverChains[i], counter);
    forall j | 0 <= j < |s2.receiverChains|
      ensures ChainMatches(sch, s2.receiverChains[j], ChainEpoch(t, |s2.receiverChains|, j))
    {
      assert ChainMatches(sch, s1.receiverChains[j], ChainEpoch(t, |s1.receiverChains|, j));
    }
  }

  /** What an accepted message leaves of the session. */
  lemma AcceptedSession(s: SessionStructure, m: SignalMessage, eph: Name, o: Oracles) returns (i: nat)
    requires DecryptWithState(s, m, eph, o).Ok?
    ensures WithChainFor(s, m.content.ratchetKey, eph).Ok?
    ensures var s1 := WithChainFor(s, m.content.ratchetKey, eph).value;
            var t := DecryptWithState(s, m, eph, o).value.0;
            && FindChain(s1.receiverChains, m.content.ratchetKey) == Some(i) && i < |s1.receiverChains|
            && TakeKey(s1, s1.receiverChains[i], m.content.counter).Ok?
            && t.receiverChains == s1.receiverChains[i := TakeKey(s1, s1.receiverChains[i], m.content.counter).value.0]
            && t.rootKey == s1.rootKey && t.senderChain == s1.senderChain && t.version == s.version
            && t.localIdentity == s.localIdentity && t.remoteIdentity == s.remoteIdentity
  {
    WithChainForFinds(s, m.content.ratchetKey, eph);
    i := FindChain(WithChainFor(s, m.content.ratchetKey, eph).value.receiverChains, m.content.ratchetKey).value;
  }

  lemma ReadyChainsInv(s: SessionStructure, theirs: Name, eph: Name)
    requires SessionInv(s) && WithChainFor(s, theirs, eph).Ok?
    ensures forall c :: c in WithChainFor(s, theirs, eph).value.receiverChains ==> ChainInv(c)
  {
    if FindChain(s.receiverChains, theirs).None? {
      var (_, receiving) := CreateChain(s.rootKey, theirs, s.senderChain.value.ratchetKey);
      FreshChainInv(theirs, receiving.key);
    }
  }

  /** An accepted message leaves the receiving session on the schedule, at its old epoch or two later. */
  lemma AcceptStaysOnSchedule(sch: Schedule, s: SessionStructure, t: nat, e: nat, m: SignalMessage, eph: Name,
                              o: Oracles)
    requires OnSchedule(sch, s, t) && Distinct(sch.keys) && IsHandshakeLabel(sch.info) && SessionInv(s)
    requires e < |sch.keys| && (Retained(t, e) || (e == t + 1 && |sch.keys| == t + 2))
    requires m.content.ratchetKey == sch.keys[e] && DecryptWithState(s, m, eph, o).Ok?
    ensures var s' := DecryptWithState(s, m, eph, o).value.0;
            if Retained(t, e) then OnSchedule(sch, s', t) else OnSchedule(Extend(sch, eph), s', t + 2)
  {
    var i := AcceptedSession(s, m, eph, o);
    TakenStaysOnSchedule(sch, s, t, e, eph, i, m.content.counter, DecryptWithState(s, m, eph, o).value.0);
  }

  lemma TakenStaysOnSchedule(sch: Schedule, s: SessionStructure, t: nat, e: nat, eph: Name, i: nat, counter: nat,
                             s': SessionStructure)
    requires OnSchedule(sch, s, t) && Distinct(sch.keys) && IsHandshakeLabel(sch.info) && SessionInv(s)
    requires e < |sch.keys| && (Retained(t, e) || (e == t + 1 && |sch.keys| == t + 2))
    requires WithChainFor(s, sch.keys[e], eph).Ok?
    requires var s1 := WithChainFor(s, sch.keys[e], eph).value;
             && i < |s1.receiverChains| && TakeKey(s1, s1.receiverChains[i], counter).Ok?
             && s'.receiverChains == s1.receiverChains[i := TakeKey(s1, s1.receiverChains[i], counter).value.0]
             && s'.rootKey == s1.rootKey && s'.senderChain == s1.senderChain
    ensures if Retained(t, e) then OnSchedule(sch, s', t) else OnSchedule(Extend(sch, eph), s', t + 2)
  {
    var s1 := WithChainFor(s, sch.keys[e], eph).value;
    assert ChainInv(s1.receiverChains[i]) by {
      ReadyChainsInv(s, sch.keys[e], eph);
    }
    var sch', t' := if Retained(t, e) then sch else Extend(sch, eph), if Retained(t, e) then t else t + 2;
    assert OnSchedule(sch', s1, t') by {
      ReadyStaysOnSchedule(sch, s, t, e, eph);
    }
    TakeStaysOnSchedule(sch', s1, t', i, counter, s');
  }

  /** The slot used up by an accepted message is the one of its epoch and counter. */
  lemma AcceptUsesSlot(p: Pair, x: Sent, eph: Name, o: Oracles)
    requires PairInv(p) && CanReceive(p, x, eph) && Outcome(p, x, eph, o).Ok?
    ensures var s := Outcome(p, x, eph, o).value.0;
            var taken := p.me.taken + iset{(OriginAt(p.schedule, x.epoch), x.counter)};
            SessionInv(s) && Unspent(s, taken) && StoresAreWindows(s.receiverChains, taken)
    ensures (OriginAt(p.schedule, x.epoch), x.counter) !in p.me.taken
  {
    var m := MessageOf(p.schedule, p.peer.session, x);
    var slot := DecryptKeeps(p.me.session, m, eph, o, p.me.taken);
    var expected := (OriginAt(p.schedule, x.epoch), x.counter);
    assert m.mac == Mac(GenerateKeys(SeedAt(expected.0, expected.1), x.pqKey).macKey,
                        p.peer.session.localIdentity, p.peer.session.remoteIdentity, m.content);
    assert MacUses(m, expected);
    MacUsesOneSlot(m, slot, expected);
  }

  /** What `me` sent before stays accounted for when it accepts a message. */
  lemma AcceptKeepsSent(me: End, me': End, initiator: bool)
    requires me'.sent == me.sent && me.epoch <= me'.epoch
    requires me'.epoch == me.epoch ==> me'.session.senderChain == me.session.senderChain
    requires forall i :: 0 <= i < |me.sent| ==> SentInv(me, me.sent[i], initiator)
    ensures forall i :: 0 <= i < |me'.sent| ==> SentInv(me', me'.sent[i], initiator)
  {
    forall i | 0 <= i < |me'.sent| ensures SentInv(me', me'.sent[i], initiator) {
      assert SentInv(me, me.sent[i], initiator);
    }
  }

  /** Everything an acceptance says about the new session, without the decryption itself. */
  ghost predicate AcceptSummary(p: Pair, x: Sent, s': SessionStructure, eph: Name)
    requires x.epoch < |p.schedule.keys|
  {
    var taken := p.me.taken + iset{(OriginAt(p.schedule, x.epoch), x.counter)};
    && InReach(p.me.epoch, x.epoch)
    && SessionInv(s') && Unspent(s', taken) && StoresAreWindows(s'.receiverChains, taken)
    && (if Retained(p.me.epoch, x.epoch)
        then OnSchedule(p.schedule, s', p.me.epoch) && s'.senderChain == p.me.session.senderChain
        else OnSchedule(Extend(p.schedule, eph), s', p.me.epoch + 2))
    && s'.version == p.me.session.version
    && s'.localIdentity == p.me.session.localIdentity && s'.remoteIdentity == p.me.session.remoteIdentity
  }

  lemma SummaryOfFields(s: SessionStructure, m: SignalMessage, eph: Name, o: Oracles)
    requires DecryptWithState(s, m, eph, o).Ok?
    ensures var s' := DecryptWithState(s, m, eph, o).value.0;
            && (FindChain(s.receiverChains, m.content.ratchetKey).Some? ==> s'.senderChain == s.senderChain)
            && s'.version == s.version
            && s'.localIdentity == s.localIdentity && s'.remoteIdentity == s.remoteIdentity
  {
    var i := AcceptedSession(s, m, eph, o);
  }

  lemma SummaryOfSchedule(p: Pair, x: Sent, eph: Name, o: Oracles)
    requires OnSchedule(p.schedule, p.me.session, p.me.epoch) && Distinct(p.schedule.keys)
             && IsHandshakeLabel(p.schedule.info)
    requires SessionInv(p.me.session) && x.epoch < |p.schedule.keys| && Outcome(p, x, eph, o).Ok?
    requires Retained(p.me.epoch, x.epoch) || (x.epoch == p.me.epoch + 1 && |p.schedule.keys| == p.me.epoch + 2)
    ensures var s' := Outcome(p, x, eph, o).value.0;
            if Retained(p.me.epoch, x.epoch) then OnSchedule(p.schedule, s', p.me.epoch)
            else OnSchedule(Extend(p.schedule, eph), s', p.me.epoch + 2)
  {
    AcceptStaysOnSchedule(p.schedule, p.me.session, p.me.epoch, x.epoch, MessageOf(p.schedule, p.peer.session, x), eph,
                          o);
  }

  lemma ReachedEpoch(p: Pair, x: Sent)
    requires PairInv(p) && x in p.peer.sent && InReach(p.me.epoch, x.epoch)
    ensures Retained(p.me.epoch, x.epoch) || (x.epoch == p.me.epoch + 1 && |p.schedule.keys| == p.me.epoch + 2)
  {
    var i :| 0 <= i < |p.peer.sent| && p.peer.sent[i] == x;
    assert SentInv(p.peer, p.peer.sent[i], !p.initiator);
  }

  lemma AcceptSummarised(p: Pair, x: Sent, eph: Name, o: Oracles, s': SessionStructure)
    requires PairInv(p) && CanReceive(p, x, eph) && Outcome(p, x, eph, o).Ok?
    requires s' == Outcome(p, x, eph, o).value.0
    ensures AcceptSummary(p, x, s', eph)
  {
    assert InReach(p.me.epoch, x.epoch) by {
      DeliveryOutcome(p, x, eph, o);
    }
    ReachedEpoch(p, x);
    SummaryOfSchedule(p, x, eph, o);
    AcceptUsesSlot(p, x, eph, o);
    SummaryOfFields(p.me.session, MessageOf(p.schedule, p.peer.session, x), eph, o);
    RetainedPosition(p.schedule, p.me.session.receiverChains, p.me.epoch, x.epoch);
  }

  lemma AcceptKeepsPair(p: Pair, x: Sent, s': SessionStructure, eph: Name)
    requires PairInv(p) && CanReceive(p, x, eph) && AcceptSummary(p, x, s', eph)
    ensures PairInv(Accepted(p, x, s', eph))
  {
    var found := FindChain(p.me.session.receiverChains, p.schedule.keys[x.epoch]);
    assert found.None? <==> !Retained(p.me.epoch, x.epoch) by {
      RetainedPosition(p.schedule, p.me.session.receiverChains, p.me.epoch, x.epoch);
    }
    var me' := Accepted(p, x, s', eph).me;
    AcceptedEnd(p, x, s', eph);
    if Retained(p.me.epoch, x.epoch) {
      KeptPair(p, me');
    } else {
      ReachedEpoch(p, x);
      RatchetedPair(p, me', eph);
    }
  }

  lemma AcceptedEnd(p: Pair, x: Sent, s': SessionStructure, eph: Name)
    requires EndInv(p.schedule, p.me, p.initiator) && x.epoch < |p.schedule.keys| && AcceptSummary(p, x, s', eph)
    requires FindChain(p.me.session.receiverChains, p.schedule.keys[x.epoch]).None? <==> !Retained(p.me.epoch, x.epoch)
    ensures var p' := Accepted(p, x, s', eph);
            EndInv(p'.schedule, p'.me, p.initiator)
  {
    var p' := Accepted(p, x, s', eph);
    assert OnSchedule(p'.schedule, s', p'.me.epoch);
    EndFromParts(p'.schedule, p.me, p'.me, p.initiator);
  }

  /** An end that received: what it sent is still accounted for, the rest is checked part by part. */
  lemma EndFromParts(sch: Schedule, me: End, me': End, initiator: bool)
    requires OnSchedule(sch, me'.session, me'.epoch) && (me'.epoch == me.epoch || me'.epoch == me.epoch + 2)
    requires (me.epoch % 2 == 1) == initiator
    requires me'.session.version == CURRENT_VERSION && SessionInv(me'.session) && Unspent(me'.session, me'.taken)
    requires StoresAreWindows(me'.session.receiverChains, me'.taken) && me'.sent == me.sent
    requires me'.epoch == me.epoch ==> me'.session.senderChain == me.session.senderChain
    requires forall i :: 0 <= i < |me.sent| ==> SentInv(me, me.sent[i], initiator)
    ensures EndInv(sch, me', initiator)
  {
    AcceptKeepsSent(me, me', initiator);
  }

  lemma KeptPair(p: Pair, me': End)
    requires PairInv(p) && EndInv(p.schedule, me', p.initiator) && me'.epoch == p.me.epoch
    requires me'.session.localIdentity == p.me.session.localIdentity
             && me'.session.remoteIdentity == p.me.session.remoteIdentity
    ensures PairInv(p.(me := me'))
  {
  }

  lemma RatchetedPair(p: Pair, me': End, eph: Name)
    requires PairInv(p) && eph !in p.schedule.keys && |p.schedule.keys| == p.me.epoch + 2
    requires EndInv(Extend(p.schedule, eph), me', p.initiator) && me'.epoch == p.me.epoch + 2
    requires me'.session.localIdentity == p.me.session.localIdentity
             && me'.session.remoteIdentity == p.me.session.remoteIdentity
    ensures PairInv(p.(me := me', schedule := Extend(p.schedule, eph)))
  {
    RatchetKeepsPeer(p, eph);
  }

  /** A new ratchet key of `me` does not disturb the peer. */
  lemma RatchetKeepsPeer(p: Pair, eph: Name)
    requires PairInv(p) && eph !in p.schedule.keys
    ensures Distinct(Extend(p.schedule, eph).keys) && EndInv(Extend(p.schedule, eph), p.peer, !p.initiator)
  {
    ExtendKeepsSchedule(p.schedule, eph, p.peer.session, p.peer.epoch);
  }

  lemma SendKeepsPair(p: Pair, step: PairStep)
    requires PairInv(p) && step.PairSend? && CanSend(p.me)
    ensures PairInv(p.(me := SendFrom(p.me, step)))
    ensures EncryptWithState(p.me.session, step.plaintext, step.pqState, step.pqKey, step.pq).1
         == MessageOf(p.schedule, p.me.session, SendFrom(p.me, step).sent[|p.me.sent|])
  {
    var end' := SendFrom(p.me, step);
    assert forall slot: Slot :: CanYield(end'.session, slot) <==> CanYield(p.me.session, slot);
    forall i | 0 <= i < |end'.sent| ensures SentInv(end', end'.sent[i], p.initiator) {
      if i < |p.me.sent| {
        assert SentInv(p.me, p.me.sent[i], p.initiator);
      }
    }
  }
}
