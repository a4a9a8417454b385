/**
 The post-quantum ratchet beside the Double Ratchet (rust/protocol/src/session_cipher.rs:19-147 and 599-693): whatever
 it is, its state at the two ends moves by exactly its own sends and by its receipts of the messages that are accepted.

 It is given by what it may send, which is random, and by what it makes of a message. Any relation between the two ends
 that these keep holds in every run of a pair; a ratchet that so relates the ends that no message which did not arrive
 before is lost on them leaves delivery to the windows alone.
 */
module PostQuantum {
  import opened Prelude
  import opened Symbolic
  import opened RatchetKeys
  import opened Messages
  import opened SessionCipher
  import opened Handshake
  import opened LockStep
  import opened PairRuns

  datatype Ratchet = Ratchet(
    sends: (PqState, PqState, Option<Term>, PqMessage) -> bool,
    recv: (PqState, PqMessage) -> Option<(PqState, Option<Term>)>)

  datatype Transfer = Transfer(message: PqMessage, key: Option<Term>)

  /** One end: its state, what it sent, and the positions of what it received among what the other end sent. */
  datatype PqEnd = PqEnd(state: PqState, sent: seq<Transfer>, received: set<nat>)

  type Relation = (PqEnd, PqEnd) -> bool

  ghost predicate Symmetric(rel: Relation) {
    forall a, b :: rel(a, b) ==> rel(b, a)
  }

  /** Sending keeps the relation, and so does receiving a message with the key it was sent with, once each. */
  ghost predicate SendKeeps(r: Ratchet, rel: Relation, a: PqEnd, b: PqEnd) {
    forall state, key, message :: r.sends(a.state, state, key, message) && rel(a, b) ==>
      rel(PqEnd(state, a.sent + [Transfer(message, key)], a.received), b)
  }

  ghost predicate RecvKeeps(r: Ratchet, rel: Relation, a: PqEnd, b: PqEnd) {
    forall i, state ::
      (0 <= i < |b.sent| && i !in a.received && rel(a, b)
       && r.recv(a.state, b.sent[i].message) == Some((state, b.sent[i].key))) ==>
        rel(PqEnd(state, a.sent, a.received + {i}), b)
  }

  ghost predicate Keeps(r: Ratchet, rel: Relation) {
    Symmetric(rel) && (forall a, b :: SendKeeps(r, rel, a, b)) && (forall a, b :: RecvKeeps(r, rel, a, b))
  }

  /** Ends so related lose no message that did not arrive before. */
  ghost predicate Reliable(r: Ratchet, rel: Relation) {
    forall a, b, i :: rel(a, b) && 0 <= i < |b.sent| && i !in a.received ==>
      r.recv(a.state, b.sent[i].message).Some? && r.recv(a.state, b.sent[i].message).value.1 == b.sent[i].key
  }

  predicate NoKeys(ts: seq<Transfer>) {
    forall i :: 0 <= i < |ts| ==> ts[i].key.None?
  }

  /** A ratchet that is switched off, sending nothing and giving no keys, is reliable. */
  lemma SwitchedOffIsReliable(off: Ratchet, rel: Relation)
    requires forall a, a', key, m :: off.sends(a, a', key, m) ==> key.None?
    requires forall a, m :: off.recv(a, m) == Some((a, None))
    requires forall a, b :: rel(a, b) <==> NoKeys(a.sent) && NoKeys(b.sent)
    ensures Keeps(off, rel) && Reliable(off, rel)
  {
  }

  // ---------------------------------------------------------------------------------------------
  // Runs over this ratchet

  ghost predicate Uses(r: Ratchet, p: Pair, step: PairStep) {
    match step
    case PairSend(side, _, state, key, message) => r.sends(SeenFrom(p, side).me.session.pq, state, key, message)
    case PairDeliver(_, _, _, o) => o.pqRecv == r.recv
  }

  ghost predicate UsesAlways(r: Ratchet, p: Pair, steps: seq<PairStep>)
    requires IsPairRun(p, steps)
    decreases |steps|
  {
    steps == [] || (Uses(r, p, steps[0]) && UsesAlways(r, PairNext(p, steps[0]), steps[1..]))
  }

  /** The positions of the messages the named end received, after a step. */
  ghost function ReceivedNext(p: Pair, step: PairStep, side: bool, before: set<nat>): set<nat>
    requires PairEnabled(p, step)
  {
    var q := SeenFrom(p, side);
    if step.PairDeliver? && step.initiator == side && Outcome(q, q.peer.sent[step.index], step.eph, step.oracles).Ok?
    then before + {step.index} else before
  }

  ghost function ReceivedAfter(p: Pair, steps: seq<PairStep>, side: bool, before: set<nat>): set<nat>
    requires IsPairRun(p, steps)
    decreases |steps|
  {
    if steps == [] then before
    else ReceivedAfter(PairNext(p, steps[0]), steps[1..], side, ReceivedNext(p, steps[0], side, before))
  }

  function Transfers(sent: seq<Sent>): (ts: seq<Transfer>)
    ensures |ts| == |sent|
  {
    seq(|sent|, i requires 0 <= i < |sent| => Transfer(sent[i].pq, sent[i].pqKey))
  }

  function PqEndOf(end: End, received: set<nat>): PqEnd {
    PqEnd(end.session.pq, Transfers(end.sent), received)
  }

  /** What was received is among the accepted slots. */
  ghost predicate Covered(q: Pair, received: set<nat>) {
    forall i :: i in received ==>
      && i < |q.peer.sent| && q.peer.sent[i].epoch < |q.schedule.keys|
      && (OriginAt(q.schedule, q.peer.sent[i].epoch), q.peer.sent[i].counter) in q.me.taken
  }

  /** The ends are related, given what each received. */
  ghost predicate Related(rel: Relation, q: Pair, mine: set<nat>, theirs: set<nat>) {
    && rel(PqEndOf(q.me, mine), PqEndOf(q.peer, theirs))
    && Covered(q, mine) && Covered(SeenFrom(q, !q.initiator), theirs)
  }

  lemma RelatedFromPeer(rel: Relation, q: Pair, mine: set<nat>, theirs: set<nat>)
    requires Symmetric(rel) && Related(rel, q, mine, theirs)
    ensures Related(rel, SeenFrom(q, !q.initiator), theirs, mine)
  {
  }

  lemma SendKeepsRelated(r: Ratchet, rel: Relation, q: Pair, step: PairStep, mine: set<nat>, theirs: set<nat>)
    requires Keeps(r, rel) && Related(rel, q, mine, theirs)
    requires step.PairSend? && CanSend(q.me) && r.sends(q.me.session.pq, step.pqState, step.pqKey, step.pq)
    ensures Related(rel, q.(me := SendFrom(q.me, step)), mine, theirs)
  {
    var me' := SendFrom(q.me, step);
    assert SendKeeps(r, rel, PqEndOf(q.me, mine), PqEndOf(q.peer, theirs));
    assert Transfers(me'.sent) == Transfers(q.me.sent) + [Transfer(step.pq, step.pqKey)];
  }

  /** What accepting a message makes of the state. */
  lemma AcceptMovesState(q: Pair, x: Sent, eph: Name, o: Oracles)
    requires x.epoch < |q.schedule.keys| && Outcome(q, x, eph, o).Ok?
    ensures var s := Outcome(q, x, eph, o).value.0;
            o.pqRecv(q.me.session.pq, x.pq).Some? && o.pqRecv(q.me.session.pq, x.pq).value.0 == s.pq
  {
  }

  lemma CoveredLater(q: Pair, q': Pair, received: set<nat>)
    requires Covered(q, received) && q.me.taken <= q'.me.taken && q'.peer.sent == q.peer.sent
    requires q'.schedule == q.schedule || (exists key :: q'.schedule == Extend(q.schedule, key))
    ensures Covered(q', received)
  {
    forall i | i in received
      ensures i < |q'.peer.sent| && q'.peer.sent[i].epoch < |q'.schedule.keys|
      ensures (OriginAt(q'.schedule, q'.peer.sent[i].epoch), q'.peer.sent[i].counter) in q'.me.taken
    {
      if q'.schedule != q.schedule {
        var key :| q'.schedule == Extend(q.schedule, key);
        ExtendKeeps(q.schedule, key, q.peer.sent[i].epoch);
      }
    }
  }

  lemma AcceptKeepsRelated(r: Ratchet, rel: Relation, q: Pair, step: PairStep, mine: set<nat>, theirs: set<nat>)
    requires Keeps(r, rel) && Related(rel, q, mine, theirs) && PairInv(q)
    requires step.PairDeliver? && step.oracles.pqRecv == r.recv && step.index < |q.peer.sent|
    requires CanReceive(q, q.peer.sent[step.index], step.eph)
    requires Outcome(q, q.peer.sent[step.index], step.eph, step.oracles).Ok?
    ensures var x := q.peer.sent[step.index];
            Related(rel, Accepted(q, x, Outcome(q, x, step.eph, step.oracles).value.0, step.eph),
                    mine + {step.index}, theirs)
  {
    var x, o := q.peer.sent[step.index], step.oracles;
    var s := Outcome(q, x, step.eph, o).value.0;
    var q' := Accepted(q, x, s, step.eph);
    var floor := OutcomeInAnyPair(q, x, step.eph, o);
    AcceptMovesState(q, x, step.eph, o);
    var a, b := PqEndOf(q.me, mine), PqEndOf(q.peer, theirs);
    assert step.index !in mine;
    assert RecvKeeps(r, rel, a, b);
    assert b.sent[step.index] == Transfer(x.pq, x.pqKey);
    assert rel(PqEnd(s.pq, a.sent, a.received + {step.index}), b);
    CoveredLater(q, q', mine);
    if q'.schedule != q.schedule {
      ExtendKeeps(q.schedule, step.eph, x.epoch);
    }
    CoveredLater(SeenFrom(q, !q.initiator), SeenFrom(q', !q.initiator), theirs);
  }

  lemma StepKeepsRelated(r: Ratchet, rel: Relation, p: Pair, step: PairStep, mine: set<nat>, theirs: set<nat>)
    requires Keeps(r, rel) && PairInv(p) && PairEnabled(p, step) && Uses(r, p, step)
    requires Related(rel, SeenFrom(p, step.initiator), mine, theirs)
    ensures Related(rel, SeenFrom(PairNext(p, step), step.initiator), ReceivedNext(p, step, step.initiator, mine),
                    theirs)
  {
    var q := SeenFrom(p, step.initiator);
    SeenFromKeeps(p, step.initiator);
    if step.PairSend? {
      SendKeepsRelated(r, rel, q, step, mine, theirs);
    } else if Outcome(q, q.peer.sent[step.index], step.eph, step.oracles).Ok? {
      AcceptKeepsRelated(r, rel, q, step, mine, theirs);
    }
  }

  lemma StepKeepsEitherSide(r: Ratchet, rel: Relation, p: Pair, step: PairStep, side: bool, mine: set<nat>,
                            theirs: set<nat>)
    requires Keeps(r, rel) && PairInv(p) && PairEnabled(p, step) && Uses(r, p, step)
    requires Related(rel, SeenFrom(p, side), mine, theirs)
    ensures Related(rel, SeenFrom(PairNext(p, step), side), ReceivedNext(p, step, side, mine),
                    ReceivedNext(p, step, !side, theirs))
  {
    if step.initiator == side {
      StepKeepsRelated(r, rel, p, step, mine, theirs);
    } else {
      RelatedFromOther(rel, p, side, mine, theirs);
      StepKeepsRelated(r, rel, p, step, theirs, mine);
      RelatedFromOther(rel, PairNext(p, step), !side, ReceivedNext(p, step, !side, theirs), mine);
    }
  }

  lemma RelatedFromOther(rel: Relation, p: Pair, side: bool, mine: set<nat>, theirs: set<nat>)
    requires Symmetric(rel) && Related(rel, SeenFrom(p, side), mine, theirs)
    ensures Related(rel, SeenFrom(p, !side), theirs, mine)
  {
    RelatedFromPeer(rel, SeenFrom(p, side), mine, theirs);
  }

  /** Whatever relation between the ends a ratchet keeps by itself, it keeps in every run of a pair. */
  lemma {:induction false} RatchetsStayRelated(r: Ratchet, rel: Relation, p: Pair, steps: seq<PairStep>, side: bool,
                                               mine: set<nat>, theirs: set<nat>)
    requires Keeps(r, rel) && PairInv(p) && IsPairRun(p, steps) && UsesAlways(r, p, steps)
    requires Related(rel, SeenFrom(p, side), mine, theirs)
    ensures Related(rel, SeenFrom(AfterPair(p, steps), side), ReceivedAfter(p, steps, side, mine),
                    ReceivedAfter(p, steps, !side, theirs))
    decreases |steps|
  {
    if steps != [] {
      StepKeepsPair(p, steps[0]);
      StepKeepsEitherSide(r, rel, p, steps[0], side, mine, theirs);
      RatchetsStayRelated(r, rel, PairNext(p, steps[0]), steps[1..], side, ReceivedNext(p, steps[0], side, mine),
                          ReceivedNext(p, steps[0], !side, theirs));
    }
  }

  // ---------------------------------------------------------------------------------------------
  // From the handshake on

  /** The relation holds between the two ends that the post-quantum key of the handshake gives. */
  ghost predicate RelatedAtStart(rel: Relation, info: Label, secret: Term, alice: Name, bob: Name, pqInit: PqInit) {
    var key := HandshakePqKey(info, secret);
    rel(PqEnd(pqInit(key, true, alice == bob), [], {}), PqEnd(pqInit(key, false, alice == bob), [], {}))
  }

  /** From any handshake and after any interleaving, the two states and what was sent and accepted are still related. */
  lemma RatchetsAlwaysRelated(r: Ratchet, rel: Relation, info: Label, secret: Term, bobRatchet: Name, first: Name,
                              alice: Name, bob: Name, base: Name, pqInit: PqInit, steps: seq<PairStep>, side: bool)
    requires IsHandshakeLabel(info) && bobRatchet != first
    requires Keeps(r, rel) && RelatedAtStart(rel, info, secret, alice, bob, pqInit)
    requires var start := StartPair(info, secret, bobRatchet, first, alice, bob, base, pqInit);
             IsPairRun(start, steps) && UsesAlways(r, start, steps)
    ensures var start := StartPair(info, secret, bobRatchet, first, alice, bob, base, pqInit);
            Related(rel, SeenFrom(AfterPair(start, steps), side), ReceivedAfter(start, steps, side, {}),
                    ReceivedAfter(start, steps, !side, {}))
  {
    var start := StartPair(info, secret, bobRatchet, first, alice, bob, base, pqInit);
    StartPairInv(info, secret, bobRatchet, first, alice, bob, base, pqInit);
    assert Related(rel, start, {}, {});
    RelatedFromPeer(rel, start, {}, {});
    RatchetsStayRelated(r, rel, start, steps, side, {}, {});
  }

  lemma ReliableDelivers(r: Ratchet, rel: Relation, q: Pair, mine: set<nat>, theirs: set<nat>, x: Sent, o: Oracles)
    requires Reliable(r, rel) && Related(rel, q, mine, theirs) && o.pqRecv == r.recv
    requires x in q.peer.sent && x.epoch < |q.schedule.keys|
    requires (OriginAt(q.schedule, x.epoch), x.counter) !in q.me.taken
    ensures PqDelivers(q, x, o)
  {
    var i :| 0 <= i < |q.peer.sent| && q.peer.sent[i] == x;
    assert i !in mine;
    assert PqEndOf(q.peer, theirs).sent[i] == Transfer(x.pq, x.pqKey);
  }

  /**
   With a post-quantum ratchet that loses no message of its peer that did not arrive before, delivery is up to the
   windows alone: after any interleaving, any message the peer emitted is accepted if and only if its epoch is in reach
   and its index was neither accepted before nor evicted nor too far ahead.
   */
  lemma ReliableRatchetDelivers(r: Ratchet, rel: Relation, info: Label, secret: Term, bobRatchet: Name, first: Name,
                                alice: Name, bob: Name, base: Name, pqInit: PqInit, steps: seq<PairStep>,
                                initiator: bool, k: nat, eph: Name, o: Oracles)
    returns (x: Sent, floor: nat)
    requires IsHandshakeLabel(info) && bobRatchet != first
    requires Keeps(r, rel) && Reliable(r, rel) && RelatedAtStart(rel, info, secret, alice, bob, pqInit)
    requires var start := StartPair(info, secret, bobRatchet, first, alice, bob, base, pqInit);
             && IsPairRun(start, steps) && UsesAlways(r, start, steps) && o.pqRecv == r.recv
             && k < |EmittedBy(start, steps, !initiator)| && eph !in AfterPair(start, steps).schedule.keys
    ensures var start := StartPair(info, secret, bobRatchet, first, alice, bob, base, pqInit);
            var p, e := SeenFrom(AfterPair(start, steps), initiator), EmittedBy(start, steps, !initiator)[k];
            var out := DecryptWithState(p.me.session, e.message, eph, o);
            && PairInv(p) && x in p.peer.sent && x.epoch < |p.schedule.keys| && IsFloor(p, x.epoch, floor)
            && e.message.content.ratchetKey == p.schedule.keys[x.epoch] && e.message.content.counter == x.counter
            && (out.Ok? <==>
                  && InReach(p.me.epoch, x.epoch)
                  && (OriginAt(p.schedule, x.epoch), x.counter) !in p.me.taken && x.counter >= floor
                  && !TooFar(p.me.session, MeetingChain(p, x.epoch).chainKey.index, x.counter))
            && (out.Ok? ==> out.value.1 == e.plaintext)
  {
    var start := StartPair(info, secret, bobRatchet, first, alice, bob, base, pqInit);
    x, floor := EveryRunDelivers(info, secret, bobRatchet, first, alice, bob, base, pqInit, steps, initiator, k, eph,
                               o);
    RatchetsAlwaysRelated(r, rel, info, secret, bobRatchet, first, alice, bob, base, pqInit, steps, initiator);
    var p := SeenFrom(AfterPair(start, steps), initiator);
    if (OriginAt(p.schedule, x.epoch), x.counter) !in p.me.taken {
      ReliableDelivers(r, rel, p, ReceivedAfter(start, steps, initiator, {}),
                       ReceivedAfter(start, steps, !initiator, {}), x, o);
    }
  }
}
