/**
 Whole runs of a pair: any interleaving of sends and of deliveries of what was emitted, from the handshake on, and the
 outcome of every delivery that may follow.
 */
module PairRuns {
  import opened Symbolic
  import opened RatchetKeys
  import opened Messages
  import opened SessionCipher
  import opened SkippedKeys
  import opened SessionInvariants
  import opened Handshake
  import opened LockStep

  /**
   What the window means: up to an eviction floor, a message on a retained or next chain is available exactly when
   the receiver has not accepted it before.
   */
  lemma WindowIsWhatWasNotAccepted(p: Pair, x: Sent) returns (floor: nat)
    requires PairInv(p) && x in p.peer.sent && x.epoch < |p.schedule.keys| && InReach(p.me.epoch, x.epoch)
    ensures var c := MeetingChain(p, x.epoch);
            && FloorOk(c, floor) && StoreIsWindow(c, p.me.taken, floor)
            && (Available(c, x.counter) <==>
                (OriginAt(p.schedule, x.epoch), x.counter) !in p.me.taken && x.counter >= floor)
  {
    var c, slot := MeetingChain(p, x.epoch), (OriginAt(p.schedule, x.epoch), x.counter);
    MeetingChainInv(p, x.epoch);
    RetainedPosition(p.schedule, p.me.session.receiverChains, p.me.epoch, x.epoch);
    assert HasWindow(c, p.me.taken) by {
      if !Retained(p.me.epoch, x.epoch) {
        assert StoreIsWindow(c, p.me.taken, 0);
      }
    }
    floor :| FloorOk(c, floor) && StoreIsWindow(c, p.me.taken, floor);
    if x.counter >= c.chainKey.index {
      assert CanYield(p.me.session, slot) by {
        if Retained(p.me.epoch, x.epoch) {
          assert ChainsYield(p.me.session.receiverChains, slot);
        } else {
          NextChainIsUpcoming(p, x.epoch, x.counter);
        }
      }
    }
  }

  lemma NextChainIsUpcoming(p: Pair, e: nat, n: nat)
    requires PairInv(p) && e == p.me.epoch + 1 && e < |p.schedule.keys|
    ensures Upcoming(p.me.session.rootKey, (OriginAt(p.schedule, e), n))
  {
    RootStep(p.me.session.rootKey, Agree(p.schedule.keys[e - 1], p.schedule.keys[e]), Discontinuity);
  }

  /**
   The eviction floor of the chain met by messages of an epoch: below its index, exactly what was taken or evicted is
   gone.
   */
  ghost predicate IsFloor(p: Pair, e: nat, floor: nat)
    requires PairInv(p) && e < |p.schedule.keys|
  {
    InReach(p.me.epoch, e) ==>
      FloorOk(MeetingChain(p, e), floor) && StoreIsWindow(MeetingChain(p, e), p.me.taken, floor)
  }

  lemma OutcomeInAnyPair(p: Pair, x: Sent, eph: Name, o: Oracles) returns (floor: nat)
    requires PairInv(p) && CanReceive(p, x, eph)
    ensures IsFloor(p, x.epoch, floor)
    ensures Outcome(p, x, eph, o).Ok? <==>
            && InReach(p.me.epoch, x.epoch)
            && (OriginAt(p.schedule, x.epoch), x.counter) !in p.me.taken && x.counter >= floor
            && !TooFar(p.me.session, MeetingChain(p, x.epoch).chainKey.index, x.counter)
            && PqDelivers(p, x, o)
    ensures Outcome(p, x, eph, o).Ok? ==> Outcome(p, x, eph, o).value.1 == x.plaintext
  {
    DeliveryOutcome(p, x, eph, o);
    floor := 0;
    if InReach(p.me.epoch, x.epoch) {
      floor := WindowIsWhatWasNotAccepted(p, x);
    }
  }

  /** The message is at most 2001 behind and at most 25000 ahead of the chain it meets. */
  ghost predicate Recent(p: Pair, x: Sent)
    requires PairInv(p) && x.epoch < |p.schedule.keys| && InReach(p.me.epoch, x.epoch)
  {
    var index := MeetingChain(p, x.epoch).chainKey.index;
    index <= x.counter + MAX_MESSAGE_KEYS + 1 && x.counter <= index + MAX_FORWARD_JUMPS
  }

  /**
   The promise to a caller, in any pair a run can reach: a message on a retained or the next chain that was not
   accepted before, is at most 2001 behind and at most 25000 ahead of the chain, is accepted and yields its plaintext
   whenever the post-quantum ratchet delivers.
   */
  lemma RecentMessageIsAccepted(p: Pair, x: Sent, eph: Name, o: Oracles)
    requires PairInv(p) && CanReceive(p, x, eph) && InReach(p.me.epoch, x.epoch) && PqDelivers(p, x, o)
    requires (OriginAt(p.schedule, x.epoch), x.counter) !in p.me.taken
    requires Recent(p, x)
    ensures Outcome(p, x, eph, o).Ok? && Outcome(p, x, eph, o).value.1 == x.plaintext
  {
    var floor := OutcomeInAnyPair(p, x, eph, o);
  }

  /**
   A message ahead of its chain that the post-quantum ratchet delivers is accepted if and only if it is at most 25000
   ahead, or the session is with oneself.
   */
  lemma FarAheadIff(p: Pair, x: Sent, eph: Name, o: Oracles)
    requires PairInv(p) && CanReceive(p, x, eph) && InReach(p.me.epoch, x.epoch) && PqDelivers(p, x, o)
    requires (OriginAt(p.schedule, x.epoch), x.counter) !in p.me.taken
    requires x.counter >= MeetingChain(p, x.epoch).chainKey.index
    ensures Outcome(p, x, eph, o).Ok? <==>
              || x.counter - MeetingChain(p, x.epoch).chainKey.index <= 25000
              || p.me.session.localIdentity == p.me.session.remoteIdentity
  {
    var floor := OutcomeInAnyPair(p, x, eph, o);
  }

  // ---------------------------------------------------------------------------------------------
  // Whole runs

  ghost predicate PairEnabled(p: Pair, step: PairStep) {
    var q := SeenFrom(p, step.initiator);
    match step
    case PairSend(_, _, _, _, _) => CanSend(q.me)
    case PairDeliver(_, index, eph, _) => index < |q.peer.sent| && CanReceive(q, q.peer.sent[index], eph)
  }

  ghost function PairNext(p: Pair, step: PairStep): Pair
    requires PairEnabled(p, step)
  {
    var q := SeenFrom(p, step.initiator);
    match step
    case PairSend(_, _, _, _, _) => q.(me := SendFrom(q.me, step))
    case PairDeliver(_, index, eph, o) =>
      match Outcome(q, q.peer.sent[index], eph, o)
      case Err(_) => p
      case Ok((s, _)) => Accepted(q, q.peer.sent[index], s, eph)
  }

  /** Lock step: every send and every delivery, accepted or not, keeps the invariant. */
  lemma StepKeepsPair(p: Pair, step: PairStep)
    requires PairInv(p) && PairEnabled(p, step)
    ensures PairInv(PairNext(p, step))
  {
    var q := SeenFrom(p, step.initiator);
    SeenFromKeeps(p, step.initiator);
    if step.PairSend? {
      SendKeepsPair(q, step);
    } else if Outcome(q, q.peer.sent[step.index], step.eph, step.oracles).Ok? {
      var x := q.peer.sent[step.index];
      var s' := Outcome(q, x, step.eph, step.oracles).value.0;
      AcceptSummarised(q, x, step.eph, step.oracles, s');
      AcceptKeepsPair(q, x, s', step.eph);
    }
  }

  /** The pair a handshake leaves behind. */
  function StartPair(info: Label, secret: Term, bobRatchet: Name, eph: Name, alice: Name, bob: Name, base: Name,
                     pqInit: PqInit)
    : Pair
  {
    Pair(Schedule(info, secret, [bobRatchet, eph]),
         End(InitAlice(info, secret, bobRatchet, eph, alice, bob, base, pqInit), 1, [], iset{}),
         End(InitBob(info, secret, bobRatchet, bob, alice, base, pqInit), 0, [], iset{}), true)
  }

  lemma StartPairInv(info: Label, secret: Term, bobRatchet: Name, eph: Name, alice: Name, bob: Name, base: Name,
                     pqInit: PqInit)
    requires IsHandshakeLabel(info) && bobRatchet != eph
    ensures PairInv(StartPair(info, secret, bobRatchet, eph, alice, bob, base, pqInit))
  {
    var p := StartPair(info, secret, bobRatchet, eph, alice, bob, base, pqInit);
    AgreeCancels(bobRatchet, eph, eph);
    NewAliceSession(info, secret, bobRatchet, eph, alice, bob, base, pqInit, iset{});
    NewBobSession(info, secret, bobRatchet, bob, alice, base, pqInit, iset{});
    FreshChainInv(bobRatchet, HandshakeChain(info, secret));
    assert RootAt(p.schedule, 0) == HandshakeRoot(info, secret);
    assert ChainMatches(p.schedule, p.me.session.receiverChains[0], 0);
  }

  ghost predicate IsPairRun(p: Pair, steps: seq<PairStep>)
    decreases |steps|
  {
    steps == [] || (PairEnabled(p, steps[0]) && IsPairRun(PairNext(p, steps[0]), steps[1..]))
  }

  ghost function AfterPair(p: Pair, steps: seq<PairStep>): Pair
    requires IsPairRun(p, steps)
    decreases |steps|
  {
    if steps == [] then p else AfterPair(PairNext(p, steps[0]), steps[1..])
  }

  /** In every interleaving of sends and deliveries the two ends stay in lock step. */
  lemma {:induction false} LockStepAlways(p: Pair, steps: seq<PairStep>)
    requires PairInv(p) && IsPairRun(p, steps)
    ensures PairInv(AfterPair(p, steps))
    decreases |steps|
  {
    if steps != [] {
      StepKeepsPair(p, steps[0]);
      LockStepAlways(PairNext(p, steps[0]), steps[1..]);
    }
  }

  // ---------------------------------------------------------------------------------------------
  // What was emitted is what is delivered

  /** A message on the network and what it was made from. */
  datatype Emission = Emission(message: SignalMessage, plaintext: Plaintext)

  /** What the named end emits in a step. */
  ghost function Produced(p: Pair, step: PairStep, initiator: bool): seq<Emission>
    requires PairEnabled(p, step)
  {
    if step.PairSend? && step.initiator == initiator then
      var s := SeenFrom(p, initiator).me.session;
      [Emission(EncryptWithState(s, step.plaintext, step.pqState, step.pqKey, step.pq).1, step.plaintext)]
    else []
  }

  /** What the named end emits in a run. */
  ghost function EmittedBy(p: Pair, steps: seq<PairStep>, initiator: bool): seq<Emission>
    requires IsPairRun(p, steps)
    decreases |steps|
  {
    if steps == [] then []
    else Produced(p, steps[0], initiator) + EmittedBy(PairNext(p, steps[0]), steps[1..], initiator)
  }

  predicate SentWithin(sch: Schedule, end: End) {
    forall i :: 0 <= i < |end.sent| ==> end.sent[i].epoch < |sch.keys|
  }

  /** What the entries of sent messages of an end stand for. */
  function OnNetwork(sch: Schedule, end: End): seq<Emission>
    requires SentWithin(sch, end)
  {
    seq(|end.sent|, i requires 0 <= i < |end.sent| =>
      Emission(MessageOf(sch, end.session, end.sent[i]), end.sent[i].plaintext))
  }

  lemma PairSentWithin(p: Pair)
    requires PairInv(p)
    ensures SentWithin(p.schedule, p.me) && SentWithin(p.schedule, p.peer)
  {
    forall i | 0 <= i < |p.me.sent| ensures p.me.sent[i].epoch < |p.schedule.keys| {
      assert SentInv(p.me, p.me.sent[i], p.initiator);
    }
    forall i | 0 <= i < |p.peer.sent| ensures p.peer.sent[i].epoch < |p.schedule.keys| {
      assert SentInv(p.peer, p.peer.sent[i], !p.initiator);
    }
  }

  /** The schedule is kept or gains a key, and the end keeps its identities. */
  predicate Continues(sch: Schedule, end: End, sch': Schedule, end': End) {
    && (sch' == sch || (|sch'.keys| > 0 && sch' == Extend(sch, sch'.keys[|sch'.keys| - 1])))
    && end'.session.localIdentity == end.session.localIdentity
    && end'.session.remoteIdentity == end.session.remoteIdentity
  }

  /** An entry stands for the same message ever after. */
  lemma MessageIsFixed(sch: Schedule, end: End, sch': Schedule, end': End, x: Sent)
    requires x.epoch < |sch.keys| && Continues(sch, end, sch', end')
    ensures x.epoch < |sch'.keys| && MessageOf(sch', end'.session, x) == MessageOf(sch, end.session, x)
  {
    if sch' != sch {
      ExtendKeeps(sch, sch'.keys[|sch'.keys| - 1], x.epoch);
    }
  }

  lemma KeptOnNetwork(sch: Schedule, end: End, sch': Schedule, end': End)
    requires SentWithin(sch, end) && Continues(sch, end, sch', end') && end'.sent == end.sent
    ensures SentWithin(sch', end') && OnNetwork(sch', end') == OnNetwork(sch, end)
  {
    forall i | 0 <= i < |end.sent|
      ensures end.sent[i].epoch < |sch'.keys|
      ensures MessageOf(sch', end'.session, end.sent[i]) == MessageOf(sch, end.session, end.sent[i])
    {
      MessageIsFixed(sch, end, sch', end', end.sent[i]);
    }
  }

  lemma AcceptContinues(p: Pair, x: Sent, eph: Name, o: Oracles)
    requires x.epoch < |p.schedule.keys| && Outcome(p, x, eph, o).Ok?
    ensures var p' := Accepted(p, x, Outcome(p, x, eph, o).value.0, eph);
            && Continues(p.schedule, p.me, p'.schedule, p'.me) && p'.me.sent == p.me.sent
            && Continues(p.schedule, p.peer, p'.schedule, p'.peer) && p'.peer == p.peer
  {
    SummaryOfFields(p.me.session, MessageOf(p.schedule, p.peer.session, x), eph, o);
  }

  lemma SendOnNetwork(p: Pair, step: PairStep)
    requires PairInv(p) && step.PairSend? && CanSend(p.me)
    ensures var p' := p.(me := SendFrom(p.me, step));
            && SentWithin(p.schedule, p.me) && SentWithin(p.schedule, p'.me)
            && OnNetwork(p.schedule, p'.me)
               == OnNetwork(p.schedule, p.me)
                  + [Emission(EncryptWithState(p.me.session, step.plaintext, step.pqState, step.pqKey, step.pq).1,
                              step.plaintext)]
  {
    SendKeepsPair(p, step);
    PairSentWithin(p);
    PairSentWithin(p.(me := SendFrom(p.me, step)));
  }

  /** What the named end has on the network afterwards is what it had before and `more`. */
  ghost predicate Grows(before: Pair, after: Pair, initiator: bool, more: seq<Emission>) {
    var p, q := SeenFrom(before, initiator), SeenFrom(after, initiator);
    && SentWithin(p.schedule, p.me) && SentWithin(q.schedule, q.me)
    && OnNetwork(q.schedule, q.me) == OnNetwork(p.schedule, p.me) + more
  }

  lemma GrowsOnwards(p: Pair, q: Pair, r: Pair, initiator: bool, more: seq<Emission>, later: seq<Emission>)
    requires Grows(p, q, initiator, more) && Grows(q, r, initiator, later)
    ensures Grows(p, r, initiator, more + later)
  {
  }

  lemma GrowsByNothing(p: Pair, initiator: bool)
    requires PairInv(p)
    ensures Grows(p, p, initiator, [])
  {
    PairSentWithin(p);
  }

  lemma SendGrows(p: Pair, step: PairStep, initiator: bool)
    requires PairInv(p) && step.PairSend? && CanSend(p.me) && step.initiator == p.initiator
    ensures Grows(p, p.(me := SendFrom(p.me, step)), initiator,
                  if initiator == step.initiator then
                    [Emission(EncryptWithState(p.me.session, step.plaintext, step.pqState, step.pqKey, step.pq).1,
                              step.plaintext)]
                  else [])
  {
    PairSentWithin(p);
    SendOnNetwork(p, step);
  }

  lemma AcceptGrows(p: Pair, x: Sent, eph: Name, o: Oracles, initiator: bool)
    requires PairInv(p) && x.epoch < |p.schedule.keys| && Outcome(p, x, eph, o).Ok?
    ensures Grows(p, Accepted(p, x, Outcome(p, x, eph, o).value.0, eph), initiator, [])
  {
    PairSentWithin(p);
    AcceptContinues(p, x, eph, o);
    var p' := Accepted(p, x, Outcome(p, x, eph, o).value.0, eph);
    KeptOnNetwork(p.schedule, p.me, p'.schedule, p'.me);
    KeptOnNetwork(p.schedule, p.peer, p'.schedule, p'.peer);
  }

  lemma GrowsFromEitherSide(p: Pair, q: Pair, initiator: bool, side: bool, more: seq<Emission>)
    requires Grows(SeenFrom(p, side), q, initiator, more)
    ensures Grows(p, q, initiator, more)
  {
  }

  /** A step adds to the network what it emits and changes nothing on it. */
  lemma StepGrows(p: Pair, step: PairStep, initiator: bool)
    requires PairInv(p) && PairEnabled(p, step)
    ensures Grows(p, PairNext(p, step), initiator, Produced(p, step, initiator))
  {
    var q := SeenFrom(p, step.initiator);
    SeenFromKeeps(p, step.initiator);
    if step.PairSend? {
      SendGrows(q, step, initiator);
      GrowsFromEitherSide(p, PairNext(p, step), initiator, step.initiator, Produced(p, step, initiator));
    } else if Outcome(q, q.peer.sent[step.index], step.eph, step.oracles).Ok? {
      AcceptGrows(q, q.peer.sent[step.index], step.eph, step.oracles, initiator);
      GrowsFromEitherSide(p, PairNext(p, step), initiator, step.initiator, []);
    } else {
      GrowsByNothing(p, initiator);
    }
  }

  /** After a run the network holds what it held before and what the run emitted. */
  lemma {:induction false} RunGrows(p: Pair, steps: seq<PairStep>, initiator: bool)
    requires PairInv(p) && IsPairRun(p, steps)
    ensures Grows(p, AfterPair(p, steps), initiator, EmittedBy(p, steps, initiator))
    decreases |steps|
  {
    if steps == [] {
      GrowsByNothing(p, initiator);
    } else {
      var p', rest := PairNext(p, steps[0]), steps[1..];
      StepKeepsPair(p, steps[0]);
      StepGrows(p, steps[0], initiator);
      RunGrows(p', rest, initiator);
      GrowsOnwards(p, p', AfterPair(p', rest), initiator, Produced(p, steps[0], initiator),
                   EmittedBy(p', rest, initiator));
    }
  }

  /** From a pair that has not sent anything, the k-th entry of an end stands for the k-th message it emitted. */
  lemma EntryOf(p: Pair, steps: seq<PairStep>, initiator: bool, k: nat) returns (x: Sent)
    requires PairInv(p) && IsPairRun(p, steps) && p.me.sent == p.peer.sent == []
    requires k < |EmittedBy(p, steps, initiator)|
    ensures var q, e := SeenFrom(AfterPair(p, steps), !initiator), EmittedBy(p, steps, initiator)[k];
            && x in q.peer.sent && x.epoch < |q.schedule.keys|
            && MessageOf(q.schedule, q.peer.session, x) == e.message && x.plaintext == e.plaintext
  {
    RunGrows(p, steps, initiator);
    var q := SeenFrom(AfterPair(p, steps), initiator);
    var before := SeenFrom(p, initiator);
    assert OnNetwork(before.schedule, before.me) == [];
    assert OnNetwork(q.schedule, q.me)[k] == EmittedBy(p, steps, initiator)[k];
    x := q.me.sent[k];
  }

  /**
   The whole story: from a handshake under any label, after any interleaving of sends and deliveries, any message the
   peer emitted is accepted if and only if its epoch is in reach, its index was neither accepted before nor evicted nor
   too far ahead, and the post-quantum ratchet delivers; it then yields what was sent.
   */
  lemma EveryRunDelivers(info: Label, secret: Term, bobRatchet: Name, first: Name, alice: Name, bob: Name, base: Name,
                         pqInit: PqInit, steps: seq<PairStep>, initiator: bool, k: nat, eph: Name, o: Oracles)
    returns (x: Sent, floor: nat)
    requires IsHandshakeLabel(info) && bobRatchet != first
    requires IsPairRun(StartPair(info, secret, bobRatchet, first, alice, bob, base, pqInit), steps)
    requires k < |EmittedBy(StartPair(info, secret, bobRatchet, first, alice, bob, base, pqInit), steps, !initiator)|
    requires eph !in AfterPair(StartPair(info, secret, bobRatchet, first, alice, bob, base, pqInit),
                              steps).schedule.keys
    ensures var start := StartPair(info, secret, bobRatchet, first, alice, bob, base, pqInit);
            var p, e := SeenFrom(AfterPair(start, steps), initiator), EmittedBy(start, steps, !initiator)[k];
            var out := DecryptWithState(p.me.session, e.message, eph, o);
            && PairInv(p) && x in p.peer.sent && x.epoch < |p.schedule.keys| && IsFloor(p, x.epoch, floor)
            && e.message.content.ratchetKey == p.schedule.keys[x.epoch] && e.message.content.counter == x.counter
            && (out.Ok? <==>
                  && InReach(p.me.epoch, x.epoch)
                  && (OriginAt(p.schedule, x.epoch), x.counter) !in p.me.taken && x.counter >= floor
                  && !TooFar(p.me.session, MeetingChain(p, x.epoch).chainKey.index, x.counter)
                  && PqDelivers(p, x, o))
            && (out.Ok? ==> out.value.1 == e.plaintext)
  {
    var start := StartPair(info, secret, bobRatchet, first, alice, bob, base, pqInit);
    StartPairInv(info, secret, bobRatchet, first, alice, bob, base, pqInit);
    LockStepAlways(start, steps);
    SeenFromKeeps(AfterPair(start, steps), initiator);
    x := EntryOf(start, steps, !initiator, k);
    floor := OutcomeInAnyPair(SeenFrom(AfterPair(start, steps), initiator), x, eph, o);
  }

  /**
   The promise to a caller: from a handshake under any label and after any interleaving, an emitted message on a
   retained or the next chain that was not accepted before, is at most 2001 behind and at most 25000 ahead of the chain,
   is accepted and yields its plaintext whenever the post-quantum ratchet delivers.
   */
  lemma EveryRunAcceptsRecent(info: Label, secret: Term, bobRatchet: Name, first: Name, alice: Name, bob: Name,
                              base: Name, pqInit: PqInit, steps: seq<PairStep>, initiator: bool, k: nat, eph: Name,
                              o: Oracles)
    returns (x: Sent)
    requires IsHandshakeLabel(info) && bobRatchet != first
    requires IsPairRun(StartPair(info, secret, bobRatchet, first, alice, bob, base, pqInit), steps)
    requires k < |EmittedBy(StartPair(info, secret, bobRatchet, first, alice, bob, base, pqInit), steps, !initiator)|
    requires eph !in AfterPair(StartPair(info, secret, bobRatchet, first, alice, bob, base, pqInit),
                              steps).schedule.keys
    ensures var start := StartPair(info, secret, bobRatchet, first, alice, bob, base, pqInit);
            var p, e := SeenFrom(AfterPair(start, steps), initiator), EmittedBy(start, steps, !initiator)[k];
            var out := DecryptWithState(p.me.session, e.message, eph, o);
            && PairInv(p) && x in p.peer.sent && x.epoch < |p.schedule.keys|
            && e.message.content.ratchetKey == p.schedule.keys[x.epoch] && e.message.content.counter == x.counter
            && (InReach(p.me.epoch, x.epoch) && PqDelivers(p, x, o)
                && (OriginAt(p.schedule, x.epoch), x.counter) !in p.me.taken && Recent(p, x)
                ==> out.Ok? && out.value.1 == e.plaintext)
  {
    var start := StartPair(info, secret, bobRatchet, first, alice, bob, base, pqInit);
    StartPairInv(info, secret, bobRatchet, first, alice, bob, base, pqInit);
    LockStepAlways(start, steps);
    SeenFromKeeps(AfterPair(start, steps), initiator);
    var p := SeenFrom(AfterPair(start, steps), initiator);
    x := EntryOf(start, steps, !initiator, k);
    if InReach(p.me.epoch, x.epoch) && PqDelivers(p, x, o)
       && (OriginAt(p.schedule, x.epoch), x.counter) !in p.me.taken && Recent(p, x) {
      RecentMessageIsAccepted(p, x, eph, o);
    }
  }
}
