/**
 The two counters a SignalMessage carries (rust/protocol/src/session_cipher.rs:42-52 and 716-727): its index on the
 sender's chain, and the last index used on the sender's chain before that one.

 They are read off what an end sent: the messages under one ratchet key are numbered from zero without gaps, and the
 previous counter is one less than the number of messages under the ratchet key before, or zero if there were none.
 */
module MessageCounters {
  import opened Symbolic
  import opened RatchetKeys
  import opened Messages
  import opened SessionStates
  import opened SessionCipher
  import opened Handshake
  import opened LockStep
  import opened PairRuns

  /** The number of entries of an epoch. */
  function Count(sent: seq<Sent>, e: int): (n: nat)
    ensures n <= |sent|
  {
    if sent == [] then 0
    else
      var last := |sent| - 1;
      Count(sent[..last], e) + if sent[last].epoch == e then 1 else 0
  }

  /** The last index used on a chain of `n` messages. */
  function LastIndex(n: nat): nat {
    if n > 0 then n - 1 else 0
  }

  /** The chain's index, the session's previous counter and those of all entries are what was sent. */
  ghost predicate Counted(end: End) {
    && end.session.senderChain.Some?
    && end.session.senderChain.value.chainKey.index == Count(end.sent, end.epoch)
    && end.session.previousCounter == LastIndex(Count(end.sent, end.epoch - 2))
    && forall i :: 0 <= i < |end.sent| ==> Numbered(end, i)
  }

  ghost predicate Numbered(end: End, i: nat)
    requires i < |end.sent|
  {
    var x := end.sent[i];
    && x.epoch <= end.epoch && x.counter == Count(end.sent[..i], x.epoch)
    && x.previousCounter == LastIndex(Count(end.sent, x.epoch - 2))
  }

  lemma {:induction false} LaterEpochIsEmpty(sent: seq<Sent>, e: int)
    requires forall i :: 0 <= i < |sent| ==> sent[i].epoch < e
    ensures Count(sent, e) == 0
  {
    if sent != [] {
      LaterEpochIsEmpty(sent[..|sent| - 1], e);
    }
  }

  // ---------------------------------------------------------------------------------------------
  // Steps

  lemma SendKeepsCounts(end: End, step: PairStep)
    requires Counted(end) && step.PairSend? && CanSend(end)
    ensures Counted(SendFrom(end, step))
  {
    var end' := SendFrom(end, step);
    assert end'.sent[..|end.sent|] == end.sent;
    forall i | 0 <= i < |end'.sent| ensures Numbered(end', i) {
      if i < |end.sent| {
        assert Numbered(end, i) && end'.sent[..i] == end.sent[..i];
      }
    }
  }

  /** What accepting does to the fields that sending reads. */
  lemma AcceptFields(s: SessionStructure, m: SignalMessage, eph: Name, o: Oracles)
    requires DecryptWithState(s, m, eph, o).Ok? && s.senderChain.Some?
    ensures var t := DecryptWithState(s, m, eph, o).value.0;
            if FindChain(s.receiverChains, m.content.ratchetKey).Some?
            then t.senderChain == s.senderChain && t.previousCounter == s.previousCounter
            else
              && t.senderChain.Some? && t.senderChain.value.chainKey.index == 0
              && t.previousCounter == LastIndex(s.senderChain.value.chainKey.index)
  {
  }

  lemma AcceptKeepsCounts(p: Pair, x: Sent, eph: Name, o: Oracles)
    requires Counted(p.me) && x.epoch < |p.schedule.keys| && Outcome(p, x, eph, o).Ok?
    ensures Counted(Accepted(p, x, Outcome(p, x, eph, o).value.0, eph).me)
  {
    AcceptFields(p.me.session, MessageOf(p.schedule, p.peer.session, x), eph, o);
    CountsAfter(p.me, Accepted(p, x, Outcome(p, x, eph, o).value.0, eph).me);
  }

  lemma CountsAfter(end: End, end': End)
    requires Counted(end) && end'.sent == end.sent && end'.session.senderChain.Some?
    requires || (end'.epoch == end.epoch && end'.session.senderChain == end.session.senderChain
                 && end'.session.previousCounter == end.session.previousCounter)
             || (end'.epoch == end.epoch + 2 && end'.session.senderChain.value.chainKey.index == 0
                 && end'.session.previousCounter == LastIndex(end.session.senderChain.value.chainKey.index))
    ensures Counted(end')
  {
    forall i | 0 <= i < |end.sent| ensures Numbered(end', i) && end.sent[i].epoch <= end.epoch {
      assert Numbered(end, i);
    }
    LaterEpochIsEmpty(end.sent, end.epoch + 2);
  }

  ghost predicate PairCounted(p: Pair) {
    Counted(p.me) && Counted(p.peer)
  }

  lemma StartCounted(info: Label, secret: Term, bobRatchet: Name, eph: Name, alice: Name, bob: Name, base: Name,
                     pqInit: PqInit)
    ensures PairCounted(StartPair(info, secret, bobRatchet, eph, alice, bob, base, pqInit))
  {
  }

  lemma StepKeepsCounts(p: Pair, step: PairStep)
    requires PairCounted(p) && PairEnabled(p, step)
    ensures PairCounted(PairNext(p, step))
  {
    var q := SeenFrom(p, step.initiator);
    if step.PairSend? {
      SendKeepsCounts(q.me, step);
    } else if Outcome(q, q.peer.sent[step.index], step.eph, step.oracles).Ok? {
      AcceptKeepsCounts(q, q.peer.sent[step.index], step.eph, step.oracles);
    }
  }

  lemma {:induction false} RunKeepsCounts(p: Pair, steps: seq<PairStep>)
    requires PairCounted(p) && IsPairRun(p, steps)
    ensures PairCounted(AfterPair(p, steps))
    decreases |steps|
  {
    if steps != [] {
      StepKeepsCounts(p, steps[0]);
      RunKeepsCounts(PairNext(p, steps[0]), steps[1..]);
    }
  }

  // ---------------------------------------------------------------------------------------------
  // On the messages

  /** The number of messages under a ratchet key. */
  function Under(emitted: seq<Emission>, key: Name): (n: nat)
    ensures n <= |emitted|
  {
    if emitted == [] then 0
    else
      var last := |emitted| - 1;
      Under(emitted[..last], key) + if emitted[last].message.content.ratchetKey == key then 1 else 0
  }

  /** Entries of an epoch are messages under its ratchet key. */
  lemma {:induction false} CountIsUnder(sch: Schedule, end: End, n: nat, e: nat)
    requires Distinct(sch.keys) && SentWithin(sch, end) && n <= |end.sent| && e < |sch.keys|
    ensures Count(end.sent[..n], e) == Under(OnNetwork(sch, end)[..n], sch.keys[e])
  {
    if n > 0 {
      CountIsUnder(sch, end, n - 1, e);
      assert end.sent[..n][..n - 1] == end.sent[..n - 1];
      assert OnNetwork(sch, end)[..n][..n - 1] == OnNetwork(sch, end)[..n - 1];
      var x := end.sent[n - 1];
      assert x.epoch < e || e < x.epoch || x.epoch == e;
    }
  }

  /** The counters of the k-th message are what the messages say, its ratchet key being the `e`-th of both ends. */
  ghost predicate WellNumbered(keys: seq<Name>, emitted: seq<Emission>, k: nat, e: nat)
    requires k < |emitted|
  {
    var m := emitted[k].message.content;
    && e < |keys| && m.ratchetKey == keys[e] && m.counter == Under(emitted[..k], m.ratchetKey)
    && m.previousCounter == LastIndex(if e >= 2 then Under(emitted, keys[e - 2]) else 0)
  }

  lemma NumberedOnNetwork(sch: Schedule, end: End, k: nat)
    requires Distinct(sch.keys) && SentWithin(sch, end) && Counted(end) && k < |end.sent|
    ensures WellNumbered(sch.keys, OnNetwork(sch, end), k, end.sent[k].epoch)
  {
    var x, e := end.sent[k], end.sent[k].epoch;
    assert Numbered(end, k);
    CountIsUnder(sch, end, k, e);
    if e >= 2 {
      CountIsUnder(sch, end, |end.sent|, e - 2);
      assert end.sent[..|end.sent|] == end.sent;
      assert OnNetwork(sch, end)[..|end.sent|] == OnNetwork(sch, end);
    } else {
      NoNegativeEpochs(end.sent, (e as int) - 2);
    }
  }

  lemma {:induction false} NoNegativeEpochs(sent: seq<Sent>, e: int)
    requires e < 0
    ensures Count(sent, e) == 0
  {
    if sent != [] {
      NoNegativeEpochs(sent[..|sent| - 1], e);
    }
  }

  /**
   From any handshake and after any interleaving, for any message an end emitted: its counter is the number of messages
   the end emitted before it under the same ratchet key, and its previous counter is one less than the number it emitted
   under its ratchet key before, two generations earlier among the keys of both ends, or zero if there were none.
   */
  lemma CountersCount(info: Label, secret: Term, bobRatchet: Name, first: Name, alice: Name, bob: Name, base: Name,
                      pqInit: PqInit, steps: seq<PairStep>, initiator: bool, k: nat)
    returns (e: nat)
    requires IsHandshakeLabel(info) && bobRatchet != first
    requires IsPairRun(StartPair(info, secret, bobRatchet, first, alice, bob, base, pqInit), steps)
    requires k < |EmittedBy(StartPair(info, secret, bobRatchet, first, alice, bob, base, pqInit), steps, initiator)|
    ensures var start := StartPair(info, secret, bobRatchet, first, alice, bob, base, pqInit);
            var keys := AfterPair(start, steps).schedule.keys;
            Distinct(keys) && WellNumbered(keys, EmittedBy(start, steps, initiator), k, e)
  {
    var start := StartPair(info, secret, bobRatchet, first, alice, bob, base, pqInit);
    StartPairInv(info, secret, bobRatchet, first, alice, bob, base, pqInit);
    StartCounted(info, secret, bobRatchet, first, alice, bob, base, pqInit);
    e := CountersInAnyRun(start, steps, initiator, k);
  }

  lemma CountersInAnyRun(p: Pair, steps: seq<PairStep>, initiator: bool, k: nat) returns (e: nat)
    requires PairInv(p) && PairCounted(p) && p.me.sent == p.peer.sent == [] && IsPairRun(p, steps)
    requires k < |EmittedBy(p, steps, initiator)|
    ensures Distinct(AfterPair(p, steps).schedule.keys)
    ensures WellNumbered(AfterPair(p, steps).schedule.keys, EmittedBy(p, steps, initiator), k, e)
  {
    var q := SeenFrom(AfterPair(p, steps), initiator);
    LockStepAlways(p, steps);
    RunKeepsCounts(p, steps);
    RunGrows(p, steps, initiator);
    GrownFromNothing(p, AfterPair(p, steps), initiator, EmittedBy(p, steps, initiator));
    NumberedOnNetwork(q.schedule, q.me, k);
    e := q.me.sent[k].epoch;
  }

  lemma GrownFromNothing(p: Pair, after: Pair, initiator: bool, emitted: seq<Emission>)
    requires p.me.sent == p.peer.sent == [] && Grows(p, after, initiator, emitted)
    ensures var q := SeenFrom(after, initiator);
            SentWithin(q.schedule, q.me) && OnNetwork(q.schedule, q.me) == emitted
  {
    var before := SeenFrom(p, initiator);
    assert OnNetwork(before.schedule, before.me) == [];
  }
}
