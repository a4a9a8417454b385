/** Runs over one sender-key record: distribution messages and group messages in any order. */
module GroupRuns {
  import opened Prelude
  import opened Symbolic
  import opened Messages
  import opened SenderKeys
  import opened GroupCipher
  import opened GroupDelivery

  datatype GroupStep =
    | Distribute(distribution: DistributionMessage)
    | Deliver(message: SenderKeyMessage, wrongKey: WrongKey)

  function GroupNext(states: seq<StateStructure>, step: GroupStep): seq<StateStructure> {
    match step
    case Distribute(d) => AddState(states, NewState(d))
    case Deliver(m, wrongKey) =>
      match DecryptWithStates(states, m, wrongKey)
      case Ok((states', _)) => states'
      case Err(_) => states
  }

  predicate Accepts(states: seq<StateStructure>, step: GroupStep) {
    step.Deliver? && DecryptWithStates(states, step.message, step.wrongKey).Ok?
  }

  function AfterGroup(states: seq<StateStructure>, steps: seq<GroupStep>): seq<StateStructure>
    decreases |steps|
  {
    if steps == [] then states else AfterGroup(GroupNext(states, steps[0]), steps[1..])
  }

  function ChainIds(states: seq<StateStructure>): (ids: seq<u32>)
    ensures |ids| == |states| && forall i :: 0 <= i < |ids| ==> ids[i] == states[i].chainId
  {
    seq(|states|, i requires 0 <= i < |states| => states[i].chainId)
  }

  // ---------------------------------------------------------------------------------------------
  // Most-recently-added order

  function Drop(ids: seq<u32>, c: u32): (r: seq<u32>)
    ensures |r| <= |ids| && c !in r
    ensures forall x :: x in r <==> x in ids && x != c
  {
    if ids == [] then []
    else if ids[0] == c then Drop(ids[1..], c)
    else [ids[0]] + Drop(ids[1..], c)
  }

  function FirstFew(ids: seq<u32>, n: nat): seq<u32> {
    if |ids| <= n then ids else ids[..n]
  }

  /** The chain ids of the distribution messages among the steps, each once, the most recent first. */
  function MostRecent(seen: seq<u32>, steps: seq<GroupStep>): seq<u32>
    decreases |steps|
  {
    if steps == [] then seen
    else match steps[0]
         case Distribute(d) => MostRecent([d.chainId] + Drop(seen, d.chainId), steps[1..])
         case Deliver(_, _) => MostRecent(seen, steps[1..])
  }

  ghost predicate NoRepeats(ids: seq<u32>) {
    forall i, j :: 0 <= i < j < |ids| ==> ids[i] != ids[j]
  }

  lemma DropCons(h: u32, t: seq<u32>, c: u32)
    ensures Drop([h] + t, c) == if h == c then Drop(t, c) else [h] + Drop(t, c)
  {
    assert ([h] + t)[1..] == t;
  }

  lemma FirstFewCons(h: u32, t: seq<u32>, n: nat)
    ensures FirstFew([h] + t, n + 1) == [h] + FirstFew(t, n)
  {
  }

  lemma NoRepeatsCons(h: u32, t: seq<u32>)
    ensures NoRepeats([h] + t) <==> h !in t && NoRepeats(t)
  {
    var s := [h] + t;
    if NoRepeats(s) {
      assert forall i :: 0 <= i < |t| ==> s[i + 1] == t[i];
      assert s[0] == h;
      forall i, j | 0 <= i < j < |t| ensures t[i] != t[j] {
        assert s[i + 1] != s[j + 1];
      }
    }
  }

  lemma {:induction false} DropKeepsNoRepeats(ids: seq<u32>, c: u32)
    requires NoRepeats(ids)
    ensures NoRepeats(Drop(ids, c))
    decreases |ids|
  {
    if ids != [] {
      var h, rest := ids[0], ids[1..];
      assert ids == [h] + rest;
      NoRepeatsCons(h, rest);
      DropCons(h, rest, c);
      DropKeepsNoRepeats(rest, c);
      NoRepeatsCons(h, Drop(rest, c));
    }
  }

  /** Dropping an id from the first few, or from all, leaves the same beginning. */
  lemma {:induction false} DropFirstFew(ids: seq<u32>, c: u32, n: nat)
    requires NoRepeats(ids)
    ensures FirstFew(Drop(FirstFew(ids, n + 1), c), n) == FirstFew(Drop(ids, c), n)
    decreases |ids|
  {
    if ids != [] {
      var h, rest := ids[0], ids[1..];
      assert ids == [h] + rest;
      NoRepeatsCons(h, rest);
      FirstFewCons(h, rest, n);
      DropCons(h, rest, c);
      DropCons(h, FirstFew(rest, n), c);
      if h == c {
        DropAbsent(rest, c);
        DropAbsent(FirstFew(rest, n), c);
      } else if n > 0 {
        DropFirstFew(rest, c, n - 1);
        FirstFewCons(h, Drop(rest, c), n - 1);
        FirstFewCons(h, Drop(FirstFew(rest, n), c), n - 1);
      }
    }
  }

  lemma {:induction false} DropAbsent(ids: seq<u32>, c: u32)
    requires c !in ids
    ensures Drop(ids, c) == ids
  {
    if ids != [] {
      assert ids == [ids[0]] + ids[1..];
      DropAbsent(ids[1..], c);
    }
  }

  lemma {:induction false} OtherChainIds(states: seq<StateStructure>, c: u32)
    ensures ChainIds(OtherChains(states, c)) == Drop(ChainIds(states), c)
    decreases |states|
  {
    if states != [] {
      OtherChainIds(states[1..], c);
      assert ChainIds(states) == [states[0].chainId] + ChainIds(states[1..]);
      if states[0].chainId != c {
        assert ChainIds([states[0]] + OtherChains(states[1..], c))
                   == [states[0].chainId] + ChainIds(OtherChains(states[1..], c));
      }
    }
  }

  lemma AddStateIds(states: seq<StateStructure>, st: StateStructure)
    ensures ChainIds(AddState(states, st))
         == [st.chainId] + FirstFew(Drop(ChainIds(states), st.chainId), MAX_SENDER_KEY_STATES - 1)
  {
    var others := OtherChains(states, st.chainId);
    assert ChainIds(others) == Drop(ChainIds(states), st.chainId) by { OtherChainIds(states, st.chainId); }
    MakeRoomIds(others);
  }

  lemma MakeRoomIds(others: seq<StateStructure>)
    ensures ChainIds(MakeRoom(others)) == FirstFew(ChainIds(others), MAX_SENDER_KEY_STATES - 1)
  {
  }

  lemma DeliverKeepsIds(states: seq<StateStructure>, m: SenderKeyMessage, wrongKey: WrongKey)
    requires DecryptWithStates(states, m, wrongKey).Ok?
    ensures ChainIds(DecryptWithStates(states, m, wrongKey).value.0) == ChainIds(states)
  {
  }

  /**
   After any run from an empty record, the record holds exactly the (at most five) most recently distributed chain
   ids, in that order and without repetition.
   */
  lemma {:induction false} RecordIsMostRecent(states: seq<StateStructure>, seen: seq<u32>, steps: seq<GroupStep>)
    requires NoRepeats(seen) && ChainIds(states) == FirstFew(seen, MAX_SENDER_KEY_STATES)
    ensures NoRepeats(MostRecent(seen, steps))
    ensures ChainIds(AfterGroup(states, steps)) == FirstFew(MostRecent(seen, steps), MAX_SENDER_KEY_STATES)
    decreases |steps|
  {
    if steps != [] {
      var states' := GroupNext(states, steps[0]);
      match steps[0] {
        case Distribute(d) =>
          var c := d.chainId;
          var seen' := [c] + Drop(seen, c);
          AddStateIds(states, NewState(d));
          DropFirstFew(seen, c, MAX_SENDER_KEY_STATES - 1);
          DropKeepsNoRepeats(seen, c);
          assert FirstFew(seen', MAX_SENDER_KEY_STATES) == [c] + FirstFew(Drop(seen, c), MAX_SENDER_KEY_STATES - 1);
          RecordIsMostRecent(states', seen', steps[1..]);
        case Deliver(m, wrongKey) =>
          if DecryptWithStates(states, m, wrongKey).Ok? {
            DeliverKeepsIds(states, m, wrongKey);
          }
          RecordIsMostRecent(states', seen, steps[1..]);
      }
    }
  }

  // ---------------------------------------------------------------------------------------------
  // A retained chain never rewinds

  /** The record's state for a chain id, when it is there and has the signing key. */
  ghost predicate HasChain(states: seq<StateStructure>, c: u32, signing: Name) {
    exists i :: 0 <= i < |states| && Holds(states[i], c, signing)
  }

  ghost predicate CanOpen(states: seq<StateStructure>, c: u32, signing: Name, n: nat) {
    exists i :: 0 <= i < |states| && Holds(states[i], c, signing) && Openable(states[i], n)
  }

  ghost predicate StateInv(st: StateStructure) {
    && Ascending(st.messageKeys)
    && forall k :: 0 <= k < |st.messageKeys| ==> st.messageKeys[k].iteration < st.chainKey.iteration
  }

  ghost predicate StatesInv(states: seq<StateStructure>) {
    NoRepeats(ChainIds(states)) && forall i :: 0 <= i < |states| ==> StateInv(states[i])
  }

  lemma {:induction false} PassedIterations(ck: SenderChainKey, n: u32)
    requires ck.iteration <= n
    ensures forall k :: 0 <= k < n - ck.iteration ==> Passed(ck, n)[k].iteration == ck.iteration + k
    decreases n - ck.iteration
  {
    if ck.iteration < n {
      PassedIterations(NextSender(ck).value, n);
    }
  }

  /** Taking a key, whatever the chain: the iteration is used up and nothing becomes openable. */
  lemma TakeUsesUp(st: StateStructure, n: u32)
    requires StateInv(st) && GetKey(st, n).Ok?
    ensures var st' := GetKey(st, n).value.0;
            && StateInv(st') && st'.chainId == st.chainId && st'.signingKey == st.signingKey
            && Openable(st, n) && !Openable(st', n) && (forall i: nat :: Openable(st', i) ==> Openable(st, i))
  {
    if st.chainKey.iteration > n {
      StoredUsesUp(st, n);
    } else {
      JumpUsesUp(st, n);
    }
  }

  lemma StoredUsesUp(st: StateStructure, n: u32)
    requires StateInv(st) && n < st.chainKey.iteration && GetKey(st, n).Ok?
    ensures var st' := GetKey(st, n).value.0;
            && StateInv(st') && Openable(st, n) && !Openable(st', n)
            && (forall i: nat :: Openable(st', i) ==> Openable(st, i))
  {
    var st', at := GetKey(st, n).value.0, FindMessageKey(st.messageKeys, n).value;
    assert st.messageKeys[at].iteration == n;
    assert forall k :: 0 <= k < |st'.messageKeys| ==> st'.messageKeys[k] == st.messageKeys[if k < at then k else k + 1];
    forall i: nat | StoredAt(st', i) ensures StoredAt(st, i) && i != n {
      var k :| 0 <= k < |st'.messageKeys| && st'.messageKeys[k].iteration == i;
      assert st.messageKeys[if k < at then k else k + 1].iteration == i;
    }
  }

  lemma JumpUsesUp(st: StateStructure, n: u32)
    requires StateInv(st) && st.chainKey.iteration <= n && GetKey(st, n).Ok?
    ensures var st' := GetKey(st, n).value.0;
            && StateInv(st') && !Openable(st', n) && (forall i: nat :: Openable(st', i) ==> Openable(st, i))
  {
    var st' := GetKey(st, n).value.0;
    var all := AllPassed(st, n);
    AllPassedIterations(st, n);
    var drop := |all| - |st'.messageKeys|;
    assert st'.messageKeys == all[drop..];
    assert forall k :: 0 <= k < |st'.messageKeys| ==> st'.messageKeys[k] == all[drop + k];
    forall i: nat | StoredAt(st', i) ensures i < n && Openable(st, i) {
      var k :| 0 <= k < |st'.messageKeys| && st'.messageKeys[k].iteration == i;
      assert all[drop + k].iteration == i;
    }
  }

  /** Stored keys and passed-over keys together: ascending, below the target, and openable before. */
  lemma AllPassedIterations(st: StateStructure, n: u32)
    requires StateInv(st) && st.chainKey.iteration <= n
    ensures var all := AllPassed(st, n);
            && Ascending(all)
            && forall k :: 0 <= k < |all| ==> all[k].iteration < n && Openable(st, all[k].iteration)
  {
    var all, had := AllPassed(st, n), |st.messageKeys|;
    PassedIterations(st.chainKey, n);
    assert forall k :: 0 <= k < had ==> all[k] == st.messageKeys[k];
    forall k | 0 <= k < |all| ensures all[k].iteration < n && Openable(st, all[k].iteration) {
      if k < had {
        assert st.messageKeys[k].iteration == all[k].iteration;
      } else {
        assert all[k].iteration == st.chainKey.iteration + (k - had);
      }
    }
    assert forall k :: had <= k < |all| ==> all[k].iteration == st.chainKey.iteration + (k - had);
  }

  /**
   No step restores anything: while a chain with its signing key stays in the record, what it can open only shrinks,
   whatever distribution messages are processed, and an accepted iteration can never be opened again.
   */
  lemma StepNeverRewinds(states: seq<StateStructure>, step: GroupStep, c: u32, signing: Name, n: nat)
    requires StatesInv(states) && HasChain(states, c, signing)
    ensures StatesInv(GroupNext(states, step))
    ensures CanOpen(GroupNext(states, step), c, signing, n) ==> CanOpen(states, c, signing, n)
    ensures Accepts(states, step) && step.message.signature.GroupSigned? && step.message.signature.signer == signing
            && step.message.content.chainId == c
            ==> CanOpen(states, c, signing, step.message.content.iteration)
                && !CanOpen(GroupNext(states, step), c, signing, step.message.content.iteration)
  {
    match step {
      case Distribute(d) => AddStateKeeps(states, NewState(d), c, signing, n);
      case Deliver(m, wrongKey) =>
        if Accepts(states, step) {
          AcceptNeverRewinds(states, m, wrongKey, c, signing, n);
        }
    }
  }

  lemma AcceptNeverRewinds(states: seq<StateStructure>, m: SenderKeyMessage, wrongKey: WrongKey, c: u32, signing: Name,
                           n: nat)
    requires StatesInv(states) && DecryptWithStates(states, m, wrongKey).Ok?
    ensures var states' := DecryptWithStates(states, m, wrongKey).value.0;
            && StatesInv(states') && (CanOpen(states', c, signing, n) ==> CanOpen(states, c, signing, n))
            && (m.signature.GroupSigned? && m.signature.signer == signing && m.content.chainId == c ==>
                  CanOpen(states, c, signing, m.content.iteration)
                  && !CanOpen(states', c, signing, m.content.iteration))
  {
    var i := FindState(states, m.content.chainId).value;
    var st' := GetKey(states[i], m.content.iteration).value.0;
    assert DecryptWithStates(states, m, wrongKey).value.0 == states[i := st'];
    DeliverKeepsIds(states, m, wrongKey);
    TakeUsesUp(states[i], m.content.iteration);
    ReplaceKeeps(states, i, st', c, signing, n);
    if m.signature.GroupSigned? && m.signature.signer == signing && m.content.chainId == c {
      assert Holds(states[i], c, signing);
      ReplaceUsesUp(states, i, st', c, signing, m.content.iteration);
    }
  }

  lemma ReplaceKeeps(states: seq<StateStructure>, i: nat, st': StateStructure, c: u32, signing: Name, n: nat)
    requires StatesInv(states) && i < |states| && StateInv(st')
    requires st'.chainId == states[i].chainId && st'.signingKey == states[i].signingKey
    requires Openable(st', n) ==> Openable(states[i], n)
    ensures StatesInv(states[i := st'])
    ensures CanOpen(states[i := st'], c, signing, n) ==> CanOpen(states, c, signing, n)
  {
    assert ChainIds(states[i := st']) == ChainIds(states);
    if CanOpen(states[i := st'], c, signing, n) {
      var j :| 0 <= j < |states| && Holds(states[i := st'][j], c, signing) && Openable(states[i := st'][j], n);
      assert Holds(states[j], c, signing) && Openable(states[j], n);
    }
  }

  lemma ReplaceUsesUp(states: seq<StateStructure>, i: nat, st': StateStructure, c: u32, signing: Name, n: nat)
    requires NoRepeats(ChainIds(states)) && i < |states| && st'.chainId == states[i].chainId == c
    requires Holds(states[i], c, signing) && Openable(states[i], n) && !Openable(st', n)
    ensures CanOpen(states, c, signing, n) && !CanOpen(states[i := st'], c, signing, n)
  {
    assert forall j :: 0 <= j < |states| ==> ChainIds(states)[j] == states[j].chainId;
  }

  lemma AddStateKeeps(states: seq<StateStructure>, st: StateStructure, c: u32, signing: Name, n: nat)
    requires StatesInv(states) && HasChain(states, c, signing) && StateInv(st)
    ensures StatesInv(AddState(states, st))
    ensures CanOpen(AddState(states, st), c, signing, n) ==> CanOpen(states, c, signing, n)
  {
    var states' := AddState(states, st);
    assert NoRepeats(ChainIds(states')) by { AddStateNoRepeats(states, st); }
    AddStateMembers(states, st);
    forall i | 0 <= i < |states'| ensures StateInv(states'[i]) {
      assert states'[i] == st || states'[i] in states;
    }
    if CanOpen(states', c, signing, n) {
      var i :| 0 <= i < |states'| && Holds(states'[i], c, signing) && Openable(states'[i], n);
      assert states'[i] in states by {
        if i == 0 {
          var k :| 0 <= k < |states| && Holds(states[k], c, signing);
        }
      }
      var k :| 0 <= k < |states| && states[k] == states'[i];
      assert Holds(states[k], c, signing) && Openable(states[k], n);
    }
  }

  lemma AddStateNoRepeats(states: seq<StateStructure>, st: StateStructure)
    requires NoRepeats(ChainIds(states))
    ensures NoRepeats(ChainIds(AddState(states, st)))
  {
    var rest := Drop(ChainIds(states), st.chainId);
    AddStateIds(states, st);
    DropKeepsNoRepeats(ChainIds(states), st.chainId);
    NoRepeatsCons(st.chainId, FirstFew(rest, MAX_SENDER_KEY_STATES - 1));
  }

  /** Everything behind the front comes from the record, and so does the front if the record held that chain. */
  lemma AddStateMembers(states: seq<StateStructure>, st: StateStructure)
    ensures var states' := AddState(states, st);
            && (forall i :: 1 <= i < |states'| ==> states'[i] in states)
            && (states'[0] == st || states'[0] in states)
            && Holds(states'[0], st.chainId, st.signingKey)
            && ((exists k :: 0 <= k < |states| && Holds(states[k], st.chainId, st.signingKey)) ==> states'[0] in states)
  {
    var states', others := AddState(states, st), OtherChains(states, st.chainId);
    forall i | 1 <= i < |states'| ensures states'[i] in states {
      assert states'[i] == MakeRoom(others)[i - 1];
      assert states'[i] in others;
    }
  }

  ghost predicate Stays(states: seq<StateStructure>, steps: seq<GroupStep>, c: u32, signing: Name)
    decreases |steps|
  {
    HasChain(states, c, signing) && (steps == [] || Stays(GroupNext(states, steps[0]), steps[1..], c, signing))
  }

  /** Over any run in which a chain stays in the record, an iteration that cannot be opened stays that way. */
  lemma {:induction false} NeverRewinds(states: seq<StateStructure>, steps: seq<GroupStep>, c: u32, signing: Name,
                                        n: nat)
    requires StatesInv(states) && Stays(states, steps, c, signing) && !CanOpen(states, c, signing, n)
    ensures !CanOpen(AfterGroup(states, steps), c, signing, n)
    decreases |steps|
  {
    if steps != [] {
      StepNeverRewinds(states, steps[0], c, signing, n);
      NeverRewinds(GroupNext(states, steps[0]), steps[1..], c, signing, n);
    }
  }

  /** A message accepted on a chain carries the signature of the key the record holds for it, over its own content. */
  lemma AcceptedIsSigned(states: seq<StateStructure>, step: GroupStep, c: u32, signing: Name)
    requires NoRepeats(ChainIds(states)) && HasChain(states, c, signing)
    requires Accepts(states, step) && step.message.content.chainId == c
    ensures step.message.signature == GroupSigned(signing, step.message.content)
  {
    var i :| 0 <= i < |states| && Holds(states[i], c, signing);
    var j := FindState(states, c).value;
    assert ChainIds(states)[i] == ChainIds(states)[j];
  }

  /** At most once: an accepted iteration of a chain that stays in the record is not accepted again. */
  lemma AcceptedOnce(states: seq<StateStructure>, first: GroupStep, between: seq<GroupStep>, second: GroupStep, c: u32,
                     signing: Name)
    requires StatesInv(states) && Accepts(states, first) && first.message.content.chainId == c
    requires second.Deliver? && second.message.content.chainId == c
    requires second.message.content.iteration == first.message.content.iteration
    requires HasChain(states, c, signing) && Stays(GroupNext(states, first), between, c, signing)
    ensures !Accepts(AfterGroup(GroupNext(states, first), between), second)
  {
    var n := first.message.content.iteration;
    AcceptedIsSigned(states, first, c, signing);
    StepNeverRewinds(states, first, c, signing, n);
    NeverRewinds(GroupNext(states, first), between, c, signing, n);
    var late := AfterGroup(GroupNext(states, first), between);
    InvAfterGroup(GroupNext(states, first), between, c, signing);
    if Accepts(late, second) {
      AcceptedIsSigned(late, second, c, signing);
      StepNeverRewinds(late, second, c, signing, n);
    }
  }

  lemma {:induction false} InvAfterGroup(states: seq<StateStructure>, steps: seq<GroupStep>, c: u32, signing: Name)
    requires StatesInv(states) && Stays(states, steps, c, signing)
    ensures StatesInv(AfterGroup(states, steps)) && HasChain(AfterGroup(states, steps), c, signing)
    decreases |steps|
  {
    if steps != [] {
      StepNeverRewinds(states, steps[0], c, signing, 0);
      InvAfterGroup(GroupNext(states, steps[0]), steps[1..], c, signing);
    }
  }
}
