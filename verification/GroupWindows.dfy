/**
 What a sender-key state keeps over runs of any length (rust/protocol/src/sender_keys.rs:215-236): exactly the
 iterations not opened yet at or above an eviction floor, and the outcome of every delivery that follows from it.
 */
module GroupWindows {
  import opened Prelude
  import opened Symbolic
  import opened RatchetKeys
  import opened Messages
  import opened SenderKeys
  import opened GroupCipher
  import opened GroupDelivery

  /**
   The floor is the start until more than 2000 keys would have to be kept, and always spares the last 2000 iterations.
   */
  predicate FloorFits(st: StateStructure, start: nat, floor: nat) {
    floor == start || (start <= floor && floor + MAX_MESSAGE_KEYS < st.chainKey.iteration)
  }

  /** The stored iterations are exactly those passed over, not opened and not below the floor. */
  ghost predicate StoreIsWindow(st: StateStructure, start: nat, done: set<nat>, floor: nat) {
    && FloorFits(st, start, floor) && |st.messageKeys| <= MAX_MESSAGE_KEYS
    && (forall n: nat :: n < st.chainKey.iteration ==> (StoredAt(st, n) <==> floor <= n && n !in done))
    && (forall n: nat :: n in done ==> n < st.chainKey.iteration)
  }

  /** A state just made from a distribution message. */
  lemma NewStateWindow(d: DistributionMessage)
    ensures StoreIsWindow(NewState(d), d.iteration, {}, d.iteration)
  {
  }

  lemma {:induction false} AscendingRises(keys: seq<SenderMessageKey>, k: nat)
    requires Ascending(keys) && k < |keys|
    ensures keys[0].iteration + k <= keys[k].iteration
  {
    if k > 0 {
      AscendingRises(keys, k - 1);
    }
  }

  ghost predicate Contains(keys: seq<SenderMessageKey>, n: nat) {
    exists k :: 0 <= k < |keys| && keys[k].iteration == n
  }

  /** The last entries of an ascending list hold what lies at or above the first one kept. */
  lemma SuffixContains(all: seq<SenderMessageKey>, drop: nat)
    requires Ascending(all) && drop < |all|
    ensures forall n: nat :: Contains(all[drop..], n) <==> Contains(all, n) && n >= all[drop].iteration
  {
    forall n: nat | Contains(all, n) && n >= all[drop].iteration ensures Contains(all[drop..], n) {
      var k :| 0 <= k < |all| && all[k].iteration == n;
      assert drop <= k;
      assert all[drop..][k - drop].iteration == n;
    }
    forall n: nat | Contains(all[drop..], n) ensures Contains(all, n) && n >= all[drop].iteration {
      var k :| 0 <= k < |all| - drop && all[drop..][k].iteration == n;
      assert all[drop + k].iteration == n;
    }
  }

  /** Opening an iteration ahead of the chain: the floor moves only when more than 2000 keys would be kept. */
  lemma JumpKeepsWindow(st: StateStructure, origin: Term, start: nat, done: set<nat>, floor: nat, n: u32)
    returns (floor': nat)
    requires Follows(st, origin, start) && StoreIsWindow(st, start, done, floor)
    requires st.chainKey.iteration <= n && GetKey(st, n).Ok?
    ensures StoreIsWindow(GetKey(st, n).value.0, start, done + {n}, floor') && floor <= floor'
  {
    var st', all := GetKey(st, n).value.0, AllPassed(st, n);
    AllPassedFollow(st, origin, start, n);
    assert Passed(st.chainKey, n) == [] ==> all == st.messageKeys;
    assert st'.messageKeys == LastKeys(all);
    assert forall i: nat :: i < n ==> (Contains(all, i) <==> Openable(st, i));
    floor' := CutWindow(st, st', all, start, done, floor, n);
  }

  lemma CutWindow(st: StateStructure, st': StateStructure, all: seq<SenderMessageKey>, start: nat, done: set<nat>,
                  floor: nat, n: u32)
    returns (floor': nat)
    requires StoreIsWindow(st, start, done, floor) && st.chainKey.iteration <= n && st'.chainKey.iteration == n + 1
    requires Ascending(all) && (forall k :: 0 <= k < |all| ==> all[k].iteration < n) && start <= st.chainKey.iteration
    requires forall i: nat :: i < n ==> (Contains(all, i) <==> Openable(st, i))
    requires st'.messageKeys == LastKeys(all)
    ensures StoreIsWindow(st', start, done + {n}, floor') && floor <= floor'
  {
    floor' := floor;
    if |all| > MAX_MESSAGE_KEYS {
      var drop := |all| - MAX_MESSAGE_KEYS;
      floor' := all[drop].iteration;
      assert Contains(all, floor');
      SuffixContains(all, drop);
      AscendingRises(all[drop..], MAX_MESSAGE_KEYS - 1);
    }
    forall i: nat | i < n + 1 ensures StoredAt(st', i) <==> floor' <= i && i !in done + {n} {
      assert StoredAt(st', i) == Contains(st'.messageKeys, i);
    }
  }

  /** Opening an iteration, from the store or ahead: the window with one more iteration opened. */
  lemma GetKeyKeepsWindow(st: StateStructure, origin: Term, start: nat, done: set<nat>, floor: nat, n: u32)
    returns (floor': nat)
    requires Follows(st, origin, start) && StoreIsWindow(st, start, done, floor) && GetKey(st, n).Ok?
    ensures StoreIsWindow(GetKey(st, n).value.0, start, done + {n}, floor') && floor <= floor'
  {
    if st.chainKey.iteration <= n {
      floor' := JumpKeepsWindow(st, origin, start, done, floor, n);
    } else {
      floor' := floor;
      TakeStored(st, origin, start, n);
    }
  }

  lemma TakeStored(st: StateStructure, origin: Term, start: nat, n: u32)
    requires Follows(st, origin, start) && n < st.chainKey.iteration && GetKey(st, n).Ok?
    ensures var st' := GetKey(st, n).value.0;
            st'.chainKey == st.chainKey && forall i: nat :: StoredAt(st', i) <==> StoredAt(st, i) && i != n
  {
    var st', at := GetKey(st, n).value.0, FindMessageKey(st.messageKeys, n).value;
    assert forall k :: 0 <= k < |st'.messageKeys| ==> st'.messageKeys[k] == st.messageKeys[if k < at then k else k + 1];
    forall i: nat | StoredAt(st, i) && i != n ensures StoredAt(st', i) {
      var k :| 0 <= k < |st.messageKeys| && st.messageKeys[k].iteration == i;
      assert st'.messageKeys[if k < at then k else k - 1].iteration == i;
    }
    forall i: nat | StoredAt(st', i) ensures StoredAt(st, i) && i != n {
      var k :| 0 <= k < |st'.messageKeys| && st'.messageKeys[k].iteration == i;
      assert st.messageKeys[if k < at then k else k + 1].iteration == i;
    }
  }

  /** The iteration can be opened: neither opened before nor evicted, nor too far ahead. */
  predicate InWindow(st: StateStructure, done: set<nat>, floor: nat, n: u32) {
    && n !in done && (n < st.chainKey.iteration ==> floor <= n)
    && n <= st.chainKey.iteration + MAX_FORWARD_JUMPS && n < U32_MAX
  }

  /** The exact outcome of asking for a key. */
  lemma GetKeyIff(st: StateStructure, start: nat, done: set<nat>, floor: nat, n: u32)
    requires StoreIsWindow(st, start, done, floor)
    ensures GetKey(st, n).Ok?
       <==> InWindow(st, done, floor, n)
    ensures GetKey(st, n).Err? && GetKey(st, n).error.DuplicatedMessage?
       <==> n < st.chainKey.iteration && (n in done || n < floor)
  {
    var found := FindMessageKey(st.messageKeys, n);
    assert StoredAt(st, n) <==> found.Some?;
  }

  // ---------------------------------------------------------------------------------------------
  // Whole runs

  /** The states after a run of deliveries; a failed one leaves them alone. */
  function AfterDeliveries(states: seq<StateStructure>, ms: seq<SenderKeyMessage>, wrongKey: WrongKey)
    : seq<StateStructure>
    decreases |ms|
  {
    if ms == [] then states
    else match DecryptWithStates(states, ms[0], wrongKey)
         case Ok((states', _)) => AfterDeliveries(states', ms[1..], wrongKey)
         case Err(_) => AfterDeliveries(states, ms[1..], wrongKey)
  }

  /** The iterations opened by a run of deliveries. */
  function OpenedBy(states: seq<StateStructure>, ms: seq<SenderKeyMessage>, wrongKey: WrongKey): set<nat>
    decreases |ms|
  {
    if ms == [] then {}
    else match DecryptWithStates(states, ms[0], wrongKey)
         case Ok((states', _)) => {ms[0].content.iteration} + OpenedBy(states', ms[1..], wrongKey)
         case Err(_) => OpenedBy(states, ms[1..], wrongKey)
  }

  /** The chain's messages for any iterations, without a bound on their number or spread. */
  ghost predicate AnyChainMessages(ms: seq<SenderKeyMessage>, st: StateStructure, origin: Term, ns: seq<u32>,
                                   plaintexts: u32 -> Plaintext, distribution: DistributionId)
  {
    |ms| == |ns| && forall k :: 0 <= k < |ns| ==>
      ms[k] == ChainMessage(st, origin, distribution, ns[k], plaintexts(ns[k]))
  }

  /** State `i` of the record follows the chain and keeps the window of what it has not opened. */
  ghost predicate Keeps(states: seq<StateStructure>, i: nat, origin: Term, start: nat, done: set<nat>, floor: nat) {
    && i < |states| && FindState(states, states[i].chainId) == Some(i)
    && Follows(states[i], origin, start) && StoreIsWindow(states[i], start, done, floor)
  }

  /** A chain message is opened exactly when its key is available, and then gives its plaintext. */
  lemma DeliverIff(states: seq<StateStructure>, i: nat, origin: Term, start: nat, done: set<nat>, floor: nat, n: u32,
                   plaintext: Plaintext, distribution: DistributionId, wrongKey: WrongKey)
    requires Keeps(states, i, origin, start, done, floor)
    ensures var out := DecryptWithStates(states, ChainMessage(states[i], origin, distribution, n, plaintext), wrongKey);
            if GetKey(states[i], n).Ok? then out == Ok((states[i := GetKey(states[i], n).value.0], plaintext))
            else out == Err(GetKey(states[i], n).error)
  {
    if GetKey(states[i], n).Ok? {
      GetKeyKeeps(states[i], origin, start, n);
    }
  }

  /** One delivery keeps the window, with one more iteration opened if it was accepted. */
  lemma DeliverKeeps(states: seq<StateStructure>, i: nat, origin: Term, start: nat, done: set<nat>, floor: nat, n: u32)
    returns (floor': nat)
    requires Keeps(states, i, origin, start, done, floor) && GetKey(states[i], n).Ok?
    ensures Keeps(states[i := GetKey(states[i], n).value.0], i, origin, start, done + {n}, floor') && floor <= floor'
  {
    GetKeyKeeps(states[i], origin, start, n);
    floor' := GetKeyKeepsWindow(states[i], origin, start, done, floor, n);
    FindSame(states, states[i := GetKey(states[i], n).value.0], i);
  }

  /** After any run of deliveries of the chain's messages, the state keeps the window of what the run did not open. */
  lemma {:induction false} WindowAlways(states: seq<StateStructure>, i: nat, origin: Term, start: nat, done: set<nat>,
                                        floor: nat,
                                        ns: seq<u32>, plaintexts: u32 -> Plaintext, distribution: DistributionId,
                                        wrongKey: WrongKey, ms: seq<SenderKeyMessage>) returns (floor': nat)
    requires Keeps(states, i, origin, start, done, floor)
    requires AnyChainMessages(ms, states[i], origin, ns, plaintexts, distribution)
    ensures Keeps(AfterDeliveries(states, ms, wrongKey), i, origin, start, done + OpenedBy(states, ms, wrongKey),
                  floor')
    ensures var st := AfterDeliveries(states, ms, wrongKey)[i];
            floor <= floor' && st == states[i].(chainKey := st.chainKey, messageKeys := st.messageKeys)
    decreases |ns|
  {
    if ns == [] {
      floor' := floor;
      assert done + {} == done;
    } else {
      var n := ns[0];
      var states', done', f := DeliverNext(states, i, origin, start, done, floor, n, plaintexts(n), distribution,
                                           wrongKey);
      assert AnyChainMessages(ms[1..], states'[i], origin, ns[1..], plaintexts, distribution);
      floor' := WindowAlways(states', i, origin, start, done', f, ns[1..], plaintexts, distribution, wrongKey, ms[1..]);
      assert done' + OpenedBy(states', ms[1..], wrongKey) == done + OpenedBy(states, ms, wrongKey);
    }
  }

  /** The record, the opened iterations and the floor after one delivery. */
  lemma DeliverNext(states: seq<StateStructure>, i: nat, origin: Term, start: nat, done: set<nat>, floor: nat, n: u32,
                    plaintext: Plaintext, distribution: DistributionId, wrongKey: WrongKey)
    returns (states': seq<StateStructure>, done': set<nat>, floor': nat)
    requires Keeps(states, i, origin, start, done, floor)
    ensures var out := DecryptWithStates(states, ChainMessage(states[i], origin, distribution, n, plaintext), wrongKey);
            if out.Ok? then states' == out.value.0 && done' == done + {n} else states' == states && done' == done
    ensures Keeps(states', i, origin, start, done', floor') && floor <= floor'
    ensures states'[i] == states[i].(chainKey := states'[i].chainKey, messageKeys := states'[i].messageKeys)
  {
    DeliverIff(states, i, origin, start, done, floor, n, plaintext, distribution, wrongKey);
    if GetKey(states[i], n).Ok? {
      GetKeyKeeps(states[i], origin, start, n);
      states', done' := states[i := GetKey(states[i], n).value.0], done + {n};
      floor' := DeliverKeeps(states, i, origin, start, done, floor, n);
    } else {
      states', done', floor' := states, done, floor;
    }
  }

  /**
   The exact outcome after any run on a new chain: the next message opens to its plaintext if and only if its iteration
   is in the window of what the run did not open; anything the run opened or evicted is reported as a duplicate.
   */
  lemma DeliveryAfterAnyRun(states: seq<StateStructure>, d: DistributionMessage, origin: Term, ns: seq<u32>,
                            plaintexts: u32 -> Plaintext, wrongKey: WrongKey, ms: seq<SenderKeyMessage>, n: u32)
    returns (floor: nat)
    requires d.chainKey == KeyAt(origin, d.iteration) && FindHolder(states, d.chainId, d.signingKey).None?
    requires AnyChainMessages(ms, NewState(d), origin, ns, plaintexts, d.distribution)
    ensures var first := AddState(states, NewState(d));
            var after, done := AfterDeliveries(first, ms, wrongKey), OpenedBy(first, ms, wrongKey);
            var out := DecryptWithStates(after, ChainMessage(NewState(d), origin, d.distribution, n, plaintexts(n)),
                                         wrongKey);
            && Keeps(after, 0, origin, d.iteration, done, floor)
            && (out.Ok? <==> InWindow(after[0], done, floor, n))
            && (out.Ok? ==> out.value.1 == plaintexts(n))
            && (out.Err? && out.error.DuplicatedMessage?
                <==> n < after[0].chainKey.iteration && (n in done || n < floor))
  {
    var first := AddState(states, NewState(d));
    assert first[0] == NewState(d);
    NewStateWindow(d);
    floor := WindowAlways(first, 0, origin, d.iteration, {}, d.iteration, ns, plaintexts, d.distribution, wrongKey, ms);
    var after, done := AfterDeliveries(first, ms, wrongKey), OpenedBy(first, ms, wrongKey);
    assert {} + done == done;
    DeliverIff(after, 0, origin, d.iteration, done, floor, n, plaintexts(n), d.distribution, wrongKey);
    GetKeyIff(after[0], d.iteration, done, floor, n);
    assert ChainMessage(after[0], origin, d.distribution, n, plaintexts(n))
        == ChainMessage(NewState(d), origin, d.distribution, n, plaintexts(n));
  }

  /** The iteration is at most 2001 behind and at most 25000 ahead of the chain. */
  predicate Recent(st: StateStructure, n: u32) {
    st.chainKey.iteration <= n + MAX_MESSAGE_KEYS + 1 && n <= st.chainKey.iteration + MAX_FORWARD_JUMPS
  }

  /** An iteration from the start on is never evicted while it is recent. */
  lemma RecentIsInWindow(st: StateStructure, start: nat, done: set<nat>, floor: nat, n: u32)
    requires FloorFits(st, start, floor) && start <= n && n !in done && n < U32_MAX && Recent(st, n)
    ensures InWindow(st, done, floor, n)
  {
  }

  /**
   The promise to a caller: after any run of deliveries on a chain, of any length, order and repetition, an iteration
   from the start on that the run did not open, at most 2001 behind and at most 25000 ahead, opens to its plaintext.
   */
  lemma RecentOpensAfterAnyRun(states: seq<StateStructure>, d: DistributionMessage, origin: Term, ns: seq<u32>,
                               plaintexts: u32 -> Plaintext, wrongKey: WrongKey, ms: seq<SenderKeyMessage>, n: u32)
    requires d.chainKey == KeyAt(origin, d.iteration) && FindHolder(states, d.chainId, d.signingKey).None?
    requires AnyChainMessages(ms, NewState(d), origin, ns, plaintexts, d.distribution)
    requires d.iteration <= n < U32_MAX
    ensures var first := AddState(states, NewState(d));
            var after := AfterDeliveries(first, ms, wrongKey);
            var out := DecryptWithStates(after, ChainMessage(NewState(d), origin, d.distribution, n, plaintexts(n)),
                                         wrongKey);
            && after != []
            && (n !in OpenedBy(first, ms, wrongKey) && Recent(after[0], n) ==>
                out.Ok? && out.value.1 == plaintexts(n))
  {
    var first := AddState(states, NewState(d));
    var floor := DeliveryAfterAnyRun(states, d, origin, ns, plaintexts, wrongKey, ms, n);
    var after, done := AfterDeliveries(first, ms, wrongKey), OpenedBy(first, ms, wrongKey);
    if n !in done && Recent(after[0], n) {
      RecentIsInWindow(after[0], d.iteration, done, floor, n);
    }
  }
}
