/**
 Delivery of group messages: any order, any repetitions.

 A chain is named by its key at iteration 0. A receiver that was given the chain key of iteration `start` can open
 exactly the messages from there on, each once, as long as it never has to keep more than 2000 skipped keys.
 */
module GroupDelivery {
  import opened Prelude
  import opened Symbolic
  import opened RatchetKeys
  import opened Messages
  import opened SenderKeys
  import opened GroupCipher

  function KeyFor(origin: Term, n: u32): SenderMessageKey {
    SenderMessageKey(n, Hmac(KeyAt(origin, n), MESSAGE_KEY_SEED))
  }

  ghost predicate StoredAt(st: StateStructure, n: nat) {
    exists k :: 0 <= k < |st.messageKeys| && st.messageKeys[k].iteration == n
  }

  ghost predicate Openable(st: StateStructure, n: nat) {
    n >= st.chainKey.iteration || StoredAt(st, n)
  }

  ghost predicate Ascending(keys: seq<SenderMessageKey>) {
    forall j, k :: 0 <= j < k < |keys| ==> keys[j].iteration < keys[k].iteration
  }

  ghost predicate KeysWithin(keys: seq<SenderMessageKey>, origin: Term, lo: nat, hi: nat) {
    forall k :: 0 <= k < |keys| ==> lo <= keys[k].iteration < hi && keys[k] == KeyFor(origin, keys[k].iteration)
  }

  /** The state follows the chain from `origin`, and never had an iteration before `start`. */
  ghost predicate Follows(st: StateStructure, origin: Term, start: nat) {
    && st.chainKey.key == KeyAt(origin, st.chainKey.iteration) && start <= st.chainKey.iteration
    && Ascending(st.messageKeys) && KeysWithin(st.messageKeys, origin, start, st.chainKey.iteration)
  }

  lemma {:induction false} ChainUpToFollows(origin: Term, ck: SenderChainKey, n: u32)
    requires ck.iteration <= n && ck.key == KeyAt(origin, ck.iteration)
    ensures ChainUpTo(ck, n).key == KeyAt(origin, n)
    ensures forall k :: 0 <= k < n - ck.iteration ==> Passed(ck, n)[k] == KeyFor(origin, ck.iteration + k)
    decreases n - ck.iteration
  {
    if ck.iteration < n {
      ChainUpToFollows(origin, NextSender(ck).value, n);
    }
  }

  function AllPassed(st: StateStructure, n: u32): seq<SenderMessageKey>
    requires st.chainKey.iteration <= n
  {
    st.messageKeys + Passed(st.chainKey, n)
  }

  lemma AllPassedFollow(st: StateStructure, origin: Term, start: nat, n: u32)
    requires Follows(st, origin, start) && st.chainKey.iteration <= n
    ensures Ascending(AllPassed(st, n)) && KeysWithin(AllPassed(st, n), origin, start, n)
    ensures forall i: nat :: i < n ==>
              ((exists k :: 0 <= k < |AllPassed(st, n)| && AllPassed(st, n)[k].iteration == i) <==> Openable(st, i))
  {
    var all, had := AllPassed(st, n), st.messageKeys;
    AllPassedKeys(st, origin, start, n);
    forall i: nat | i < n && Openable(st, i) ensures exists k :: 0 <= k < |all| && all[k].iteration == i {
      if i >= st.chainKey.iteration {
        assert all[|had| + (i - st.chainKey.iteration)].iteration == i;
      } else {
        var k :| 0 <= k < |had| && had[k].iteration == i;
        assert all[k].iteration == i;
      }
    }
    forall k | 0 <= k < |all| && all[k].iteration < st.chainKey.iteration ensures StoredAt(st, all[k].iteration) {
      assert had[k].iteration == all[k].iteration;
    }
  }

  lemma AllPassedKeys(st: StateStructure, origin: Term, start: nat, n: u32)
    requires Follows(st, origin, start) && st.chainKey.iteration <= n
    ensures var all, had := AllPassed(st, n), st.messageKeys;
            && |all| == |had| + (n - st.chainKey.iteration)
            && (forall k :: 0 <= k < |had| ==> all[k] == had[k])
            && (forall k :: |had| <= k < |all| ==> all[k].iteration == st.chainKey.iteration + (k - |had|))
            && Ascending(all) && KeysWithin(all, origin, start, n)
  {
    var all, had := AllPassed(st, n), st.messageKeys;
    ChainUpToFollows(origin, st.chainKey, n);
    assert forall k :: |had| <= k < |all| ==> all[k] == KeyFor(origin, st.chainKey.iteration + (k - |had|));
  }

  /** Distinct iterations in a range are no more than the range is long. */
  lemma {:induction false} AscendingFits(keys: seq<SenderMessageKey>, lo: nat, hi: nat)
    requires Ascending(keys) && lo <= hi && forall k :: 0 <= k < |keys| ==> lo <= keys[k].iteration < hi
    ensures |keys| <= hi - lo
    decreases |keys|
  {
    if keys != [] {
      var last := keys[|keys| - 1].iteration;
      AscendingFits(keys[..|keys| - 1], lo, last);
    }
  }

  /** A message opened: right key, used up for good, nothing else becomes openable. */
  lemma GetKeyKeeps(st: StateStructure, origin: Term, start: nat, n: u32)
    requires Follows(st, origin, start) && GetKey(st, n).Ok?
    ensures var (st', key) := GetKey(st, n).value;
            && Follows(st', origin, start) && key == KeyFor(origin, n)
            && st' == st.(chainKey := st'.chainKey, messageKeys := st'.messageKeys)
            && Openable(st, n) && !Openable(st', n) && (forall i: nat :: Openable(st', i) ==> Openable(st, i))
            && st'.chainKey.iteration == Max(st.chainKey.iteration, n + 1)
  {
    if st.chainKey.iteration > n {
      var i := FindMessageKey(st.messageKeys, n).value;
      var (st', key) := GetKey(st, n).value;
      assert forall k :: 0 <= k < |st'.messageKeys| ==>
               st'.messageKeys[k] == st.messageKeys[if k < i then k else k + 1];
    } else {
      JumpKeeps(st, origin, start, n);
    }
  }

  lemma JumpKeeps(st: StateStructure, origin: Term, start: nat, n: u32)
    requires Follows(st, origin, start) && st.chainKey.iteration <= n && GetKey(st, n).Ok?
    ensures var (st', key) := GetKey(st, n).value;
            && Follows(st', origin, start) && key == KeyFor(origin, n)
            && !Openable(st', n) && (forall i: nat :: Openable(st', i) ==> Openable(st, i))
  {
    AllPassedFollow(st, origin, start, n);
    ChainUpToFollows(origin, st.chainKey, n);
    var drop := JumpShape(st, n);
    JumpFollows(st, GetKey(st, n).value.0, origin, start, n, drop);
  }

  /** After a jump the state keeps an end of the stored and passed-over keys. */
  lemma JumpShape(st: StateStructure, n: u32) returns (drop: nat)
    requires st.chainKey.iteration <= n && GetKey(st, n).Ok?
    ensures var (st', key) := GetKey(st, n).value;
            && drop <= |AllPassed(st, n)| && st'.messageKeys == AllPassed(st, n)[drop..]
            && key == MessageKeyOf(ChainUpTo(st.chainKey, n))
            && NextSender(ChainUpTo(st.chainKey, n)) == Ok(st'.chainKey)
  {
    drop := |AllPassed(st, n)| - |GetKey(st, n).value.0.messageKeys|;
  }

  lemma JumpFollows(st: StateStructure, st': StateStructure, origin: Term, start: nat, n: u32, drop: nat)
    requires Follows(st, origin, start) && st.chainKey.iteration <= n
    requires drop <= |AllPassed(st, n)| && st'.messageKeys == AllPassed(st, n)[drop..]
    requires st'.chainKey.iteration == n + 1 && st'.chainKey.key == KeyAt(origin, n + 1)
    ensures Follows(st', origin, start) && !Openable(st', n) && (forall i: nat :: Openable(st', i) ==> Openable(st, i))
  {
    var all := AllPassed(st, n);
    AllPassedFollow(st, origin, start, n);
    SuffixKeeps(all, drop, origin, start, n);
    forall i: nat | Openable(st', i) && i <= n ensures i < n && Openable(st, i) {
      var k :| 0 <= k < |st'.messageKeys| && st'.messageKeys[k].iteration == i;
      assert all[drop + k].iteration == i;
    }
  }

  lemma SuffixKeeps(all: seq<SenderMessageKey>, drop: nat, origin: Term, lo: nat, hi: nat)
    requires drop <= |all| && Ascending(all) && KeysWithin(all, origin, lo, hi)
    ensures Ascending(all[drop..]) && KeysWithin(all[drop..], origin, lo, hi + 1)
  {
    assert forall k :: 0 <= k < |all| - drop ==> all[drop..][k] == all[drop + k];
  }

  /** Within 2001 iterations of the start nothing is ever evicted. */
  lemma NothingEvicted(st: StateStructure, origin: Term, start: nat, n: u32)
    requires Follows(st, origin, start) && n < U32_MAX && start <= n <= start + MAX_MESSAGE_KEYS && Openable(st, n)
    ensures GetKey(st, n).Ok?
    ensures forall i: nat :: i >= start && i != n && Openable(st, i) ==> Openable(GetKey(st, n).value.0, i)
  {
    var st' := GetKey(st, n).value.0;
    if st.chainKey.iteration > n {
      var at := FindMessageKey(st.messageKeys, n).value;
      forall i: nat | StoredAt(st, i) && i != n ensures StoredAt(st', i) {
        var k :| 0 <= k < |st.messageKeys| && st.messageKeys[k].iteration == i;
        assert st'.messageKeys[if k < at then k else k - 1].iteration == i;
      }
    } else {
      var all := AllPassed(st, n);
      AllPassedFollow(st, origin, start, n);
      AscendingFits(all, start, n);
      assert st'.messageKeys == all;
    }
  }

  // ---------------------------------------------------------------------------------------------
  // Messages of one chain

  /** The chain's message for iteration `n`, as its sender seals it. */
  function ChainMessage(st: StateStructure, origin: Term, distribution: DistributionId, n: u32, plaintext: Plaintext)
    : SenderKeyMessage
  {
    var key := KeyFor(origin, n);
    var content := GroupContent(StateVersion(st), distribution, st.chainId, n, Cbc(CipherKey(key), Iv(key), plaintext));
    SenderKeyMessage(content, GroupSigned(st.signingKey, content))
  }

  /** A sender on the chain seals its current iteration's message and moves to the next iteration. */
  lemma SenderSealsChainMessages(store: SenderKeyStore, sender: Sender, distribution: DistributionId,
                                 plaintext: Plaintext, origin: Term)
    requires GroupEncrypt(store, sender, distribution, plaintext).Ok?
    requires var ck := store[(sender, distribution)][0].chainKey;
             ck.key == KeyAt(origin, ck.iteration)
    ensures var (store', m) := GroupEncrypt(store, sender, distribution, plaintext).value;
            var st, st' := store[(sender, distribution)][0], store'[(sender, distribution)][0];
            && m == ChainMessage(st, origin, distribution, st.chainKey.iteration, plaintext)
            && st'.chainKey.iteration == st.chainKey.iteration + 1
            && st'.chainKey.key == KeyAt(origin, st'.chainKey.iteration)
            && st' == st.(chainKey := st'.chainKey)
  {
  }

  /** The outcome of one delivery: own plaintext once, duplicate from then on. */
  lemma DeliverOne(states: seq<StateStructure>, i: nat, origin: Term, start: nat, m: SenderKeyMessage, n: u32,
                   plaintext: Plaintext, distribution: DistributionId, wrongKey: WrongKey)
    requires i < |states| && FindState(states, states[i].chainId) == Some(i) && Follows(states[i], origin, start)
    requires m == ChainMessage(states[i], origin, distribution, n, plaintext)
    requires n < U32_MAX && start <= n <= start + MAX_MESSAGE_KEYS
    ensures var out := DecryptWithStates(states, m, wrongKey);
            if Openable(states[i], n) then
              && GetKey(states[i], n).Ok?
              && out == Ok((states[i := GetKey(states[i], n).value.0], plaintext))
            else out == Err(DuplicatedMessage(states[i].chainKey.iteration, n))
  {
    if Openable(states[i], n) {
      NothingEvicted(states[i], origin, start, n);
      GetKeyKeeps(states[i], origin, start, n);
    }
  }

  /** Deliveries one after the other; a failed one leaves the states alone. */
  function DeliverAll(states: seq<StateStructure>, ms: seq<SenderKeyMessage>, wrongKey: WrongKey)
    : (r: seq<Result<Plaintext, Error>>)
    ensures |r| == |ms|
    decreases |ms|
  {
    if ms == [] then []
    else match DecryptWithStates(states, ms[0], wrongKey)
         case Ok((states', plaintext)) => [Ok(plaintext)] + DeliverAll(states', ms[1..], wrongKey)
         case Err(e) => [Err(e)] + DeliverAll(states, ms[1..], wrongKey)
  }

  predicate IsDuplicate(r: Result<Plaintext, Error>) {
    r.Err? && r.error.DuplicatedMessage?
  }

  /** The messages are the chain's messages for the given iterations, all within 2001 of the start. */
  ghost predicate ChainMessages(ms: seq<SenderKeyMessage>, st: StateStructure, origin: Term, start: nat, ns: seq<u32>,
                                plaintexts: u32 -> Plaintext, distribution: DistributionId)
  {
    |ms| == |ns| && forall k :: 0 <= k < |ns| ==>
      && ns[k] < U32_MAX && start <= ns[k] <= start + MAX_MESSAGE_KEYS
      && ms[k] == ChainMessage(st, origin, distribution, ns[k], plaintexts(ns[k]))
  }

  lemma ChainMessagesTail(ms: seq<SenderKeyMessage>, st: StateStructure, st': StateStructure, origin: Term, start: nat,
                          ns: seq<u32>,
                          plaintexts: u32 -> Plaintext, distribution: DistributionId)
    requires ChainMessages(ms, st, origin, start, ns, plaintexts, distribution) && ns != []
    requires st' == st.(chainKey := st'.chainKey, messageKeys := st'.messageKeys)
    ensures ChainMessages(ms[1..], st', origin, start, ns[1..], plaintexts, distribution)
  {
  }

  /** From `start` on, exactly the iterations outside `done` can be opened. */
  ghost predicate OpenOutside(st: StateStructure, start: nat, done: set<nat>) {
    forall n: nat :: n >= start ==> (Openable(st, n) <==> n !in done)
  }

  lemma GetKeyMarksDone(st: StateStructure, origin: Term, start: nat, done: set<nat>, n: u32)
    requires Follows(st, origin, start) && OpenOutside(st, start, done) && n !in done
    requires n < U32_MAX && start <= n <= start + MAX_MESSAGE_KEYS
    ensures GetKey(st, n).Ok?
    ensures var st' := GetKey(st, n).value.0;
            && Follows(st', origin, start) && OpenOutside(st', start, done + {n})
            && st' == st.(chainKey := st'.chainKey, messageKeys := st'.messageKeys)
  {
    NothingEvicted(st, origin, start, n);
    GetKeyKeeps(st, origin, start, n);
  }

  lemma DeliverAllTail(states: seq<StateStructure>, ms: seq<SenderKeyMessage>, wrongKey: WrongKey, p: nat)
    requires p < |ms|
    ensures var first := DecryptWithStates(states, ms[0], wrongKey);
            var out := DeliverAll(states, ms, wrongKey);
            && out[0] == (if first.Ok? then Ok(first.value.1) else Err(first.error))
            && (p > 0 ==> out[p] == DeliverAll(if first.Ok? then first.value.0 else states, ms[1..], wrongKey)[p - 1])
  {
  }

  /** State `i` of the record follows the chain and has opened exactly `done`. */
  ghost predicate Reached(states: seq<StateStructure>, i: nat, origin: Term, start: nat, done: set<nat>) {
    && i < |states| && FindState(states, states[i].chainId) == Some(i)
    && Follows(states[i], origin, start) && OpenOutside(states[i], start, done)
  }

  /** The outcome of the first delivery, and the record left for the others. */
  lemma DeliverNext(states: seq<StateStructure>, i: nat, origin: Term, start: nat, done: set<nat>,
                    ns: seq<u32>, plaintexts: u32 -> Plaintext, distribution: DistributionId, wrongKey: WrongKey,
                    ms: seq<SenderKeyMessage>, p: nat) returns (states': seq<StateStructure>)
    requires Reached(states, i, origin, start, done) && p < |ns|
    requires ChainMessages(ms, states[i], origin, start, ns, plaintexts, distribution)
    ensures var out := DeliverAll(states, ms, wrongKey);
            && (if ns[0] in done then IsDuplicate(out[0]) else out[0] == Ok(plaintexts(ns[0])))
            && (p > 0 ==> out[p] == DeliverAll(states', ms[1..], wrongKey)[p - 1])
    ensures Reached(states', i, origin, start, done + {ns[0]})
    ensures ChainMessages(ms[1..], states'[i], origin, start, ns[1..], plaintexts, distribution)
  {
    var n := ns[0];
    DeliverOne(states, i, origin, start, ms[0], n, plaintexts(n), distribution, wrongKey);
    DeliverAllTail(states, ms, wrongKey, p);
    if n in done {
      states' := states;
      assert done + {n} == done;
    } else {
      GetKeyMarksDone(states[i], origin, start, done, n);
      states' := states[i := GetKey(states[i], n).value.0];
      FindSame(states, states', i);
    }
    ChainMessagesTail(ms, states[i], states'[i], origin, start, ns, plaintexts, distribution);
  }

  /**
   Any order, any repetitions: of messages within 2001 iterations, each first delivery yields its own plaintext and
   each later delivery is reported as a duplicate.
   */
  lemma {:induction false} AnyOrder(states: seq<StateStructure>, i: nat, origin: Term, start: nat, done: set<nat>,
                                    ns: seq<u32>, plaintexts: u32 -> Plaintext, distribution: DistributionId,
                                    wrongKey: WrongKey, ms: seq<SenderKeyMessage>, p: nat)
    requires Reached(states, i, origin, start, done) && p < |ns|
    requires ChainMessages(ms, states[i], origin, start, ns, plaintexts, distribution)
    ensures var out := DeliverAll(states, ms, wrongKey)[p];
            if ns[p] in done || ns[p] in ns[..p] then IsDuplicate(out) else out == Ok(plaintexts(ns[p]))
    decreases |ns|
  {
    var states' := DeliverNext(states, i, origin, start, done, ns, plaintexts, distribution, wrongKey, ms, p);
    if p > 0 {
      AnyOrder(states', i, origin, start, done + {ns[0]}, ns[1..], plaintexts, distribution, wrongKey, ms[1..], p - 1);
      SeenBefore(ns, p);
    } else {
      assert ns[..0] == [];
    }
  }

  lemma SeenBefore(ns: seq<u32>, p: nat)
    requires 0 < p < |ns|
    ensures ns[p] in ns[..p] <==> ns[p] == ns[0] || ns[1..][p - 1] in ns[1..][..p - 1]
  {
    assert ns[..p] == [ns[0]] + ns[1..][..p - 1];
  }

  lemma FindSame(states: seq<StateStructure>, states': seq<StateStructure>, i: nat)
    requires i < |states| == |states'| && FindState(states, states[i].chainId) == Some(i)
    requires forall k :: 0 <= k < |states| ==> states[k].chainId == states'[k].chainId
    ensures FindState(states', states'[i].chainId) == Some(i)
  {
  }

  /** Permutation theorem: after a distribution message, up to 2001 messages arrive in any order and all open. */
  lemma PermutationDelivers(states: seq<StateStructure>, d: DistributionMessage, origin: Term,
                            ns: seq<u32>, plaintexts: u32 -> Plaintext, wrongKey: WrongKey,
                            ms: seq<SenderKeyMessage>, p: nat)
    requires d.chainKey == KeyAt(origin, d.iteration) && FindHolder(states, d.chainId, d.signingKey).None?
    requires ChainMessages(ms, NewState(d), origin, d.iteration, ns, plaintexts, d.distribution) && p < |ns|
    ensures var out := DeliverAll(AddState(states, NewState(d)), ms, wrongKey)[p];
            if ns[p] in ns[..p] then IsDuplicate(out) else out == Ok(plaintexts(ns[p]))
  {
    var states' := AddState(states, NewState(d));
    assert states'[0] == NewState(d);
    AnyOrder(states', 0, origin, d.iteration, {}, ns, plaintexts, d.distribution, wrongKey, ms, p);
  }

  /** A late joiner never obtains an iteration before the one it was given. */
  lemma NoEarlierIteration(st: StateStructure, origin: Term, start: nat, n: u32)
    requires Follows(st, origin, start) && n < start
    ensures GetKey(st, n) == Err(DuplicatedMessage(st.chainKey.iteration, n))
  {
  }
}
