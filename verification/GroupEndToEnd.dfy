/**
 A group conversation from the sender's calls to the receiver's: `create_sender_key_distribution_message`, any number of
 `group_encrypt`, `process_sender_key_distribution_message` and `group_decrypt` in any order
 (rust/protocol/src/group_cipher.rs).
 */
module GroupEndToEnd {
  import opened Prelude
  import opened Symbolic
  import opened RatchetKeys
  import opened Messages
  import opened SenderKeys
  import opened GroupCipher
  import opened GroupDelivery

  // ---------------------------------------------------------------------------------------------
  // The sender

  /** Encrypts one plaintext after the other. */
  function EncryptAll(store: SenderKeyStore, sender: Sender, distribution: DistributionId, plaintexts: seq<Plaintext>)
    : Result<(SenderKeyStore, seq<SenderKeyMessage>), Error>
    decreases |plaintexts|
  {
    if plaintexts == [] then Ok((store, []))
    else
      var (store', m) :- GroupEncrypt(store, sender, distribution, plaintexts[0]);
      var (store'', ms) :- EncryptAll(store', sender, distribution, plaintexts[1..]);
      Ok((store'', [m] + ms))
  }

  /** The sender's current state is on the chain from `origin`, with the version this library writes. */
  ghost predicate OnChain(store: SenderKeyStore, at: (Sender, DistributionId), origin: Term) {
    && at in store && store[at] != [] && StateVersion(store[at][0]) == SENDERKEY_VERSION
    && store[at][0].chainKey.key == KeyAt(origin, store[at][0].chainKey.iteration)
  }

  /** A sender without a record starts a new chain; one with a record distributes the chain it is on. */
  lemma CreateIsOnChain(store: SenderKeyStore, sender: Sender, distribution: DistributionId, chainId: u32, seed: Name,
                        signing: Name,
                        origin: Term)
    requires var at := (sender, distribution);
             if at in store then OnChain(store, at, origin) else origin == Random(seed)
    ensures CreateDistribution(store, sender, distribution, chainId, seed, signing).Ok?
    ensures var (store', d) := CreateDistribution(store, sender, distribution, chainId, seed, signing).value;
            var st := store'[(sender, distribution)][0];
            && OnChain(store', (sender, distribution), origin)
            && d == DistributionMessage(StateVersion(st), distribution, st.chainId, st.chainKey.iteration,
                                        st.chainKey.key, st.signingKey)
  {
    assert KeyAt(Random(seed), 0) == Random(seed);
  }

  /** The sender holds a signing key for its current state, and `count` more iterations fit 32 bits. */
  ghost predicate CanEncrypt(store: SenderKeyStore, at: (Sender, DistributionId), count: nat) {
    at in store && store[at] != [] && store[at][0].hasPrivate && store[at][0].chainKey.iteration + count <= U32_MAX
  }

  /** Encryption of one plaintext after the other goes through exactly then. */
  lemma {:induction false} EncryptsIff(store: SenderKeyStore, sender: Sender, distribution: DistributionId,
                                       plaintexts: seq<Plaintext>)
    requires plaintexts != []
    ensures EncryptAll(store, sender, distribution, plaintexts).Ok?
       <==> CanEncrypt(store, (sender, distribution), |plaintexts|)
    decreases |plaintexts|
  {
    var first := GroupEncrypt(store, sender, distribution, plaintexts[0]);
    assert first.Ok? <==> CanEncrypt(store, (sender, distribution), 1);
    if first.Ok? && |plaintexts| > 1 {
      EncryptsIff(first.value.0, sender, distribution, plaintexts[1..]);
    }
  }

  /** The messages of a run of encryptions are the chain's messages from the current iteration on. */
  lemma {:induction false} EncryptAllSealsChain(store: SenderKeyStore, sender: Sender, distribution: DistributionId,
                                                plaintexts: seq<Plaintext>, origin: Term)
    requires OnChain(store, (sender, distribution), origin) && EncryptAll(store, sender, distribution, plaintexts).Ok?
    ensures var st, ms := store[(sender, distribution)][0], EncryptAll(store, sender, distribution, plaintexts).value.1;
            SentFrom(ms, st, origin, distribution, st.chainKey.iteration, plaintexts)
    decreases |plaintexts|
  {
    if plaintexts != [] {
      var at := (sender, distribution);
      var (store', m) := GroupEncrypt(store, sender, distribution, plaintexts[0]).value;
      SenderSealsChainMessages(store, sender, distribution, plaintexts[0], origin);
      EncryptAllSealsChain(store', sender, distribution, plaintexts[1..], origin);
      SentCons(m, EncryptAll(store', sender, distribution, plaintexts[1..]).value.1, store[at][0], store'[at][0],
               origin, distribution,
               plaintexts);
    }
  }

  lemma SentCons(m: SenderKeyMessage, ms: seq<SenderKeyMessage>, st: StateStructure, st': StateStructure, origin: Term,
                 distribution: DistributionId, plaintexts: seq<Plaintext>)
    requires plaintexts != [] && st' == st.(chainKey := st'.chainKey)
             && st'.chainKey.iteration == st.chainKey.iteration + 1
    requires m == ChainMessage(st, origin, distribution, st.chainKey.iteration, plaintexts[0])
    requires SentFrom(ms, st', origin, distribution, st'.chainKey.iteration, plaintexts[1..])
    ensures SentFrom([m] + ms, st, origin, distribution, st.chainKey.iteration, plaintexts)
  {
    var all := [m] + ms;
    forall k | 0 <= k < |all|
      ensures all[k] == ChainMessage(st, origin, distribution, st.chainKey.iteration + k, plaintexts[k])
    {
      if k > 0 {
        assert all[k] == ChainMessage(st', origin, distribution, st'.chainKey.iteration + (k - 1),
                                      plaintexts[1..][k - 1]);
      }
    }
  }

  // ---------------------------------------------------------------------------------------------
  // The receiver

  /** Decrypts one message after the other; a failure leaves the store as it was. */
  function DecryptAll(store: SenderKeyStore, sender: Sender, ms: seq<SenderKeyMessage>, wrongKey: WrongKey)
    : (r: seq<Result<Plaintext, Error>>)
    ensures |r| == |ms|
    decreases |ms|
  {
    if ms == [] then []
    else match GroupDecrypt(store, sender, ms[0], wrongKey)
         case Ok((store', plaintext)) => [Ok(plaintext)] + DecryptAll(store', sender, ms[1..], wrongKey)
         case Err(e) => [Err(e)] + DecryptAll(store, sender, ms[1..], wrongKey)
  }

  /** Messages of one distribution pass the version check and stay within one record. */
  lemma {:induction false} StoreDelivers(store: SenderKeyStore, sender: Sender, distribution: DistributionId,
                                         ms: seq<SenderKeyMessage>, wrongKey: WrongKey)
    requires (sender, distribution) in store
    requires forall m :: m in ms ==> m.content.version == SENDERKEY_VERSION && m.content.distribution == distribution
    ensures DecryptAll(store, sender, ms, wrongKey) == DeliverAll(store[(sender, distribution)], ms, wrongKey)
    decreases |ms|
  {
    if ms != [] {
      var first := DecryptWithStates(store[(sender, distribution)], ms[0], wrongKey);
      assert ms[0] in ms;
      StoreDelivers(if first.Ok? then store[(sender, distribution) := first.value.0] else store,
                    sender, distribution, ms[1..], wrongKey);
    }
  }

  function Select<T>(xs: seq<T>, order: seq<nat>): (r: seq<T>)
    requires forall k :: 0 <= k < |order| ==> order[k] < |xs|
    ensures |r| == |order| && forall k :: 0 <= k < |order| ==> r[k] == xs[order[k]]
  {
    if order == [] then [] else [xs[order[0]]] + Select(xs, order[1..])
  }

  /** The iterations of messages delivered in some order. */
  function IterationsOf(start: u32, count: nat, order: seq<nat>): (ns: seq<u32>)
    requires start + count <= U32_MAX && forall k :: 0 <= k < |order| ==> order[k] < count
    ensures |ns| == |order| && forall k :: 0 <= k < |order| ==> ns[k] == start + order[k]
  {
    if order == [] then [] else [start + order[0]] + IterationsOf(start, count, order[1..])
  }

  lemma SameRepeats(start: nat, ns: seq<u32>, order: seq<nat>, p: nat)
    requires |ns| == |order| && p < |order| && forall k :: 0 <= k < |order| ==> ns[k] == start + order[k]
    ensures ns[p] in ns[..p] <==> order[p] in order[..p]
  {
    if order[p] in order[..p] {
      var q :| 0 <= q < p && order[..p][q] == order[p];
      assert ns[..p][q] == ns[p];
    }
    if ns[p] in ns[..p] {
      var q :| 0 <= q < p && ns[..p][q] == ns[p];
      assert order[..p][q] == order[p];
    }
  }

  function PlaintextAt(start: u32, plaintexts: seq<Plaintext>): (f: u32 -> Plaintext)
    ensures forall k :: 0 <= k < |plaintexts| && start + k <= U32_MAX ==> f(start + k) == plaintexts[k]
  {
    (n: u32) => if start <= n < start + |plaintexts| then plaintexts[n - start] else []
  }

  /** The distribution message describes the sender's state. */
  predicate Describes(d: DistributionMessage, st: StateStructure) {
    d.version == StateVersion(st) && d.chainId == st.chainId && d.signingKey == st.signingKey
  }

  /** Sender and receiver states on one chain mean the same message by an iteration. */
  lemma SameChainMessage(d: DistributionMessage, st: StateStructure, origin: Term, n: u32, plaintext: Plaintext)
    requires Describes(d, st)
    ensures ChainMessage(st, origin, d.distribution, n, plaintext)
         == ChainMessage(NewState(d), origin, d.distribution, n, plaintext)
  {
  }

  /** The messages, one for each plaintext, from iteration `start` on. */
  ghost predicate SentFrom(ms: seq<SenderKeyMessage>, st: StateStructure, origin: Term, distribution: DistributionId,
                           start: u32,
                           plaintexts: seq<Plaintext>)
  {
    |ms| == |plaintexts| && start + |plaintexts| <= U32_MAX &&
    forall k :: 0 <= k < |ms| ==> ms[k] == ChainMessage(st, origin, distribution, start + k, plaintexts[k])
  }

  /** The delivered messages are chain messages for the receiver's new state. */
  lemma DeliveredAreChainMessages(st: StateStructure, d: DistributionMessage, origin: Term, plaintexts: seq<Plaintext>,
                                  ms: seq<SenderKeyMessage>, order: seq<nat>, ns: seq<u32>,
                                  delivered: seq<SenderKeyMessage>, f: u32 -> Plaintext)
    requires SentFrom(ms, st, origin, d.distribution, d.iteration, plaintexts) && Describes(d, st)
    requires |plaintexts| <= MAX_MESSAGE_KEYS + 1 && |ns| == |delivered| == |order|
    requires forall k :: 0 <= k < |order| ==>
               order[k] < |ms| && delivered[k] == ms[order[k]] && ns[k] == d.iteration + order[k]
    requires forall k :: 0 <= k < |plaintexts| ==> f(d.iteration + k) == plaintexts[k]
    ensures ChainMessages(delivered, NewState(d), origin, d.iteration, ns, f, d.distribution)
  {
    forall k | 0 <= k < |order|
      ensures delivered[k] == ChainMessage(NewState(d), origin, d.distribution, ns[k], f(ns[k]))
    {
      SameChainMessage(d, st, origin, ns[k], plaintexts[order[k]]);
    }
  }

  /** The receiver's half. */
  lemma ReceiverOpens(store: SenderKeyStore, sender: Sender, d: DistributionMessage, st: StateStructure, origin: Term,
                      plaintexts: seq<Plaintext>, ms: seq<SenderKeyMessage>, order: seq<nat>, wrongKey: WrongKey,
                      p: nat)
    requires SentFrom(ms, st, origin, d.distribution, d.iteration, plaintexts) && Describes(d, st)
    requires d.chainKey == KeyAt(origin, d.iteration) && d.version == SENDERKEY_VERSION
             && |plaintexts| <= MAX_MESSAGE_KEYS + 1
    requires (sender, d.distribution) in store ==>
               FindHolder(store[(sender, d.distribution)], d.chainId, d.signingKey).None?
    requires p < |order| && forall k :: 0 <= k < |order| ==> order[k] < |plaintexts|
    ensures var out := DecryptAll(ProcessDistribution(store, sender, d), sender, Select(ms, order), wrongKey)[p];
            if order[p] in order[..p] then IsDuplicate(out) else out == Ok(plaintexts[order[p]])
  {
    var ns, f := Numbers(d, st, origin, plaintexts, ms, order, p);
    ReceiverDelivers(store, sender, d, origin, ns, f, Select(ms, order), wrongKey, p);
  }

  /** The messages selected are those of some iterations of the chain, repeated where they are repeated. */
  lemma Numbers(d: DistributionMessage, st: StateStructure, origin: Term, plaintexts: seq<Plaintext>,
                ms: seq<SenderKeyMessage>, order: seq<nat>, p: nat)
    returns (ns: seq<u32>, f: u32 -> Plaintext)
    requires SentFrom(ms, st, origin, d.distribution, d.iteration, plaintexts) && Describes(d, st)
    requires |plaintexts| <= MAX_MESSAGE_KEYS + 1
    requires p < |order| && forall k :: 0 <= k < |order| ==> order[k] < |plaintexts|
    ensures ChainMessages(Select(ms, order), NewState(d), origin, d.iteration, ns, f, d.distribution)
    ensures p < |ns| && (ns[p] in ns[..p] <==> order[p] in order[..p]) && f(ns[p]) == plaintexts[order[p]]
  {
    f := PlaintextAt(d.iteration, plaintexts);
    ns := IterationsOf(d.iteration, |ms|, order);
    DeliveredAreChainMessages(st, d, origin, plaintexts, ms, order, ns, Select(ms, order), f);
    SameRepeats(d.iteration, ns, order, p);
  }

  /** Chain messages delivered through the store after its distribution message. */
  lemma ReceiverDelivers(store: SenderKeyStore, sender: Sender, d: DistributionMessage, origin: Term, ns: seq<u32>,
                         f: u32 -> Plaintext, delivered: seq<SenderKeyMessage>, wrongKey: WrongKey, p: nat)
    requires d.chainKey == KeyAt(origin, d.iteration) && d.version == SENDERKEY_VERSION && p < |ns|
    requires (sender, d.distribution) in store ==>
               FindHolder(store[(sender, d.distribution)], d.chainId, d.signingKey).None?
    requires ChainMessages(delivered, NewState(d), origin, d.iteration, ns, f, d.distribution)
    ensures var out := DecryptAll(ProcessDistribution(store, sender, d), sender, delivered, wrongKey)[p];
            if ns[p] in ns[..p] then IsDuplicate(out) else out == Ok(f(ns[p]))
  {
    var at := (sender, d.distribution);
    var held := if at in store then store[at] else [];
    var processed := ProcessDistribution(store, sender, d);
    assert processed[at] == AddState(held, NewState(d));
    ChainMessageHeaders(delivered, NewState(d), origin, d.iteration, ns, f, d.distribution);
    StoreDelivers(processed, sender, d.distribution, delivered, wrongKey);
    PermutationDelivers(held, d, origin, ns, f, wrongKey, delivered, p);
  }

  lemma ChainMessageHeaders(ms: seq<SenderKeyMessage>, st: StateStructure, origin: Term, start: nat, ns: seq<u32>,
                            f: u32 -> Plaintext, distribution: DistributionId)
    requires ChainMessages(ms, st, origin, start, ns, f, distribution) && StateVersion(st) == SENDERKEY_VERSION
    ensures forall m :: m in ms ==> m.content.version == SENDERKEY_VERSION && m.content.distribution == distribution
  {
  }

  /**
   End to end: a sender distributes its chain and encrypts at most 2001 messages; a receiver that does not hold the
   chain processes the distribution message and gets the messages in any order, with any losses and repetitions. The
   first delivery of each message yields its plaintext and every later one is reported as a duplicate.
   */
  lemma GroupConversation(senderStore: SenderKeyStore, receiverStore: SenderKeyStore, sender: Sender,
                          distribution: DistributionId,
                          chainId: u32, seed: Name, signing: Name, origin: Term,
                          plaintexts: seq<Plaintext>, order: seq<nat>, wrongKey: WrongKey, p: nat)
    requires var at := (sender, distribution);
             && |plaintexts| <= MAX_MESSAGE_KEYS + 1
             && if at in senderStore then OnChain(senderStore, at, origin) && CanEncrypt(senderStore, at, |plaintexts|)
                else origin == Random(seed)
    requires var d := CreateDistribution(senderStore, sender, distribution, chainId, seed, signing).value.1;
             (sender, distribution) in receiverStore ==>
               FindHolder(receiverStore[(sender, distribution)], d.chainId, d.signingKey).None?
    requires p < |order| && forall k :: 0 <= k < |order| ==> order[k] < |plaintexts|
    ensures var (store, d) := CreateDistribution(senderStore, sender, distribution, chainId, seed, signing).value;
            && EncryptAll(store, sender, distribution, plaintexts).Ok?
            && var ms := EncryptAll(store, sender, distribution, plaintexts).value.1;
            && |ms| == |plaintexts|
            && var out := DecryptAll(ProcessDistribution(receiverStore, sender, d), sender, Select(ms, order),
                                     wrongKey)[p];
            if order[p] in order[..p] then IsDuplicate(out) else out == Ok(plaintexts[order[p]])
  {
    CreateIsOnChain(senderStore, sender, distribution, chainId, seed, signing, origin);
    var (store, d) := CreateDistribution(senderStore, sender, distribution, chainId, seed, signing).value;
    assert order[p] < |plaintexts|;
    EncryptsIff(store, sender, distribution, plaintexts);
    var st, ms := store[(sender, distribution)][0], EncryptAll(store, sender, distribution, plaintexts).value.1;
    EncryptAllSealsChain(store, sender, distribution, plaintexts, origin);
    ReceiverOpens(receiverStore, sender, d, st, origin, plaintexts, ms, order, wrongKey, p);
  }
}
