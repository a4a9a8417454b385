/**
 Authenticity of group messages (rust/protocol/src/group_cipher.rs:124-194): against a network that delivers anything
 but forged signatures, in any order and among any distribution messages, a receiver accepts on a chain only what its
 sender encrypted, and opens it to what was encrypted.
 */
module GroupAuthenticity {
  import opened Prelude
  import opened Symbolic
  import opened RatchetKeys
  import opened Messages
  import opened SenderKeys
  import opened GroupCipher
  import opened GroupDelivery
  import opened GroupRuns
  import opened GroupEndToEnd

  /** The state held for a chain and signing key follows the chain. */
  ghost predicate ChainFollows(states: seq<StateStructure>, c: u32, signing: Name, origin: Term, start: nat) {
    forall i :: 0 <= i < |states| && Holds(states[i], c, signing) ==> Follows(states[i], origin, start)
  }

  lemma StepKeepsFollowing(states: seq<StateStructure>, step: GroupStep, c: u32, signing: Name, origin: Term,
                           start: nat)
    requires HasChain(states, c, signing) && ChainFollows(states, c, signing, origin, start)
    ensures ChainFollows(GroupNext(states, step), c, signing, origin, start)
  {
    match step {
      case Distribute(d) =>
        AddStateMembers(states, NewState(d));
        var states' := AddState(states, NewState(d));
        forall i | 0 <= i < |states'| && Holds(states'[i], c, signing) ensures Follows(states'[i], origin, start) {
          assert states'[i] in states;
        }
      case Deliver(m, wrongKey) =>
        if Accepts(states, step) {
          var i := FindState(states, m.content.chainId).value;
          if Holds(states[i], c, signing) {
            GetKeyKeeps(states[i], origin, start, m.content.iteration);
          }
        }
    }
  }

  lemma {:induction false} RunKeepsFollowing(states: seq<StateStructure>, steps: seq<GroupStep>, n: nat, c: u32,
                                             signing: Name, origin: Term, start: nat)
    requires StatesInv(states) && Stays(states, steps, c, signing) && n <= |steps|
    requires ChainFollows(states, c, signing, origin, start)
    ensures var after := AfterGroup(states, steps[..n]);
            StatesInv(after) && HasChain(after, c, signing) && ChainFollows(after, c, signing, origin, start)
    decreases n
  {
    if n > 0 {
      var next := GroupNext(states, steps[0]);
      StepNeverRewinds(states, steps[0], c, signing, 0);
      StepKeepsFollowing(states, steps[0], c, signing, origin, start);
      RunKeepsFollowing(next, steps[1..], n - 1, c, signing, origin, start);
      assert steps[..n][1..] == steps[1..][..n - 1];
    }
  }

  /** A chain message that is accepted opens to what was sealed in it. */
  lemma AcceptedOpens(states: seq<StateStructure>, step: GroupStep, st: StateStructure, origin: Term, start: nat,
                      distribution: DistributionId, n: u32, plaintext: Plaintext)
    requires NoRepeats(ChainIds(states)) && HasChain(states, st.chainId, st.signingKey)
    requires ChainFollows(states, st.chainId, st.signingKey, origin, start)
    requires Accepts(states, step) && step.message == ChainMessage(st, origin, distribution, n, plaintext)
    ensures DecryptWithStates(states, step.message, step.wrongKey).value.1 == plaintext
  {
    var j := FindState(states, st.chainId).value;
    HolderIsFound(states, st.chainId, st.signingKey, j);
    GetKeyKeeps(states[j], origin, start, n);
  }

  lemma HolderIsFound(states: seq<StateStructure>, c: u32, signing: Name, j: nat)
    requires NoRepeats(ChainIds(states)) && HasChain(states, c, signing) && FindState(states, c) == Some(j)
    ensures j < |states| && Holds(states[j], c, signing)
  {
    var i :| 0 <= i < |states| && Holds(states[i], c, signing);
    assert ChainIds(states)[i] == ChainIds(states)[j];
  }

  ghost predicate WasSent(ms: seq<SenderKeyMessage>, content: GroupContent) {
    exists j :: 0 <= j < |ms| && ms[j].content == content
  }

  /** The network does not forge: a signature under the sender's key is one of those the sender made. */
  ghost predicate Unforged(steps: seq<GroupStep>, signing: Name, ms: seq<SenderKeyMessage>) {
    forall k :: 0 <= k < |steps| ==> SignsOnlySent(steps[k], signing, ms)
  }

  ghost predicate SignsOnlySent(step: GroupStep, signing: Name, ms: seq<SenderKeyMessage>) {
    step.Deliver? && step.message.signature.GroupSigned? && step.message.signature.signer == signing ==>
      WasSent(ms, step.message.signature.content)
  }

  /** The receiver's record before the `i`-th step after it processed the distribution message. */
  function Before(states: seq<StateStructure>, d: DistributionMessage, steps: seq<GroupStep>, i: nat)
    : seq<StateStructure>
    requires i <= |steps|
  {
    AfterGroup(AddState(states, NewState(d)), steps[..i])
  }

  /** Only what was sent is accepted on the chain, and it opens to its plaintext. */
  lemma OnlySentIsAccepted(states: seq<StateStructure>, d: DistributionMessage, st: StateStructure, origin: Term,
                           ms: seq<SenderKeyMessage>, plaintexts: seq<Plaintext>, steps: seq<GroupStep>, i: nat)
    returns (j: nat)
    requires StatesInv(states) && FindHolder(states, d.chainId, d.signingKey).None?
    requires d.chainKey == KeyAt(origin, d.iteration) && Holds(st, d.chainId, d.signingKey)
    requires SentFrom(ms, st, origin, d.distribution, d.iteration, plaintexts) && Unforged(steps, d.signingKey, ms)
    requires Stays(AddState(states, NewState(d)), steps, d.chainId, d.signingKey)
    requires i < |steps| && Accepts(Before(states, d, steps, i), steps[i])
    requires steps[i].message.content.chainId == d.chainId
    ensures j < |ms| == |plaintexts| && steps[i].message == ms[j]
    ensures DecryptWithStates(Before(states, d, steps, i), steps[i].message, steps[i].wrongKey).value.1 == plaintexts[j]
  {
    FirstFollows(states, d, origin);
    RunKeepsFollowing(AddState(states, NewState(d)), steps, i, d.chainId, d.signingKey, origin, d.iteration);
    j := AcceptedWasSent(Before(states, d, steps, i), steps[i], st, origin, d.iteration, d.distribution, ms,
                         plaintexts);
  }

  lemma AcceptedWasSent(states: seq<StateStructure>, step: GroupStep, st: StateStructure, origin: Term, start: u32,
                        distribution: DistributionId, ms: seq<SenderKeyMessage>, plaintexts: seq<Plaintext>)
    returns (j: nat)
    requires NoRepeats(ChainIds(states)) && HasChain(states, st.chainId, st.signingKey)
    requires ChainFollows(states, st.chainId, st.signingKey, origin, start)
    requires SentFrom(ms, st, origin, distribution, start, plaintexts) && SignsOnlySent(step, st.signingKey, ms)
    requires Accepts(states, step) && step.message.content.chainId == st.chainId
    ensures j < |ms| == |plaintexts| && step.message == ms[j]
    ensures DecryptWithStates(states, step.message, step.wrongKey).value.1 == plaintexts[j]
  {
    AcceptedIsSigned(states, step, st.chainId, st.signingKey);
    j :| 0 <= j < |ms| && ms[j].content == step.message.content;
    AcceptedOpens(states, step, st, origin, start, distribution, start + j, plaintexts[j]);
  }

  /**
   From the sender's calls to the receiver's record: whatever is delivered and distributed besides, as long as nobody
   else signs with the sender's key and the chain stays in the record, each message accepted on the chain is one that
   the sender encrypted, and its plaintext is the one given to that call.
   */
  lemma ConversationIsAuthentic(senderStore: SenderKeyStore, sender: Sender, distribution: DistributionId, chainId: u32,
                                seed: Name, signing: Name, origin: Term, plaintexts: seq<Plaintext>,
                                states: seq<StateStructure>, steps: seq<GroupStep>, i: nat)
    returns (j: nat)
    requires var at := (sender, distribution);
             if at in senderStore then OnChain(senderStore, at, origin) else origin == Random(seed)
    requires CreateDistribution(senderStore, sender, distribution, chainId, seed, signing).Ok?
    requires var (store, d) := CreateDistribution(senderStore, sender, distribution, chainId, seed, signing).value;
             && EncryptAll(store, sender, distribution, plaintexts).Ok?
             && FindHolder(states, d.chainId, d.signingKey).None?
             && Unforged(steps, d.signingKey, EncryptAll(store, sender, distribution, plaintexts).value.1)
             && Stays(AddState(states, NewState(d)), steps, d.chainId, d.signingKey)
             && i < |steps| && Accepts(Before(states, d, steps, i), steps[i])
             && steps[i].message.content.chainId == d.chainId
    requires StatesInv(states)
    ensures var (store, d) := CreateDistribution(senderStore, sender, distribution, chainId, seed, signing).value;
            var ms := EncryptAll(store, sender, distribution, plaintexts).value.1;
            && j < |ms| == |plaintexts| && steps[i].message == ms[j]
            && DecryptWithStates(Before(states, d, steps, i), steps[i].message, steps[i].wrongKey).value.1
               == plaintexts[j]
  {
    var (store, d) := CreateDistribution(senderStore, sender, distribution, chainId, seed, signing).value;
    CreateIsOnChain(senderStore, sender, distribution, chainId, seed, signing, origin);
    EncryptAllSealsChain(store, sender, distribution, plaintexts, origin);
    j := OnlySentIsAccepted(states, d, store[(sender, distribution)][0], origin,
                            EncryptAll(store, sender, distribution, plaintexts).value.1, plaintexts, steps, i);
  }

  lemma FirstFollows(states: seq<StateStructure>, d: DistributionMessage, origin: Term)
    requires StatesInv(states) && FindHolder(states, d.chainId, d.signingKey).None?
    requires d.chainKey == KeyAt(origin, d.iteration)
    ensures var first := AddState(states, NewState(d));
            StatesInv(first) && ChainFollows(first, d.chainId, d.signingKey, origin, d.iteration)
  {
    var first := AddState(states, NewState(d));
    assert first[0] == NewState(d);
    AddStateNoRepeats(states, NewState(d));
    AddStateMembers(states, NewState(d));
    forall i | 0 <= i < |first| ensures StateInv(first[i]) {
      assert i == 0 || first[i] in states;
    }
    forall i | 1 <= i < |first| ensures !Holds(first[i], d.chainId, d.signingKey) {
      assert first[i] in states;
    }
  }

  // ---------------------------------------------------------------------------------------------
  // The store

  /**
   What `group_decrypt` accepts has the one version this library writes and the signature of the state it names, over
   all of its content; only that state of that sender's record changes.
   */
  lemma DecryptedIsSigned(store: SenderKeyStore, sender: Sender, m: SenderKeyMessage, wrongKey: WrongKey)
    returns (i: nat)
    requires GroupDecrypt(store, sender, m, wrongKey).Ok?
    ensures var at := (sender, m.content.distribution);
            && at in store && i < |store[at]| && m.content.version == SENDERKEY_VERSION
            && store[at][i].chainId == m.content.chainId && StateVersion(store[at][i]) == SENDERKEY_VERSION
            && m.signature == GroupSigned(store[at][i].signingKey, m.content)
            && var store' := GroupDecrypt(store, sender, m, wrongKey).value.0;
            && at in store' && |store'[at]| == |store[at]| && store' == store[at := store'[at]]
            && forall j :: 0 <= j < |store[at]| && j != i ==> store'[at][j] == store[at][j]
  {
    i := FindState(store[(sender, m.content.distribution)], m.content.chainId).value;
  }

  predicate NoPrivate(states: seq<StateStructure>) {
    forall i :: 0 <= i < |states| ==> !states[i].hasPrivate
  }

  lemma StepKeepsNoPrivate(states: seq<StateStructure>, step: GroupStep)
    requires NoPrivate(states)
    ensures NoPrivate(GroupNext(states, step))
  {
    match step {
      case Distribute(d) =>
        AddStateMembers(states, NewState(d));
        var states' := AddState(states, NewState(d));
        forall i | 0 <= i < |states'| ensures !states'[i].hasPrivate {
          assert states'[i] == NewState(d) || states'[i] in states;
        }
      case Deliver(m, wrongKey) =>
    }
  }

  /** Whatever was distributed and delivered to a record without signing keys, nobody can encrypt with it. */
  lemma {:induction false} ReceiversCannotEncrypt(states: seq<StateStructure>, steps: seq<GroupStep>,
                                                  store: SenderKeyStore, sender: Sender, distribution: DistributionId,
                                                  plaintext: Plaintext)
    requires NoPrivate(states)
    ensures NoPrivate(AfterGroup(states, steps))
    ensures GroupEncrypt(store[(sender, distribution) := AfterGroup(states, steps)], sender, distribution, plaintext)
         == Err(InvalidSenderKeySession)
    decreases |steps|
  {
    if steps != [] {
      StepKeepsNoPrivate(states, steps[0]);
      ReceiversCannotEncrypt(GroupNext(states, steps[0]), steps[1..], store, sender, distribution, plaintext);
    }
  }
}
