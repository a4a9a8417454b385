/**
 Receiving and sending on one session (rust/protocol/src/session_cipher.rs).

 `DecryptWithState` is the outcome of `decrypt_message_with_state`. The methods below perform it in place on
 a `SessionState`, including the updates that a failing attempt leaves behind in its working copy.
 */
module SessionCipher {
  import opened Prelude
  import opened Symbolic
  import opened RatchetKeys
  import opened Messages
  import opened SessionStates

  // ---------------------------------------------------------------------------------------------
  // Outcome functions

  /** The session after a Diffie-Hellman step against a ratchet key it has no chain for. */
  function RatchetStep(s: SessionStructure, theirs: Name, eph: Name): SessionStructure
    requires s.senderChain.Some?
  {
    var (root1, receiving) := CreateChain(s.rootKey, theirs, s.senderChain.value.ratchetKey);
    var (root2, sending) := CreateChain(root1, theirs, eph);
    var index := s.senderChain.value.chainKey.index;
    s.(rootKey := root2,
       receiverChains := AddChain(s.receiverChains, Chain(theirs, receiving, [])),
       previousCounter := if index > 0 then index - 1 else 0,
       senderChain := Some(SenderChain(eph, sending)))
  }

  /** The session once it is ready to receive on `theirs`. */
  function WithChainFor(s: SessionStructure, theirs: Name, eph: Name): Result<SessionStructure, Error> {
    if FindChain(s.receiverChains, theirs).Some? then Ok(s)
    else if s.senderChain.None? then Err(InvalidSessionStructure)
    else Ok(RatchetStep(s, theirs, eph))
  }

  predicate TooFar(s: SessionStructure, chainIndex: nat, counter: nat) {
    chainIndex <= counter && counter - chainIndex > MAX_FORWARD_JUMPS && !SelfSession(s)
  }

  /** Moving past the last 32-bit index. */
  predicate Overflows(chainIndex: nat, counter: nat) {
    chainIndex <= counter && counter >= U32_MAX
  }

  /** The chain after its key for `counter` was taken, and that key. */
  function TakeKey(s: SessionStructure, chain: Chain, counter: nat): Result<(Chain, MessageSeed), Error>
  {
    var index := chain.chainKey.index;
    if index > counter then
      var k := FindKey(chain.messageKeys, counter);
      if k.None? then Err(DuplicatedMessage(index, counter))
      else Ok((chain.(messageKeys := Without(chain.messageKeys, k.value)), chain.messageKeys[k.value]))
    else if TooFar(s, index, counter) then Err(InvalidMessage)
    else if Overflows(index, counter) then Err(CounterOverflow)
    else
      var reached := Forward(chain.chainKey, counter);
      Ok((chain.(messageKeys := StoreSkipped(chain.messageKeys, Skipped(chain.chainKey, counter)),
                 chainKey := NextChainKey(reached)),
          SeedOf(reached)))
  }

  /** The session after the key for a message was taken, and that key. */
  function TakeKeyFor(s: SessionStructure, theirs: Name, counter: nat): Result<(SessionStructure, MessageSeed), Error>
    requires FindChain(s.receiverChains, theirs).Some?
  {
    var i := FindChain(s.receiverChains, theirs).value;
    var (chain, seed) :- TakeKey(s, s.receiverChains[i], counter);
    Ok((s.(receiverChains := s.receiverChains[i := chain]), seed))
  }

  lemma FindLast(chains: seq<Chain>, c: Chain)
    requires FindChain(chains, c.ratchetKey).None?
    ensures var all := AddChain(chains, c);
            FindChain(all, c.ratchetKey) == Some(|all| - 1) && all[|all| - 1] == c
  {
    var all := AddChain(chains, c);
    assert all[|all| - 1] == c;
    assert forall j :: 0 <= j < |all| - 1 ==> all[j] in chains;
  }

  lemma WithChainForFinds(s: SessionStructure, theirs: Name, eph: Name)
    requires WithChainFor(s, theirs, eph).Ok?
    ensures FindChain(WithChainFor(s, theirs, eph).value.receiverChains, theirs).Some?
  {
    if FindChain(s.receiverChains, theirs).None? {
      var (_, receiving) := CreateChain(s.rootKey, theirs, s.senderChain.value.ratchetKey);
      FindLast(s.receiverChains, Chain(theirs, receiving, []));
    }
  }

  function ExpectedMac(s: SessionStructure, content: Content, seed: MessageSeed, pqKey: Option<Term>): MacTag {
    Mac(GenerateKeys(seed, pqKey).macKey, s.remoteIdentity, s.localIdentity, content)
  }

  /** Everything after the message key is known: post-quantum ratchet, MAC, cipher, acknowledgement. */
  function OpenWith(s: SessionStructure, m: SignalMessage, seed: MessageSeed, o: Oracles)
    : Result<(SessionStructure, Plaintext), Error>
  {
    match o.pqRecv(s.pq, m.content.pq)
    case None => Err(InvalidMessage)
    case Some((pq, pqKey)) =>
      if m.mac != ExpectedMac(s, m.content, seed, pqKey) then Err(InvalidMessage)
      else match DecryptBody(o, GenerateKeys(seed, pqKey), m.content.body)
           case None => Err(InvalidMessage)
           case Some(plaintext) => Ok((ClearPending(s.(pq := pq)), plaintext))
  }

  function DecryptWithState(s: SessionStructure, m: SignalMessage, eph: Name, o: Oracles)
    : Result<(SessionStructure, Plaintext), Error>
  {
    if m.content.version != SessionVersion(s) then Err(UnrecognizedMessageVersion(m.content.version))
    else
      var s1 :- WithChainFor(s, m.content.ratchetKey, eph);
      WithChainForFinds(s, m.content.ratchetKey, eph);
      var (s2, seed) :- TakeKeyFor(s1, m.content.ratchetKey, m.content.counter);
      OpenWith(s2, m, seed, o)
  }

  /** What `message_encrypt` makes of a session: the advanced session and the message. */
  function EncryptWithState(s: SessionStructure, plaintext: Plaintext, pq: PqState, pqKey: Option<Term>,
                            pqMsg: PqMessage)
    : (SessionStructure, SignalMessage)
    requires s.senderChain.Some? && s.senderChain.value.chainKey.index < U32_MAX
  {
    var chain := s.senderChain.value;
    (s.(senderChain := Some(chain.(chainKey := NextChainKey(chain.chainKey))), pq := pq),
     SealMessage(SessionVersion(s), SeedOf(chain.chainKey), pqKey, chain.ratchetKey, s.previousCounter,
                 s.localIdentity, s.remoteIdentity, pqMsg, plaintext))
  }

  // ---------------------------------------------------------------------------------------------
  // In-place form

  method GetOrCreateChainKey(state: SessionState, theirs: Name, eph: Name) returns (r: Result<ChainKey, Error>)
    modifies state
    ensures var out := WithChainFor(old(state.session), theirs, eph);
            match out
            case Err(e) => r == Err(e) && state.session == old(state.session)
            case Ok(s) =>
              && state.session == s
              && FindChain(s.receiverChains, theirs).Some?
              && r == Ok(s.receiverChains[FindChain(s.receiverChains, theirs).value].chainKey)
  {
    var found := FindChain(state.session.receiverChains, theirs);
    if found.Some? {
      return Ok(state.session.receiverChains[found.value].chainKey);
    }
    if state.session.senderChain.None? {
      return Err(InvalidSessionStructure);
    }
    WithChainForFinds(state.session, theirs, eph);
    var ours := state.session.senderChain.value.ratchetKey;
    var (root1, receiving) := CreateChain(state.session.rootKey, theirs, ours);
    var (root2, sending) := CreateChain(root1, theirs, eph);
    FindLast(state.session.receiverChains, Chain(theirs, receiving, []));
    state.session := state.session.(rootKey := root2);
    state.AddReceiverChain(theirs, receiving);
    var current := state.session.senderChain.value.chainKey.index;
    state.session := state.session.(previousCounter := if current > 0 then current - 1 else 0);
    state.SetSenderChain(eph, sending);
    return Ok(receiving);
  }

  method GetOrCreateMessageKey(state: SessionState, theirs: Name, chainKey: ChainKey, counter: nat)
    returns (r: Result<MessageSeed, Error>)
    requires var i := FindChain(state.session.receiverChains, theirs);
             i.Some? && state.session.receiverChains[i.value].chainKey == chainKey
    modifies state
    ensures match TakeKeyFor(old(state.session), theirs, counter)
            case Err(e) => r == Err(e) && state.session == old(state.session)
            case Ok((s, seed)) => r == Ok(seed) && state.session == s
  {
    ghost var i := FindChain(state.session.receiverChains, theirs).value;
    if chainKey.index > counter {
      var stored := state.GetMessageKeys(theirs, counter);
      if stored.Some? {
        return Ok(stored.value);
      }
      return Err(DuplicatedMessage(chainKey.index, counter));
    }
    var jump := counter - chainKey.index;
    if jump > MAX_FORWARD_JUMPS && !SelfSession(state.session) {
      return Err(InvalidMessage);
    }
    if counter >= U32_MAX {
      return Err(CounterOverflow);
    }
    var current := StoreSkippedKeys(state, theirs, chainKey, counter);
    WithKeysFinds(old(state.session), theirs, state.session.receiverChains[i].messageKeys);
    state.SetReceiverChainKey(theirs, NextChainKey(current));
    return Ok(SeedOf(current));
  }

  /** The loop of `get_or_create_message_key`: every key passed over on the way to `counter` is stored. */
  method StoreSkippedKeys(state: SessionState, theirs: Name, chainKey: ChainKey, counter: nat)
    returns (current: ChainKey)
    requires FindChain(state.session.receiverChains, theirs).Some? && chainKey.index <= counter < U32_MAX
    modifies state
    ensures var i := FindChain(old(state.session.receiverChains), theirs).value;
            var stored := old(state.session.receiverChains)[i].messageKeys;
            state.session == WithKeys(old(state.session), i, StoreSkipped(stored, Skipped(chainKey, counter)))
    ensures current == Forward(chainKey, counter)
  {
    ghost var s0 := state.session;
    ghost var i := FindChain(s0.receiverChains, theirs).value;
    ghost var keys := s0.receiverChains[i].messageKeys;
    current := chainKey;
    while current.index < counter
      invariant current.index <= counter
      invariant state.session == WithKeys(s0, i, keys)
      invariant StoreSkipped(keys, Skipped(current, counter))
             == StoreSkipped(s0.receiverChains[i].messageKeys, Skipped(chainKey, counter))
      invariant Forward(current, counter) == Forward(chainKey, counter)
    {
      WithKeysFinds(s0, theirs, keys);
      StoreSkippedStep(keys, SeedOf(current), Skipped(NextChainKey(current), counter));
      state.SetMessageKeys(theirs, SeedOf(current));
      keys := InsertKey(keys, SeedOf(current));
      current := NextChainKey(current);
    }
    assert StoreSkipped(keys, []) == keys;
  }

  /** The session with other stored keys on its `i`-th receiving chain. */
  function WithKeys(s: SessionStructure, i: nat, keys: seq<MessageSeed>): SessionStructure
    requires i < |s.receiverChains|
  {
    s.(receiverChains := s.receiverChains[i := s.receiverChains[i].(messageKeys := keys)])
  }

  lemma WithKeysFinds(s: SessionStructure, theirs: Name, keys: seq<MessageSeed>)
    requires FindChain(s.receiverChains, theirs).Some?
    ensures var i := FindChain(s.receiverChains, theirs).value;
            FindChain(WithKeys(s, i, keys).receiverChains, theirs) == Some(i)
  {
    var i := FindChain(s.receiverChains, theirs).value;
    var chains := WithKeys(s, i, keys).receiverChains;
    assert forall j :: 0 <= j < |chains| ==> chains[j].ratchetKey == s.receiverChains[j].ratchetKey;
  }

  /** On failure the working copy may already have been changed; only its result is specified. */
  method DecryptMessageWithState(state: SessionState, m: SignalMessage, eph: Name, o: Oracles)
    returns (r: Result<Plaintext, Error>)
    modifies state
    ensures match DecryptWithState(old(state.session), m, eph, o)
            case Err(e) => r == Err(e)
            case Ok((s, plaintext)) => r == Ok(plaintext) && state.session == s
  {
    var version := m.content.version;
    if version != SessionVersion(state.session) {
      return Err(UnrecognizedMessageVersion(version));
    }
    var theirs := m.content.ratchetKey;
    var chainKey :- GetOrCreateChainKey(state, theirs, eph);
    var seed :- GetOrCreateMessageKey(state, theirs, chainKey, m.content.counter);
    var received := o.pqRecv(state.session.pq, m.content.pq);
    if received.None? {
      return Err(InvalidMessage);
    }
    var (pq, pqKey) := received.value;
    state.session := state.session.(pq := pq);
    var keys := GenerateKeys(seed, pqKey);
    if m.mac != Mac(keys.macKey, state.session.remoteIdentity, state.session.localIdentity, m.content) {
      return Err(InvalidMessage);
    }
    var plaintext := DecryptBody(o, keys, m.content.body);
    if plaintext.None? {
      return Err(InvalidMessage);
    }
    state.ClearUnacknowledgedPreKeyMessage();
    return Ok(plaintext.value);
  }
}
