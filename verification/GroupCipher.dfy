/** Group messages over sender keys (rust/protocol/src/group_cipher.rs). */
module GroupCipher {
  import opened Prelude
  import opened Symbolic
  import opened Messages
  import opened SenderKeys

  type DistributionId = nat
  type Sender = nat

  /** Everything of a SenderKeyMessage that its signature covers. */
  datatype GroupContent = GroupContent(version: nat, distribution: DistributionId, chainId: u32, iteration: u32,
                                       body: Body)

  datatype GroupSignature = GroupSigned(signer: Name, content: GroupContent) | RawGroupSignature(bytes: seq<bv8>)

  datatype SenderKeyMessage = SenderKeyMessage(content: GroupContent, signature: GroupSignature)

  datatype DistributionMessage = DistributionMessage(
    version: nat, distribution: DistributionId, chainId: u32, iteration: u32, chainKey: Term, signingKey: Name)

  type SenderKeyStore = map<(Sender, DistributionId), seq<StateStructure>>

  /** What CBC decryption makes of a body under a key that did not produce it. */
  type WrongKey = (Term, Term, Body) -> Option<Plaintext>

  // ---------------------------------------------------------------------------------------------
  // Outcome functions

  /** The chain key at a later iteration, and the message keys passed on the way, oldest first. */
  function ChainUpTo(ck: SenderChainKey, iteration: u32): (r: SenderChainKey)
    requires ck.iteration <= iteration
    ensures r.iteration == iteration
    decreases iteration - ck.iteration
  {
    if ck.iteration == iteration then ck else ChainUpTo(NextSender(ck).value, iteration)
  }

  function Passed(ck: SenderChainKey, iteration: u32): (r: seq<SenderMessageKey>)
    requires ck.iteration <= iteration
    ensures |r| == iteration - ck.iteration
    decreases iteration - ck.iteration
  {
    if ck.iteration == iteration then [] else [MessageKeyOf(ck)] + Passed(NextSender(ck).value, iteration)
  }

  /** What a whole run of additions leaves of the store. */
  function Keep(keys: seq<SenderMessageKey>, passed: seq<SenderMessageKey>): seq<SenderMessageKey> {
    if passed == [] then keys else LastKeys(keys + passed)
  }

  function GetKey(st: StateStructure, iteration: u32): Result<(StateStructure, SenderMessageKey), Error> {
    var current := st.chainKey.iteration;
    if current > iteration then
      match FindMessageKey(st.messageKeys, iteration)
      case Some(i) => Ok((st.(messageKeys := Without(st.messageKeys, i)), st.messageKeys[i]))
      case None => Err(DuplicatedMessage(current, iteration))
    else if iteration - current > MAX_FORWARD_JUMPS then Err(InvalidMessage)
    else
      var reached := ChainUpTo(st.chainKey, iteration);
      var next :- NextSender(reached);
      Ok((st.(messageKeys := Keep(st.messageKeys, Passed(st.chainKey, iteration)), chainKey := next),
          MessageKeyOf(reached)))
  }

  function OpenBody(k: SenderMessageKey, body: Body, wrongKey: WrongKey): Option<Plaintext> {
    if body.Cbc? && body.key == CipherKey(k) && body.iv == Iv(k) then Some(body.plaintext)
    else wrongKey(CipherKey(k), Iv(k), body)
  }

  function DecryptWithStates(states: seq<StateStructure>, m: SenderKeyMessage, wrongKey: WrongKey)
    : Result<(seq<StateStructure>, Plaintext), Error>
  {
    match FindState(states, m.content.chainId)
    case None => Err(NoSenderKeyState)
    case Some(i) =>
      var st := states[i];
      if m.content.version != StateVersion(st) then Err(UnrecognizedMessageVersion(m.content.version))
      else if m.signature != GroupSigned(st.signingKey, m.content) then Err(SignatureValidationFailed)
      else
        var (st', key) :- GetKey(st, m.content.iteration);
        match OpenBody(key, m.content.body, wrongKey)
        case None => Err(InvalidMessage)
        case Some(plaintext) => Ok((states[i := st'], plaintext))
  }

  function GroupDecrypt(store: SenderKeyStore, sender: Sender, m: SenderKeyMessage, wrongKey: WrongKey)
    : Result<(SenderKeyStore, Plaintext), Error>
  {
    var at := (sender, m.content.distribution);
    if m.content.version != SENDERKEY_VERSION then Err(BadCiphertextVersion(m.content.version))
    else if at !in store then Err(NoSenderKeyState)
    else
      var (states, plaintext) :- DecryptWithStates(store[at], m, wrongKey);
      Ok((store[at := states], plaintext))
  }

  function SealGroup(st: StateStructure, distribution: DistributionId, plaintext: Plaintext): SenderKeyMessage {
    var key := MessageKeyOf(st.chainKey);
    var content := GroupContent(StateVersion(st), distribution, st.chainId, key.iteration,
                                Cbc(CipherKey(key), Iv(key), plaintext));
    SenderKeyMessage(content, GroupSigned(st.signingKey, content))
  }

  function GroupEncrypt(store: SenderKeyStore, sender: Sender, distribution: DistributionId, plaintext: Plaintext)
    : Result<(SenderKeyStore, SenderKeyMessage), Error>
  {
    var at := (sender, distribution);
    if at !in store then Err(NoSenderKeyState)
    else if store[at] == [] || !store[at][0].hasPrivate then Err(InvalidSenderKeySession)
    else
      var st := store[at][0];
      var next :- NextSender(st.chainKey);
      Ok((store[at := store[at][0 := st.(chainKey := next)]], SealGroup(st, distribution, plaintext)))
  }

  function NewState(m: DistributionMessage): StateStructure {
    StateStructure(m.version, m.chainId, SenderChainKey(m.iteration, m.chainKey), m.signingKey, false, [])
  }

  function ProcessDistribution(store: SenderKeyStore, sender: Sender, m: DistributionMessage): SenderKeyStore {
    var at := (sender, m.distribution);
    store[at := AddState(if at in store then store[at] else [], NewState(m))]
  }

  /** The stored record, or a new one with a fresh chain id, chain key and signing key. */
  function OwnStates(store: SenderKeyStore, at: (Sender, DistributionId), chainId: u32, seed: Name, signing: Name)
    : seq<StateStructure>
  {
    if at in store then store[at]
    else AddState([], StateStructure(SENDERKEY_VERSION, chainId, SenderChainKey(0, Random(seed)), signing, true, []))
  }

  function CreateDistribution(store: SenderKeyStore, sender: Sender, distribution: DistributionId,
                              chainId: u32, seed: Name, signing: Name)
    : Result<(SenderKeyStore, DistributionMessage), Error>
  {
    var at := (sender, distribution);
    var states := OwnStates(store, at, chainId, seed, signing);
    if states == [] then Err(InvalidSenderKeySession)
    else
      var st := states[0];
      Ok((store[at := states],
          DistributionMessage(StateVersion(st), distribution, st.chainId, st.chainKey.iteration, st.chainKey.key,
                              st.signingKey)))
  }

  // ---------------------------------------------------------------------------------------------
  // In-place form

  lemma KeepStep(keys: seq<SenderMessageKey>, k: SenderMessageKey, later: seq<SenderMessageKey>)
    ensures Keep(LastKeys(keys + [k]), later) == Keep(keys, [k] + later)
  {
    assert keys + ([k] + later) == (keys + [k]) + later;
    var all := (keys + [k]) + later;
    if |keys| + 1 > MAX_MESSAGE_KEYS {
      assert LastKeys(keys + [k]) + later == all[|keys| + 1 - MAX_MESSAGE_KEYS..];
    }
  }

  method GetSenderKey(state: SenderKeyState, iteration: u32) returns (r: Result<SenderMessageKey, Error>)
    modifies state
    ensures match GetKey(old(state.state), iteration)
            case Err(e) => r == Err(e)
            case Ok((st, key)) => r == Ok(key) && state.state == st
  {
    var chainKey := state.state.chainKey;
    var current := chainKey.iteration;
    if current > iteration {
      var removed := state.RemoveSenderMessageKey(iteration);
      if removed.Some? {
        return Ok(removed.value);
      }
      return Err(DuplicatedMessage(current, iteration));
    }
    var jump := iteration - current;
    if jump > MAX_FORWARD_JUMPS {
      return Err(InvalidMessage);
    }
    ghost var st := state.state;
    while chainKey.iteration < iteration
      invariant current <= chainKey.iteration <= iteration
      invariant state.state == st.(messageKeys := state.state.messageKeys)
      invariant ChainUpTo(chainKey, iteration) == ChainUpTo(st.chainKey, iteration)
      invariant Keep(state.state.messageKeys, Passed(chainKey, iteration))
             == Keep(st.messageKeys, Passed(st.chainKey, iteration))
    {
      var key, next := MessageKeyOf(chainKey), NextSender(chainKey).value;
      KeepStep(state.state.messageKeys, key, Passed(next, iteration));
      state.AddSenderMessageKey(key);
      chainKey := next;
    }
    var next :- NextSender(chainKey);
    state.state := state.state.(chainKey := next);
    return Ok(MessageKeyOf(chainKey));
  }

  class InMemSenderKeyStore {
    var keys: SenderKeyStore

    constructor ()
      ensures keys == map[]
    {
      keys := map[];
    }

    /** The record is changed in a copy and stored only after the message was opened. */
    method Decrypt(sender: Sender, m: SenderKeyMessage, wrongKey: WrongKey) returns (r: Result<Plaintext, Error>)
      modifies this
      ensures match GroupDecrypt(old(keys), sender, m, wrongKey)
              case Err(e) => r == Err(e) && keys == old(keys)
              case Ok((store, plaintext)) => r == Ok(plaintext) && keys == store
    {
      if m.content.version != SENDERKEY_VERSION {
        return Err(BadCiphertextVersion(m.content.version));
      }
      var at := (sender, m.content.distribution);
      if at !in keys {
        return Err(NoSenderKeyState);
      }
      var rec := new SenderKeyRecord(keys[at]);
      var found := FindState(rec.states, m.content.chainId);
      if found.None? {
        return Err(NoSenderKeyState);
      }
      var state := new SenderKeyState(rec.states[found.value]);
      if m.content.version != StateVersion(state.state) {
        return Err(UnrecognizedMessageVersion(m.content.version));
      }
      if m.signature != GroupSigned(state.state.signingKey, m.content) {
        return Err(SignatureValidationFailed);
      }
      var key :- GetSenderKey(state, m.content.iteration);
      var plaintext := OpenBody(key, m.content.body, wrongKey);
      if plaintext.None? {
        return Err(InvalidMessage);
      }
      rec.states := rec.states[found.value := state.state];
      keys := keys[at := rec.states];
      return Ok(plaintext.value);
    }

    method Encrypt(sender: Sender, distribution: DistributionId, plaintext: Plaintext)
      returns (r: Result<SenderKeyMessage, Error>)
      modifies this
      ensures match GroupEncrypt(old(keys), sender, distribution, plaintext)
              case Err(e) => r == Err(e) && keys == old(keys)
              case Ok((store, m)) => r == Ok(m) && keys == store
    {
      var at := (sender, distribution);
      if at !in keys {
        return Err(NoSenderKeyState);
      }
      var rec := new SenderKeyRecord(keys[at]);
      if rec.states == [] {
        return Err(InvalidSenderKeySession);
      }
      var state := new SenderKeyState(rec.states[0]);
      if !state.state.hasPrivate {
        return Err(InvalidSenderKeySession);
      }
      var m := SealGroup(state.state, distribution, plaintext);
      var next :- NextSender(state.state.chainKey);
      state.state := state.state.(chainKey := next);
      rec.states := rec.states[0 := state.state];
      keys := keys[at := rec.states];
      return Ok(m);
    }

    /** Distributes the current chain, starting one if there is no record yet. */
    method Create(sender: Sender, distribution: DistributionId, chainId: u32, seed: Name, signing: Name)
      returns (r: Result<DistributionMessage, Error>)
      modifies this
      ensures match CreateDistribution(old(keys), sender, distribution, chainId, seed, signing)
              case Err(e) => r == Err(e) && keys == old(keys)
              case Ok((store, m)) => r == Ok(m) && keys == store
    {
      var at := (sender, distribution);
      if at !in keys {
        var rec := new SenderKeyRecord([]);
        rec.AddSenderKeyState(StateStructure(SENDERKEY_VERSION, chainId, SenderChainKey(0, Random(seed)), signing,
                                             true, []));
        keys := keys[at := rec.states];
      }
      if keys[at] == [] {
        return Err(InvalidSenderKeySession);
      }
      var st := keys[at][0];
      return Ok(DistributionMessage(StateVersion(st), distribution, st.chainId, st.chainKey.iteration, st.chainKey.key,
                                    st.signingKey));
    }

    method Process(sender: Sender, m: DistributionMessage)
      modifies this
      ensures keys == ProcessDistribution(old(keys), sender, m)
    {
      var at := (sender, m.distribution);
      var rec := new SenderKeyRecord(if at in keys then keys[at] else []);
      rec.AddSenderKeyState(NewState(m));
      keys := keys[at := rec.states];
    }
  }
}
