/**
 Group sender keys (rust/protocol/src/sender_keys.rs).

 A sender key state is one hash chain with the keys that were skipped on it; a record is a short list of such
 states, the most recently added first.
 */
module SenderKeys {
  import opened Prelude
  import opened Symbolic
  import opened RatchetKeys
  import opened Messages

  datatype SenderChainKey = SenderChainKey(iteration: u32, key: Term)

  datatype SenderMessageKey = SenderMessageKey(iteration: u32, seed: Term)

  datatype StateStructure = StateStructure(
    version: nat,
    chainId: u32,
    chainKey: SenderChainKey,
    signingKey: Name,
    hasPrivate: bool,
    messageKeys: seq<SenderMessageKey>)

  function Iv(k: SenderMessageKey): Term {
    Hkdf(None, k.seed, WhisperGroup, 0)
  }

  function CipherKey(k: SenderMessageKey): Term {
    Hkdf(None, k.seed, WhisperGroup, 1)
  }

  function NextSender(ck: SenderChainKey): Result<SenderChainKey, Error> {
    if ck.iteration == U32_MAX then Err(InvalidState)
    else Ok(SenderChainKey(ck.iteration + 1, Hmac(ck.key, CHAIN_KEY_SEED)))
  }

  function MessageKeyOf(ck: SenderChainKey): SenderMessageKey {
    SenderMessageKey(ck.iteration, Hmac(ck.key, MESSAGE_KEY_SEED))
  }

  function StateVersion(st: StateStructure): nat {
    if st.version == 0 then 3 else st.version
  }

  function FindMessageKey(keys: seq<SenderMessageKey>, iteration: u32): (r: Option<nat>)
    ensures r.Some? ==> r.value < |keys| && keys[r.value].iteration == iteration
    ensures r.Some? ==> forall j :: 0 <= j < r.value ==> keys[j].iteration != iteration
    ensures r.None? ==> forall j :: 0 <= j < |keys| ==> keys[j].iteration != iteration
  {
    if keys == [] then None
    else if keys[0].iteration == iteration then Some(0)
    else
      var rest := FindMessageKey(keys[1..], iteration);
      if rest.Some? then Some(rest.value + 1) else None
  }

  function LastKeys(keys: seq<SenderMessageKey>): seq<SenderMessageKey> {
    if |keys| > MAX_MESSAGE_KEYS then keys[|keys| - MAX_MESSAGE_KEYS..] else keys
  }

  // ---------------------------------------------------------------------------------------------
  // Records

  function FindState(states: seq<StateStructure>, chainId: u32): (r: Option<nat>)
    ensures r.Some? ==> r.value < |states| && states[r.value].chainId == chainId
    ensures r.Some? ==> forall j :: 0 <= j < r.value ==> states[j].chainId != chainId
    ensures r.None? ==> forall j :: 0 <= j < |states| ==> states[j].chainId != chainId
  {
    if states == [] then None
    else if states[0].chainId == chainId then Some(0)
    else
      var rest := FindState(states[1..], chainId);
      if rest.Some? then Some(rest.value + 1) else None
  }

  predicate Holds(st: StateStructure, chainId: u32, signingKey: Name) {
    st.chainId == chainId && st.signingKey == signingKey
  }

  function FindHolder(states: seq<StateStructure>, chainId: u32, signingKey: Name): (r: Option<nat>)
    ensures r.Some? ==> r.value < |states| && Holds(states[r.value], chainId, signingKey)
    ensures r.Some? ==> forall j :: 0 <= j < r.value ==> !Holds(states[j], chainId, signingKey)
    ensures r.None? ==> forall j :: 0 <= j < |states| ==> !Holds(states[j], chainId, signingKey)
  {
    if states == [] then None
    else if Holds(states[0], chainId, signingKey) then Some(0)
    else
      var rest := FindHolder(states[1..], chainId, signingKey);
      if rest.Some? then Some(rest.value + 1) else None
  }

  /** `VecDeque::retain` on a different chain id. */
  function OtherChains(states: seq<StateStructure>, chainId: u32): (r: seq<StateStructure>)
    ensures |r| <= |states|
    ensures forall st :: st in r <==> st in states && st.chainId != chainId
  {
    if states == [] then []
    else if states[0].chainId != chainId then [states[0]] + OtherChains(states[1..], chainId)
    else OtherChains(states[1..], chainId)
  }

  /** At most four states, the oldest dropped first. */
  function MakeRoom(states: seq<StateStructure>): seq<StateStructure> {
    if |states| >= MAX_SENDER_KEY_STATES then states[..MAX_SENDER_KEY_STATES - 1] else states
  }

  /**
   The record after a distribution message: a state with the same chain id and signing key is kept as it is; any
   other state with the chain id goes; the state moves to the front.
   */
  function AddState(states: seq<StateStructure>, st: StateStructure): seq<StateStructure> {
    var existing := FindHolder(states, st.chainId, st.signingKey);
    [if existing.Some? then states[existing.value] else st] + MakeRoom(OtherChains(states, st.chainId))
  }

  lemma {:induction false} OtherChainsSkips(states: seq<StateStructure>, i: nat, chainId: u32)
    requires i < |states| && states[i].chainId == chainId
    ensures OtherChains(Without(states, i), chainId) == OtherChains(states, chainId)
  {
    if i > 0 {
      OtherChainsSkips(states[1..], i - 1, chainId);
      assert Without(states, i) == [states[0]] + Without(states[1..], i - 1);
    } else {
      assert Without(states, 0) == states[1..];
    }
  }

  // ---------------------------------------------------------------------------------------------
  // In-place form

  class SenderKeyState {
    var state: StateStructure

    constructor (st: StateStructure)
      ensures state == st
    {
      state := st;
    }

    method AddSenderMessageKey(k: SenderMessageKey)
      modifies this
      ensures state == old(state).(messageKeys := LastKeys(old(state.messageKeys) + [k]))
    {
      state := state.(messageKeys := state.messageKeys + [k]);
      ghost var all := state.messageKeys;
      while |state.messageKeys| > MAX_MESSAGE_KEYS
        invariant |state.messageKeys| <= |all|
        invariant |state.messageKeys| >= MAX_MESSAGE_KEYS || state.messageKeys == all
        invariant state == old(state).(messageKeys := all[|all| - |state.messageKeys|..])
      {
        state := state.(messageKeys := state.messageKeys[1..]);
      }
    }

    method RemoveSenderMessageKey(iteration: u32) returns (r: Option<SenderMessageKey>)
      modifies this
      ensures match FindMessageKey(old(state.messageKeys), iteration)
              case None => r == None && state == old(state)
              case Some(i) => r == Some(old(state.messageKeys)[i])
                              && state == old(state).(messageKeys := Without(old(state.messageKeys), i))
    {
      var found := FindMessageKey(state.messageKeys, iteration);
      if found.None? {
        return None;
      }
      r := Some(state.messageKeys[found.value]);
      state := state.(messageKeys := Without(state.messageKeys, found.value));
    }
  }

  class SenderKeyRecord {
    var states: seq<StateStructure>

    constructor (initial: seq<StateStructure>)
      ensures states == initial
    {
      states := initial;
    }

    /** Removes the state with this chain id and signing key, if there is one. */
    method RemoveState(chainId: u32, signingKey: Name) returns (r: Option<StateStructure>)
      modifies this
      ensures match FindHolder(old(states), chainId, signingKey)
              case None => r == None && states == old(states)
              case Some(i) => r == Some(old(states)[i]) && states == Without(old(states), i)
    {
      var found := FindHolder(states, chainId, signingKey);
      if found.None? {
        return None;
      }
      r := Some(states[found.value]);
      states := Without(states, found.value);
    }

    method AddSenderKeyState(st: StateStructure)
      modifies this
      ensures states == AddState(old(states), st)
    {
      var existing := RemoveState(st.chainId, st.signingKey);
      if existing.Some? {
        OtherChainsSkips(old(states), FindHolder(old(states), st.chainId, st.signingKey).value, st.chainId);
      }
      states := OtherChains(states, st.chainId);
      ghost var others := states;
      var front := if existing.Some? then existing.value else st;
      while |states| >= MAX_SENDER_KEY_STATES
        invariant |states| >= MAX_SENDER_KEY_STATES - 1 || states == others
        invariant |states| <= |others| && states == others[..|states|]
      {
        states := states[..|states| - 1];
      }
      states := [front] + states;
    }
  }
}
