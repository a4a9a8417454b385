/**
 One Double Ratchet session (rust/protocol/src/state/session.rs).

 `SessionStructure` is the value the source keeps in its protobuf structure. The functions say what each
 accessor and mutator does to that value; class `SessionState` performs the same updates in place.
 */
module SessionStates {
  import opened Prelude
  import opened Symbolic
  import opened RatchetKeys
  import opened Messages

  datatype Chain = Chain(ratchetKey: Name, chainKey: ChainKey, messageKeys: seq<MessageSeed>)

  datatype SenderChain = SenderChain(ratchetKey: Name, chainKey: ChainKey)

  datatype PendingPreKey = PendingPreKey(preKeyId: Option<nat>, signedPreKeyId: nat, baseKey: Name, timestamp: nat)

  datatype PendingKyber = PendingKyber(preKeyId: nat, ciphertext: KemCiphertext)

  datatype SessionStructure = SessionStructure(
    version: nat,
    localIdentity: Name,
    remoteIdentity: Name,
    rootKey: Term,
    previousCounter: nat,
    senderChain: Option<SenderChain>,
    receiverChains: seq<Chain>,
    pendingPreKey: Option<PendingPreKey>,
    pendingKyber: Option<PendingKyber>,
    remoteRegistrationId: nat,
    localRegistrationId: nat,
    aliceBaseKey: Name,
    pq: PqState)

  function NewSession(localIdentity: Name, remoteIdentity: Name, rootKey: Term, aliceBaseKey: Name, pq: PqState)
    : SessionStructure
  {
    SessionStructure(CURRENT_VERSION, localIdentity, remoteIdentity, rootKey, 0, None, [], None, None, 0, 0,
                     aliceBaseKey, pq)
  }

  function SessionVersion(s: SessionStructure): nat {
    if s.version == 0 then 2 else s.version
  }

  predicate SelfSession(s: SessionStructure) {
    s.localIdentity == s.remoteIdentity
  }

  function ClearPending(s: SessionStructure): SessionStructure {
    s.(pendingPreKey := None, pendingKyber := None)
  }

  predicate HasPending(s: SessionStructure) {
    s.pendingPreKey.Some? || s.pendingKyber.Some?
  }

  /** Position of the first receiver chain for a ratchet key. */
  function FindChain(chains: seq<Chain>, key: Name): (r: Option<nat>)
    ensures r.Some? ==> r.value < |chains| && chains[r.value].ratchetKey == key
    ensures r.Some? ==> forall j :: 0 <= j < r.value ==> chains[j].ratchetKey != key
    ensures r.None? ==> forall j :: 0 <= j < |chains| ==> chains[j].ratchetKey != key
  {
    if chains == [] then None
    else if chains[0].ratchetKey == key then Some(0)
    else
      var rest := FindChain(chains[1..], key);
      if rest.Some? then Some(rest.value + 1) else None
  }

  /** Push, then drop the oldest chain if there are now more than five. */
  function AddChain(chains: seq<Chain>, c: Chain): seq<Chain> {
    var all := chains + [c];
    if |all| > MAX_RECEIVER_CHAINS then all[1..] else all
  }

  /** Position of the first stored key with an index. */
  function FindKey(keys: seq<MessageSeed>, index: nat): (r: Option<nat>)
    ensures r.Some? ==> r.value < |keys| && keys[r.value].index == index
    ensures r.Some? ==> forall j :: 0 <= j < r.value ==> keys[j].index != index
    ensures r.None? ==> forall j :: 0 <= j < |keys| ==> keys[j].index != index
  {
    if keys == [] then None
    else if keys[0].index == index then Some(0)
    else
      var rest := FindKey(keys[1..], index);
      if rest.Some? then Some(rest.value + 1) else None
  }

  /** Insert at the front, then drop the last key if there are now more than 2000. */
  function InsertKey(keys: seq<MessageSeed>, k: MessageSeed): seq<MessageSeed> {
    var all := [k] + keys;
    if |all| > MAX_MESSAGE_KEYS then all[..|all| - 1] else all
  }

  /** The seeds from `ck` up to, not including, index `counter`, newest first. */
  function Skipped(ck: ChainKey, counter: nat): (r: seq<MessageSeed>)
    requires ck.index <= counter <= U32_MAX
    ensures |r| == counter - ck.index
    decreases counter - ck.index
  {
    if ck.index == counter then [] else Skipped(NextChainKey(ck), counter) + [SeedOf(ck)]
  }

  function Forward(ck: ChainKey, counter: nat): (r: ChainKey)
    requires ck.index <= counter <= U32_MAX
    ensures r.index == counter
    decreases counter - ck.index
  {
    if ck.index == counter then ck else Forward(NextChainKey(ck), counter)
  }

  /** What a whole run of `InsertKey` leaves: the newest keys, as many as fit. */
  function StoreSkipped(keys: seq<MessageSeed>, skipped: seq<MessageSeed>): seq<MessageSeed> {
    var all := skipped + keys;
    all[..Min(|all|, Max(MAX_MESSAGE_KEYS, |keys|))]
  }

  lemma StoreSkippedStep(keys: seq<MessageSeed>, k: MessageSeed, later: seq<MessageSeed>)
    ensures StoreSkipped(InsertKey(keys, k), later) == StoreSkipped(keys, later + [k])
  {
    assert later + ([k] + keys) == (later + [k]) + keys;
    var all := [k] + keys;
    if |all| > MAX_MESSAGE_KEYS {
      assert later + all[..|all| - 1] == (later + all)[..|later| + |keys|];
    }
  }

  // ---------------------------------------------------------------------------------------------
  // In-place form

  class SessionState {
    var session: SessionStructure

    constructor (s: SessionStructure)
      ensures session == s
    {
      session := s;
    }

    method AddReceiverChain(sender: Name, chainKey: ChainKey)
      modifies this
      ensures session == old(session).(receiverChains := AddChain(old(session.receiverChains),
                                                                  Chain(sender, chainKey, [])))
    {
      session := session.(receiverChains := session.receiverChains + [Chain(sender, chainKey, [])]);
      if |session.receiverChains| > MAX_RECEIVER_CHAINS {
        session := session.(receiverChains := session.receiverChains[1..]);
      }
    }

    method SetSenderChain(ratchetKey: Name, chainKey: ChainKey)
      modifies this
      ensures session == old(session).(senderChain := Some(SenderChain(ratchetKey, chainKey)))
    {
      session := session.(senderChain := Some(SenderChain(ratchetKey, chainKey)));
    }

    /** Removes and returns the stored key for `counter`, if there is one. */
    method GetMessageKeys(sender: Name, counter: nat) returns (r: Option<MessageSeed>)
      modifies this
      ensures var i := FindChain(old(session.receiverChains), sender);
              (i.None? || FindKey(old(session.receiverChains)[i.value].messageKeys, counter).None?) ==>
                r.None? && session == old(session)
      ensures var i := FindChain(old(session.receiverChains), sender);
              i.Some? && FindKey(old(session.receiverChains)[i.value].messageKeys, counter).Some? ==>
                var chain := old(session.receiverChains)[i.value];
                var k := FindKey(chain.messageKeys, counter).value;
                && r == Some(chain.messageKeys[k])
                && session == old(session).(receiverChains :=
                     old(session.receiverChains)[i.value := chain.(messageKeys := Without(chain.messageKeys, k))])
    {
      r := None;
      var i := FindChain(session.receiverChains, sender);
      if i.Some? {
        var chain := session.receiverChains[i.value];
        var k := FindKey(chain.messageKeys, counter);
        if k.Some? {
          r := Some(chain.messageKeys[k.value]);
          chain := chain.(messageKeys := Without(chain.messageKeys, k.value));
          session := session.(receiverChains := session.receiverChains[i.value := chain]);
        }
      }
    }

    method SetMessageKeys(sender: Name, k: MessageSeed)
      requires FindChain(session.receiverChains, sender).Some?
      modifies this
      ensures var i := FindChain(old(session.receiverChains), sender).value;
              var chain := old(session.receiverChains)[i];
              session == old(session).(receiverChains :=
                old(session.receiverChains)[i := chain.(messageKeys := InsertKey(chain.messageKeys, k))])
    {
      var i := FindChain(session.receiverChains, sender).value;
      var chain := session.receiverChains[i];
      var keys := [k] + chain.messageKeys;
      if |keys| > MAX_MESSAGE_KEYS {
        keys := keys[..|keys| - 1];
      }
      session := session.(receiverChains := session.receiverChains[i := chain.(messageKeys := keys)]);
    }

    method SetReceiverChainKey(sender: Name, chainKey: ChainKey)
      requires FindChain(session.receiverChains, sender).Some?
      modifies this
      ensures var i := FindChain(old(session.receiverChains), sender).value;
              session == old(session).(receiverChains :=
                old(session.receiverChains)[i := old(session.receiverChains)[i].(chainKey := chainKey)])
    {
      var i := FindChain(session.receiverChains, sender).value;
      var chain := session.receiverChains[i].(chainKey := chainKey);
      session := session.(receiverChains := session.receiverChains[i := chain]);
    }

    method ClearUnacknowledgedPreKeyMessage()
      modifies this
      ensures session == ClearPending(old(session))
    {
      session := session.(pendingPreKey := None);
      session := session.(pendingKyber := None);
    }
  }
}
