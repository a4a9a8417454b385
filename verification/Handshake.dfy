/**
 Session initialisation: PQXDH (rust/protocol/src/ratchet.rs) and the session initialisers of the three sealed
 handshakes (spqxdh.rs, sealed_ringxkem_xhmqv.rs, sealed_ringxkem_x3dh.rs), which differ from PQXDH only in the
 secret they start from and in the derivation label.
 */
module Handshake {
  import opened Prelude
  import opened Symbolic
  import opened RatchetKeys
  import opened Messages
  import opened SessionStates
  import opened SkippedKeys
  import opened SessionInvariants

  datatype AliceParameters = AliceParameters(
    identity: Name, base: Name,
    theirIdentity: Name, theirSignedPreKey: Name, theirOneTimePreKey: Option<Name>,
    theirRatchetKey: Name, theirKyberPreKey: Name)

  datatype BobParameters = BobParameters(
    identity: Name, signedPreKey: Name, oneTimePreKey: Option<Name>, ratchetKey: Name, kyberPreKey: Name,
    theirIdentity: Name, theirBase: Name, kyberCiphertext: KemCiphertext)

  /** Initial state of the post-quantum ratchet, from its authentication key, direction and self flag. */
  type PqInit = (Term, bool, bool) -> PqState

  // ---------------------------------------------------------------------------------------------
  // Secrets

  function AliceSecrets(p: AliceParameters, coins: Name): seq<Term> {
    [Discontinuity,
     Agree(p.identity, p.theirSignedPreKey),
     Agree(p.base, p.theirIdentity),
     Agree(p.base, p.theirSignedPreKey)]
    + (if p.theirOneTimePreKey.Some? then [Agree(p.base, p.theirOneTimePreKey.value)] else [])
    + [Encapsulate(p.theirKyberPreKey, coins).0]
  }

  function BobSecrets(p: BobParameters): seq<Term> {
    [Discontinuity,
     Agree(p.signedPreKey, p.theirIdentity),
     Agree(p.identity, p.theirBase),
     Agree(p.signedPreKey, p.theirBase)]
    + (if p.oneTimePreKey.Some? then [Agree(p.oneTimePreKey.value, p.theirBase)] else [])
    + [Decapsulate(p.kyberPreKey, p.kyberCiphertext)]
  }

  /** Bob's parameters are the private halves of what Alice used, and what Alice sent him. */
  predicate Paired(a: AliceParameters, coins: Name, b: BobParameters) {
    && a.theirIdentity == b.identity && a.theirSignedPreKey == b.signedPreKey
    && a.theirOneTimePreKey == b.oneTimePreKey && a.theirRatchetKey == b.ratchetKey
    && a.theirKyberPreKey == b.kyberPreKey
    && a.identity == b.theirIdentity && a.base == b.theirBase
    && b.kyberCiphertext == Encapsulate(a.theirKyberPreKey, coins).1
  }

  lemma SecretsAgree(a: AliceParameters, coins: Name, b: BobParameters)
    requires Paired(a, coins, b)
    ensures AliceSecrets(a, coins) == BobSecrets(b)
  {
    assert |AliceSecrets(a, coins)| == |BobSecrets(b)|;
    assert forall i :: 0 <= i < |BobSecrets(b)| ==> AliceSecrets(a, coins)[i] == BobSecrets(b)[i];
  }

  /** With a fixed identity, Bob's secrets determine every key and ciphertext that went into them. */
  lemma BobSecretsDetermine(p: BobParameters, q: BobParameters)
    requires p.identity == q.identity && BobSecrets(p) == BobSecrets(q)
    ensures p.theirBase == q.theirBase && p.signedPreKey == q.signedPreKey && p.theirIdentity == q.theirIdentity
    ensures p.oneTimePreKey == q.oneTimePreKey
    ensures p.kyberPreKey == q.kyberPreKey && p.kyberCiphertext == q.kyberCiphertext
  {
    var s, t := BobSecrets(p), BobSecrets(q);
    assert s[2] == t[2] && s[3] == t[3] && s[1] == t[1];
    assert s[|s| - 1] == t[|t| - 1];
    if p.oneTimePreKey.Some? && q.oneTimePreKey.Some? {
      assert s[4] == t[4];
    }
  }

  lemma AliceSecretsDetermineBase(p: AliceParameters, c: Name, q: AliceParameters, d: Name)
    requires AliceSecrets(p, c) == AliceSecrets(q, d) && p.identity == q.identity
    ensures p.theirSignedPreKey == q.theirSignedPreKey && p.base == q.base
  {
    var s, t := AliceSecrets(p, c), AliceSecrets(q, d);
    assert s[1] == t[1] && s[3] == t[3];
  }

  // ---------------------------------------------------------------------------------------------
  // Sessions

  function HandshakeRoot(info: Label, secret: Term): Term {
    Hkdf(None, secret, info, 0)
  }

  function HandshakeChain(info: Label, secret: Term): Term {
    Hkdf(None, secret, info, 1)
  }

  function HandshakePqKey(info: Label, secret: Term): Term {
    Hkdf(None, secret, info, 2)
  }

  function InitAlice(info: Label, secret: Term, theirRatchet: Name, eph: Name,
                     local: Name, remote: Name, base: Name, pqInit: PqInit): SessionStructure
  {
    var (root, sending) := CreateChain(HandshakeRoot(info, secret), theirRatchet, eph);
    NewSession(local, remote, root, base, pqInit(HandshakePqKey(info, secret), true, local == remote))
    .(receiverChains := [Chain(theirRatchet, ChainKey(HandshakeChain(info, secret), 0), [])],
      senderChain := Some(SenderChain(eph, sending)))
  }

  function InitBob(info: Label, secret: Term, ourRatchet: Name,
                   local: Name, remote: Name, base: Name, pqInit: PqInit): SessionStructure
  {
    NewSession(local, remote, HandshakeRoot(info, secret), base,
               pqInit(HandshakePqKey(info, secret), false, local == remote))
    .(senderChain := Some(SenderChain(ourRatchet, ChainKey(HandshakeChain(info, secret), 0))))
  }

  function PqxdhAlice(p: AliceParameters, coins: Name, eph: Name, pqInit: PqInit): SessionStructure {
    InitAlice(WhisperText, Concat(AliceSecrets(p, coins)), p.theirRatchetKey, eph, p.identity, p.theirIdentity, p.base,
              pqInit)
    .(pendingKyber := Some(PendingKyber(U32_MAX, Encapsulate(p.theirKyberPreKey, coins).1)))
  }

  function PqxdhBob(p: BobParameters, pqInit: PqInit): SessionStructure {
    InitBob(WhisperText, Concat(BobSecrets(p)), p.ratchetKey, p.identity, p.theirIdentity, p.theirBase, pqInit)
  }

  /** The two ends of one session, as the handshake leaves them. */
  ghost predicate Agreed(alice: SessionStructure, bob: SessionStructure) {
    && alice.senderChain.Some? && bob.senderChain.Some?
    && bob.receiverChains == [] && |alice.receiverChains| == 1
    // Bob's first sending chain is Alice's receiving chain
    && alice.receiverChains[0] == Chain(bob.senderChain.value.ratchetKey, bob.senderChain.value.chainKey, [])
    // Bob's first Diffie-Hellman step reproduces Alice's root and sending chain
    && CreateChain(bob.rootKey, alice.senderChain.value.ratchetKey, bob.senderChain.value.ratchetKey)
       == (alice.rootKey, alice.senderChain.value.chainKey)
    && alice.localIdentity == bob.remoteIdentity && alice.remoteIdentity == bob.localIdentity
    && alice.aliceBaseKey == bob.aliceBaseKey && alice.version == bob.version
  }

  /** From a shared secret, under any of the four labels, the two initialisers produce matching ends. */
  lemma InitialisersAgree(info: Label, secret: Term, bobRatchet: Name, eph: Name,
                          alice: Name, bob: Name, base: Name, pqInit: PqInit)
    ensures Agreed(InitAlice(info, secret, bobRatchet, eph, alice, bob, base, pqInit),
                   InitBob(info, secret, bobRatchet, bob, alice, base, pqInit))
  {
    AgreeCancels(bobRatchet, eph, eph);
  }

  /** PQXDH, with or without a one-time pre-key, ends in matching sessions. */
  lemma PqxdhAgrees(a: AliceParameters, coins: Name, b: BobParameters, eph: Name, pqInit: PqInit)
    requires Paired(a, coins, b)
    ensures Agreed(PqxdhAlice(a, coins, eph, pqInit), PqxdhBob(b, pqInit))
  {
    SecretsAgree(a, coins, b);
    InitialisersAgree(WhisperText, Concat(BobSecrets(b)), b.ratchetKey, eph, a.identity, b.identity, a.base, pqInit);
  }

  // ---------------------------------------------------------------------------------------------
  // What a new session can yield

  ghost predicate FamilyUntouched(f: Family, taken: iset<Slot>) {
    forall slot: Slot :: slot in taken && IsReceivingOrigin(slot.0) ==> OriginFamily(slot.0) != f
  }

  lemma NewAliceSession(info: Label, secret: Term, theirRatchet: Name, eph: Name,
                        local: Name, remote: Name, base: Name, pqInit: PqInit, taken: iset<Slot>)
    requires IsHandshakeLabel(info) && FamilyUntouched(Family(HandshakeRoot(info, secret), true), taken)
    ensures var s := InitAlice(info, secret, theirRatchet, eph, local, remote, base, pqInit);
            && SessionInv(s) && FamilyOf(s.rootKey) == Family(HandshakeRoot(info, secret), true)
            && Unspent(s, taken) && StoresAreWindows(s.receiverChains, taken)
  {
    var s := InitAlice(info, secret, theirRatchet, eph, local, remote, base, pqInit);
    var root := HandshakeRoot(info, secret);
    assert RootDepth(root) == 0 && RootBase(root) == root;
    assert RootDepth(s.rootKey) == 1 + RootDepth(root) && RootBase(s.rootKey) == RootBase(root);
    FreshChainInv(theirRatchet, HandshakeChain(info, secret));
    var c := s.receiverChains[0];
    assert StoreIsWindow(c, taken, 0);
    assert HasWindow(c, taken);
    assert forall slot: Slot :: CanYield(s, slot) ==>
             IsReceivingOrigin(slot.0) && OriginFamily(slot.0) == FamilyOf(s.rootKey);
  }

  lemma NewBobSession(info: Label, secret: Term, ourRatchet: Name,
                      local: Name, remote: Name, base: Name, pqInit: PqInit, taken: iset<Slot>)
    requires IsHandshakeLabel(info) && FamilyUntouched(Family(HandshakeRoot(info, secret), false), taken)
    ensures var s := InitBob(info, secret, ourRatchet, local, remote, base, pqInit);
            && SessionInv(s) && FamilyOf(s.rootKey) == Family(HandshakeRoot(info, secret), false)
            && Unspent(s, taken) && StoresAreWindows(s.receiverChains, taken)
  {
    var root := HandshakeRoot(info, secret);
    assert RootDepth(root) == 0 && RootBase(root) == root;
  }

  // ---------------------------------------------------------------------------------------------
  // In-place form: the initialisers fill a buffer of secrets and then a new session

  method InitializeAliceSession(p: AliceParameters, coins: Name, eph: Name, pqInit: PqInit)
    returns (state: SessionState)
    ensures fresh(state) && state.session == PqxdhAlice(p, coins, eph, pqInit)
  {
    var secrets := [Discontinuity];
    secrets := secrets + [Agree(p.identity, p.theirSignedPreKey)];
    secrets := secrets + [Agree(p.base, p.theirIdentity)];
    secrets := secrets + [Agree(p.base, p.theirSignedPreKey)];
    if p.theirOneTimePreKey.Some? {
      secrets := secrets + [Agree(p.base, p.theirOneTimePreKey.value)];
    }
    var (ss, ct) := Encapsulate(p.theirKyberPreKey, coins);
    secrets := secrets + [ss];
    assert secrets == AliceSecrets(p, coins);
    var secret := Concat(secrets);
    var (root, sending) := CreateChain(HandshakeRoot(WhisperText, secret), p.theirRatchetKey, eph);
    var pq := pqInit(HandshakePqKey(WhisperText, secret), true, p.identity == p.theirIdentity);
    state := new SessionState(NewSession(p.identity, p.theirIdentity, root, p.base, pq));
    state.AddReceiverChain(p.theirRatchetKey, ChainKey(HandshakeChain(WhisperText, secret), 0));
    state.SetSenderChain(eph, sending);
    state.session := state.session.(pendingKyber := Some(PendingKyber(U32_MAX, ct)));
  }

  method InitializeBobSession(p: BobParameters, o: Oracles, pqInit: PqInit) returns (r: Result<SessionState, Error>)
    ensures if o.canonical(p.theirBase) then r.Ok? && fresh(r.value) && r.value.session == PqxdhBob(p, pqInit)
            else r == Err(InvalidMessage)
  {
    if !o.canonical(p.theirBase) {
      return Err(InvalidMessage);
    }
    var secrets := [Discontinuity];
    secrets := secrets + [Agree(p.signedPreKey, p.theirIdentity)];
    secrets := secrets + [Agree(p.identity, p.theirBase)];
    secrets := secrets + [Agree(p.signedPreKey, p.theirBase)];
    if p.oneTimePreKey.Some? {
      secrets := secrets + [Agree(p.oneTimePreKey.value, p.theirBase)];
    }
    secrets := secrets + [Decapsulate(p.kyberPreKey, p.kyberCiphertext)];
    assert secrets == BobSecrets(p);
    var secret := Concat(secrets);
    var pq := pqInit(HandshakePqKey(WhisperText, secret), false, p.identity == p.theirIdentity);
    var state := new SessionState(
      NewSession(p.identity, p.theirIdentity, HandshakeRoot(WhisperText, secret), p.theirBase, pq));
    state.SetSenderChain(p.ratchetKey, ChainKey(HandshakeChain(WhisperText, secret), 0));
    return Ok(state);
  }
}
