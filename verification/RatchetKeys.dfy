/**
 The key schedule of the Double Ratchet (rust/protocol/src/ratchet/keys.rs).

 A chain key is an origin advanced some number of times; a root key is a handshake root advanced some
 number of times. The lemmas recover the origin and the number of steps from the derived term, which is
 what makes two chains of one device distinguishable by the keys they yield.
 */
module RatchetKeys {
  import opened Prelude
  import opened Symbolic

  const MESSAGE_KEY_SEED := 1
  const CHAIN_KEY_SEED := 2

  datatype ChainKey = ChainKey(key: Term, index: nat)

  /** A `MessageKeyGenerator::Seed`. */
  datatype MessageSeed = MessageSeed(seed: Term, index: nat)

  datatype MessageKeys = MessageKeys(cipherKey: Term, macKey: Term, iv: Term)

  function NextChainKey(ck: ChainKey): ChainKey
    requires ck.index < U32_MAX  // the source adds without a check
  {
    ChainKey(Hmac(ck.key, CHAIN_KEY_SEED), ck.index + 1)
  }

  function SeedOf(ck: ChainKey): MessageSeed {
    MessageSeed(Hmac(ck.key, MESSAGE_KEY_SEED), ck.index)
  }

  function GenerateKeys(s: MessageSeed, pqKey: Option<Term>): MessageKeys {
    MessageKeys(Hkdf(pqKey, s.seed, WhisperMessageKeys, 0),
                Hkdf(pqKey, s.seed, WhisperMessageKeys, 1),
                Hkdf(pqKey, s.seed, WhisperMessageKeys, 2))
  }

  function NextRoot(root: Term, secret: Term): Term {
    Hkdf(Some(root), secret, WhisperRatchet, 0)
  }

  function NewChain(root: Term, secret: Term): Term {
    Hkdf(Some(root), secret, WhisperRatchet, 1)
  }

  /** `RootKey::create_chain`. */
  function CreateChain(root: Term, theirs: Name, ours: Name): (Term, ChainKey) {
    var secret := Agree(ours, theirs);
    (NextRoot(root, secret), ChainKey(NewChain(root, secret), 0))
  }

  // ---------------------------------------------------------------------------------------------
  // Chains as iterates of their origin

  /** The chain-key bytes `n` steps after `origin`. */
  function KeyAt(origin: Term, n: nat): Term {
    if n == 0 then origin else Hmac(KeyAt(origin, n - 1), CHAIN_KEY_SEED)
  }

  function ChainAt(origin: Term, n: nat): ChainKey {
    ChainKey(KeyAt(origin, n), n)
  }

  function SeedAt(origin: Term, n: nat): MessageSeed {
    SeedOf(ChainAt(origin, n))
  }

  /** Undoes every chain step. */
  function OriginOf(key: Term): Term {
    if key.Hmac? && key.seed == CHAIN_KEY_SEED then OriginOf(key.hmacKey) else key
  }

  predicate IsOrigin(t: Term) {
    !t.Hmac?
  }

  lemma {:induction false} OriginOfKeyAt(origin: Term, n: nat)
    requires IsOrigin(origin)
    ensures OriginOf(KeyAt(origin, n)) == origin
  {
    if n > 0 {
      OriginOfKeyAt(origin, n - 1);
    }
  }

  /** Chain keys of two chains coincide only at the same index of the same chain. */
  lemma {:induction false} KeyAtInjective(o1: Term, n1: nat, o2: Term, n2: nat)
    requires IsOrigin(o1) && IsOrigin(o2)
    requires KeyAt(o1, n1) == KeyAt(o2, n2)
    ensures o1 == o2 && n1 == n2
  {
    if n1 > 0 && n2 > 0 {
      KeyAtInjective(o1, n1 - 1, o2, n2 - 1);
    }
  }

  /** A message MAC key belongs to one index of one chain, whatever post-quantum salts are mixed in. */
  lemma MacKeyDeterminesSlot(o1: Term, n1: nat, pq1: Option<Term>, o2: Term, n2: nat, pq2: Option<Term>)
    requires IsOrigin(o1) && IsOrigin(o2)
    requires GenerateKeys(SeedAt(o1, n1), pq1).macKey == GenerateKeys(SeedAt(o2, n2), pq2).macKey
    ensures o1 == o2 && n1 == n2 && pq1 == pq2
  {
    KeyAtInjective(o1, n1, o2, n2);
  }

  // ---------------------------------------------------------------------------------------------
  // Roots: the handshake root they grew from, and how many Diffie-Hellman steps ago

  predicate IsRatchetedRoot(root: Term) {
    root.Hkdf? && root.salt.Some? && root.info == WhisperRatchet && root.slot == 0
  }

  function RootDepth(root: Term): nat {
    if IsRatchetedRoot(root) then 1 + RootDepth(root.salt.value) else 0
  }

  function RootBase(root: Term): Term {
    if IsRatchetedRoot(root) then RootBase(root.salt.value) else root
  }

  /** The receiving side of a session: its handshake root and the parity of its root depth.
      The initiator's root has odd depth between operations, the responder's even. */
  datatype Family = Family(base: Term, odd: bool)

  function FamilyOf(root: Term): Family {
    Family(RootBase(root), RootDepth(root) % 2 == 1)
  }

  /** A receiving chain is created from a root, or directly by the initiator's handshake. */
  predicate IsRatchetOrigin(o: Term) {
    o.Hkdf? && o.salt.Some? && o.info == WhisperRatchet && o.slot == 1
  }

  predicate IsHandshakeLabel(l: Label) {
    l in {WhisperText, SealedPqxdhSession, SealedXhmqvSession, SealedX3dhSession}
  }

  predicate IsHandshakeOrigin(o: Term) {
    o.Hkdf? && o.salt.None? && IsHandshakeLabel(o.info) && o.slot == 1
  }

  predicate IsReceivingOrigin(o: Term) {
    IsRatchetOrigin(o) || IsHandshakeOrigin(o)
  }

  function OriginFamily(o: Term): Family
    requires IsReceivingOrigin(o)
  {
    if IsRatchetOrigin(o) then FamilyOf(o.salt.value)
    else Family(Hkdf(None, o.ikm, o.info, 0), true)
  }

  /** Position of a chain in the life of its session: the depth of the root it was created from. */
  function OriginRank(o: Term): nat
    requires IsReceivingOrigin(o)
  {
    if IsRatchetOrigin(o) then RootDepth(o.salt.value) else 0
  }

  lemma RootStep(root: Term, s1: Term, s2: Term)
    ensures RootDepth(NextRoot(NextRoot(root, s1), s2)) == RootDepth(root) + 2
    ensures FamilyOf(NextRoot(NextRoot(root, s1), s2)) == FamilyOf(root)
    ensures IsRatchetOrigin(NewChain(root, s1))
    ensures OriginFamily(NewChain(root, s1)) == FamilyOf(root)
    ensures OriginRank(NewChain(root, s1)) == RootDepth(root)
  {
    var r1 := NextRoot(root, s1);
    var r2 := NextRoot(r1, s2);
    assert RootDepth(r1) == 1 + RootDepth(root) && RootBase(r1) == RootBase(root);
    assert RootDepth(r2) == 1 + RootDepth(r1) && RootBase(r2) == RootBase(r1);
  }
}
