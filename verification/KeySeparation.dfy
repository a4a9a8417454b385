/**
 No derived key is used for two things (rust/protocol/src/ratchet/keys.rs, rust/protocol/src/ratchet.rs:54-221,
 rust/protocol/src/sender_keys.rs:40-110): keys of different roles, chains, indices and handshakes are different.
 */
module KeySeparation {
  import opened Prelude
  import opened Symbolic
  import opened RatchetKeys
  import opened Messages
  import opened Handshake
  import opened SenderKeys
  import opened GroupCipher

  /** Everything one message of a chain is protected with. */
  function KeysAt(origin: Term, n: nat, pqKey: Option<Term>): MessageKeys {
    GenerateKeys(SeedAt(origin, n), pqKey)
  }

  /**
   The cipher key, the MAC key and the IV of one message differ from each other and from those of every other message:
   of another index, another chain, or with another post-quantum key.
   */
  lemma MessageKeysApart(o1: Term, n1: nat, pq1: Option<Term>, o2: Term, n2: nat, pq2: Option<Term>)
    requires IsOrigin(o1) && IsOrigin(o2)
    ensures var a, b := KeysAt(o1, n1, pq1), KeysAt(o2, n2, pq2);
            && {a.cipherKey, b.cipherKey} !! {a.macKey, b.macKey} && {a.cipherKey, b.cipherKey} !! {a.iv, b.iv}
            && {a.macKey, b.macKey} !! {a.iv, b.iv}
            && ((o1, n1, pq1) != (o2, n2, pq2) ==>
                  a.cipherKey != b.cipherKey && a.macKey != b.macKey && a.iv != b.iv)
  {
    if SeedAt(o1, n1).seed == SeedAt(o2, n2).seed {
      KeyAtInjective(o1, n1, o2, n2);
    }
  }

  /** The seed of a message's keys is no chain key: whoever holds it cannot advance the chain. */
  lemma SeedIsNoChainKey(o1: Term, n1: nat, o2: Term, n2: nat)
    requires IsOrigin(o1) && IsOrigin(o2)
    ensures SeedAt(o1, n1).seed != KeyAt(o2, n2)
  {
  }

  /** A Diffie-Hellman step gives a root and a chain that differ, and differ from those of every other step. */
  lemma StepKeysApart(r1: Term, s1: Term, r2: Term, s2: Term)
    ensures NextRoot(r1, s1) != NewChain(r2, s2)
    ensures (r1, s1) != (r2, s2) ==> NextRoot(r1, s1) != NextRoot(r2, s2) && NewChain(r1, s1) != NewChain(r2, s2)
  {
  }

  /** The three keys of a handshake differ from each other and from those of every other handshake. */
  lemma HandshakeKeysApart(i1: Label, s1: Term, i2: Label, s2: Term)
    ensures HandshakeRoot(i1, s1) != HandshakeChain(i2, s2) && HandshakeRoot(i1, s1) != HandshakePqKey(i2, s2)
    ensures HandshakeChain(i1, s1) != HandshakePqKey(i2, s2)
    ensures (i1, s1) != (i2, s2) ==>
              && HandshakeRoot(i1, s1) != HandshakeRoot(i2, s2) && HandshakeChain(i1, s1) != HandshakeChain(i2, s2)
              && HandshakePqKey(i1, s1) != HandshakePqKey(i2, s2)
  {
  }

  /**
   The two ends start the post-quantum ratchet with one authentication key, in opposite directions, and the same view of
   whether the session is with oneself; the key is neither the root nor the chain of the session.
   */
  lemma PostQuantumEndsMatch(info: Label, secret: Term, bobRatchet: Name, eph: Name, alice: Name, bob: Name, base: Name,
                             pqInit: PqInit)
    returns (key: Term)
    ensures InitAlice(info, secret, bobRatchet, eph, alice, bob, base, pqInit).pq == pqInit(key, true, alice == bob)
    ensures InitBob(info, secret, bobRatchet, bob, alice, base, pqInit).pq == pqInit(key, false, alice == bob)
    ensures key !in {HandshakeRoot(info, secret), HandshakeChain(info, secret)}
    ensures forall other :: HandshakePqKey(info, other) == key ==> other == secret
  {
    key := HandshakePqKey(info, secret);
  }

  /** The same for groups: cipher keys and IVs of all messages of all chains differ, and no seed is a chain key. */
  lemma GroupKeysApart(o1: Term, n1: u32, o2: Term, n2: u32)
    requires IsOrigin(o1) && IsOrigin(o2)
    ensures var a := MessageKeyOf(SenderChainKey(n1, KeyAt(o1, n1)));
            var b := MessageKeyOf(SenderChainKey(n2, KeyAt(o2, n2)));
            && CipherKey(a) != Iv(b) && a.seed != KeyAt(o2, n2)
            && ((o1, n1) != (o2, n2) ==> CipherKey(a) != CipherKey(b) && Iv(a) != Iv(b))
  {
    if KeyAt(o1, n1) == KeyAt(o2, n2) {
      KeyAtInjective(o1, n1, o2, n2);
    }
  }

  /**
   What was sealed for one message of a session opens to its plaintext with the keys of that message; with those of any
   other message, chain or post-quantum key the cipher answers as it does for a wrong key.
   */
  lemma OpensInItsSlot(o: Oracles, o1: Term, n1: nat, pq1: Option<Term>, o2: Term, n2: nat, pq2: Option<Term>,
                       plaintext: Plaintext)
    requires IsOrigin(o1) && IsOrigin(o2)
    ensures var sealing, opening := KeysAt(o1, n1, pq1), KeysAt(o2, n2, pq2);
            var body := Cbc(sealing.cipherKey, sealing.iv, plaintext);
            DecryptBody(o, opening, body) == if (o1, n1, pq1) == (o2, n2, pq2) then Some(plaintext)
                                             else o.cbcWrongKey(opening.cipherKey, opening.iv, body)
  {
    MessageKeysApart(o1, n1, pq1, o2, n2, pq2);
  }

  /** The same for the iterations of the chains of a group. */
  lemma OpensInItsIteration(o1: Term, n1: u32, o2: Term, n2: u32, plaintext: Plaintext, wrongKey: WrongKey)
    requires IsOrigin(o1) && IsOrigin(o2)
    ensures var sealing := MessageKeyOf(SenderChainKey(n1, KeyAt(o1, n1)));
            var opening := MessageKeyOf(SenderChainKey(n2, KeyAt(o2, n2)));
            var body := Cbc(CipherKey(sealing), Iv(sealing), plaintext);
            OpenBody(opening, body, wrongKey) == if (o1, n1) == (o2, n2) then Some(plaintext)
                                                 else wrongKey(CipherKey(opening), Iv(opening), body)
  {
    GroupKeysApart(o1, n1, o2, n2);
  }
}
