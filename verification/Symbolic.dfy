/**
 Symbolic cryptography.

 Every derivation used by the protocol is a free constructor, so two derived keys are equal exactly
 when they were derived in the same way from equal inputs. A key pair is identified with the name of
 its private half; a `Name` standing where a public key is expected is the public key of that pair.
 */
module Symbolic {
  import opened Prelude

  type Name = nat

  /** The `info` strings given to HKDF, one constructor per distinct string. */
  datatype Label =
    | WhisperText             // ratchet.rs: PQXDH handshake secrets
    | SealedPqxdhSession      // spqxdh.rs: session label
    | SealedXhmqvSession      // sealed_ringxkem_xhmqv.rs: session label
    | SealedX3dhSession       // sealed_ringxkem_x3dh.rs: session label
    | WhisperRatchet          // ratchet/keys.rs: RootKey::create_chain
    | WhisperMessageKeys      // ratchet/keys.rs: MessageKeys::derive_keys
    | WhisperGroup            // sender_keys.rs: SenderMessageKey::new

  datatype Term =
    | Random(name: Name)                       // bytes drawn from the random number generator
    | Discontinuity                            // 32 bytes of 0xFF
    | Agreement(lo: Name, hi: Name)            // X25519 shared secret, built only by Agree
    | KemSecret(key: Name, coins: Name)        // shared secret of an encapsulation
    | KemReject(key: Name, badCiphertext: KemCiphertext) // implicit rejection
    | Concat(parts: seq<Term>)
    | Hkdf(salt: Option<Term>, ikm: Term, info: Label, slot: nat) // slot-th 32-byte output block
    | Hmac(hmacKey: Term, seed: nat)           // HMAC-SHA256 of a one-byte message

  datatype KemCiphertext = KemCiphertext(key: Name, coins: Name)

  /** Diffie-Hellman: the unordered pair of the two key pairs involved. */
  function Agree(ours: Name, theirs: Name): Term {
    if ours <= theirs then Agreement(ours, theirs) else Agreement(theirs, ours)
  }

  function Encapsulate(key: Name, coins: Name): (Term, KemCiphertext) {
    (KemSecret(key, coins), KemCiphertext(key, coins))
  }

  function Decapsulate(key: Name, ct: KemCiphertext): Term {
    if ct.key == key then KemSecret(key, ct.coins) else KemReject(key, ct)
  }

  /** Agreement commutes; one side and the value determine the other side. */
  lemma AgreeCancels(a: Name, b: Name, c: Name)
    ensures Agree(a, b) == Agree(b, a)
    ensures Agree(a, b) == Agree(a, c) <==> b == c
  {
  }
}
