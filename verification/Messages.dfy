/** Double Ratchet messages (rust/protocol/src/protocol.rs) and the errors of the session layer. */
module Messages {
  import opened Prelude
  import opened Symbolic
  import opened RatchetKeys

  type Plaintext = seq<bv8>
  type PqState = seq<bv8>     // serialized state of the post-quantum ratchet
  type PqMessage = seq<bv8>

  const MAX_FORWARD_JUMPS: nat := 25_000
  const MAX_MESSAGE_KEYS: nat := 2000
  const MAX_RECEIVER_CHAINS: nat := 5
  const ARCHIVED_STATES_MAX_LENGTH: nat := 40
  const MAX_SENDER_KEY_STATES: nat := 5
  const SENDERKEY_VERSION: nat := 3
  const MAX_UNACKNOWLEDGED_SESSION_AGE: nat := 60 * 60 * 24 * 30
  const PRE_KYBER_VERSION: nat := 3
  const CURRENT_VERSION: nat := 4

  datatype Error =
    | SessionNotFound
    | InvalidMessage
    | DuplicatedMessage(chainIndex: nat, counter: nat)
    | UnrecognizedMessageVersion(version: nat)
    | BadCiphertextVersion(version: nat)
    | CounterOverflow       // the unchecked addition `index + 1` of a chain key overflows 32 bits
    | InvalidSessionStructure
    | InvalidState
    | UntrustedIdentity
    | SignatureValidationFailed
    | InvalidPreKeyId
    | InvalidSignedPreKeyId
    | InvalidKyberPreKeyId
    | NoSenderKeyState
    | InvalidSenderKeySession

  /** An AES-256-CBC body: encrypted under some key, or bytes that no encryption produced. */
  datatype Body = Cbc(key: Term, iv: Term, plaintext: Plaintext) | RawBody(bytes: seq<bv8>)

  /** Everything of a SignalMessage that its MAC covers. */
  datatype Content = Content(
    version: nat,
    ratchetKey: Name,
    counter: nat,
    previousCounter: nat,
    body: Body,
    pq: PqMessage)

  datatype MacTag = Mac(key: Term, sender: Name, receiver: Name, content: Content) | RawMac(bytes: seq<bv8>)

  /** Any byte string that parses as a SignalMessage, forged or not. */
  datatype SignalMessage = SignalMessage(content: Content, mac: MacTag)

  datatype PreKeySignalMessage = PreKeySignalMessage(
    version: nat,
    registrationId: nat,
    preKeyId: Option<nat>,
    signedPreKeyId: nat,
    kyberPreKeyId: Option<nat>,
    kyberCiphertext: Option<KemCiphertext>,
    baseKey: Name,
    identityKey: Name,
    message: SignalMessage)

  datatype CiphertextMessage = Whisper(whisper: SignalMessage) | PreKey(preKey: PreKeySignalMessage)

  /**
   Arbitrary functions: the receiving half of the post-quantum ratchet, what CBC decryption makes of a body under a key
   that did not produce it, and which public keys are canonical.
   */
  datatype Oracles = Oracles(
    pqRecv: (PqState, PqMessage) -> Option<(PqState, Option<Term>)>,
    cbcWrongKey: (Term, Term, Body) -> Option<Plaintext>,
    canonical: Name -> bool)

  function DecryptBody(o: Oracles, keys: MessageKeys, body: Body): Option<Plaintext> {
    if body.Cbc? && body.key == keys.cipherKey && body.iv == keys.iv then Some(body.plaintext)
    else o.cbcWrongKey(keys.cipherKey, keys.iv, body)
  }

  /** The message `message_encrypt` builds for one seed. */
  function SealMessage(version: nat, seed: MessageSeed, pqKey: Option<Term>, ratchetKey: Name, previousCounter: nat,
                       sender: Name, receiver: Name, pq: PqMessage, plaintext: Plaintext): SignalMessage
  {
    var keys := GenerateKeys(seed, pqKey);
    var content := Content(version, ratchetKey, seed.index, previousCounter,
                           Cbc(keys.cipherKey, keys.iv, plaintext), pq);
    SignalMessage(content, Mac(keys.macKey, sender, receiver, content))
  }
}
