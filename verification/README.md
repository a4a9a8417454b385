# libsignal protocol core in Dafny

A model of the parts of libsignal where correctness is hardest to see by reading: the Double Ratchet and its record of
sessions, group sender keys, the Sealed Sender v2 wire format and fan-out, streaming MACs and GCM, and the sealed
handshakes. `dafny verify dfyconfig.toml` checks all of it.

**Double Ratchet.** Keys are terms of a free algebra (`Symbolic`), so two derived keys are equal exactly when they
were derived alike; key agreement and MAC acceptance are term equality. A session is a value (`SessionStates`,
`SessionCipher`), a record of sessions another (`SessionRecords`), a device with its in-memory stores a third
(`Devices`). The in-place classes and methods of the same modules and of `ProtocolStores` are proved against these
values. Three kinds of run are studied. `DeviceRuns` is one device against an arbitrary network and arbitrary peers:
any message, forged or replayed, in any order; `RecordRuns`, `AtMostOnce` and `EmissionRuns` prove what every such run
keeps, `OneTimeKeys` and `Authenticity` what every sequence of calls keeps, and `SendingRuns` decides every attempt to
send; `ReceivingRuns` says what is common to everything accepted or reported as a duplicate. `LockStep`, `PairRuns`
and `MessageCounters` are both ends of one session over a network that loses, reorders and duplicates; every delivery
is decided exactly. `Bonds`, `TwoDevices`, `DuoSteps`, `DuoRuns`, `DuoContact` and `DuoCounters` are two whole devices
over such a network, each with its stores and records, starting, archiving, losing and promoting sessions from both
ends and doing anything at all under other addresses; every delivery between the two is decided exactly. The
post-quantum ratchet is a pair of arbitrary functions; only acceptance asks it to return the key that was sent, and
`PostQuantum` says what a ratchet has to do for that. `KeySeparation` says that no derived key is used for two things.

**Groups.** `SenderKeys`, `GroupCipher`, `GroupDelivery`, `GroupWindows` and `GroupRuns` treat the hash ratchet, its store of
skipped keys and the most-recent-first list of chain states; `GroupEndToEnd` follows a conversation through the stores,
and `GroupAuthenticity` does so against everything a network without forged signatures can deliver.

**Sealed Sender v2.** `SealedSenderWire` and `SentMessageParser` give the printer and parser, `RecipientMap` an independent
description of the parsed map, `FanOut` the parallel writer as tasks under an arbitrary scheduler, `SealedSenderV2` the
XOR and tag layer for every suite of primitives that obeys its laws, `MultiRecipient` the whole path from the sender's
lists to the recipient's content, and `WireLaws` what any accepted byte string looks like and what the tag binds.

**Streaming.** `IncrementalMac`, `ChunkSizes` and `AesGcm` relate updates in pieces to one-shot definitions over the
whole input, and `GcmLaws` says what the construction of GCM is for; `ConstantTime` relates branch-free byte
comparison to lexicographic order.

**Sealed handshakes.** `Xhmqv` works over any group with its laws, `SealedRingCodec` gives the byte formats, `SealedRing` the
two ring handshakes and `Spqxdh` sealed PQXDH, each from `send` to `recv`. `SealedSessions` puts the session keys that the
two calls return into the initialisers of the Double Ratchet, one label per handshake, and shows that the sessions meet.
`SealedLaws` says what their derivations, signatures and MACs bind.

Where the code and its own comments differ, the model follows the code:

- `FailureIsNotSticky`: a validator whose update failed may still accept later updates and finalize. `ValidatesIff` says
  when every call succeeds, `FinalizesIff` when finalize accepts regardless.
- `HintSurvivesIff`: sealed handshakes keep a content hint only if it fits one byte.
- `X3dhCertificateDecides`: the X3DH ring handshake mixes in the identity key of the certificate and ignores the one in the
  inner message; the XHMQV variant does the opposite.
- `TwoIdsReceiveTwice`: the store lets one pre-key pair be saved under two IDs, and then a message can be received twice;
  at-most-once delivery holds when each pair has one ID.
- `FinalAmbiguous`: the last derivation of the XHMQV variant concatenates verification key and signature without lengths;
  it determines its fields only once the key length is fixed (`FinalDetermines`).
- `AttachedCiphertextIff`: sealed PQXDH computes its MAC before a ciphertext is attached to the message, so a message
  serialized with one is refused.
- `OuterRoundTripIff`: lengths are cut to 32 bits when written, so a longer field does not come back.

Statements about runs use names for fresh randomness: a step that generates a key must use a name not used before, and a
signed or Kyber pre-key is saved under one ID only. In runs of two devices, what one receives under the other's address
was emitted by the other, and bundles used for the other carry its identity key.

## Model

| member | source | states |
|---|---|---|
| `RatchetKeys.KeyAtInjective` | rust/protocol/src/ratchet/keys.rs:141-181 | a chain key determines the origin of its chain and its index |
| `RatchetKeys.MacKeyDeterminesSlot` | rust/protocol/src/ratchet/keys.rs:18-113 | a message's MAC key determines chain origin, index and post-quantum key |
| `RatchetKeys.RootStep` | rust/protocol/src/ratchet/keys.rs:192-217 | two DH steps of the root keep its family and raise its depth by two; the chain created belongs to that family and depth |
| `SessionStates.StoreSkippedStep` | rust/protocol/src/state/session.rs:460-478 | storing skipped keys one by one with eviction is the closed form used by the proofs |
| `SessionStates.SessionState.AddReceiverChain` | rust/protocol/src/state/session.rs:335-359 | appends a chain and drops the oldest beyond five |
| `SessionStates.SessionState.GetMessageKeys` | rust/protocol/src/state/session.rs:434-458 | removes and returns exactly the stored key of that index, or changes nothing |
| `SessionStates.SessionState.SetMessageKeys` | rust/protocol/src/state/session.rs:460-478 | puts a key in front and evicts the last beyond 2000 |
| `SessionCipher.GetOrCreateChainKey` | rust/protocol/src/session_cipher.rs:696-730 | returns the known chain, or takes two DH steps and adds one |
| `SessionCipher.GetOrCreateMessageKey` | rust/protocol/src/session_cipher.rs:732-782 | the loop yields the key of the requested index and stores all passed over, with the duplicate, too-far and overflow outcomes, for every counter |
| `SessionCipher.DecryptMessageWithState` | rust/protocol/src/session_cipher.rs:599-694 | in-place decryption has the outcome of the value-level one; a failure changes nothing its caller keeps |
| `SkippedKeys.TakeKeyKeepsChain` | rust/protocol/src/session_cipher.rs:732-782 | indices strictly ordered, below the chain's, at most 2000, each key derived at its own index; the taken index is used up and no other becomes available |
| `SkippedKeys.RejectedIsUnavailable` | rust/protocol/src/session_cipher.rs:740-775 | a key is refused exactly when its index is unavailable, too far ahead or the last 32-bit index |
| `SkippedKeys.TakeKeyKeepsWindow` | rust/protocol/src/state/session.rs:434-478 | the store stays exactly the skipped, untaken indices above a watermark that only rises, only when 2000 is exceeded, and never into the last 2000 indices |
| `SessionInvariants.RatchetStepKeeps` | rust/protocol/src/session_cipher.rs:696-730 | a DH step keeps the session invariant and makes no used key available again, although it trims a chain |
| `SessionInvariants.MacUsesOneSlot` | rust/protocol/src/session_cipher.rs:647-672 | a message verifies under the keys of at most one chain and index |
| `SessionInvariants.DecryptKeeps` | rust/protocol/src/session_cipher.rs:599-694 | an accepted message used one available key, which is gone for good; nothing else becomes available; all stores stay windows |
| `SessionRecords.DecryptConserves` | rust/protocol/src/session_cipher.rs:424-582 | success updates exactly the first accepting session and makes it current; none is lost, the others keep order and content except cleared pending fields |
| `SessionRecords.PreviousAccepts` | rust/protocol/src/session_cipher.rs:513-555 | the archived session that accepts is the first that can, all earlier ones failing |
| `SessionRecords.PromoteMatchingConserves` | rust/protocol/src/state/session.rs:682-714 | promoting a matching session evicts nothing and moves nothing else |
| `SessionRecords.PromoteStateConserves` | rust/protocol/src/state/session.rs:747-767 | a new session displaces at most the oldest of a full archive of 40 |
| `SessionRecords.SessionRecord.PromoteMatchingSession` | rust/protocol/src/state/session.rs:682-714 | the in-place search and promotion have the outcome of the value-level one |
| `SessionRecords.SessionRecord.PromoteOldSession` | rust/protocol/src/state/session.rs:738-745 | removes one archived session and makes its update current |
| `SessionRecords.SessionRecord.ArchiveCurrentState` | rust/protocol/src/state/session.rs:755-774 | archives the current session without pending fields, dropping the oldest beyond 40 |
| `SessionRecords.SessionRecord.DecryptMessage` | rust/protocol/src/session_cipher.rs:424-582 | a failure leaves the record as it was; a success is the value-level outcome |
| `Handshake.SecretsAgree` | rust/protocol/src/ratchet.rs:54-188 | both ends collect the same list of secrets, with or without a one-time pre-key |
| `Handshake.BobSecretsDetermine` | rust/protocol/src/ratchet.rs:136-188 | the secrets determine base key, pre-keys and ciphertext, and whether a one-time pre-key was used |
| `Handshake.InitialisersAgree` | rust/protocol/src/spqxdh.rs:492-595 | from one secret, under any of the four labels, Bob's first sending chain is Alice's receiving chain and his first DH step gives her root and sending chain |
| `Handshake.PqxdhAgrees` | rust/protocol/src/ratchet.rs:54-221 | the same for PQXDH from matching parameters |
| `Handshake.NewAliceSession` | rust/protocol/src/ratchet.rs:54-134 | an initiator's session satisfies the session invariant and can yield no key already used |
| `Handshake.NewBobSession` | rust/protocol/src/ratchet.rs:136-221 | the same for the responder's session |
| `Handshake.InitializeAliceSession` | rust/protocol/src/ratchet.rs:54-134 | the buffer-filling initialiser builds the session of the value-level definition |
| `Handshake.InitializeBobSession` | rust/protocol/src/ratchet.rs:136-221 | the same for the responder, after refusing a base key that is not canonical |
| `ProtocolStores.InMemSignalProtocolStore.MarkKyberPreKeyUsed` | rust/protocol/src/storage/inmem.rs:247-265 | refuses a base key seen before for the pair of pre-keys, otherwise records it |
| `ProtocolStores.InMemSignalProtocolStore.ProcessBundle` | rust/protocol/src/session.rs:172-260 | checks trust and both signatures, then stores a pending session; an error changes nothing |
| `ProtocolStores.InMemSignalProtocolStore.Encrypt` | rust/protocol/src/session_cipher.rs:19-159 | the stored session advances by one and the message is wrapped exactly while pending; an error changes nothing |
| `ProtocolStores.InMemSignalProtocolStore.ProcessPreKeyMessage` | rust/protocol/src/session.rs:85-170 | promotes a matching session or initialises a new one from stored pre-keys, with its errors in order |
| `ProtocolStores.InMemSignalProtocolStore.DecryptPreKey` | rust/protocol/src/session_cipher.rs:197-278 | stores change only as far as the failing call had got: identity first, pre-keys, session last |
| `ProtocolStores.InMemSignalProtocolStore.DecryptSignal` | rust/protocol/src/session_cipher.rs:280-331 | the session is stored only after decryption and trust check |
| `DeviceRuns.SignalChange` | rust/protocol/src/session_cipher.rs:280-331 | a received SignalMessage replaces exactly one session of the address's record |
| `DeviceRuns.PreKeyChange` | rust/protocol/src/session_cipher.rs:197-278 | a received pre-key message joined an existing session or started one whose base key was new for its pre-keys |
| `OneTimeKeys.OneTimeKeyAfter` | rust/protocol/src/session_cipher.rs:254-276 | every call leaves every one-time pre-key as it is, except that saving stores it and the receipt that starts a session with it removes it |
| `OneTimeKeys.OneSessionPerOneTimeKey` | rust/protocol/src/storage/inmem.rs:128-147 | over any calls, between two sessions started with one one-time ID that ID was saved again |
| `Authenticity.PendingRestsOnSignedKeys` | rust/protocol/src/session.rs:172-260 | over any calls, every stored session that waits for its peer was derived from a signed and a Kyber pre-key that the peer's identity key signed in a bundle, and names them |
| `Authenticity.PreKeyMessagesNameTheirBundle` | rust/protocol/src/session_cipher.rs:64-112 | every pre-key message emitted carries the identity, registration ID, base key, pre-key IDs and ciphertext of a start with such a bundle, at most 30 days before |
| `Authenticity.NewSessionNames` | rust/protocol/src/session.rs:137-165 | a session started by a pre-key message carries both identities, both registration IDs and the base key of device and header |
| `Authenticity.UnsignedBundleIsRefused` | rust/protocol/src/session.rs:186-203 | a bundle whose identity key did not sign both pre-keys is refused and changes nothing |
| `Authenticity.CallTrusts` | rust/protocol/src/session_cipher.rs:113-331 | what a call accepts or emits for an address names an identity key that was trusted for it and is known for it afterwards |
| `Authenticity.IdentityIsPinned` | rust/protocol/src/storage/inmem.rs:66-110 | over any calls an address keeps the identity key it was first used with |
| `Authenticity.AllNameTheSameKey` | rust/protocol/src/session_cipher.rs:19-331 | over any calls everything emitted for or received from an address names that one key |
| `SendingRuns.HasSessionIff` | rust/protocol/src/session_cipher.rs:19-331 | over any calls, an address has a current session if and only if one was started or a message received for it since the last archiving |
| `SendingRuns.SendIsDecided` | rust/protocol/src/session_cipher.rs:19-147 | after any calls, the exact outcome of message_encrypt in terms of the last contact with the address: each error when it occurs, pre-key message exactly if that was a start, nothing changed on failure, and never an untrusted identity |
| `SendingRuns.StartIsDecided` | rust/protocol/src/session.rs:172-260 | after any calls, a bundle is taken if and only if both signatures are its identity key's and that key is the known one, if any; otherwise nothing changes |
| `ReceivingRuns.OnlyCurrentVersion` | rust/protocol/src/session_cipher.rs:615-620 | over any run, everything received is of the version this library writes |
| `ReceivingRuns.DuplicateIsReported` | rust/protocol/src/session_cipher.rs:361-520 | over any run, DuplicatedMessage names the counter of the message given and the index of a stored session's chain for it, which is past that counter and keeps no key for it |
| `RecordRuns.RecordsInvAlways` | rust/protocol/src/state/session.rs:682-774 | in every reachable state: at most 40 archived sessions, none pending, no two with the same version and base key |
| `RecordRuns.StepKeepsRecords` | rust/protocol/src/session.rs:85-170 | every call of the API keeps this invariant |
| `AtMostOnce.ReceivedAtMostOnce` | rust/protocol/src/session_cipher.rs:197-331 | over any run, with any counters and messages, no inner SignalMessage is decrypted twice, despite trimming, archiving, promotion, eviction and replayed pre-key messages |
| `AtMostOnce.StepKeeps` | rust/protocol/src/session_cipher.rs:197-331 | every step keeps the invariant that no stored or startable session can yield a used key |
| `AtMostOnce.InitialInv` | rust/protocol/src/storage/inmem.rs:389-402 | a device with empty stores satisfies it |
| `AtMostOnce.StoresAreWindowsAlways` | rust/protocol/src/state/session.rs:434-478 | in every reachable state every skipped-key store is exactly the unused indices above a watermark that is 0 or more than 2000 behind the chain |
| `PreKeyReuse.OtherIdsReceiveAgain` | rust/protocol/src/storage/inmem.rs:237-265 | any pre-key message that started a session is accepted again, under an unknown address, at any later time at which its key pairs are held under IDs whose record lacks the base key |
| `PreKeyReuse.TwoIdsReceiveTwice` | rust/protocol/src/session_cipher.rs:197-278 | so the condition on IDs is needed: once the key pairs are saved under other IDs, the genuine first message of any handshake is received a second time |
| `EmissionRuns.NoncesAreFresh` | rust/protocol/src/session_cipher.rs:19-159 | over any run no two emitted messages share ratchet key and counter |
| `EmissionRuns.PreKeyMessagesComeFirst` | rust/protocol/src/state/session.rs:499-579 | once a SignalMessage was emitted for an address and base key, no pre-key message is; a session keeps both, so this holds of every session |
| `EmissionRuns.StepKeepsEmit` | rust/protocol/src/session_cipher.rs:19-331 | every step keeps the ratchet keys of all sessions apart and their indices ahead of what was emitted |
| `EmissionRuns.InitialEmitInv` | rust/protocol/src/storage/inmem.rs:389-402 | a device with empty stores satisfies this |
| `PairRuns.StartPairInv` | rust/protocol/src/ratchet.rs:54-221 | the two ends of a handshake start in lock step |
| `PairRuns.StepKeepsPair` | rust/protocol/src/session_cipher.rs:599-782 | every send and every delivery, accepted or not, keeps lock step |
| `PairRuns.LockStepAlways` | rust/protocol/src/session_cipher.rs:599-782 | so does every interleaving of sends and deliveries |
| `LockStep.RootsOneStepApart` | rust/protocol/src/session_cipher.rs:696-730 | the roots of the two ends are exactly one DH step apart |
| `LockStep.DeliveryOutcome` | rust/protocol/src/session_cipher.rs:599-782 | a message is accepted if and only if it is in the receiver's window and the post-quantum ratchet delivers; it then yields the sent plaintext |
| `LockStep.OutcomeOnTrimmedChain` | rust/protocol/src/session_cipher.rs:696-730 | a message of a chain trimmed earlier fails its MAC on the chain recreated for it |
| `PairRuns.WindowIsWhatWasNotAccepted` | rust/protocol/src/state/session.rs:434-478 | above a watermark that spares the last 2000 indices, available means not accepted before |
| `PairRuns.EveryRunDelivers` | rust/protocol/src/session_cipher.rs:599-782 | from any handshake and after any run, the exact outcome of delivering any message the peer emitted in it, with the watermark bound to 2000 stored keys |
| `PairRuns.RecentMessageIsAccepted` | rust/protocol/src/session_cipher.rs:599-782 | a message on a retained or next chain, not accepted before, at most 2001 behind and 25000 ahead, is accepted with its plaintext when the post-quantum ratchet delivers |
| `PairRuns.EveryRunAcceptsRecent` | rust/protocol/src/session_cipher.rs:599-782 | the same after any run from any handshake, for any message emitted in it |
| `PairRuns.MessageIsFixed` | rust/protocol/src/session_cipher.rs:59-120 | what a sent entry stands for is the same message ever after, whatever either end does |
| `PairRuns.RunGrows` | rust/protocol/src/session_cipher.rs:59-120 | after a run the network holds what it held before and exactly what the run emitted, in order |
| `PostQuantum.StepKeepsEitherSide` | rust/protocol/src/session_cipher.rs:29-62 | every send moves the post-quantum state by one send of the ratchet and every accepted delivery by one receipt, so any relation between the ends that these keep is kept |
| `PostQuantum.RatchetsAlwaysRelated` | rust/protocol/src/session_cipher.rs:633-693 | from any handshake and after any interleaving, the two post-quantum states, what was sent and what was accepted are in whatever relation the ratchet keeps |
| `PostQuantum.ReliableRatchetDelivers` | rust/protocol/src/session_cipher.rs:599-693 | with a ratchet that loses no message that did not arrive before, any message emitted is accepted if and only if its window admits it |
| `PairRuns.FarAheadIff` | rust/protocol/src/session_cipher.rs:752-771 | a message ahead of its chain is accepted if and only if it is at most 25000 ahead or the session is with oneself |
| `MessageCounters.CountersCount` | rust/protocol/src/session_cipher.rs:42-52 | on the messages of any run of a pair: the counter is the number of messages before it under its ratchet key, the previous counter one less than the number under the ratchet key before, or zero |
| `MessageCounters.StepKeepsCounts` | rust/protocol/src/session_cipher.rs:716-727 | every send and delivery keeps chain index, previous counter and all sent entries equal to those numbers |
| `KeySeparation.MessageKeysApart` | rust/protocol/src/ratchet/keys.rs:18-113 | cipher key, MAC key and IV differ from each other and from those of every other index, chain or post-quantum key |
| `KeySeparation.SeedIsNoChainKey` | rust/protocol/src/ratchet/keys.rs:141-181 | a message seed is no chain key |
| `KeySeparation.StepKeysApart` | rust/protocol/src/ratchet/keys.rs:192-217 | roots and chains of Diffie-Hellman steps differ from each other and between steps |
| `KeySeparation.HandshakeKeysApart` | rust/protocol/src/ratchet.rs:20-52 | root, chain and post-quantum key differ from each other and between secrets and labels |
| `KeySeparation.PostQuantumEndsMatch` | rust/protocol/src/ratchet.rs:54-221 | both ends start the post-quantum ratchet with one key of its own, in opposite directions |
| `KeySeparation.OpensInItsSlot` | rust/protocol/src/session_cipher.rs:670-695 | what was sealed for one message opens to its plaintext with the keys of that message; the keys of any other message, chain or post-quantum key are a wrong key for it |
| `Bonds.DecryptSame` | rust/protocol/src/session_cipher.rs:599-694 | decryption does not depend on pending fields or registration IDs |
| `Bonds.SecretsDiffer` | rust/protocol/src/ratchet.rs:54-134 | handshakes with different base keys, started by either device, have different secrets |
| `Bonds.ForeignRefuses` | rust/protocol/src/session_cipher.rs:599-730 | a session of another handshake refuses a message as invalid, not as a duplicate, so the search over the record goes on |
| `TwoDevices.OneDecides` | rust/protocol/src/session_cipher.rs:424-582 | when all sessions of a record but one refuse a message, decryption over the record is decided by that one |
| `TwoDevices.WrongKeysRefuse` | rust/protocol/src/session.rs:85-170 | with other pre-keys stored under the named IDs, the new session refuses the pre-key message |
| `TwoDevices.SignalOutcome` | rust/protocol/src/session_cipher.rs:280-331 | between two devices: a plain message is received exactly when the record holds its session and that session takes it |
| `TwoDevices.PreKeyOutcome` | rust/protocol/src/session_cipher.rs:197-278 | a pre-key message is received exactly when its session takes it and the record holds the session, or the named pre-keys are still stored and the base key is canonical and unused |
| `DuoSteps.StepKeepsDuo` | rust/protocol/src/session_cipher.rs:19-331 | every call at either device and every delivery keeps each stored session an end of its handshake, in lock step with the other end |
| `DuoRuns.DuoInvAlways` | rust/protocol/src/session_cipher.rs:19-331 | so does every run of two devices with empty stores |
| `DuoRuns.PacketWasEmitted` | rust/protocol/src/session_cipher.rs:19-159 | everything on the network between them was emitted at some step, for the plaintext recorded with it |
| `DuoRuns.EmittedStays` | rust/protocol/src/session_cipher.rs:19-159 | everything emitted at some step can be delivered from then on |
| `DuoRuns.SharedSessionsInLockStep` | rust/protocol/src/state/session.rs:682-774 | sessions that the two records hold under one base key know each other and have roots one DH step apart, whatever was archived, promoted or started from both ends |
| `DuoRuns.EveryMessageIsDecided` | rust/protocol/src/session_cipher.rs:197-331 | in every state of every run, the exact outcome of delivering any message one device emitted for the other, and the plaintext of the call that emitted it |
| `DuoRuns.EmittedIsReceived` | rust/protocol/src/session_cipher.rs:197-331 | what one device emitted is received by the other with its plaintext at any later time at which it holds the session, if the message is in reach, new, at most 2001 behind and 25000 ahead, and the post-quantum ratchet delivers |
| `DuoCounters.EmittedCountersCount` | rust/protocol/src/session_cipher.rs:42-52 | the same counters on every message between two devices, in every state of every run |
| `DuoContact.BondWasStarted` | rust/protocol/src/session.rs:172-260 | every handshake between the two was started by a call with a bundle, and uses exactly its keys and names exactly its IDs |
| `DuoContact.FirstContactSucceeds` | rust/protocol/src/session.rs:85-170 | a pre-key message is received with its plaintext while the other device stores the keys of the bundle under their IDs, if its base key is canonical and new and its index at most 25000 |
| `SenderKeys.SenderKeyState.AddSenderMessageKey` | rust/protocol/src/sender_keys.rs:215-222 | appends a key and drops the oldest beyond 2000 |
| `SenderKeys.SenderKeyState.RemoveSenderMessageKey` | rust/protocol/src/sender_keys.rs:224-236 | removes and returns the first key of that iteration, or changes nothing |
| `SenderKeys.SenderKeyRecord.AddSenderKeyState` | rust/protocol/src/sender_keys.rs:294-348 | a known chain and signing key keep their state; other states of the chain go; the state moves to the front of at most five |
| `GroupCipher.GetSenderKey` | rust/protocol/src/group_cipher.rs:75-122 | the loop yields the key of the requested iteration, stores those passed over, and reports duplicates and jumps too far |
| `GroupCipher.InMemSenderKeyStore.Decrypt` | rust/protocol/src/group_cipher.rs:124-194 | the record is stored only after success |
| `GroupCipher.InMemSenderKeyStore.Encrypt` | rust/protocol/src/group_cipher.rs:16-73 | seals with the current iteration and advances by one |
| `GroupCipher.InMemSenderKeyStore.Process` | rust/protocol/src/group_cipher.rs:196-226 | adds the distributed state to the record of its sender |
| `GroupCipher.InMemSenderKeyStore.Create` | rust/protocol/src/group_cipher.rs:228-287 | distributes the current state of the record, starting a chain if there is no record |
| `GroupDelivery.GetKeyKeeps` | rust/protocol/src/group_cipher.rs:75-122 | the key is the chain's for its iteration, is used up for good, and nothing else becomes openable |
| `GroupDelivery.NothingEvicted` | rust/protocol/src/sender_keys.rs:215-222 | within 2001 iterations of the start no key is evicted |
| `GroupDelivery.SenderSealsChainMessages` | rust/protocol/src/group_cipher.rs:16-73 | a sender on the chain emits the chain's messages one after the other |
| `GroupDelivery.DeliverOne` | rust/protocol/src/group_cipher.rs:124-194 | one delivery: own plaintext if still openable, otherwise DuplicatedMessage with the chain's iteration |
| `GroupDelivery.PermutationDelivers` | rust/protocol/src/group_cipher.rs:75-194 | after a distribution message, chain messages within 2001 iterations in any order, with any repetitions: first deliveries open, later ones are duplicates |
| `GroupDelivery.NoEarlierIteration` | rust/protocol/src/group_cipher.rs:75-122 | a late joiner gets no iteration before the distributed one |
| `GroupEndToEnd.EncryptsIff` | rust/protocol/src/group_cipher.rs:16-73 | a run of group_encrypt succeeds if and only if the sender's current state has its private signing key and the iterations fit 32 bits |
| `GroupEndToEnd.EncryptAllSealsChain` | rust/protocol/src/group_cipher.rs:16-73 | a run of group_encrypt emits the chain's messages from the distributed iteration on |
| `GroupEndToEnd.StoreDelivers` | rust/protocol/src/group_cipher.rs:124-194 | group_decrypt over the store, with its version check, is delivery to one record |
| `GroupEndToEnd.GroupConversation` | rust/protocol/src/group_cipher.rs:16-287 | from create_sender_key_distribution_message and at most 2001 group_encrypt calls to process and group_decrypt in any order with losses and repetitions: every encryption succeeds, first deliveries give their plaintexts, later ones DuplicatedMessage |
| `GroupWindows.GetKeyKeepsWindow` | rust/protocol/src/sender_keys.rs:215-236 | the stored iterations stay exactly those not opened above a watermark that spares the last 2000 |
| `GroupWindows.DeliveryAfterAnyRun` | rust/protocol/src/group_cipher.rs:75-194 | after a run of any length on a chain, the exact outcome of the next delivery: opened, duplicate, or too far |
| `GroupWindows.RecentOpensAfterAnyRun` | rust/protocol/src/group_cipher.rs:75-194 | after any run on a chain, an iteration from the start on that was not opened, at most 2001 behind and 25000 ahead, opens to its plaintext |
| `GroupRuns.RecordIsMostRecent` | rust/protocol/src/sender_keys.rs:278-348 | after any run the record holds exactly the five most recently distributed chain IDs, in that order, without repetition |
| `GroupRuns.StepNeverRewinds` | rust/protocol/src/group_cipher.rs:196-226 | while a chain stays in the record, no distribution message or delivery makes an iteration openable again |
| `GroupRuns.NeverRewinds` | rust/protocol/src/group_cipher.rs:196-226 | the same over whole runs |
| `GroupRuns.AcceptedOnce` | rust/protocol/src/group_cipher.rs:124-226 | an accepted iteration of a chain that stays is never accepted again |
| `GroupRuns.AcceptedIsSigned` | rust/protocol/src/group_cipher.rs:159-164 | a message accepted on a chain carries the signature of the key the record holds for it, over its own content |
| `GroupAuthenticity.ConversationIsAuthentic` | rust/protocol/src/group_cipher.rs:20-194 | from the sender's calls on, against any deliveries and distributions without forged signatures: what is accepted on the chain is a message the sender encrypted and opens to its plaintext |
| `GroupAuthenticity.DecryptedIsSigned` | rust/protocol/src/group_cipher.rs:124-194 | what the store decrypts has this library's version and the signature of the state it names, and only that state changes |
| `GroupAuthenticity.ReceiversCannotEncrypt` | rust/protocol/src/group_cipher.rs:20-73 | whatever was distributed and delivered, a record without signing keys cannot encrypt |
| `KeySeparation.GroupKeysApart` | rust/protocol/src/sender_keys.rs:34-121 | cipher keys and IVs of all messages of all chains differ and no seed is a chain key |
| `KeySeparation.OpensInItsIteration` | rust/protocol/src/group_cipher.rs:166-185 | the same for the iterations of the chains of a group |
| `SealedSenderWire.VarintRoundTrip` | rust/protocol/src/sealed_sender.rs:1656-1663 | a count is read back from its encoding exactly when it fits the byte limit |
| `SealedSenderWire.CanonicalFits` | rust/protocol/src/sealed_sender.rs:1656-1663 | moving the cursor by the canonical length never leaves the buffer |
| `SealedSenderWire.MasksAreArithmetic` | rust/protocol/src/sealed_sender.rs:1494-1507 | the bit masks of the device word are the arithmetic used by the model |
| `SealedSenderWire.DevicesRoundTrip` | rust/protocol/src/sealed_sender.rs:1689-1710 | a device list with its continuation flags and 14-bit registration IDs is read back |
| `SealedSenderWire.EntryRoundTrip` | rust/protocol/src/sealed_sender.rs:1675-1718 | so is an entry with devices and key material, or an excluded one |
| `SealedSenderWire.SentRoundTrip` | rust/protocol/src/sealed_sender.rs:1634-1750 | parsing an encoded message is merging its entries in order, or refusing a count above 2^32 - 1 |
| `SentMessageParser.ReadDevices` | rust/protocol/src/sealed_sender.rs:1689-1710 | the loop reads the device list, with every error |
| `SentMessageParser.ReadEntry` | rust/protocol/src/sealed_sender.rs:1675-1718 | the entry at the cursor, for both versions |
| `SentMessageParser.Parse` | rust/protocol/src/sealed_sender.rs:1634-1750 | the cursor-and-map parser has the specified outcome on every byte string |
| `WireLaws.ParsedDevices` | rust/protocol/src/sealed_sender.rs:1689-1710 | any accepted device list takes three bytes a device and ends at the first device without the continuation flag |
| `WireLaws.ParsedSent` | rust/protocol/src/sealed_sender.rs:1634-1750 | any accepted message has a known version, at least a public key of shared bytes at its end and no ID twice |
| `WireLaws.UuidSentRoundTrip` | rust/protocol/src/sealed_sender.rs:1634-1750 | messages of the older version, whose IDs have no type byte, are parsed by merging their entries as well |
| `RecipientMap.MergeAllIsSummary` | rust/protocol/src/sealed_sender.rs:1720-1738 | the parsed map lists IDs in order of first appearance with all their devices in order and the first key material, exactly when no empty entry is repeated |
| `RecipientMap.SentParsesIff` | rust/protocol/src/sealed_sender.rs:1634-1750 | a written message parses if and only if excluded recipients are distinct and no destination, and the count fits |
| `FanOut.WriteAllSplits` | rust/protocol/src/sealed_sender.rs:1534-1547 | one pass over a concatenation is a pass over each part, with the same first error |
| `FanOut.ProcessChunk` | rust/protocol/src/sealed_sender.rs:1534-1547 | appends the groups' bytes in order or returns the first error |
| `FanOut.RunTasks` | rust/protocol/src/sealed_sender.rs:1568-1585 | under every interleaving each task's slot ends up with what a lone pass over its chunk gives |
| `FanOut.JoinIsOnePass` | rust/protocol/src/sealed_sender.rs:1587-1589 | joining the chunks' outputs in order is one pass over all groups |
| `FanOut.WriteGroups` | rust/protocol/src/sealed_sender.rs:1555-1590 | for every parallelism the result is the sequential one: same bytes or same first error |
| `SealedSenderV2.AgreementXorInverts` | rust/protocol/src/sealed_sender.rs:1075-1105 | receiving with swapped keys undoes sending |
| `SealedSenderV2.TagInputsAgreeIff` | rust/protocol/src/sealed_sender.rs:1115-1145 | both ends hash the same tag input if and only if the claimed sender key is the sender's |
| `SealedSenderV2.OpensIffTagsAgree` | rust/protocol/src/sealed_sender.rs:1911-1962 | a sealed message opens to its content unless the tags differ; no other check can fail |
| `SealedSenderV2.OpensIffCertificateMatches` | rust/protocol/src/sealed_sender.rs:1911-1962 | it opens exactly when the certificate carries the sender's identity key, or two explicit inputs collide |
| `SealedSenderV2.OtherKeyIsRefused` | rust/protocol/src/sealed_sender.rs:1911-1962 | a message sealed for one key opens under another only if two message keys share an ephemeral key, or masks and tags both collide |
| `WireLaws.TagInputBinds` | rust/protocol/src/sealed_sender.rs:1115-1145 | for one recipient and sender the tag input determines E and C |
| `WireLaws.TagBindsKeyMaterial` | rust/protocol/src/sealed_sender.rs:1911-1962 | of two messages opened from one sender with one tag, E and C are the same or explicit tag inputs collide |
| `MultiRecipient.GroupsCover` | rust/protocol/src/sealed_sender.rs:1427-1454 | grouping lists every destination once and in order |
| `MultiRecipient.GroupsShareIdentity` | rust/protocol/src/sealed_sender.rs:1427-1454 | each group has one name and carries the identity key of its first address |
| `MultiRecipient.GroupsAreMaximal` | rust/protocol/src/sealed_sender.rs:1427-1454 | neighbouring groups have different names |
| `MultiRecipient.GroupDestinations` | rust/protocol/src/sealed_sender.rs:1427-1454 | the grouping loop, with the missing-identity error |
| `MultiRecipient.AppendDevices` | rust/protocol/src/sealed_sender.rs:1481-1512 | the device loop writes the encoding of the devices, with both registration ID errors |
| `MultiRecipient.SerializeRecipient` | rust/protocol/src/sealed_sender.rs:1461-1532 | appends one group: ID, devices, C and AT, with its errors in order |
| `MultiRecipient.Encrypt` | rust/protocol/src/sealed_sender.rs:1377-1601 | for every parallelism the message is the encoding of the groups and excluded recipients, or the first error |
| `SendOutcome.WrittenIff` | rust/protocol/src/sealed_sender.rs:1377-1532 | a message is written if and only if there is a session per destination, an identity for the first address of every run of one name, and every destination has a 14-bit registration ID and a service ID |
| `MultiRecipient.ServerParses` | rust/protocol/src/sealed_sender.rs:1634-1750 | the server's parse of what the sender wrote, decided exactly |
| `MultiRecipient.FannedOutMessageOpens` | rust/protocol/src/sealed_sender.rs:1758-1775 | the message handed out for a recipient opens to the original content when the certificate carries the sender's key, and otherwise only on an explicit collision |
| `MultiRecipient.LaterIdentityIsRefused` | rust/protocol/src/sealed_sender.rs:1720-1775 | the holder of any other identity key, such as that of a later group with the same ID, refuses the message unless explicit ephemeral, or mask and tag, collisions occur |
| `IncrementalMac.PrefixMacsAt` | rust/protocol/src/incremental_mac.rs:78-102 | the k-th MAC is that of the first k + 1 chunks |
| `IncrementalMac.Incremental.UpdateChunk` | rust/protocol/src/incremental_mac.rs:91-102 | yields a MAC exactly when the chunk is complete |
| `IncrementalMac.Incremental.Update` | rust/protocol/src/incremental_mac.rs:78-85 | yields the MACs of exactly the chunk boundaries crossed |
| `IncrementalMac.Validating.Update` | rust/protocol/src/incremental_mac.rs:110-128 | the popping loop has the outcome of the value-level update |
| `IncrementalMac.Validating.Finalize` | rust/protocol/src/incremental_mac.rs:130-137 | succeeds exactly when one expected MAC is left and equals the final one |
| `IncrementalMac.ValidatesIff` | rust/protocol/src/incremental_mac.rs:109-137 | under every splitting all calls succeed if and only if the expected list is the prefix MACs followed by the full MAC; the counts then add up to the length |
| `IncrementalMac.StateIsSplitIndependent` | rust/protocol/src/incremental_mac.rs:110-128 | the state after any splitting is that after one update with the whole input, failed updates included |
| `IncrementalMac.FinalizesIff` | rust/protocol/src/incremental_mac.rs:110-137 | exactly when finalize accepts, whatever the updates returned: the prefix MACs, matched in order, must leave the full MAC alone |
| `IncrementalMac.FinalizeAfterFailure` | rust/protocol/src/incremental_mac.rs:110-137 | when finalize accepts, all updates succeeded if and only if the expected list was not too short |
| `IncrementalMac.FailureIsNotSticky` | rust/protocol/src/incremental_mac.rs:110-128 | a failed update followed by successful ones and an accepting finalize, concretely |
| `ChunkSizes.ChunkSizeInBounds` | rust/protocol/src/incremental_mac.rs:25-46 | between 64 KiB and 2 MiB for every digest length dividing 8 KiB |
| `ChunkSizes.ChunkSizeMonotone` | rust/protocol/src/incremental_mac.rs:25-46 | monotone in the data size |
| `ChunkSizes.ChunkSizeIsLeast` | rust/protocol/src/incremental_mac.rs:25-46 | the least size within bounds with which the target count of chunks covers the data, or the maximum |
| `ChunkSizes.TotalDigestSizeBound` | rust/protocol/src/incremental_mac.rs:25-46 | the digests take at most 8 KiB if and only if the data is at most the target count times 2 MiB |
| `AesGcm.GcmGhash.Update` | rust/crypto/src/aes_gcm.rs:44-88 | after any update the hash and buffer stand for all bytes fed so far |
| `AesGcm.GcmGhash.Finalize` | rust/crypto/src/aes_gcm.rs:90-108 | the result is the one-shot GHASH of associated data and all bytes fed, masked |
| `AesGcm.Aes256Ctr32.Process` | rust/crypto/src/aes_ctr.rs:43-45 | applies the key stream at the current position in place |
| `AesGcm.SetupGcm` | rust/crypto/src/aes_gcm.rs:111-131 | fails exactly on a nonce or key of the wrong size; data starts after the first key-stream block |
| `AesGcm.Aes256GcmEncryption.Encrypt` | rust/crypto/src/aes_gcm.rs:147-150 | encrypts the next part in place and hashes the ciphertext |
| `AesGcm.Aes256GcmDecryption.Decrypt` | rust/crypto/src/aes_gcm.rs:171-174 | hashes the ciphertext and decrypts it in place |
| `AesGcm.Aes256GcmDecryption.VerifyTag` | rust/crypto/src/aes_gcm.rs:176-190 | accepts exactly the one-shot tag of what was fed |
| `AesGcm.EncryptParts` | rust/crypto/src/aes_gcm.rs:133-155 | for every splitting, the ciphertext and tag of SP 800-38D for the whole message |
| `AesGcm.DecryptParts` | rust/crypto/src/aes_gcm.rs:157-191 | for every splitting, the plaintext of the whole ciphertext; the tag verifies exactly when it is the one-shot tag |
| `AesGcm.RoundTrip` | rust/crypto/src/aes_gcm.rs:133-191 | encrypting under one splitting and decrypting under another gives the message back and verifies |
| `GcmLaws.CiphertextByte` | rust/crypto/src/aes_gcm.rs:111-150 | each byte is masked with the cipher of the nonce and a counter written out in four bytes, block j with j + 2 |
| `GcmLaws.InputsDiffer` | rust/crypto/src/aes_ctr.rs:20-45 | the cipher inputs of up to 2^32 - 2 blocks, of the tag's mask and of the hash key are pairwise different |
| `GcmLaws.TagMask` | rust/crypto/src/aes_gcm.rs:90-131 | the tag is the hash under the cipher of counter 1, the hash key the cipher of the zero block |
| `GcmLaws.HashInputDetermines` | rust/crypto/src/aes_gcm.rs:30-108 | what is hashed determines associated data and ciphertext |
| `GcmLaws.ChangedBlockIsDetected` | rust/crypto/src/aes_gcm.rs:44-108 | a ciphertext changed within one block has another tag, for every hash key that loses nothing |
| `ConstantTime.MasksDecide` | rust/core/src/curve/utils.rs:8-26 | the equality and less-than masks are all ones or zero as they should be |
| `ConstantTime.StepDecides` | rust/core/src/curve/utils.rs:28-73 | one pass of the loop keeps the verdict on equal bytes and overrides it otherwise |
| `ConstantTime.CompareIsTotalOrder` | rust/core/src/curve/utils.rs:53-82 | shorter first, then lexicographic, is a total order on all byte strings |
| `ConstantTime.ConstantTimeCmp` | rust/core/src/curve/utils.rs:53-82 | the branch-free loop computes that order |
| `Xhmqv.AggregatedKeysMatch` | rust/protocol/src/xhmqv.rs:282-324 | [b]G = B with and without a one-time pre-key |
| `Xhmqv.XhmqvAgrees` | rust/protocol/src/xhmqv.rs:345-477 | both ends derive the same two secrets |
| `Xhmqv.MessageRoundTrip` | rust/protocol/src/xhmqv.rs:546-619 | the receiver of a message learns the sender's identity key and the same session key |
| `SealedLaws.SealingInputBinds` | rust/protocol/src/xhmqv.rs:506-526 | the sealing key covers the secret, all keys of the receiver and the ephemeral key |
| `SealedLaws.SessionInputBinds` | rust/protocol/src/xhmqv.rs:528-545 | the session key covers both secrets, the sender and the ephemeral key |
| `SealedLaws.ReceivedPointsAreValid` | rust/protocol/src/xhmqv.rs:588-619 | a message is accepted only with valid points as ephemeral key and sender identity |
| `SealedRingCodec.FieldRoundTripIff` | rust/protocol/src/sealed_ringxkem_xhmqv.rs:69-80 | a length-prefixed field is read back exactly when its length fits the prefix |
| `SealedRingCodec.OuterRoundTripIff` | rust/protocol/src/sealed_ringxkem_xhmqv.rs:276-332 | a serialized message parses to itself exactly when its fields are shorter than 2^32 bytes |
| `SealedRingCodec.OuterCanonical` | rust/protocol/src/sealed_ringxkem_xhmqv.rs:276-332 | any byte string that parses is the serialization of the result, then ignored bytes, then the MAC |
| `SealedRingCodec.VerifiedParseOuter` | rust/protocol/src/sealed_ringxkem_xhmqv.rs:276-332 | the index-moving parser stays in bounds on every byte string and has the specified outcome |
| `SealedRingCodec.InnerRoundTrip` | rust/protocol/src/sealed_ringxkem_xhmqv.rs:208-274 | an inner message parses to itself with its hint cut to one byte |
| `SealedLaws.InnerCanonical` | rust/protocol/src/sealed_ringxkem_xhmqv.rs:208-248 | an accepted inner message is the serialization of what is reported, then ignored bytes, with a key and certificate that decode; a short one is refused as such |
| `SealedRingCodec.ValidatedParseInner` | rust/protocol/src/sealed_ringxkem_xhmqv.rs:208-248 | the offset-moving parser stays in bounds on every byte string, with its errors in order |
| `SealedRingCodec.HintSurvivesIff` | rust/protocol/src/sealed_ringxkem_xhmqv.rs:260-263 | exactly the hints that survive one byte |
| `SealedRing.TranscriptDetermines` | rust/protocol/src/sealed_ringxkem_xhmqv.rs:158-195 | with fixed field lengths the key-derivation transcript determines every field and whether a one-time key was present |
| `SealedLaws.XhmqvDerivationBinds` | rust/protocol/src/sealed_ringxkem_xhmqv.rs:158-195 | the first derivation tells all twelve inputs apart |
| `SealedLaws.SignatureBinds` | rust/protocol/src/sealed_ringxkem_xhmqv.rs:333-342 | the signed hash binds both Falcon keys, both post-quantum keys and both ciphertexts |
| `SealedLaws.AcceptedIsSigned` | rust/protocol/src/sealed_ringxkem_xhmqv.rs:506-535 | what is accepted was signed by the key in the message over this receiver's keys and these ciphertexts |
| `SealedLaws.MacCoversMessage` | rust/protocol/src/sealed_ringxkem_xhmqv.rs:500-535 | two accepted messages with one MAC under one final input are the same or their MACs collide |
| `SealedLaws.UnsignedBundlesAreRefused` | rust/protocol/src/sealed_ringxkem_xhmqv.rs:108-122 | both ring handshakes use a bundle exactly if both of its signatures are valid |
| `SealedRing.XhmqvRoundTrip` | rust/protocol/src/sealed_ringxkem_xhmqv.rs:343-535 | receiving what was sent gives the same session key, certificate, registration ID and type and the one-byte hint, exactly when the sender's signature verifies |
| `SealedRing.FinalDetermines` | rust/protocol/src/sealed_ringxkem_xhmqv.rs:404-413 | the final derivation input determines its fields once the verification key's length is fixed |
| `SealedRing.FinalAmbiguous` | rust/protocol/src/sealed_ringxkem_xhmqv.rs:404-413 | without that, a byte can move from key to signature unnoticed |
| `SealedRing.X3dhRoundTrip` | rust/protocol/src/sealed_ringxkem_x3dh.rs:296-500 | the same round trip over X25519 when the certificate vouches for the sender's key |
| `SealedLaws.X3dhDerivationBinds` | rust/protocol/src/sealed_ringxkem_x3dh.rs:155-200 | the first derivation of the X3DH variant tells all fourteen inputs apart |
| `SealedRing.X3dhCertificateDecides` | rust/protocol/src/sealed_ringxkem_x3dh.rs:296-500 | for any certificate: accepted only if the certified key agrees with the signed pre-key to the sender's secret, or explicit inputs collide, and then exactly when the signature verifies |
| `Spqxdh.SecretsAgree` | rust/protocol/src/spqxdh.rs:120-300 | both ends feed the same secrets to the sealing key derivation |
| `SealedLaws.SpqxdhSecretsBind` | rust/protocol/src/spqxdh.rs:120-175 | the secrets tell all agreements and the encapsulated secret apart |
| `Spqxdh.RecvOfSent` | rust/protocol/src/spqxdh.rs:310-443 | for any certificate: accepted if and only if the certified key agrees with the signed pre-key to the sender's secret, or explicit inputs collide |
| `Spqxdh.RoundTrip` | rust/protocol/src/spqxdh.rs:176-443 | with the sender's certificate: same session key and content, hint cut to one byte |
| `Spqxdh.AttachedCiphertextIff` | rust/protocol/src/spqxdh.rs:78-102 | a message with a ciphertext attached after `send` is accepted if and only if the ciphertext is empty or two different encodings have one MAC |
| `SealedSessions.MeetIff` | rust/protocol/src/spqxdh.rs:448-595 | the two sessions agree and start in lock step exactly when both ends put in the same session key |
| `SealedSessions.XhmqvSessionsMeet` | rust/protocol/src/sealed_ringxkem_xhmqv.rs:343-651 | sessions from the keys of `send` and `recv` agree and start in lock step |
| `SealedSessions.X3dhSessionsMeet` | rust/protocol/src/sealed_ringxkem_x3dh.rs:296-607 | the same for the X3DH ring handshake with the sender's certificate |
| `SealedSessions.SpqxdhSessionsMeet` | rust/protocol/src/spqxdh.rs:176-595 | the same for sealed PQXDH with the sender's certificate |

## Left out

- Primitive internals (AES, SHA-2, HKDF, X25519, Ristretto255, ML-KEM, Falcon, Ed25519, AES-GCM-SIV) and the `spqr` crate: they appear as free constructors or as arbitrary functions with stated laws.
- Secrecy, anonymity and timing: only functional correctness is stated.
- Protobuf encodings of messages and records, certificates and their validation: abstract values or invertible codecs.
- Non-canonical varints in Sealed Sender v2: the outcome is modelled as in the code, nothing is claimed about it.
- Sealed Sender v1, and the validation of certificates in `sealed_sender_decrypt`.
- `range_for_recipient_key_material` and the other offsets computed from pointers.
- Records loaded by `deserialize` that already exceed the size bounds; the bounds are for records built through the API.
- Message keys stored by old versions in expanded form (`MessageKeyGenerator::Keys`), and sessions whose identity fields are missing.
- Wrap-around of the unchecked `index + 1` of a chain key: moving past index 2^32 - 1 is the outcome `CounterOverflow`, which changes nothing, as in a build with overflow checks.
- Checks on public keys beyond decoding and the canonical base key: a public key is the name of its private half, and which names are canonical is arbitrary.
- AesGcm.Aes256Ctr32.Process: past 2^32 blocks the counter wraps as in SP 800-38D; the cipher crate, which is not part of the repository, panics there.
- Overflow of `usize` arithmetic on 32-bit platforms in chunk sizes and lengths.
- Forged messages between two devices: `DuoRuns` delivers under the other device's address only what that device emitted; forged and replayed messages of any kind are the subject of `DeviceRuns`.
- Asynchrony, logging, failure-log strings, benchmarks, and the second, unused Falcon signature.
- `pqxdh.rs`, HPKE, fingerprints, addresses as strings, timestamps: thin or easy.
