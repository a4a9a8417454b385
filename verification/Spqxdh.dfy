/**
 Sealed PQXDH (rust/protocol/src/spqxdh.rs:120-440): a one-message handshake that hides the sender, with keys looked up
 by ID in the receiver's stores. The protobuf encoding is an invertible codec given by `Wire`.
 */
module Spqxdh {
  import opened Prelude
  import opened ByteStrings
  import opened SealedRingCodec
  import opened SealedRing

  const VERSION: byte := 0x34

  datatype Message = Message(preKeyId: Option<nat>, signedPreKeyId: nat, kyberPreKeyId: nat, ephemeral: Bytes,
                             ciphertext: Bytes, inner: Bytes, sealedCiphertext: Option<Bytes>)

  datatype Wire = Wire(encode: Message -> Bytes, decode: Bytes -> Option<Message>)

  predicate WireLaw(w: Wire, m: Message) {
    w.decode(w.encode(m)) == Some(m)
  }

  /** The two key derivations: the first has one label with a one-time pre-key and another without. */
  datatype Kdf = Kdf(sealing: (bool, Bytes) -> (Bytes, Bytes), mixin: Bytes -> (Bytes, Bytes))

  datatype Bundle = Bundle(
    identity: Bytes, signedPreKeyId: nat, signedPreKey: Bytes, oneTime: Option<(nat, Bytes)>,
    kyberPreKeyId: nat, kyberPreKey: Bytes)

  /** The receiver's identity secret and the secrets in its stores, by ID. */
  datatype Stores = Stores(identity: Bytes, signedPreKeys: map<nat, Bytes>, preKeys: map<nat, Bytes>,
                           kyberPreKeys: map<nat, Bytes>)

  datatype Payload = Payload(certificate: Bytes, registrationId: u32, messageType: MessageType, hint: ContentHint)

  datatype RecvError = MalformedMessage | MissingKey | DecapsulationFailed | InnerInvalid | MacMismatch

  datatype Accepted = Accepted(content: Payload, sessionKey: Bytes)

  // ---------------------------------------------------------------------------------------------
  // Inner message

  function EncodePayload(c: Payload): Bytes {
    LittleEndian(c.registrationId, 4) + [TypeByte(c.messageType)] + [HintToU32(c.hint) % 0x100] + c.certificate
  }

  function ParsePayload(b: Bytes): Option<Payload> {
    if |b| < 6 || TypeOf(b[4]).None? then None
    else
      LittleEndianInverse(b[..4]);
      Powers();
      Some(Payload(b[6..], FromLittleEndian(b[..4]), TypeOf(b[4]).value, HintFromU32(b[5])))
  }

  lemma PayloadRoundTrip(c: Payload)
    ensures ParsePayload(EncodePayload(c)) == Some(c.(hint := OneByteHint(c.hint)))
  {
    var r, b := LittleEndian(c.registrationId, 4), EncodePayload(c);
    assert b[..4] == r && b[4] == TypeByte(c.messageType) && b[5] == HintToU32(c.hint) % 0x100
           && b[6..] == c.certificate;
    assert FromLittleEndian(r) == c.registrationId by {
      Powers();
      LittleEndianReadsBack(c.registrationId, 4);
    }
  }

  // ---------------------------------------------------------------------------------------------
  // Sending and receiving

  function SendSecrets(v: Curve, s: Suite, b: Bundle, ephemeral: Bytes, coins: Bytes): Bytes {
    v.agreement(ephemeral, b.identity) + v.agreement(ephemeral, b.signedPreKey)
    + (if b.oneTime.Some? then v.agreement(ephemeral, b.oneTime.value.1) else [])
    + s.encapsulate(b.kyberPreKey, coins).0
  }

  function RecvSecrets(v: Curve, identity: Bytes, signedPreKey: Bytes, oneTime: Option<Bytes>, eph: Bytes,
                       shared: Bytes)
    : Bytes
  {
    v.agreement(identity, eph) + v.agreement(signedPreKey, eph)
    + (if oneTime.Some? then v.agreement(oneTime.value, eph) else [])
    + shared
  }

  function SealedMessage(v: Curve, s: Suite, k: Kdf, b: Bundle, c: Payload, ephemeral: Bytes, coins: Bytes): Message {
    var sealingKey := k.sealing(b.oneTime.Some?, SendSecrets(v, s, b, ephemeral, coins)).0;
    Message(if b.oneTime.Some? then Some(b.oneTime.value.0) else None, b.signedPreKeyId, b.kyberPreKeyId,
            v.publicKey(ephemeral), s.encapsulate(b.kyberPreKey, coins).1, s.encrypt(sealingKey, EncodePayload(c)),
            None)
  }

  function FinalInput(v: Curve, s: Suite, k: Kdf, b: Bundle, sender: Bytes, ephemeral: Bytes, coins: Bytes): Bytes {
    k.sealing(b.oneTime.Some?, SendSecrets(v, s, b, ephemeral, coins)).1 + v.agreement(sender, b.signedPreKey)
  }

  function Encoded(w: Wire, m: Message): Bytes {
    [VERSION] + w.encode(m)
  }

  /** `send`: the serialized message and the session key. */
  function Send(v: Curve, s: Suite, k: Kdf, w: Wire, b: Bundle, sender: Bytes, c: Payload, ephemeral: Bytes,
                coins: Bytes)
    : (Bytes, Bytes)
  {
    var (sessionKey, macKey) := k.mixin(FinalInput(v, s, k, b, sender, ephemeral, coins));
    var encoded := Encoded(w, SealedMessage(v, s, k, b, c, ephemeral, coins));
    (encoded + s.mac(macKey, encoded), sessionKey)
  }

  /** `recv`; the version byte is not checked. */
  function Recv(v: Curve, s: Suite, k: Kdf, w: Wire, certified: CertificateKey, t: Stores, data: Bytes)
    : Result<Accepted, RecvError>
  {
    if |data| < MAC_LEN + 1 then Err(MalformedMessage)
    else
      var encoded, mac := data[..|data| - MAC_LEN], data[|data| - MAC_LEN..];
      match w.decode(encoded[1..])
      case None => Err(MalformedMessage)
      case Some(m) => RecvMessage(v, s, k, certified, t, m, encoded, mac)
  }

  function RecvMessage(v: Curve, s: Suite, k: Kdf, certified: CertificateKey, t: Stores, m: Message, encoded: Bytes,
                       mac: Bytes)
    : Result<Accepted, RecvError>
  {
    if |m.ephemeral| != X3DH_KEY_LENGTH then Err(MalformedMessage)
    else if m.signedPreKeyId !in t.signedPreKeys || m.kyberPreKeyId !in t.kyberPreKeys
         || (m.preKeyId.Some? && m.preKeyId.value !in t.preKeys)
    then Err(MissingKey)
    else if !v.valid(m.ephemeral) then Err(MalformedMessage)
    else
      var signedPreKey := t.signedPreKeys[m.signedPreKeyId];
      var oneTime := if m.preKeyId.Some? then Some(t.preKeys[m.preKeyId.value]) else None;
      var shared := s.decapsulate(t.kyberPreKeys[m.kyberPreKeyId], m.ciphertext);
      if shared.None? then Err(DecapsulationFailed)
      else
        var secrets := RecvSecrets(v, t.identity, signedPreKey, oneTime, m.ephemeral, shared.value);
        var (sealingKey, chainKey) := k.sealing(oneTime.Some?, secrets);
        var plain := s.decrypt(sealingKey, m.inner);
        var content := if plain.None? then None else ParsePayload(plain.value);
        if content.None? || certified(content.value.certificate).None? then Err(InnerInvalid)
        else
          var theirs := certified(content.value.certificate).value;
          var (sessionKey, macKey) := k.mixin(chainKey + v.agreement(signedPreKey, theirs));
          if s.mac(macKey, encoded) != mac then Err(MacMismatch) else Ok(Accepted(content.value, sessionKey))
  }

  /** The bundle publishes keys that are in the stores under the same IDs. */
  predicate Published(v: Curve, s: Suite, b: Bundle, t: Stores) {
    b.identity == v.publicKey(t.identity) &&
    b.signedPreKeyId in t.signedPreKeys && b.signedPreKey == v.publicKey(t.signedPreKeys[b.signedPreKeyId]) &&
    b.kyberPreKeyId in t.kyberPreKeys && b.kyberPreKey == s.kemPublicKey(t.kyberPreKeys[b.kyberPreKeyId]) &&
    (b.oneTime.Some? ==>
     b.oneTime.value.0 in t.preKeys && b.oneTime.value.1 == v.publicKey(t.preKeys[b.oneTime.value.0]))
  }

  lemma SecretsAgree(v: Curve, s: Suite, b: Bundle, t: Stores, ephemeral: Bytes, coins: Bytes)
    requires CurveLaws(v) && SuiteLaws(s) && Published(v, s, b, t)
    ensures var oneTime := if b.oneTime.Some? then Some(t.preKeys[b.oneTime.value.0]) else None;
            var shared := s.decapsulate(t.kyberPreKeys[b.kyberPreKeyId], s.encapsulate(b.kyberPreKey, coins).1);
            shared.Some? &&
            RecvSecrets(v, t.identity, t.signedPreKeys[b.signedPreKeyId], oneTime, v.publicKey(ephemeral), shared.value)
            == SendSecrets(v, s, b, ephemeral, coins)
  {
    assert KemLaw(s, t.kyberPreKeys[b.kyberPreKeyId], coins);
    assert AgreementLaw(v, t.identity, ephemeral) && AgreementLaw(v, t.signedPreKeys[b.signedPreKeyId], ephemeral);
    assert b.oneTime.Some? ==> AgreementLaw(v, t.preKeys[b.oneTime.value.0], ephemeral);
  }

  /** What is sent parses back into its message and MAC. */
  lemma SentParses(s: Suite, w: Wire, m: Message, macKey: Bytes)
    requires SuiteLaws(s) && WireLaw(w, m)
    ensures var encoded := Encoded(w, m);
            var data := encoded + s.mac(macKey, encoded);
            |data| >= MAC_LEN + 1 && data[..|data| - MAC_LEN] == encoded
            && data[|data| - MAC_LEN..] == s.mac(macKey, encoded) &&
            w.decode(encoded[1..]) == Some(m)
  {
    assert MacLaw(s, macKey, Encoded(w, m));
    assert Encoded(w, m)[1..] == w.encode(m);
  }

  /** Two different inputs of the last derivation whose MAC keys give the message the same MAC. */
  predicate MixinCollision(s: Suite, k: Kdf, x: Bytes, y: Bytes, encoded: Bytes) {
    x != y && s.mac(k.mixin(x).1, encoded) == s.mac(k.mixin(y).1, encoded)
  }

  /**
   Receiving what was sent, decided by the certificate: accepted if and only if the certified key agrees with the signed
   pre-key to the same secret as the sender's identity key, or two explicit derivation inputs collide.
   */
  lemma RecvOfSent(v: Curve, s: Suite, k: Kdf, w: Wire, certified: CertificateKey, b: Bundle, t: Stores, sender: Bytes,
                   c: Payload, ephemeral: Bytes, coins: Bytes)
    requires CurveLaws(v) && SuiteLaws(s) && Published(v, s, b, t) && certified(c.certificate).Some?
    requires WireLaw(w, SealedMessage(v, s, k, b, c, ephemeral, coins))
    ensures var (data, _) := Send(v, s, k, w, b, sender, c, ephemeral, coins);
            var encoded := Encoded(w, SealedMessage(v, s, k, b, c, ephemeral, coins));
            var chainKey := k.sealing(b.oneTime.Some?, SendSecrets(v, s, b, ephemeral, coins)).1;
            var agreed := v.agreement(t.signedPreKeys[b.signedPreKeyId], certified(c.certificate).value);
            Recv(v, s, k, w, certified, t, data)
            == if agreed == v.agreement(sender, b.signedPreKey)
                  || MixinCollision(s, k, chainKey + agreed, FinalInput(v, s, k, b, sender, ephemeral, coins), encoded)
               then Ok(Accepted(c.(hint := OneByteHint(c.hint)), k.mixin(chainKey + agreed).0)) else Err(MacMismatch)
  {
    var chainKey := k.sealing(b.oneTime.Some?, SendSecrets(v, s, b, ephemeral, coins)).1;
    SentParses(s, w, SealedMessage(v, s, k, b, c, ephemeral, coins),
               k.mixin(FinalInput(v, s, k, b, sender, ephemeral, coins)).1);
    SecretsAgree(v, s, b, t, ephemeral, coins);
    assert KeyLaw(v, ephemeral);
    assert CipherLaw(s, k.sealing(b.oneTime.Some?, SendSecrets(v, s, b, ephemeral, coins)).0, EncodePayload(c));
    PayloadRoundTrip(c);
    AppendCancels(chainKey, v.agreement(t.signedPreKeys[b.signedPreKeyId], certified(c.certificate).value),
                  v.agreement(sender, b.signedPreKey));
  }

  /**
   With a certificate for the sender's identity key the receiver gets the same session key and content, with or
   without a one-time pre-key, the hint cut to one byte.
   */
  lemma RoundTrip(v: Curve, s: Suite, k: Kdf, w: Wire, certified: CertificateKey, b: Bundle, t: Stores, sender: Bytes,
                  c: Payload, ephemeral: Bytes, coins: Bytes)
    requires CurveLaws(v) && SuiteLaws(s) && Published(v, s, b, t)
             && certified(c.certificate) == Some(v.publicKey(sender))
    requires WireLaw(w, SealedMessage(v, s, k, b, c, ephemeral, coins))
    ensures var (data, sessionKey) := Send(v, s, k, w, b, sender, c, ephemeral, coins);
            Recv(v, s, k, w, certified, t, data) == Ok(Accepted(c.(hint := OneByteHint(c.hint)), sessionKey))
  {
    RecvOfSent(v, s, k, w, certified, b, t, sender, c, ephemeral, coins);
    assert AgreementLaw(v, sender, t.signedPreKeys[b.signedPreKeyId]);
  }

  /** The message as `serialize` writes it once a ciphertext was put into it: an empty one is left out. */
  function Attached(m: Message, sealedCiphertext: Bytes): Message {
    m.(sealedCiphertext := if sealedCiphertext == [] then None else Some(sealedCiphertext))
  }

  /**
   The MAC is computed in `send`, over the message without the ciphertext. Attaching one later, for any ciphertext: the
   message is accepted if and only if the ciphertext is empty or two different encodings have the same MAC.
   */
  lemma AttachedCiphertextIff(v: Curve, s: Suite, k: Kdf, w: Wire, certified: CertificateKey, b: Bundle, t: Stores,
                              sender: Bytes, c: Payload, ephemeral: Bytes, coins: Bytes, attached: Bytes)
    requires CurveLaws(v) && SuiteLaws(s) && Published(v, s, b, t)
             && certified(c.certificate) == Some(v.publicKey(sender))
    requires WireLaw(w, SealedMessage(v, s, k, b, c, ephemeral, coins))
    requires WireLaw(w, Attached(SealedMessage(v, s, k, b, c, ephemeral, coins), attached))
    ensures var m := SealedMessage(v, s, k, b, c, ephemeral, coins);
            var (sessionKey, macKey) := k.mixin(FinalInput(v, s, k, b, sender, ephemeral, coins));
            var was, whole := Encoded(w, m), Encoded(w, Attached(m, attached));
            Recv(v, s, k, w, certified, t, whole + s.mac(macKey, was))
            == if attached == [] || (whole != was && s.mac(macKey, whole) == s.mac(macKey, was))
               then Ok(Accepted(c.(hint := OneByteHint(c.hint)), sessionKey)) else Err(MacMismatch)
  {
    var m := SealedMessage(v, s, k, b, c, ephemeral, coins);
    var macKey := k.mixin(FinalInput(v, s, k, b, sender, ephemeral, coins)).1;
    var was, whole := Encoded(w, m), Encoded(w, Attached(m, attached));
    assert MacLaw(s, macKey, was);
    assert whole[1..] == w.encode(Attached(m, attached)) && was[1..] == w.encode(m);
    var data := whole + s.mac(macKey, was);
    assert data[..|data| - MAC_LEN] == whole && data[|data| - MAC_LEN..] == s.mac(macKey, was);
    SecretsAgree(v, s, b, t, ephemeral, coins);
    assert KeyLaw(v, ephemeral);
    assert CipherLaw(s, k.sealing(b.oneTime.Some?, SendSecrets(v, s, b, ephemeral, coins)).0, EncodePayload(c));
    PayloadRoundTrip(c);
    assert AgreementLaw(v, sender, t.signedPreKeys[b.signedPreKeyId]);
  }
}
