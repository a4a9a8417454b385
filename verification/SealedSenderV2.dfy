/**
 The key layer of Sealed Sender v2 (rust/protocol/src/sealed_sender.rs:1020-1145 and 1911-1962): a message key
 masked for each recipient by a Diffie-Hellman agreement, and a tag that binds the sender's identity key.

 The primitives are the fields of `Suite`; every statement is for all suites that obey `Laws`.
 */
module SealedSenderV2 {
  import opened Prelude
  import opened ByteStrings
  import opened SealedSenderWire

  datatype Purpose = EphemeralKey | CipherKey | MessageKeyMask | AuthenticationTag

  datatype Suite = Suite(
    publicKey: Bytes -> Bytes,
    agreement: (Bytes, Bytes) -> Bytes,
    derive: (Purpose, Bytes) -> Bytes,
    encrypt: (Bytes, Bytes) -> Bytes,
    decrypt: (Bytes, Bytes) -> Option<Bytes>)

  const MESSAGE_KEY_LEN := 32
  const AUTH_TAG_LEN := 16

  /** Key agreement commutes, the cipher inverts, and derived values have their fixed lengths. */
  ghost predicate Laws(s: Suite) {
    (forall a, b :: s.agreement(a, s.publicKey(b)) == s.agreement(b, s.publicKey(a))) &&
    (forall k, p :: s.decrypt(k, s.encrypt(k, p)) == Some(p)) &&
    (forall a :: |s.publicKey(a)| == PUBLIC_KEY_LEN) &&
    (forall x :: |s.derive(MessageKeyMask, x)| == MESSAGE_KEY_LEN && |s.derive(AuthenticationTag, x)| == AUTH_TAG_LEN)
  }

  // ---------------------------------------------------------------------------------------------
  // Key functions

  datatype Direction = Sending | Receiving

  /** A serialized public key carries a type byte. */
  function SerializeKey(key: Bytes): Bytes {
    [0x05] + key
  }

  function AgreementInput(s: Suite, ours: Bytes, theirKey: Bytes, direction: Direction): Bytes {
    var own, their := SerializeKey(s.publicKey(ours)), SerializeKey(theirKey);
    s.agreement(ours, theirKey) + (if direction.Sending? then own + their else their + own)
  }

  /** `apply_agreement_xor` */
  function ApplyAgreementXor(s: Suite, ours: Bytes, theirKey: Bytes, direction: Direction, input: Bytes): Bytes {
    Xor(s.derive(MessageKeyMask, AgreementInput(s, ours, theirKey, direction)), input)
  }

  function TagInput(s: Suite, ours: Bytes, theirKey: Bytes, direction: Direction, ephemeral: Bytes, c: Bytes): Bytes {
    var own, their := SerializeKey(s.publicKey(ours)), SerializeKey(theirKey);
    s.agreement(ours, theirKey) + SerializeKey(ephemeral) + c
        + (if direction.Sending? then own + their else their + own)
  }

  /** `compute_authentication_tag` */
  function Tag(s: Suite, ours: Bytes, theirKey: Bytes, direction: Direction, ephemeral: Bytes, c: Bytes): Bytes {
    s.derive(AuthenticationTag, TagInput(s, ours, theirKey, direction, ephemeral, c))
  }

  /** The receiving direction with the keys swapped inverts the sending direction. */
  lemma AgreementXorInverts(s: Suite, a: Bytes, b: Bytes, m: Bytes)
    requires Laws(s) && |m| == MESSAGE_KEY_LEN
    ensures var c := ApplyAgreementXor(s, a, s.publicKey(b), Sending, m);
            |c| == MESSAGE_KEY_LEN && ApplyAgreementXor(s, b, s.publicKey(a), Receiving, c) == m
  {
    var mask := s.derive(MessageKeyMask, AgreementInput(s, a, s.publicKey(b), Sending));
    assert AgreementInput(s, a, s.publicKey(b), Sending) == AgreementInput(s, b, s.publicKey(a), Receiving);
    XorInvolutive(mask, m);
  }

  /**
   The tag inputs of a sender `a` and of a recipient `b` who believes the sender's key is `claimed` are equal exactly
   when `claimed` is the sender's key.
   */
  lemma TagInputsAgreeIff(s: Suite, a: Bytes, b: Bytes, claimed: Bytes, ephemeral: Bytes, c: Bytes)
    requires Laws(s) && |claimed| == PUBLIC_KEY_LEN
    ensures TagInput(s, a, s.publicKey(b), Sending, ephemeral, c) == TagInput(s, b, claimed, Receiving, ephemeral, c)
       <==> claimed == s.publicKey(a)
  {
    var sent := TagInput(s, a, s.publicKey(b), Sending, ephemeral, c);
    var got := TagInput(s, b, claimed, Receiving, ephemeral, c);
    var tail := SerializeKey(s.publicKey(b));
    LastKey(s.agreement(a, s.publicKey(b)) + SerializeKey(ephemeral) + c, s.publicKey(a), tail, sent);
    LastKey(s.agreement(b, claimed) + SerializeKey(ephemeral) + c, claimed, tail, got);
  }

  /** The key before a tail of known length can be read off. */
  lemma LastKey(front: Bytes, key: Bytes, tail: Bytes, whole: Bytes)
    requires |key| == PUBLIC_KEY_LEN && whole == front + (SerializeKey(key) + tail)
    ensures |whole| >= |tail| + PUBLIC_KEY_LEN
    ensures whole[|whole| - |tail| - PUBLIC_KEY_LEN..|whole| - |tail|] == key
  {
    assert whole == (front + [0x05]) + key + tail;
  }

  // ---------------------------------------------------------------------------------------------
  // Sealing and opening

  /** What the recipient learns: the key in the sender's certificate, and the rest of the content. */
  datatype Content = Content(senderKey: Bytes, body: Bytes)

  type Parser = Bytes -> Option<Content>

  datatype OpenError =
    | Malformed | Unsupported(version: nat) | EphemeralMismatch | BadCiphertext | BadContent | TagMismatch

  function Ephemeral(s: Suite, m: Bytes): Bytes {
    s.derive(EphemeralKey, m)
  }

  /** The per-recipient bytes C and AT. */
  function KeyMaterial(s: Suite, m: Bytes, sender: Bytes, theirKey: Bytes): Bytes {
    var e := Ephemeral(s, m);
    var c := ApplyAgreementXor(s, e, theirKey, Sending, m);
    c + Tag(s, sender, theirKey, Sending, s.publicKey(e), c)
  }

  /** The bytes shared by all recipients: E and the ciphertext. */
  function SharedBytes(s: Suite, m: Bytes, usmc: Bytes): Bytes {
    s.publicKey(Ephemeral(s, m)) + s.encrypt(s.derive(CipherKey, m), usmc)
  }

  /** `sealed_sender_decrypt_to_usmc` for the version 2 format. */
  function Open(s: Suite, parse: Parser, ours: Bytes, data: Bytes): Result<Content, OpenError> {
    if data == [] then Err(Malformed)
    else if data[0] / 16 != 2 then Err(Unsupported(data[0] / 16))
    else if |data| < 1 + KEY_MATERIAL_LEN + PUBLIC_KEY_LEN then Err(Malformed)
    else
      var c, tag, ephemeral, ciphertext := data[1..33], data[33..49], data[49..81], data[81..];
      var m := ApplyAgreementXor(s, ours, ephemeral, Receiving, c);
      if s.publicKey(Ephemeral(s, m)) != ephemeral then Err(EphemeralMismatch)
      else
        var plain := s.decrypt(s.derive(CipherKey, m), ciphertext);
        if plain.None? then Err(BadCiphertext)
        else
          var content := parse(plain.value);
          if content.None? then Err(BadContent)
          else if Tag(s, ours, content.value.senderKey, Receiving, ephemeral, c) != tag then Err(TagMismatch)
          else Ok(content.value)
  }

  lemma MessageLayout(c: Bytes, tag: Bytes, ephemeral: Bytes, rest: Bytes)
    requires |c| == MESSAGE_KEY_LEN && |tag| == AUTH_TAG_LEN && |ephemeral| == PUBLIC_KEY_LEN
    ensures var data := [UUID_FULL_VERSION] + (c + tag) + (ephemeral + rest);
            data[0] == UUID_FULL_VERSION && |data| >= 81 &&
            data[1..33] == c && data[33..49] == tag && data[49..81] == ephemeral && data[81..] == rest
  {
    var data := [UUID_FULL_VERSION] + (c + tag) + (ephemeral + rest);
    assert data == [UUID_FULL_VERSION] + c + tag + ephemeral + rest;
  }

  /**
   The message for recipient `b` opens to the original content exactly when the tag for the key in its certificate is
   the tag the sender wrote; nothing else can go wrong.
   */
  lemma OpensIffTagsAgree(s: Suite, parse: Parser, m: Bytes, sender: Bytes, b: Bytes, usmc: Bytes, content: Content)
    requires Laws(s) && |m| == MESSAGE_KEY_LEN && parse(usmc) == Some(content)
    ensures var data := [UUID_FULL_VERSION] + KeyMaterial(s, m, sender, s.publicKey(b)) + SharedBytes(s, m, usmc);
            var e := s.publicKey(Ephemeral(s, m));
            var c := ApplyAgreementXor(s, Ephemeral(s, m), s.publicKey(b), Sending, m);
            Open(s, parse, b, data)
            == if Tag(s, b, content.senderKey, Receiving, e, c) == Tag(s, sender, s.publicKey(b), Sending, e, c)
               then Ok(content) else Err(TagMismatch)
  {
    var e := Ephemeral(s, m);
    var c := ApplyAgreementXor(s, e, s.publicKey(b), Sending, m);
    var tag := Tag(s, sender, s.publicKey(b), Sending, s.publicKey(e), c);
    AgreementXorInverts(s, e, b, m);
    MessageLayout(c, tag, s.publicKey(e), s.encrypt(s.derive(CipherKey, m), usmc));
  }

  /** Two different inputs with the same tag. */
  predicate TagCollision(s: Suite, x: Bytes, y: Bytes) {
    x != y && s.derive(AuthenticationTag, x) == s.derive(AuthenticationTag, y)
  }

  /**
   With the sender's own identity key in the certificate the message opens to its content. With any other key it is
   refused, unless the two tag inputs collide.
   */
  lemma OpensIffCertificateMatches(s: Suite, parse: Parser, m: Bytes, sender: Bytes, b: Bytes, usmc: Bytes,
                                   content: Content)
    requires Laws(s) && |m| == MESSAGE_KEY_LEN && parse(usmc) == Some(content) && |content.senderKey| == PUBLIC_KEY_LEN
    ensures var data := [UUID_FULL_VERSION] + KeyMaterial(s, m, sender, s.publicKey(b)) + SharedBytes(s, m, usmc);
            var e := s.publicKey(Ephemeral(s, m));
            var c := ApplyAgreementXor(s, Ephemeral(s, m), s.publicKey(b), Sending, m);
            Open(s, parse, b, data)
            == if content.senderKey == s.publicKey(sender)
                  || TagCollision(s, TagInput(s, sender, s.publicKey(b), Sending, e, c),
                                  TagInput(s, b, content.senderKey, Receiving, e, c))
               then Ok(content) else Err(TagMismatch)
  {
    var e := s.publicKey(Ephemeral(s, m));
    var c := ApplyAgreementXor(s, Ephemeral(s, m), s.publicKey(b), Sending, m);
    OpensIffTagsAgree(s, parse, m, sender, b, usmc, content);
    TagInputsAgreeIff(s, sender, b, content.senderKey, e, c);
  }

  // ---------------------------------------------------------------------------------------------
  // Opening with another key

  /** Two different agreement inputs with the same mask. */
  predicate MaskCollision(s: Suite, x: Bytes, y: Bytes) {
    x != y && s.derive(MessageKeyMask, x) == s.derive(MessageKeyMask, y)
  }

  /** Two different message keys with the same ephemeral public key. */
  predicate EphemeralCollision(s: Suite, m: Bytes, m': Bytes) {
    m != m' && s.publicKey(Ephemeral(s, m)) == s.publicKey(Ephemeral(s, m'))
  }

  /** Different keys at the end make different strings. */
  lemma DifferentTails(x: Bytes, y: Bytes, key: Bytes, key': Bytes)
    requires |key| == |key'| && key != key'
    ensures x + SerializeKey(key) != y + SerializeKey(key')
  {
    var a, b := x + SerializeKey(key), y + SerializeKey(key');
    assert a[|a| - |key|..] == key && b[|b| - |key'|..] == key';
  }

  /** Only a mask collision recovers the message key with another recipient's private key. */
  lemma OtherKeyUnmasks(s: Suite, m: Bytes, theirKey: Bytes, b: Bytes)
    requires Laws(s) && |m| == MESSAGE_KEY_LEN && |theirKey| == PUBLIC_KEY_LEN && s.publicKey(b) != theirKey
    requires var e := Ephemeral(s, m);
             ApplyAgreementXor(s, b, s.publicKey(e), Receiving, ApplyAgreementXor(s, e, theirKey, Sending, m)) == m
    ensures MaskCollision(s, AgreementInput(s, Ephemeral(s, m), theirKey, Sending),
                          AgreementInput(s, b, s.publicKey(Ephemeral(s, m)), Receiving))
  {
    var e := Ephemeral(s, m);
    var sent, got := AgreementInput(s, e, theirKey, Sending), AgreementInput(s, b, s.publicKey(e), Receiving);
    var mask, mask' := s.derive(MessageKeyMask, sent), s.derive(MessageKeyMask, got);
    XorInvolutive(mask, m);
    XorCancel(mask, mask', Xor(mask, m));
    var front := s.agreement(e, theirKey) + SerializeKey(s.publicKey(e));
    var front' := s.agreement(b, s.publicKey(e)) + SerializeKey(s.publicKey(e));
    assert sent == front + SerializeKey(theirKey) && got == front' + SerializeKey(s.publicKey(b));
    DifferentTails(front, front', theirKey, s.publicKey(b));
  }

  /** The tags written for one recipient and checked by another come from different inputs. */
  lemma OtherKeyTags(s: Suite, sender: Bytes, theirKey: Bytes, b: Bytes, claimed: Bytes, ephemeral: Bytes, c: Bytes)
    requires Laws(s) && |theirKey| == PUBLIC_KEY_LEN && s.publicKey(b) != theirKey
    ensures TagInput(s, sender, theirKey, Sending, ephemeral, c) != TagInput(s, b, claimed, Receiving, ephemeral, c)
  {
    var head := s.agreement(sender, theirKey) + SerializeKey(ephemeral) + c;
    var head' := s.agreement(b, claimed) + SerializeKey(ephemeral) + c;
    var front, front' := head + SerializeKey(s.publicKey(sender)), head' + SerializeKey(claimed);
    assert TagInput(s, sender, theirKey, Sending, ephemeral, c) == front + SerializeKey(theirKey);
    assert TagInput(s, b, claimed, Receiving, ephemeral, c) == front' + SerializeKey(s.publicKey(b));
    DifferentTails(front, front', theirKey, s.publicKey(b));
  }

  /**
   A message sealed for one key is refused by the holder `b` of another, unless two message keys share an ephemeral key,
   or both the masks and the tags of the two recipients collide.
   */
  lemma OtherKeyIsRefused(s: Suite, parse: Parser, m: Bytes, sender: Bytes, theirKey: Bytes, b: Bytes, usmc: Bytes,
                          content: Content)
    requires Laws(s) && |m| == MESSAGE_KEY_LEN && |theirKey| == PUBLIC_KEY_LEN && s.publicKey(b) != theirKey
    requires parse(usmc) == Some(content)
    requires Open(s, parse, b, [UUID_FULL_VERSION] + KeyMaterial(s, m, sender, theirKey) + SharedBytes(s, m, usmc)).Ok?
    ensures var e := Ephemeral(s, m);
            var eph, c := s.publicKey(e), ApplyAgreementXor(s, e, theirKey, Sending, m);
            || EphemeralCollision(s, m, ApplyAgreementXor(s, b, eph, Receiving, c))
            || (MaskCollision(s, AgreementInput(s, e, theirKey, Sending), AgreementInput(s, b, eph, Receiving)) &&
                TagCollision(s, TagInput(s, sender, theirKey, Sending, eph, c),
                             TagInput(s, b, content.senderKey, Receiving, eph, c)))
  {
    var e := Ephemeral(s, m);
    var eph, c := s.publicKey(e), ApplyAgreementXor(s, e, theirKey, Sending, m);
    MessageLayout(c, Tag(s, sender, theirKey, Sending, eph, c), eph, s.encrypt(s.derive(CipherKey, m), usmc));
    if ApplyAgreementXor(s, b, eph, Receiving, c) == m {
      OtherKeyUnmasks(s, m, theirKey, b);
      OtherKeyTags(s, sender, theirKey, b, content.senderKey, eph, c);
    }
  }
}
