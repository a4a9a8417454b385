/**
 What the sealed handshakes bind (rust/protocol/src/sealed_ringxkem_xhmqv.rs:158-413, sealed_ringxkem_x3dh.rs:95-400 and
 spqxdh.rs:120-240): every key derivation, signature and MAC covers every field it should.
 */
module SealedLaws {
  import opened Prelude
  import opened ByteStrings
  import opened SealedRingCodec
  import opened Xhmqv
  import opened SealedRing
  import Spqxdh

  /** Fields that are present together and not empty, of one length. */
  predicate SameKey(a: Option<Bytes>, b: Option<Bytes>) {
    && (a.Some? ==> |a.value| > 0) && (b.Some? ==> |b.value| > 0)
    && (a.Some? && b.Some? ==> |a.value| == |b.value|)
  }

  /** The inputs of the first derivation of the XHMQV handshake. */
  datatype XhmqvInputs = XhmqvInputs(
    ss1: Bytes, ss2: Bytes, ss3: Bytes, identity: Point, signedPreKey: Point, oneTime: Option<Point>,
    ephemeral: Bytes, pqIdentity: Bytes, pqSigned: Bytes, falconVk: Bytes, ct1: Bytes, ct2: Bytes)

  function XhmqvDerivation(i: XhmqvInputs): Bytes {
    TranscriptBytes(XhmqvTranscript(i.ss1, i.ss2, i.ss3, i.identity, i.signedPreKey, i.oneTime, i.ephemeral,
                                    i.pqIdentity, i.pqSigned, i.falconVk, i.ct1, i.ct2))
  }

  /** The derivation tells all inputs apart, once lengths are fixed, and whether a one-time pre-key was used. */
  lemma XhmqvDerivationBinds(i: XhmqvInputs, j: XhmqvInputs)
    requires |i.ss1| == |j.ss1| && |i.ss2| == |j.ss2| && |i.ss3| == |j.ss3| && |i.identity| == |j.identity|
    requires |i.signedPreKey| == |j.signedPreKey| && |i.ephemeral| == |j.ephemeral|
    requires |i.pqIdentity| == |j.pqIdentity| && |i.pqSigned| == |j.pqSigned| && |i.falconVk| == |j.falconVk|
    requires |i.ct1| == |j.ct1| && |i.ct2| == |j.ct2|
    requires SameKey(i.oneTime, j.oneTime) && XhmqvDerivation(i) == XhmqvDerivation(j)
    ensures i == j
  {
    var t := XhmqvTranscript(i.ss1, i.ss2, i.ss3, i.identity, i.signedPreKey, i.oneTime, i.ephemeral, i.pqIdentity,
                             i.pqSigned, i.falconVk, i.ct1, i.ct2);
    var u := XhmqvTranscript(j.ss1, j.ss2, j.ss3, j.identity, j.signedPreKey, j.oneTime, j.ephemeral, j.pqIdentity,
                             j.pqSigned, j.falconVk, j.ct1, j.ct2);
    assert SameShape(t, u);
    TranscriptDetermines(t, u);
    assert t.secrets[0] == u.secrets[0] && t.secrets[1] == u.secrets[1] && t.secrets[2] == u.secrets[2];
    assert t.receiver[0] == u.receiver[0] && t.receiver[1] == u.receiver[1];
    assert forall k :: 0 <= k < 6 ==> t.rest[k] == u.rest[k];
    assert t.rest[0] == i.ephemeral && t.rest[1] == i.pqIdentity && t.rest[2] == i.pqSigned;
    assert t.rest[3] == i.falconVk && t.rest[4] == i.ct1 && t.rest[5] == i.ct2;
  }

  datatype X3dhInputs = X3dhInputs(
    ss1: Bytes, ss2: Bytes, identitySecret: Bytes, signedSecret: Bytes, oneTimeSecret: Bytes, identity: Bytes,
    signedPreKey: Bytes, oneTime: Option<Bytes>, ephemeral: Bytes, pqIdentity: Bytes, pqSigned: Bytes, falconVk: Bytes,
    ct1: Bytes, ct2: Bytes)

  function X3dhDerivation(i: X3dhInputs): Bytes {
    TranscriptBytes(X3dhTranscript(i.ss1, i.ss2, i.identitySecret, i.signedSecret, i.oneTimeSecret, i.identity,
                                   i.signedPreKey, i.oneTime, i.ephemeral, i.pqIdentity, i.pqSigned, i.falconVk, i.ct1,
                                   i.ct2))
  }

  /** The same for the X3DH variant, whose one-time agreement is present exactly with its key. */
  lemma X3dhDerivationBinds(i: X3dhInputs, j: X3dhInputs)
    requires |i.ss1| == |j.ss1| && |i.ss2| == |j.ss2| && |i.identitySecret| == |j.identitySecret|
    requires |i.signedSecret| == |j.signedSecret| && |i.identity| == |j.identity|
    requires |i.signedPreKey| == |j.signedPreKey| && |i.ephemeral| == |j.ephemeral|
    requires |i.pqIdentity| == |j.pqIdentity| && |i.pqSigned| == |j.pqSigned| && |i.falconVk| == |j.falconVk|
    requires |i.ct1| == |j.ct1| && |i.ct2| == |j.ct2|
    requires SameKey(i.oneTime, j.oneTime)
    requires i.oneTime.None? ==> i.oneTimeSecret == []
    requires j.oneTime.None? ==> j.oneTimeSecret == []
    requires i.oneTime.Some? && j.oneTime.Some? ==> |i.oneTimeSecret| == |j.oneTimeSecret|
    requires X3dhDerivation(i) == X3dhDerivation(j)
    ensures i == j
  {
    var t := X3dhTranscript(i.ss1, i.ss2, i.identitySecret, i.signedSecret, i.oneTimeSecret, i.identity, i.signedPreKey,
                            i.oneTime, i.ephemeral, i.pqIdentity, i.pqSigned, i.falconVk, i.ct1, i.ct2);
    var u := X3dhTranscript(j.ss1, j.ss2, j.identitySecret, j.signedSecret, j.oneTimeSecret, j.identity, j.signedPreKey,
                            j.oneTime, j.ephemeral, j.pqIdentity, j.pqSigned, j.falconVk, j.ct1, j.ct2);
    assert SameShape(t, u);
    TranscriptDetermines(t, u);
    assert t.secrets[0] == u.secrets[0] && t.secrets[1] == u.secrets[1] && t.secrets[2] == u.secrets[2]
           && t.secrets[3] == u.secrets[3];
    assert t.receiver[0] == u.receiver[0] && t.receiver[1] == u.receiver[1];
    assert forall k :: 0 <= k < 6 ==> t.rest[k] == u.rest[k];
    assert t.rest[0] == i.ephemeral && t.rest[1] == i.pqIdentity && t.rest[2] == i.pqSigned;
    assert t.rest[3] == i.falconVk && t.rest[4] == i.ct1 && t.rest[5] == i.ct2;
  }

  // ---------------------------------------------------------------------------------------------
  // Inner messages

  /** A type byte stands for one type, and a hint byte is written as it was read. */
  lemma BytesReadBack(t: byte, h: byte)
    ensures TypeOf(t).Some? ==> TypeByte(TypeOf(t).value) == t
    ensures HintToU32(HintFromU32(h)) == h
  {
  }

  lemma TailCanonical(b: Bytes) returns (rest: Bytes)
    requires ParseTail(b).Some?
    ensures var (vks, sigma, certificate) := ParseTail(b).value;
            && b == Field(vks, 2) + (Field(sigma, 2) + Field(certificate, 4)) + rest
            && |vks| < U16_LIMIT && |sigma| < U16_LIMIT && |certificate| < U32_LIMIT
  {
    Powers();
    var vks := TakeField(b, 2).value;
    var sigma := TakeField(vks.1, 2).value;
    var certificate := TakeField(sigma.1, 4).value;
    TakeFieldInverse(b, 2);
    TakeFieldInverse(vks.1, 2);
    TakeFieldInverse(sigma.1, 4);
    rest := certificate.1;
    assert b == Field(vks.0, 2) + (Field(sigma.0, 2) + (Field(certificate.0, 4) + rest));
  }

  /**
   An inner message is accepted only as the serialization of what is reported, followed by ignored bytes, with an
   identity key and a certificate that decode; one too short for its fixed fields is refused as such.
   */
  lemma InnerCanonical(f: Format, d: Decoders, b: Bytes)
    ensures |b| < f.keyLength + 14 ==> ParseInner(f, d, b) == Err(TooShort)
    ensures var r := ParseInner(f, d, b);
            r.Ok? ==> && InnerFits(f, r.value) && d.key(r.value.identity) && d.certificate(r.value.certificate)
                      && EncodeInner(r.value) <= b
  {
    if ParseInner(f, d, b).Ok? {
      ParsedReads(f, d, b);
      var rest := ReadsCanonical(f, b, ParseInner(f, d, b).value);
    }
  }

  lemma ParsedReads(f: Format, d: Decoders, b: Bytes)
    requires ParseInner(f, d, b).Ok?
    ensures var m := ParseInner(f, d, b).value;
            ReadsAs(f, b, m) && d.key(m.identity) && d.certificate(m.certificate)
  {
  }

  lemma ReadsCanonical(f: Format, b: Bytes, m: Inner) returns (rest: Bytes)
    requires ReadsAs(f, b, m)
    ensures InnerFits(f, m) && b == EncodeInner(m) + rest
  {
    var k := 6 + f.keyLength;
    rest := TailCanonical(b[k..]);
    HeadCanonical(b, m);
    Layout(b, k, m, rest);
  }

  /** The registration ID, type and hint that an inner message starts with. */
  lemma HeadCanonical(b: Bytes, m: Inner)
    requires |b| >= 6 && FromLittleEndian(b[..4]) == m.registrationId
    requires TypeOf(b[4]) == Some(m.messageType) && HintFromU32(b[5]) == m.hint
    ensures b[..6] == LittleEndian(m.registrationId, 4) + [TypeByte(m.messageType)] + [HintToU32(m.hint) % 0x100]
  {
    LittleEndianInverse(b[..4]);
    BytesReadBack(b[4], b[5]);
    assert b[..6] == b[..4] + [b[4]] + [b[5]];
  }

  lemma Layout(b: Bytes, k: nat, m: Inner, rest: Bytes)
    requires 6 <= k <= |b| && b[6..k] == m.identity && b[k..] == EncodeTail(m) + rest
    requires b[..6] == LittleEndian(m.registrationId, 4) + [TypeByte(m.messageType)] + [HintToU32(m.hint) % 0x100]
    ensures b == EncodeInner(m) + rest
  {
    assert b == b[..6] + b[6..k] + b[k..];
  }

  // ---------------------------------------------------------------------------------------------
  // Inputs of XHMQV

  lemma SameSplit(a: Bytes, x: Bytes, b: Bytes, y: Bytes)
    requires a + x == b + y && |a| == |b|
    ensures a == b && x == y
  {
    assert (a + x)[..|a|] == a && (b + y)[..|b|] == b && (a + x)[|a|..] == x && (b + y)[|b|..] == y;
  }

  /** What a derivation over the receiver's keys covers: all of them, and whether there is a one-time pre-key. */
  lemma ReceiverBytesBind(identity: Point, signedPreKey: Point, oneTime: Option<Point>, identity': Point,
                          signedPreKey': Point, oneTime': Option<Point>)
    requires |identity| == |identity'| && |signedPreKey| == |signedPreKey'| && SameKey(oneTime, oneTime')
    requires ReceiverBytes(identity, signedPreKey, oneTime) == ReceiverBytes(identity', signedPreKey', oneTime')
    ensures identity == identity' && signedPreKey == signedPreKey' && oneTime == oneTime'
  {
    var one := if oneTime.Some? then oneTime.value else [];
    var one' := if oneTime'.Some? then oneTime'.value else [];
    SameSplit(identity + signedPreKey, one, identity' + signedPreKey', one');
    SameSplit(identity, signedPreKey, identity', signedPreKey');
  }

  lemma SenderBytesBind(identity: Point, ephemeral: Point, identity': Point, ephemeral': Point)
    requires |identity| == |identity'| && SenderBytes(identity, ephemeral) == SenderBytes(identity', ephemeral')
    ensures identity == identity' && ephemeral == ephemeral'
  {
    SameSplit(identity, ephemeral, identity', ephemeral');
  }

  /** The sealing key of a stand-alone message covers the secret and all public keys of receiver and ephemeral. */
  lemma SealingInputBinds(secret: Bytes, identity: Point, signedPreKey: Point, oneTime: Option<Point>,
                          ephemeral: Point, secret': Bytes, identity': Point, signedPreKey': Point,
                          oneTime': Option<Point>, ephemeral': Point)
    requires |secret| == |secret'| && |ephemeral| == |ephemeral'|
    requires |identity| == |identity'| && |signedPreKey| == |signedPreKey'| && SameKey(oneTime, oneTime')
    requires SealingInput(secret, identity, signedPreKey, oneTime, ephemeral)
          == SealingInput(secret', identity', signedPreKey', oneTime', ephemeral')
    ensures secret == secret' && ephemeral == ephemeral'
    ensures identity == identity' && signedPreKey == signedPreKey' && oneTime == oneTime'
  {
    var receiver := ReceiverBytes(identity, signedPreKey, oneTime);
    var receiver' := ReceiverBytes(identity', signedPreKey', oneTime');
    assert |secret + receiver| == |secret' + receiver'|;
    SameSplit(secret + receiver, ephemeral, secret' + receiver', ephemeral');
    SameSplit(secret, receiver, secret', receiver');
    ReceiverBytesBind(identity, signedPreKey, oneTime, identity', signedPreKey', oneTime');
  }

  /** Its session key covers both secrets, the sender's identity and the ephemeral key. */
  lemma SessionInputBinds(s1: Bytes, s2: Bytes, sender: Point, ephemeral: Point, s1': Bytes, s2': Bytes,
                          sender': Point, ephemeral': Point)
    requires |s1| == |s1'| && |s2| == |s2'| && |sender| == |sender'|
    requires SessionInput(s1, s2, sender, ephemeral) == SessionInput(s1', s2', sender', ephemeral')
    ensures s1 == s1' && s2 == s2' && sender == sender' && ephemeral == ephemeral'
  {
    SameSplit(s1 + s2, SenderBytes(sender, ephemeral), s1' + s2', SenderBytes(sender', ephemeral'));
    SameSplit(s1, s2, s1', s2');
    SenderBytesBind(sender, ephemeral, sender', ephemeral');
  }

  /** A message is accepted only with points of the group as ephemeral key and as the sender's identity. */
  lemma ReceivedPointsAreValid(g: Group, hash: Hash, k: Kdf, m: Message, identity: int, signedPreKey: int,
                               oneTime: Option<int>)
    requires g.order > 0 && MessageReceive(g, hash, k, m, identity, signedPreKey, oneTime).Some?
    ensures var sender := MessageReceive(g, hash, k, m, identity, signedPreKey, oneTime).value.1;
            g.valid(m.ephemeral) && g.valid(sender) && |sender| == PUBLIC_KEY_LENGTH
  {
  }

  // ---------------------------------------------------------------------------------------------
  // Signatures and MACs of the ring handshakes

  predicate HashCollision(s: Suite, x: Bytes, y: Bytes) {
    x != y && s.hash(x) == s.hash(y)
  }

  /** What the sender's Falcon key signs binds both Falcon keys, both post-quantum keys and both ciphertexts. */
  lemma SignatureBinds(s: Suite, a: seq<Bytes>, b: seq<Bytes>)
    requires |a| == |b| == 6 && SameLengths(a, b)
    requires PqTranscript(s, a[0], a[1], a[2], a[3], a[4], a[5]) == PqTranscript(s, b[0], b[1], b[2], b[3], b[4], b[5])
    ensures a == b || HashCollision(s, Flatten(a), Flatten(b))
  {
    FlattenSix(a);
    FlattenSix(b);
    if Flatten(a) == Flatten(b) {
      FlattenInjective(a, b);
    }
  }

  lemma FlattenSix(a: seq<Bytes>)
    requires |a| == 6
    ensures Flatten(a) == a[0] + a[1] + a[2] + a[3] + a[4] + a[5]
  {
    assert a == [a[0]] + [a[1]] + [a[2]] + [a[3]] + [a[4]] + [a[5]];
    FlattenSnoc([a[0]] + [a[1]] + [a[2]] + [a[3]] + [a[4]], a[5]);
    FlattenSnoc([a[0]] + [a[1]] + [a[2]] + [a[3]], a[4]);
    FlattenSnoc([a[0]] + [a[1]] + [a[2]], a[3]);
    FlattenSnoc([a[0]] + [a[1]], a[2]);
    FlattenSnoc([a[0]], a[1]);
    FlattenOne(a[0]);
  }

  /** Two accepted messages with one MAC under one final input are the same string, or their MACs collide. */
  lemma MacCoversMessage(s: Suite, p: ParsedOuter, q: ParsedOuter, inner: Inner, inner': Inner, secrets: PqSecrets,
                         finalInput: Bytes)
    requires Conclude(s, p, inner, secrets, finalInput).Ok? && Conclude(s, q, inner', secrets, finalInput).Ok?
    requires p.mac == q.mac
    ensures s.mac(s.finalKeys(finalInput).1, p.encoded) == s.mac(s.finalKeys(finalInput).1, q.encoded)
  {
  }

  /** What is accepted was signed by the key in the message, over this receiver's keys and these ciphertexts. */
  lemma AcceptedIsSigned(s: Suite, p: ParsedOuter, inner: Inner, secrets: PqSecrets, finalInput: Bytes)
    requires Conclude(s, p, inner, secrets, finalInput).Ok?
    ensures s.verify(inner.vks, s.hash(secrets.falconVk + inner.vks + s.kemPublicKey(secrets.identity)
                                       + s.kemPublicKey(secrets.signedPreKey) + p.message.ct1 + p.message.ct2),
                     inner.sigma)
  {
  }

  /** A bundle is used only if both of its signatures are valid. */
  lemma UnsignedBundlesAreRefused(g: Group, hash: Hash, v: Curve, s: Suite, b: XhmqvBundle, x: X3dhBundle, sender: int,
                                  secret: Bytes, c: Content, r: Coins, q: X3dhCoins)
    requires g.order > 0
    ensures XhmqvSeal(g, hash, s, b, sender, c, r).Ok?
       <==> b.signatureValid && s.verify(b.pq.falconVk, b.pq.signedPreKey, b.pq.signature)
    ensures X3dhSeal(v, s, x, secret, c, q).Ok?
       <==> x.signatureValid && s.verify(x.pq.falconVk, x.pq.signedPreKey, x.pq.signature)
  {
  }

  /** The secrets of sealed PQXDH tell all agreements apart, once lengths are fixed. */
  lemma SpqxdhSecretsBind(v: Curve, s: Suite, b: Spqxdh.Bundle, e: Bytes, coins: Bytes, b': Spqxdh.Bundle, e': Bytes,
                          coins': Bytes)
    requires b.oneTime.Some? <==> b'.oneTime.Some?
    requires |v.agreement(e, b.identity)| == |v.agreement(e', b'.identity)|
    requires |v.agreement(e, b.signedPreKey)| == |v.agreement(e', b'.signedPreKey)|
    requires b.oneTime.Some? ==> |v.agreement(e, b.oneTime.value.1)| == |v.agreement(e', b'.oneTime.value.1)|
    requires Spqxdh.SendSecrets(v, s, b, e, coins) == Spqxdh.SendSecrets(v, s, b', e', coins')
    ensures v.agreement(e, b.identity) == v.agreement(e', b'.identity)
    ensures v.agreement(e, b.signedPreKey) == v.agreement(e', b'.signedPreKey)
    ensures b.oneTime.Some? ==> v.agreement(e, b.oneTime.value.1) == v.agreement(e', b'.oneTime.value.1)
    ensures s.encapsulate(b.kyberPreKey, coins).0 == s.encapsulate(b'.kyberPreKey, coins').0
  {
    var x, y := Spqxdh.SendSecrets(v, s, b, e, coins), Spqxdh.SendSecrets(v, s, b', e', coins');
    var one := if b.oneTime.Some? then v.agreement(e, b.oneTime.value.1) else [];
    var one' := if b'.oneTime.Some? then v.agreement(e', b'.oneTime.value.1) else [];
    FourParts(v.agreement(e, b.identity), v.agreement(e, b.signedPreKey), one, s.encapsulate(b.kyberPreKey, coins).0,
              x);
    FourParts(v.agreement(e', b'.identity), v.agreement(e', b'.signedPreKey), one',
              s.encapsulate(b'.kyberPreKey, coins').0, y);
  }

  lemma FourParts(a: Bytes, b: Bytes, c: Bytes, d: Bytes, whole: Bytes)
    requires whole == a + b + c + d
    ensures |whole| == |a| + |b| + |c| + |d| && whole[..|a|] == a && whole[|a|..|a| + |b|] == b
    ensures whole[|a| + |b|..|a| + |b| + |c|] == c && whole[|a| + |b| + |c|..] == d
  {
  }
}
