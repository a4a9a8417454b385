/**
 The sealed ring handshakes end to end (rust/protocol/src/sealed_ringxkem_xhmqv.rs:158-535 and
 sealed_ringxkem_x3dh.rs:95-500): key derivation from a transcript, sending and receiving.

 The primitives are the fields of `Suite`, of the XHMQV group and of `Curve`; every statement is for all of them that
 obey their laws.
 */
module SealedRing {
  import opened Prelude
  import opened ByteStrings
  import opened SealedRingCodec
  import opened Xhmqv

  datatype Suite = Suite(
    kemPublicKey: Bytes -> Bytes,
    encapsulate: (Bytes, Bytes) -> (Bytes, Bytes),   // public key and coins to secret and ciphertext
    decapsulate: (Bytes, Bytes) -> Option<Bytes>,
    sign: (Bytes, Bytes) -> Bytes,
    verify: (Bytes, Bytes, Bytes) -> bool,
    sealingPhase: Bytes -> (Bytes, Bytes),           // transcript to CK and Kseal
    finalKeys: Bytes -> (Bytes, Bytes),              // final input to session key and MAC key
    mac: (Bytes, Bytes) -> Bytes,
    hash: Bytes -> Bytes,
    encrypt: (Bytes, Bytes) -> Bytes,
    decrypt: (Bytes, Bytes) -> Option<Bytes>)

  predicate KemLaw(s: Suite, secret: Bytes, coins: Bytes) {
    var (shared, ct) := s.encapsulate(s.kemPublicKey(secret), coins);
    s.decapsulate(secret, ct) == Some(shared)
  }

  predicate CipherLaw(s: Suite, key: Bytes, plain: Bytes) {
    s.decrypt(key, s.encrypt(key, plain)) == Some(plain)
  }

  predicate MacLaw(s: Suite, key: Bytes, data: Bytes) {
    |s.mac(key, data)| == MAC_LEN
  }

  ghost predicate SuiteLaws(s: Suite) {
    (forall secret, coins :: KemLaw(s, secret, coins)) && (forall key, plain :: CipherLaw(s, key, plain)) &&
    (forall key, data :: MacLaw(s, key, data))
  }

  // ---------------------------------------------------------------------------------------------
  // Transcripts

  predicate SameLengths(xs: seq<Bytes>, ys: seq<Bytes>) {
    |xs| == |ys| && forall i :: 0 <= i < |xs| ==> |xs[i]| == |ys[i]|
  }

  /** Fields of known lengths can be read off their concatenation. */
  lemma {:induction false} FlattenInjective(xs: seq<Bytes>, ys: seq<Bytes>)
    requires SameLengths(xs, ys) && Flatten(xs) == Flatten(ys)
    ensures xs == ys
    decreases |xs|
  {
    if xs != [] {
      var x, y := xs[0] + Flatten(xs[1..]), ys[0] + Flatten(ys[1..]);
      assert xs[0] == x[..|xs[0]|] && Flatten(xs[1..]) == x[|xs[0]|..];
      assert ys[0] == y[..|ys[0]|] && Flatten(ys[1..]) == y[|ys[0]|..];
      FlattenInjective(xs[1..], ys[1..]);
      assert xs == [xs[0]] + xs[1..] && ys == [ys[0]] + ys[1..];
    }
  }

  lemma {:induction false} FlattenLength(xs: seq<Bytes>, ys: seq<Bytes>)
    requires SameLengths(xs, ys)
    ensures |Flatten(xs)| == |Flatten(ys)|
    decreases |xs|
  {
    if xs != [] {
      FlattenLength(xs[1..], ys[1..]);
    }
  }

  /** What the sealing keys depend on. `oneTimeSecret` is the extra agreement of the X3DH variant. */
  datatype Transcript = Transcript(
    secrets: seq<Bytes>, oneTimeSecret: Bytes, receiver: seq<Bytes>, oneTimeKey: Option<Bytes>, rest: seq<Bytes>)

  function OneTimeParts(t: Transcript): seq<Bytes> {
    if t.oneTimeKey.Some? then [t.oneTimeKey.value] else []
  }

  function SecretParts(t: Transcript): seq<Bytes> {
    if t.oneTimeKey.Some? then [t.oneTimeSecret] else []
  }

  function Parts(t: Transcript): seq<Bytes> {
    t.secrets + SecretParts(t) + t.receiver + OneTimeParts(t) + t.rest
  }

  function TranscriptBytes(t: Transcript): Bytes {
    Flatten(Parts(t))
  }

  /** All fields have the lengths fixed by the protocol; a one-time key is not empty. */
  predicate SameShape(t: Transcript, u: Transcript) {
    SameLengths(t.secrets, u.secrets) && SameLengths(t.receiver, u.receiver) && SameLengths(t.rest, u.rest) &&
    (t.oneTimeKey.Some? && u.oneTimeKey.Some? ==>
       |t.oneTimeKey.value| == |u.oneTimeKey.value| && |t.oneTimeSecret| == |u.oneTimeSecret|) &&
    (t.oneTimeKey.Some? ==> |t.oneTimeKey.value| > 0) && (u.oneTimeKey.Some? ==> |u.oneTimeKey.value| > 0) &&
    (t.oneTimeKey.None? ==> t.oneTimeSecret == []) && (u.oneTimeKey.None? ==> u.oneTimeSecret == [])
  }

  lemma TranscriptLength(t: Transcript)
    ensures |TranscriptBytes(t)|
         == |Flatten(t.secrets)| + |Flatten(SecretParts(t))| + |Flatten(t.receiver)| + |Flatten(OneTimeParts(t))|
                + |Flatten(t.rest)|
  {
    FlattenAppend(t.secrets + SecretParts(t) + t.receiver + OneTimeParts(t), t.rest);
    FlattenAppend(t.secrets + SecretParts(t) + t.receiver, OneTimeParts(t));
    FlattenAppend(t.secrets + SecretParts(t), t.receiver);
    FlattenAppend(t.secrets, SecretParts(t));
  }

  lemma PresenceDetermined(t: Transcript, u: Transcript)
    requires SameShape(t, u) && TranscriptBytes(t) == TranscriptBytes(u)
    ensures t.oneTimeKey.Some? <==> u.oneTimeKey.Some?
  {
    TranscriptLength(t);
    TranscriptLength(u);
    FlattenLength(t.secrets, u.secrets);
    FlattenLength(t.receiver, u.receiver);
    FlattenLength(t.rest, u.rest);
    if t.oneTimeKey.Some? {
      FlattenOne(t.oneTimeKey.value);
    }
    if u.oneTimeKey.Some? {
      FlattenOne(u.oneTimeKey.value);
    }
  }

  lemma SplitParts(a: seq<Bytes>, b: seq<Bytes>, c: seq<Bytes>, d: seq<Bytes>)
    requires a + b == c + d && |a| == |c|
    ensures a == c && b == d
  {
    assert (a + b)[..|a|] == a && (c + d)[..|c|] == c && (a + b)[|a|..] == b && (c + d)[|c|..] == d;
  }

  lemma SameShapeSameParts(t: Transcript, u: Transcript)
    requires SameShape(t, u) && (t.oneTimeKey.Some? <==> u.oneTimeKey.Some?)
    ensures SameLengths(Parts(t), Parts(u))
  {
    JoinLengths(t.secrets, SecretParts(t), u.secrets, SecretParts(u));
    JoinLengths(t.secrets + SecretParts(t), t.receiver, u.secrets + SecretParts(u), u.receiver);
    JoinLengths(t.secrets + SecretParts(t) + t.receiver, OneTimeParts(t), u.secrets + SecretParts(u) + u.receiver,
                OneTimeParts(u));
    JoinLengths(t.secrets + SecretParts(t) + t.receiver + OneTimeParts(t), t.rest,
                u.secrets + SecretParts(u) + u.receiver + OneTimeParts(u), u.rest);
  }

  lemma JoinLengths(a: seq<Bytes>, b: seq<Bytes>, c: seq<Bytes>, d: seq<Bytes>)
    requires SameLengths(a, c) && SameLengths(b, d)
    ensures SameLengths(a + b, c + d)
  {
  }

  /** With fixed field lengths the transcript determines every field and whether a one-time key was present. */
  lemma TranscriptDetermines(t: Transcript, u: Transcript)
    requires SameShape(t, u) && TranscriptBytes(t) == TranscriptBytes(u)
    ensures t == u
  {
    PresenceDetermined(t, u);
    SameShapeSameParts(t, u);
    FlattenInjective(Parts(t), Parts(u));
    SplitParts(t.secrets + SecretParts(t) + t.receiver + OneTimeParts(t), t.rest,
               u.secrets + SecretParts(u) + u.receiver + OneTimeParts(u), u.rest);
    SplitParts(t.secrets + SecretParts(t) + t.receiver, OneTimeParts(t), u.secrets + SecretParts(u) + u.receiver,
               OneTimeParts(u));
    SplitParts(t.secrets + SecretParts(t), t.receiver, u.secrets + SecretParts(u), u.receiver);
    SplitParts(t.secrets, SecretParts(t), u.secrets, SecretParts(u));
    if t.oneTimeKey.Some? {
      assert OneTimeParts(t)[0] == OneTimeParts(u)[0] && SecretParts(t)[0] == SecretParts(u)[0];
    }
  }

  // ---------------------------------------------------------------------------------------------
  // What both handshakes share

  datatype RingError = BadBundle | Malformed | BadDecapsulation | BadEphemeral | BadInner | BadMac | BadSignature

  /** The receiver's post-quantum keys, as the sender sees them. */
  datatype PqBundle = PqBundle(falconVk: Bytes, identity: Bytes, signedPreKey: Bytes, signature: Bytes)

  datatype PqSecrets = PqSecrets(identity: Bytes, signedPreKey: Bytes, falconVk: Bytes)

  datatype Content = Content(falconSk: Bytes, falconVk: Bytes, certificate: Bytes, registrationId: u32,
                             messageType: MessageType, hint: ContentHint)

  datatype Received = Received(certificate: Bytes, registrationId: u32, messageType: MessageType, hint: ContentHint,
                               sessionKey: Bytes)

  /** The hash that the sender's Falcon key signs. */
  function PqTranscript(s: Suite, receiverVk: Bytes, senderVk: Bytes, identity: Bytes, signedPreKey: Bytes, ct1: Bytes,
                        ct2: Bytes)
    : Bytes
  {
    s.hash(receiverVk + senderVk + identity + signedPreKey + ct1 + ct2)
  }

  function Signature(s: Suite, b: PqBundle, c: Content, ct1: Bytes, ct2: Bytes): Bytes {
    s.sign(c.falconSk, PqTranscript(s, b.falconVk, c.falconVk, b.identity, b.signedPreKey, ct1, ct2))
  }

  function InnerOf(c: Content, identity: Bytes, sigma: Bytes): Inner {
    Inner(c.registrationId, c.messageType, c.hint, identity, c.falconVk, sigma, c.certificate)
  }

  function Seal(s: Suite, f: Format, m: Outer, finalInput: Bytes): Bytes {
    var encoded := EncodeOuter(f, m);
    encoded + s.mac(s.finalKeys(finalInput).1, encoded)
  }

  /** Everything after the inner message has been opened: MAC, then signature. */
  function Conclude(s: Suite, p: ParsedOuter, inner: Inner, secrets: PqSecrets, finalInput: Bytes)
    : Result<Received, RingError>
  {
    var (sessionKey, macKey) := s.finalKeys(finalInput);
    if s.mac(macKey, p.encoded) != p.mac then Err(BadMac)
    else
      var signed := PqTranscript(s, secrets.falconVk, inner.vks, s.kemPublicKey(secrets.identity),
                                 s.kemPublicKey(secrets.signedPreKey),
                                 p.message.ct1, p.message.ct2);
      if !s.verify(inner.vks, signed, inner.sigma) then Err(BadSignature)
      else Ok(Received(inner.certificate, inner.registrationId, inner.messageType, inner.hint, sessionKey))
  }

  /** The bundle publishes the public halves of these secrets. */
  predicate PqMatches(s: Suite, b: PqBundle, secrets: PqSecrets) {
    b.falconVk == secrets.falconVk && b.identity == s.kemPublicKey(secrets.identity) &&
    b.signedPreKey == s.kemPublicKey(secrets.signedPreKey)
  }

  /** What the receiver should report of a message. */
  function Expected(c: Content, sessionKey: Bytes): Received {
    Received(c.certificate, c.registrationId, c.messageType, OneByteHint(c.hint), sessionKey)
  }

  /** Two different final inputs whose MAC keys give the message the same MAC. */
  predicate MacCollision(s: Suite, x: Bytes, y: Bytes, encoded: Bytes) {
    x != y && s.mac(s.finalKeys(x).1, encoded) == s.mac(s.finalKeys(y).1, encoded)
  }

  lemma AppendCancels(a: Bytes, b: Bytes, c: Bytes)
    ensures a + b == a + c <==> b == c
  {
    if a + b == a + c {
      assert (a + b)[|a|..] == b && (a + c)[|a|..] == c;
    }
  }

  /** The MAC and signature checks on a sent message, for any final input the receiver may reach. */
  lemma ConcludesOnAnyInput(s: Suite, f: Format, b: PqBundle, secrets: PqSecrets, c: Content, m: Outer, identity: Bytes,
                            sent: Bytes, got: Bytes)
    requires PqMatches(s, b, secrets)
    ensures var encoded := EncodeOuter(f, m);
            var p := ParsedOuter(encoded, s.mac(s.finalKeys(sent).1, encoded), m);
            var sigma := Signature(s, b, c, m.ct1, m.ct2);
            var signed := PqTranscript(s, b.falconVk, c.falconVk, b.identity, b.signedPreKey, m.ct1, m.ct2);
            Conclude(s, p, InnerOf(c, identity, sigma).(hint := OneByteHint(c.hint)), secrets, got)
            == if got != sent && !MacCollision(s, got, sent, encoded) then Err(BadMac)
               else if s.verify(c.falconVk, signed, sigma) then Ok(Expected(c, s.finalKeys(got).0))
                        else Err(BadSignature)
  {
  }

  // ---------------------------------------------------------------------------------------------
  // The XHMQV handshake

  const XHMQV_FORMAT := Format(0x54, 32)

  datatype XhmqvBundle = XhmqvBundle(identity: Point, signedPreKey: Point, oneTime: Option<Point>,
                                     signatureValid: bool, pq: PqBundle)

  datatype XhmqvSecrets = XhmqvSecrets(identity: int, signedPreKey: int, oneTime: Option<int>, pq: PqSecrets)

  datatype Coins = Coins(kem1: Bytes, kem2: Bytes, ephemeral: int)

  function XhmqvTranscript(ss1: Bytes, ss2: Bytes, ss3: Bytes, identity: Point, signedPreKey: Point,
                           oneTime: Option<Point>,
                           ephemeral: Bytes, pqIdentity: Bytes, pqSigned: Bytes, falconVk: Bytes, ct1: Bytes,
                           ct2: Bytes)
    : Transcript
  {
    Transcript([ss1, ss2, ss3], [], [identity, signedPreKey], oneTime,
               [ephemeral, pqIdentity, pqSigned, falconVk, ct1, ct2])
  }

  function XhmqvFinal(ck: Bytes, ss4: Bytes, identity: Point, vks: Bytes, sigma: Bytes): Bytes {
    ck + ss4 + identity + vks + sigma
  }

  /** `send`: the serialized message and the session key. */
  function XhmqvSeal(g: Group, hash: Hash, s: Suite, b: XhmqvBundle, sender: int, c: Content, r: Coins)
    : Result<(Bytes, Bytes), RingError>
    requires g.order > 0
  {
    if !b.signatureValid || !s.verify(b.pq.falconVk, b.pq.signedPreKey, b.pq.signature) then Err(BadBundle)
    else
      var (m, finalInput) := XhmqvMessage(g, hash, s, b, sender, c, r);
      Ok((Seal(s, XHMQV_FORMAT, m, finalInput), s.finalKeys(finalInput).0))
  }

  function XhmqvMessage(g: Group, hash: Hash, s: Suite, b: XhmqvBundle, sender: int, c: Content, r: Coins)
    : (Outer, Bytes)
    requires g.order > 0
  {
    var (ss1, ct1) := s.encapsulate(b.pq.identity, r.kem1);
    var (ss2, ct2) := s.encapsulate(b.pq.signedPreKey, r.kem2);
    var (ss3, ss4) := XhmqvSend(g, hash, sender, r.ephemeral, b.identity, b.signedPreKey, b.oneTime);
    var eph := PublicKey(g, r.ephemeral);
    var (ck, kseal) := s.sealingPhase(TranscriptBytes(
      XhmqvTranscript(ss1, ss2, ss3, b.identity, b.signedPreKey, b.oneTime, eph, b.pq.identity, b.pq.signedPreKey,
                      b.pq.falconVk, ct1, ct2)));
    var sigma := Signature(s, b.pq, c, ct1, ct2);
    var inner := InnerOf(c, PublicKey(g, sender), sigma);
    (Outer(eph, ct1, ct2, s.encrypt(kseal, EncodeInner(inner))),
     XhmqvFinal(ck, ss4, PublicKey(g, sender), c.falconVk, sigma))
  }

  /** `recv` */
  function XhmqvOpen(g: Group, hash: Hash, s: Suite, certificate: Bytes -> bool, k: XhmqvSecrets, data: Bytes)
    : Result<Received, RingError>
    requires g.order > 0
  {
    match ParseOuter(XHMQV_FORMAT, data)
    case None => Err(Malformed)
    case Some(p) => XhmqvOpenParsed(g, hash, s, certificate, k, p)
  }

  function XhmqvOpenParsed(g: Group, hash: Hash, s: Suite, certificate: Bytes -> bool, k: XhmqvSecrets, p: ParsedOuter)
    : Result<Received, RingError>
    requires g.order > 0
  {
    var ss1, ss2 := s.decapsulate(k.pq.identity, p.message.ct1), s.decapsulate(k.pq.signedPreKey, p.message.ct2);
    if ss1.None? || ss2.None? then Err(BadDecapsulation)
    else if !g.valid(p.message.ephemeral) then Err(BadEphemeral)
    else
      var eph := p.message.ephemeral;
      var (b, ss3) := XhmqvRecv1(g, hash, k.identity, k.signedPreKey, k.oneTime, eph);
      var (ck, kseal) := s.sealingPhase(TranscriptBytes(
        XhmqvTranscript(ss1.value, ss2.value, ss3, PublicKey(g, k.identity), PublicKey(g, k.signedPreKey),
                        PublicKeyOf(g, k.oneTime), eph,
                        s.kemPublicKey(k.pq.identity), s.kemPublicKey(k.pq.signedPreKey), k.pq.falconVk,
                       p.message.ct1, p.message.ct2)));
      var plain := s.decrypt(kseal, p.message.inner);
      if plain.None? then Err(BadInner)
      else
        var inner := ParseInner(XHMQV_FORMAT, Decoders(g.valid, certificate), plain.value);
        if inner.Err? then Err(BadInner)
        else
          var ss4 := XhmqvRecv2(g, hash, b, inner.value.identity, eph);
          Conclude(s, p, inner.value, k.pq,
                   XhmqvFinal(ck, ss4, inner.value.identity, inner.value.vks, inner.value.sigma))
  }

  predicate XhmqvMatches(g: Group, s: Suite, b: XhmqvBundle, k: XhmqvSecrets) {
    b.identity == PublicKey(g, k.identity) && b.signedPreKey == PublicKey(g, k.signedPreKey) &&
    b.oneTime == PublicKeyOf(g, k.oneTime) && PqMatches(s, b.pq, k.pq)
  }

  /** The inner message of a sent message opens to what was put in. */
  lemma InnerOpens(s: Suite, f: Format, d: Decoders, kseal: Bytes, m: Inner)
    requires SuiteLaws(s) && InnerFits(f, m) && d.key(m.identity) && d.certificate(m.certificate)
    ensures var plain := s.decrypt(kseal, s.encrypt(kseal, EncodeInner(m)));
            plain.Some? && ParseInner(f, d, plain.value) == Ok(m.(hint := OneByteHint(m.hint)))
  {
    assert CipherLaw(s, kseal, EncodeInner(m));
    InnerRoundTrip(f, d, m);
  }

  /** Receiving the parsed form of a sent message. */
  lemma XhmqvOpensParsed(g: Group, hash: Hash, s: Suite, certificate: Bytes -> bool, b: XhmqvBundle, k: XhmqvSecrets,
                         sender: int, c: Content, r: Coins)
    requires GroupLaws(g) && SuiteLaws(s) && XhmqvMatches(g, s, b, k) && certificate(c.certificate)
    requires var m := XhmqvMessage(g, hash, s, b, sender, c, r).0;
             InnerFits(XHMQV_FORMAT, InnerOf(c, PublicKey(g, sender), Signature(s, b.pq, c, m.ct1, m.ct2)))
    ensures var (m, finalInput) := XhmqvMessage(g, hash, s, b, sender, c, r);
            var encoded := EncodeOuter(XHMQV_FORMAT, m);
            var p := ParsedOuter(encoded, s.mac(s.finalKeys(finalInput).1, encoded), m);
            var inner := InnerOf(c, PublicKey(g, sender), Signature(s, b.pq, c, m.ct1, m.ct2));
            XhmqvOpenParsed(g, hash, s, certificate, k, p)
            == Conclude(s, p, inner.(hint := OneByteHint(c.hint)), k.pq, finalInput)
  {
    var m := XhmqvMessage(g, hash, s, b, sender, c, r).0;
    assert KemLaw(s, k.pq.identity, r.kem1) && KemLaw(s, k.pq.signedPreKey, r.kem2);
    PublicKeyIsValid(g, sender);
    PublicKeyIsValid(g, r.ephemeral);
    XhmqvAgrees(g, hash, sender, r.ephemeral, k.identity, k.signedPreKey, k.oneTime);
    var (ss1, ct1) := s.encapsulate(b.pq.identity, r.kem1);
    var (ss2, ct2) := s.encapsulate(b.pq.signedPreKey, r.kem2);
    var ss3 := XhmqvSend(g, hash, sender, r.ephemeral, b.identity, b.signedPreKey, b.oneTime).0;
    var kseal := s.sealingPhase(TranscriptBytes(
      XhmqvTranscript(ss1, ss2, ss3, b.identity, b.signedPreKey, b.oneTime, PublicKey(g, r.ephemeral),
                      b.pq.identity, b.pq.signedPreKey, b.pq.falconVk, ct1, ct2))).1;
    InnerOpens(s, XHMQV_FORMAT, Decoders(g.valid, certificate), kseal,
               InnerOf(c, PublicKey(g, sender), Signature(s, b.pq, c, ct1, ct2)));
  }

  /**
   Receiving what was sent, with or without a one-time pre-key: the same session key, certificate, registration ID and
   type, and the hint cut to one byte, exactly when the sender's signature verifies under the key it sent.
   */
  lemma XhmqvRoundTrip(g: Group, hash: Hash, s: Suite, certificate: Bytes -> bool, b: XhmqvBundle, k: XhmqvSecrets,
                       sender: int, c: Content, r: Coins)
    requires GroupLaws(g) && SuiteLaws(s) && XhmqvMatches(g, s, b, k) && certificate(c.certificate)
    requires XhmqvSeal(g, hash, s, b, sender, c, r).Ok?
    requires var m := XhmqvMessage(g, hash, s, b, sender, c, r).0;
             FieldsFit(m)
             && InnerFits(XHMQV_FORMAT, InnerOf(c, PublicKey(g, sender), Signature(s, b.pq, c, m.ct1, m.ct2)))
    ensures var (data, sessionKey) := XhmqvSeal(g, hash, s, b, sender, c, r).value;
            var m := XhmqvMessage(g, hash, s, b, sender, c, r).0;
            var signed := PqTranscript(s, b.pq.falconVk, c.falconVk, b.pq.identity, b.pq.signedPreKey, m.ct1, m.ct2);
            XhmqvOpen(g, hash, s, certificate, k, data)
            == if s.verify(c.falconVk, signed, s.sign(c.falconSk, signed)) then Ok(Expected(c, sessionKey))
                      else Err(BadSignature)
  {
    var (m, finalInput) := XhmqvMessage(g, hash, s, b, sender, c, r);
    var encoded := EncodeOuter(XHMQV_FORMAT, m);
    assert MacLaw(s, s.finalKeys(finalInput).1, encoded);
    PublicKeyIsValid(g, r.ephemeral);
    OuterRoundTripIff(XHMQV_FORMAT, m, s.mac(s.finalKeys(finalInput).1, encoded));
    XhmqvOpensParsed(g, hash, s, certificate, b, k, sender, c, r);
    ConcludesOnAnyInput(s, XHMQV_FORMAT, b.pq, k.pq, c, m, PublicKey(g, sender), finalInput, finalInput);
  }

  /** The final input determines its fields once the length of the verification key is fixed ... */
  lemma FinalDetermines(a: seq<Bytes>, b: seq<Bytes>)
    requires |a| == |b| == 5 && SameLengths(a[..4], b[..4])
    requires XhmqvFinal(a[0], a[1], a[2], a[3], a[4]) == XhmqvFinal(b[0], b[1], b[2], b[3], b[4])
    ensures a == b
  {
    var x, y := XhmqvFinal(a[0], a[1], a[2], a[3], a[4]), XhmqvFinal(b[0], b[1], b[2], b[3], b[4]);
    assert forall i :: 0 <= i < 4 ==> |a[i]| == |a[..4][i]| == |b[..4][i]| == |b[i]|;
    assert |a[4]| == |x| - |a[0]| - |a[1]| - |a[2]| - |a[3]| && |b[4]| == |a[4]|;
    FinalIsFlat(a);
    FinalIsFlat(b);
    FlattenInjective(a, b);
  }

  lemma FinalIsFlat(a: seq<Bytes>)
    requires |a| == 5
    ensures XhmqvFinal(a[0], a[1], a[2], a[3], a[4]) == Flatten(a)
  {
    assert a == [a[0], a[1], a[2], a[3]] + [a[4]];
    assert [a[0], a[1], a[2], a[3]] == [a[0], a[1], a[2]] + [a[3]];
    assert [a[0], a[1], a[2]] == [a[0], a[1]] + [a[2]];
    assert [a[0], a[1]] == [a[0]] + [a[1]];
    FlattenAppend([a[0], a[1], a[2], a[3]], [a[4]]);
    FlattenAppend([a[0], a[1], a[2]], [a[3]]);
    FlattenAppend([a[0], a[1]], [a[2]]);
    FlattenAppend([a[0]], [a[1]]);
    FlattenOne(a[0]);
    FlattenOne(a[1]);
    FlattenOne(a[2]);
    FlattenOne(a[3]);
    FlattenOne(a[4]);
  }

  /** ... and not otherwise: a byte can move from the key to the signature. */
  lemma FinalAmbiguous(ck: Bytes, ss4: Bytes, identity: Point, vks: Bytes, x: byte, sigma: Bytes)
    ensures XhmqvFinal(ck, ss4, identity, vks + [x], sigma) == XhmqvFinal(ck, ss4, identity, vks, [x] + sigma)
  {
  }

  // ---------------------------------------------------------------------------------------------
  // The X3DH handshake

  const X3DH_KEY_LENGTH := 33
  const X3DH_FORMAT := Format(0x55, X3DH_KEY_LENGTH)

  datatype Curve = Curve(publicKey: Bytes -> Bytes, agreement: (Bytes, Bytes) -> Bytes, valid: Bytes -> bool)

  predicate AgreementLaw(v: Curve, a: Bytes, b: Bytes) {
    v.agreement(a, v.publicKey(b)) == v.agreement(b, v.publicKey(a))
  }

  predicate KeyLaw(v: Curve, a: Bytes) {
    |v.publicKey(a)| == X3DH_KEY_LENGTH && v.valid(v.publicKey(a))
  }

  ghost predicate CurveLaws(v: Curve) {
    (forall a, b :: AgreementLaw(v, a, b)) && (forall a :: KeyLaw(v, a))
  }

  datatype X3dhBundle = X3dhBundle(identity: Bytes, signedPreKey: Bytes, oneTime: Option<Bytes>, signatureValid: bool,
                                   pq: PqBundle)

  datatype X3dhSecrets = X3dhSecrets(identity: Bytes, signedPreKey: Bytes, oneTime: Option<Bytes>, pq: PqSecrets)

  datatype X3dhCoins = X3dhCoins(kem1: Bytes, kem2: Bytes, ephemeral: Bytes)

  function X3dhPublicOf(v: Curve, secret: Option<Bytes>): Option<Bytes> {
    if secret.Some? then Some(v.publicKey(secret.value)) else None
  }

  function X3dhTranscript(ss1: Bytes, ss2: Bytes, identitySecret: Bytes, signedSecret: Bytes, oneTimeSecret: Bytes,
                          identity: Bytes, signedPreKey: Bytes, oneTime: Option<Bytes>, ephemeral: Bytes,
                          pqIdentity: Bytes, pqSigned: Bytes, falconVk: Bytes, ct1: Bytes, ct2: Bytes): Transcript
  {
    Transcript([ss1, ss2, identitySecret, signedSecret], oneTimeSecret, [identity, signedPreKey], oneTime,
               [ephemeral, pqIdentity, pqSigned, falconVk, ct1, ct2])
  }

  function X3dhMessage(v: Curve, s: Suite, b: X3dhBundle, sender: Bytes, c: Content, r: X3dhCoins): (Outer, Bytes) {
    var (ss1, ct1) := s.encapsulate(b.pq.identity, r.kem1);
    var (ss2, ct2) := s.encapsulate(b.pq.signedPreKey, r.kem2);
    var eph := v.publicKey(r.ephemeral);
    var oneTimeSecret := if b.oneTime.Some? then v.agreement(r.ephemeral, b.oneTime.value) else [];
    var (ck, kseal) := s.sealingPhase(TranscriptBytes(
      X3dhTranscript(ss1, ss2, v.agreement(r.ephemeral, b.identity), v.agreement(r.ephemeral, b.signedPreKey),
                     oneTimeSecret,
                     b.identity, b.signedPreKey, b.oneTime, eph, b.pq.identity, b.pq.signedPreKey, b.pq.falconVk,
                     ct1, ct2)));
    var sigma := Signature(s, b.pq, c, ct1, ct2);
    (Outer(eph, ct1, ct2, s.encrypt(kseal, EncodeInner(InnerOf(c, v.publicKey(sender), sigma)))),
     ck + v.agreement(sender, b.signedPreKey))
  }

  function X3dhSeal(v: Curve, s: Suite, b: X3dhBundle, sender: Bytes, c: Content, r: X3dhCoins)
    : Result<(Bytes, Bytes), RingError>
  {
    if !b.signatureValid || !s.verify(b.pq.falconVk, b.pq.signedPreKey, b.pq.signature) then Err(BadBundle)
    else
      var (m, finalInput) := X3dhMessage(v, s, b, sender, c, r);
      Ok((Seal(s, X3DH_FORMAT, m, finalInput), s.finalKeys(finalInput).0))
  }

  /** The key a certificate vouches for, if the bytes are a certificate. */
  type CertificateKey = Bytes -> Option<Bytes>

  function X3dhOpen(v: Curve, s: Suite, certified: CertificateKey, k: X3dhSecrets, data: Bytes)
    : Result<Received, RingError>
  {
    match ParseOuter(X3DH_FORMAT, data)
    case None => Err(Malformed)
    case Some(p) => X3dhOpenParsed(v, s, certified, k, p)
  }

  /**
   Unlike the XHMQV variant, the identity mixed in last is the one in the certificate, not the one in the inner message.
   */
  function X3dhOpenParsed(v: Curve, s: Suite, certified: CertificateKey, k: X3dhSecrets, p: ParsedOuter)
    : Result<Received, RingError>
  {
    var ss1, ss2 := s.decapsulate(k.pq.identity, p.message.ct1), s.decapsulate(k.pq.signedPreKey, p.message.ct2);
    if ss1.None? || ss2.None? then Err(BadDecapsulation)
    else if !v.valid(p.message.ephemeral) then Err(BadEphemeral)
    else
      var eph := p.message.ephemeral;
      var oneTimeSecret := if k.oneTime.Some? then v.agreement(k.oneTime.value, eph) else [];
      var (ck, kseal) := s.sealingPhase(TranscriptBytes(
        X3dhTranscript(ss1.value, ss2.value, v.agreement(k.identity, eph), v.agreement(k.signedPreKey, eph),
                       oneTimeSecret,
                       v.publicKey(k.identity), v.publicKey(k.signedPreKey), X3dhPublicOf(v, k.oneTime), eph,
                       s.kemPublicKey(k.pq.identity), s.kemPublicKey(k.pq.signedPreKey), k.pq.falconVk,
                       p.message.ct1, p.message.ct2)));
      var plain := s.decrypt(kseal, p.message.inner);
      if plain.None? then Err(BadInner)
      else
        var inner := ParseInner(X3DH_FORMAT, Decoders(v.valid, x => certified(x).Some?), plain.value);
        if inner.Err? || certified(inner.value.certificate).None? then Err(BadInner)
        else Conclude(s, p, inner.value, k.pq,
                      ck + v.agreement(k.signedPreKey, certified(inner.value.certificate).value))
  }

  predicate X3dhMatches(v: Curve, s: Suite, b: X3dhBundle, k: X3dhSecrets) {
    b.identity == v.publicKey(k.identity) && b.signedPreKey == v.publicKey(k.signedPreKey) &&
    b.oneTime == X3dhPublicOf(v, k.oneTime) && PqMatches(s, b.pq, k.pq)
  }

  /** The chain key both ends hold before the sender's identity is mixed in. */
  function X3dhChainKey(v: Curve, s: Suite, b: X3dhBundle, r: X3dhCoins): (Bytes, Bytes) {
    var (ss1, ct1) := s.encapsulate(b.pq.identity, r.kem1);
    var (ss2, ct2) := s.encapsulate(b.pq.signedPreKey, r.kem2);
    var oneTimeSecret := if b.oneTime.Some? then v.agreement(r.ephemeral, b.oneTime.value) else [];
    s.sealingPhase(TranscriptBytes(
      X3dhTranscript(ss1, ss2, v.agreement(r.ephemeral, b.identity), v.agreement(r.ephemeral, b.signedPreKey),
                     oneTimeSecret,
                     b.identity, b.signedPreKey, b.oneTime, v.publicKey(r.ephemeral),
                     b.pq.identity, b.pq.signedPreKey, b.pq.falconVk, ct1, ct2)))
  }

  lemma X3dhAgrees(v: Curve, s: Suite, b: X3dhBundle, k: X3dhSecrets, r: X3dhCoins)
    requires CurveLaws(v) && X3dhMatches(v, s, b, k)
    ensures var eph := v.publicKey(r.ephemeral);
            v.agreement(k.identity, eph) == v.agreement(r.ephemeral, b.identity) &&
            v.agreement(k.signedPreKey, eph) == v.agreement(r.ephemeral, b.signedPreKey) &&
            (k.oneTime.Some? <==> b.oneTime.Some?) &&
            (k.oneTime.Some? ==> v.agreement(k.oneTime.value, eph) == v.agreement(r.ephemeral, b.oneTime.value))
  {
    assert AgreementLaw(v, k.identity, r.ephemeral) && AgreementLaw(v, k.signedPreKey, r.ephemeral);
    assert k.oneTime.Some? ==> AgreementLaw(v, k.oneTime.value, r.ephemeral);
  }

  /** Receiving the parsed form of a sent message comes down to the final input built from the certified key. */
  lemma X3dhOpensParsed(v: Curve, s: Suite, certified: CertificateKey, b: X3dhBundle, k: X3dhSecrets, sender: Bytes,
                        c: Content, r: X3dhCoins, mac: Bytes)
    requires CurveLaws(v) && SuiteLaws(s) && X3dhMatches(v, s, b, k) && certified(c.certificate).Some?
    requires var m := X3dhMessage(v, s, b, sender, c, r).0;
             InnerFits(X3DH_FORMAT, InnerOf(c, v.publicKey(sender), Signature(s, b.pq, c, m.ct1, m.ct2)))
    ensures var m := X3dhMessage(v, s, b, sender, c, r).0;
            var p := ParsedOuter(EncodeOuter(X3DH_FORMAT, m), mac, m);
            var inner := InnerOf(c, v.publicKey(sender), Signature(s, b.pq, c, m.ct1, m.ct2));
            X3dhOpenParsed(v, s, certified, k, p)
            == Conclude(s, p, inner.(hint := OneByteHint(c.hint)), k.pq,
                        X3dhChainKey(v, s, b, r).0 + v.agreement(k.signedPreKey, certified(c.certificate).value))
  {
    var m := X3dhMessage(v, s, b, sender, c, r).0;
    assert KemLaw(s, k.pq.identity, r.kem1) && KemLaw(s, k.pq.signedPreKey, r.kem2);
    assert KeyLaw(v, sender) && KeyLaw(v, r.ephemeral);
    X3dhAgrees(v, s, b, k, r);
    InnerOpens(s, X3DH_FORMAT, Decoders(v.valid, x => certified(x).Some?), X3dhChainKey(v, s, b, r).1,
               InnerOf(c, v.publicKey(sender), Signature(s, b.pq, c, m.ct1, m.ct2)));
  }

  /**
   Receiving what was sent over X3DH, decided by the certificate: the message is accepted only if the certified key
   agrees with the signed pre-key to the same secret as the sender's identity key, or two explicit final inputs
   collide; the identity key inside the message plays no part. It is then accepted exactly when the signature
   verifies.
   */
  lemma X3dhCertificateDecides(v: Curve, s: Suite, certified: CertificateKey, b: X3dhBundle, k: X3dhSecrets,
                               sender: Bytes,
                               c: Content, r: X3dhCoins)
    requires CurveLaws(v) && SuiteLaws(s) && X3dhMatches(v, s, b, k)
    requires certified(c.certificate).Some? && X3dhSeal(v, s, b, sender, c, r).Ok?
    requires var m := X3dhMessage(v, s, b, sender, c, r).0;
             FieldsFit(m)
             && InnerFits(X3DH_FORMAT, InnerOf(c, v.publicKey(sender), Signature(s, b.pq, c, m.ct1, m.ct2)))
    ensures var data := X3dhSeal(v, s, b, sender, c, r).value.0;
            var (m, sent) := X3dhMessage(v, s, b, sender, c, r);
            var agreed := v.agreement(k.signedPreKey, certified(c.certificate).value);
            var got := X3dhChainKey(v, s, b, r).0 + agreed;
            var signed := PqTranscript(s, b.pq.falconVk, c.falconVk, b.pq.identity, b.pq.signedPreKey, m.ct1, m.ct2);
            X3dhOpen(v, s, certified, k, data)
            == if agreed != v.agreement(sender, b.signedPreKey)
                  && !MacCollision(s, got, sent, EncodeOuter(X3DH_FORMAT, m))
               then Err(BadMac)
               else if s.verify(c.falconVk, signed, s.sign(c.falconSk, signed)) then Ok(Expected(c, s.finalKeys(got).0))
               else Err(BadSignature)
  {
    var (m, sent) := X3dhMessage(v, s, b, sender, c, r);
    var encoded := EncodeOuter(X3DH_FORMAT, m);
    var mac := s.mac(s.finalKeys(sent).1, encoded);
    var ck, agreed := X3dhChainKey(v, s, b, r).0, v.agreement(k.signedPreKey, certified(c.certificate).value);
    assert MacLaw(s, s.finalKeys(sent).1, encoded) && KeyLaw(v, r.ephemeral);
    OuterRoundTripIff(X3DH_FORMAT, m, mac);
    X3dhOpensParsed(v, s, certified, b, k, sender, c, r, mac);
    AppendCancels(ck, agreed, v.agreement(sender, b.signedPreKey));
    ConcludesOnAnyInput(s, X3DH_FORMAT, b.pq, k.pq, c, m, v.publicKey(sender), sent, ck + agreed);
  }

  /**
   With a certificate for the sender's identity key: the same session key and content, with or without a one-time
   pre-key.
   */
  lemma X3dhRoundTrip(v: Curve, s: Suite, certified: CertificateKey, b: X3dhBundle, k: X3dhSecrets, sender: Bytes,
                      c: Content, r: X3dhCoins)
    requires CurveLaws(v) && SuiteLaws(s) && X3dhMatches(v, s, b, k)
    requires certified(c.certificate) == Some(v.publicKey(sender)) && X3dhSeal(v, s, b, sender, c, r).Ok?
    requires var m := X3dhMessage(v, s, b, sender, c, r).0;
             FieldsFit(m)
             && InnerFits(X3DH_FORMAT, InnerOf(c, v.publicKey(sender), Signature(s, b.pq, c, m.ct1, m.ct2)))
    ensures var (data, sessionKey) := X3dhSeal(v, s, b, sender, c, r).value;
            var m := X3dhMessage(v, s, b, sender, c, r).0;
            var signed := PqTranscript(s, b.pq.falconVk, c.falconVk, b.pq.identity, b.pq.signedPreKey, m.ct1, m.ct2);
            X3dhOpen(v, s, certified, k, data)
            == if s.verify(c.falconVk, signed, s.sign(c.falconSk, signed)) then Ok(Expected(c, sessionKey))
                      else Err(BadSignature)
  {
    X3dhCertificateDecides(v, s, certified, b, k, sender, c, r);
    assert AgreementLaw(v, sender, k.signedPreKey);
  }
}
