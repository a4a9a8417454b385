/**
 XHMQV key agreement (rust/protocol/src/xhmqv.rs).

 The group is any structure that obeys `GroupLaws`: scalars are integers, reduced modulo the group order after every
 operation as in the source, and acting on points; points have a canonical 32-byte encoding.
 */
module Xhmqv {
  import opened Prelude
  import opened ByteStrings

  const PUBLIC_KEY_LENGTH := 32

  /** A point is named by its canonical encoding; `valid` says which byte strings are encodings. */
  type Point = Bytes

  datatype Group = Group(order: nat, base: Point, valid: Point -> bool, add: (Point, Point) -> Point,
                         times: (int, Point) -> Point)

  predicate SumLaw(g: Group, a: int, b: int, p: Point) {
    g.valid(p) ==> g.add(g.times(a, p), g.times(b, p)) == g.times(a + b, p)
  }

  predicate ProductLaw(g: Group, a: int, b: int, p: Point) {
    g.valid(p) ==> g.times(a, g.times(b, p)) == g.times(a * b, p)
  }

  predicate ReductionLaw(g: Group, a: int, p: Point)
    requires g.order > 0
  {
    g.valid(p) ==> g.valid(g.times(a, p)) && g.times(a % g.order, p) == g.times(a, p)
  }

  predicate PointLaw(g: Group, p: Point) {
    g.valid(p) ==> |p| == PUBLIC_KEY_LENGTH && g.times(1, p) == p
  }

  ghost predicate GroupLaws(g: Group) {
    g.order > 0 && g.valid(g.base) &&
    (forall a, b, p :: SumLaw(g, a, b, p)) && (forall a, b, p :: ProductLaw(g, a, b, p)) &&
    (forall a, p :: ReductionLaw(g, a, p)) && (forall p :: PointLaw(g, p))
  }

  // Scalars

  function Plus(g: Group, a: int, b: int): int
    requires g.order > 0
  {
    (a + b) % g.order
  }

  function Mul(g: Group, a: int, b: int): int
    requires g.order > 0
  {
    (a * b) % g.order
  }

  function PublicKey(g: Group, secret: int): Point {
    g.times(secret, g.base)
  }

  lemma PublicKeyOfSum(g: Group, a: int, b: int)
    requires GroupLaws(g)
    ensures PublicKey(g, Plus(g, a, b)) == g.add(PublicKey(g, a), PublicKey(g, b))
  {
    assert ReductionLaw(g, a + b, g.base) && SumLaw(g, a, b, g.base);
  }

  lemma TimesPublicKey(g: Group, a: int, b: int)
    requires GroupLaws(g)
    ensures PublicKey(g, Mul(g, a, b)) == g.times(a, PublicKey(g, b))
  {
    assert ReductionLaw(g, a * b, g.base) && ProductLaw(g, a, b, g.base);
  }

  lemma PublicKeyIsValid(g: Group, a: int)
    requires GroupLaws(g)
    ensures g.valid(PublicKey(g, a)) && |PublicKey(g, a)| == PUBLIC_KEY_LENGTH
            && g.times(1, PublicKey(g, a)) == PublicKey(g, a)
  {
    assert ReductionLaw(g, a, g.base) && PointLaw(g, PublicKey(g, a));
  }

  // ---------------------------------------------------------------------------------------------
  // Hashes to scalars

  datatype HashLabel = E1 | E2 | D

  type Hash = (HashLabel, Bytes) -> int

  function ReceiverBytes(identity: Point, signedPreKey: Point, oneTime: Option<Point>): Bytes {
    identity + signedPreKey + (if oneTime.Some? then oneTime.value else [])
  }

  function SenderBytes(identity: Point, ephemeral: Point): Bytes {
    identity + ephemeral
  }

  // ---------------------------------------------------------------------------------------------
  // Aggregated keys

  /** `compute_aggregated_receiver_key` */
  function AggregatedKey(g: Group, identity: Point, signedPreKey: Point, oneTime: Option<Point>, e1: int, e2: int)
    : Point
  {
    var sum := g.add(g.times(e1, identity), g.times(e2, signedPreKey));
    if oneTime.Some? then g.add(sum, g.times(1, oneTime.value)) else sum
  }

  /** `compute_aggregated_receiver_secret` */
  function AggregatedSecret(g: Group, identity: int, signedPreKey: int, oneTime: Option<int>, e1: int, e2: int): int
    requires g.order > 0
  {
    var identityTerm, signedTerm := Mul(g, identity, e1), Mul(g, signedPreKey, e2);
    if oneTime.Some? then Plus(g, Plus(g, oneTime.value, identityTerm), signedTerm)
        else Plus(g, identityTerm, signedTerm)
  }

  function PublicKeyOf(g: Group, secret: Option<int>): Option<Point> {
    if secret.Some? then Some(PublicKey(g, secret.value)) else None
  }

  lemma MulCommutes(g: Group, a: int, b: int)
    requires g.order > 0
    ensures Mul(g, a, b) == Mul(g, b, a)
  {
    assert a * b == b * a;
  }

  lemma AddSwaps(g: Group, a: int, b: int, c: int)
    requires GroupLaws(g)
    ensures PublicKey(g, Plus(g, Plus(g, a, b), c)) == g.add(g.add(PublicKey(g, b), PublicKey(g, c)), PublicKey(g, a))
  {
    PublicKeyOfSum(g, Plus(g, a, b), c);
    PublicKeyOfSum(g, a, b);
    assert SumLaw(g, a, b, g.base) && SumLaw(g, a + b, c, g.base);
    assert SumLaw(g, b, c, g.base) && SumLaw(g, b + c, a, g.base);
    assert a + b + c == b + c + a;
  }

  /** [b]G = B, with and without a one-time pre-key. */
  lemma AggregatedKeysMatch(g: Group, identity: int, signedPreKey: int, oneTime: Option<int>, e1: int, e2: int)
    requires GroupLaws(g)
    ensures PublicKey(g, AggregatedSecret(g, identity, signedPreKey, oneTime, e1, e2))
         == AggregatedKey(g, PublicKey(g, identity), PublicKey(g, signedPreKey), PublicKeyOf(g, oneTime), e1, e2)
  {
    var i, s := Mul(g, identity, e1), Mul(g, signedPreKey, e2);
    MulCommutes(g, identity, e1);
    MulCommutes(g, signedPreKey, e2);
    TimesPublicKey(g, e1, identity);
    TimesPublicKey(g, e2, signedPreKey);
    if oneTime.Some? {
      AddSwaps(g, oneTime.value, i, s);
      PublicKeyIsValid(g, oneTime.value);
    } else {
      PublicKeyOfSum(g, i, s);
    }
  }

  // ---------------------------------------------------------------------------------------------
  // Agreement

  function Agree(g: Group, secret: int, key: Point): Bytes {
    g.times(secret, key)
  }

  /** Both secrets of the sender, for an ephemeral secret drawn beforehand. */
  function XhmqvSend(g: Group, hash: Hash, sender: int, ephemeral: int, identity: Point, signedPreKey: Point,
                     oneTime: Option<Point>)
    : (Bytes, Bytes)
    requires g.order > 0
  {
    var receiver := ReceiverBytes(identity, signedPreKey, oneTime);
    var b := AggregatedKey(g, identity, signedPreKey, oneTime, hash(E1, receiver), hash(E2, receiver));
    var d := hash(D, SenderBytes(PublicKey(g, sender), PublicKey(g, ephemeral)));
    (Agree(g, ephemeral, b), Agree(g, Mul(g, sender, d), b))
  }

  /** The receiver's aggregated secret and first shared secret. */
  function XhmqvRecv1(g: Group, hash: Hash, identity: int, signedPreKey: int, oneTime: Option<int>, ephemeral: Point)
    : (int, Bytes)
    requires g.order > 0
  {
    var receiver := ReceiverBytes(PublicKey(g, identity), PublicKey(g, signedPreKey), PublicKeyOf(g, oneTime));
    var b := AggregatedSecret(g, identity, signedPreKey, oneTime, hash(E1, receiver), hash(E2, receiver));
    (b, Agree(g, b, ephemeral))
  }

  function XhmqvRecv2(g: Group, hash: Hash, b: int, sender: Point, ephemeral: Point): Bytes
    requires g.order > 0
  {
    Agree(g, Mul(g, b, hash(D, SenderBytes(sender, ephemeral))), sender)
  }

  /** [a][b]G does not depend on which side multiplies. */
  lemma AgreementCommutes(g: Group, a: int, b: int)
    requires GroupLaws(g)
    ensures Agree(g, a, PublicKey(g, b)) == Agree(g, b, PublicKey(g, a))
  {
    assert ProductLaw(g, a, b, g.base) && ProductLaw(g, b, a, g.base);
    assert a * b == b * a;
  }

  lemma ScaledAgreement(g: Group, s: int, d: int, b: int)
    requires GroupLaws(g)
    ensures Agree(g, Mul(g, s, d), PublicKey(g, b)) == Agree(g, Mul(g, b, d), PublicKey(g, s))
  {
    PublicKeyIsValid(g, s);
    PublicKeyIsValid(g, b);
    assert ReductionLaw(g, s * d, PublicKey(g, b)) && ProductLaw(g, s * d, b, g.base);
    assert ReductionLaw(g, b * d, PublicKey(g, s)) && ProductLaw(g, b * d, s, g.base);
    assert (s * d) * b == (b * d) * s;
  }

  /** Sender and receiver derive the same two secrets, with and without a one-time pre-key. */
  lemma XhmqvAgrees(g: Group, hash: Hash, sender: int, ephemeral: int, identity: int, signedPreKey: int,
                    oneTime: Option<int>)
    requires GroupLaws(g)
    ensures var sent := XhmqvSend(g, hash, sender, ephemeral, PublicKey(g, identity), PublicKey(g, signedPreKey),
                                  PublicKeyOf(g, oneTime));
            var got := XhmqvRecv1(g, hash, identity, signedPreKey, oneTime, PublicKey(g, ephemeral));
            sent.0 == got.1 && sent.1 == XhmqvRecv2(g, hash, got.0, PublicKey(g, sender), PublicKey(g, ephemeral))
  {
    var receiver := ReceiverBytes(PublicKey(g, identity), PublicKey(g, signedPreKey), PublicKeyOf(g, oneTime));
    var e1, e2 := hash(E1, receiver), hash(E2, receiver);
    var d := hash(D, SenderBytes(PublicKey(g, sender), PublicKey(g, ephemeral)));
    var b := AggregatedSecret(g, identity, signedPreKey, oneTime, e1, e2);
    AggregatedKeysMatch(g, identity, signedPreKey, oneTime, e1, e2);
    AgreementCommutes(g, ephemeral, b);
    ScaledAgreement(g, sender, d, b);
  }

  // ---------------------------------------------------------------------------------------------
  // Stand-alone messages

  /** HKDF outputs and the stream cipher. */
  datatype Kdf = Kdf(
    sealingKey: Bytes -> Bytes,
    sessionKey: Bytes -> Bytes,
    encrypt: (Bytes, Bytes) -> Bytes,
    decrypt: (Bytes, Bytes) -> Option<Bytes>)

  ghost predicate KdfLaws(k: Kdf) {
    forall key, p :: k.decrypt(key, k.encrypt(key, p)) == Some(p)
  }

  datatype Message = Message(ephemeral: Bytes, innerCiphertext: Bytes)

  function SealingInput(secret: Bytes, identity: Point, signedPreKey: Point, oneTime: Option<Point>, ephemeral: Point)
    : Bytes
  {
    secret + ReceiverBytes(identity, signedPreKey, oneTime) + ephemeral
  }

  function SessionInput(secret1: Bytes, secret2: Bytes, sender: Point, ephemeral: Point): Bytes {
    secret1 + secret2 + SenderBytes(sender, ephemeral)
  }

  function MessageSend(g: Group, hash: Hash, k: Kdf, sender: int, ephemeral: int, identity: Point, signedPreKey: Point,
                       oneTime: Option<Point>)
    : (Message, Bytes)
    requires g.order > 0
  {
    var (s1, s2) := XhmqvSend(g, hash, sender, ephemeral, identity, signedPreKey, oneTime);
    var eph := PublicKey(g, ephemeral);
    var kseal := k.sealingKey(SealingInput(s1, identity, signedPreKey, oneTime, eph));
    (Message(eph, k.encrypt(kseal, PublicKey(g, sender))),
     k.sessionKey(SessionInput(s1, s2, PublicKey(g, sender), eph)))
  }

  function MessageReceive(g: Group, hash: Hash, k: Kdf, m: Message, identity: int, signedPreKey: int,
                          oneTime: Option<int>)
    : Option<(Bytes, Point)>
    requires g.order > 0
  {
    if !g.valid(m.ephemeral) then None
    else
      var eph := m.ephemeral;
      var (b, s1) := XhmqvRecv1(g, hash, identity, signedPreKey, oneTime, eph);
      var kseal := k.sealingKey(SealingInput(s1, PublicKey(g, identity), PublicKey(g, signedPreKey),
                                             PublicKeyOf(g, oneTime), eph));
      var inner := k.decrypt(kseal, m.innerCiphertext);
      if inner.None? || |inner.value| != PUBLIC_KEY_LENGTH || !g.valid(inner.value) then None
      else
        var sender := inner.value;
        Some((k.sessionKey(SessionInput(s1, XhmqvRecv2(g, hash, b, sender, eph), sender, eph)), sender))
  }

  /** The receiver of a message learns the sender's identity and the same session key. */
  lemma MessageRoundTrip(g: Group, hash: Hash, k: Kdf, sender: int, ephemeral: int, identity: int, signedPreKey: int,
                         oneTime: Option<int>)
    requires GroupLaws(g) && KdfLaws(k)
    ensures var (m, key) := MessageSend(g, hash, k, sender, ephemeral, PublicKey(g, identity),
                                        PublicKey(g, signedPreKey), PublicKeyOf(g, oneTime));
            MessageReceive(g, hash, k, m, identity, signedPreKey, oneTime) == Some((key, PublicKey(g, sender)))
  {
    XhmqvAgrees(g, hash, sender, ephemeral, identity, signedPreKey, oneTime);
    PublicKeyIsValid(g, sender);
    PublicKeyIsValid(g, ephemeral);
  }
}
