/**
 Sessions from the sealed handshakes (rust/protocol/src/spqxdh.rs:448-595, sealed_ringxkem_xhmqv.rs:540-651 and
 sealed_ringxkem_x3dh.rs:503-607): the session keys of `send` and `recv` go into the two initialisers, and the sessions
 they make run in lock step.
 */
module SealedSessions {
  import opened Prelude
  import opened Symbolic
  import opened RatchetKeys
  import opened ByteStrings
  import opened Handshake
  import opened LockStep
  import opened PairRuns
  import Xhmqv
  import Codec = SealedRingCodec
  import SealedRing
  import Spqxdh

  /** A byte string as the input of a derivation. */
  function SecretOf(key: Bytes): Term {
    Concat(seq(|key|, i requires 0 <= i < |key| => Random(key[i])))
  }

  lemma SecretOfInjective(a: Bytes, b: Bytes)
    requires SecretOf(a) == SecretOf(b)
    ensures a == b
  {
    var x, y := SecretOf(a).parts, SecretOf(b).parts;
    assert forall i :: 0 <= i < |a| ==> x[i] == Random(a[i]) && y[i] == Random(b[i]);
  }

  /** Who initialises: the two identities, the responder's ratchet key pair, the ephemeral and the new ratchet key. */
  datatype Parties = Parties(alice: Name, bob: Name, bobRatchet: Name, base: Name, first: Name, pqInit: PqInit)

  /** The two sessions, the initiator's from the key `send` returned and the responder's from the one `recv` did. */
  function SessionPair(info: Label, sent: Bytes, received: Bytes, e: Parties): Pair {
    Pair(Schedule(info, SecretOf(sent), [e.bobRatchet, e.first]),
         End(InitAlice(info, SecretOf(sent), e.bobRatchet, e.first, e.alice, e.bob, e.base, e.pqInit), 1, [], iset{}),
         End(InitBob(info, SecretOf(received), e.bobRatchet, e.bob, e.alice, e.base, e.pqInit), 0, [], iset{}), true)
  }

  /** The two ends agree and start in lock step. */
  ghost predicate Meet(info: Label, sent: Bytes, received: Bytes, e: Parties) {
    var p := SessionPair(info, sent, received, e);
    Agreed(p.me.session, p.peer.session) && PairInv(p)
  }

  /** The sessions meet exactly when the keys are the same. */
  lemma MeetIff(info: Label, sent: Bytes, received: Bytes, e: Parties)
    requires IsHandshakeLabel(info) && e.bobRatchet != e.first
    ensures Meet(info, sent, received, e) <==> sent == received
  {
    if sent == received {
      InitialisersAgree(info, SecretOf(sent), e.bobRatchet, e.first, e.alice, e.bob, e.base, e.pqInit);
      StartPairInv(info, SecretOf(sent), e.bobRatchet, e.first, e.alice, e.bob, e.base, e.pqInit);
    } else if SecretOf(sent) == SecretOf(received) {
      SecretOfInjective(sent, received);
    }
  }

  /** Sealed XHMQV: whatever `recv` accepts of what was sent starts a session that meets the sender's. */
  lemma XhmqvSessionsMeet(g: Xhmqv.Group, hash: Xhmqv.Hash, s: SealedRing.Suite, certificate: Bytes -> bool,
                          b: SealedRing.XhmqvBundle, k: SealedRing.XhmqvSecrets, sender: int, c: SealedRing.Content,
                          r: SealedRing.Coins, e: Parties)
    requires Xhmqv.GroupLaws(g) && SealedRing.SuiteLaws(s) && SealedRing.XhmqvMatches(g, s, b, k)
             && certificate(c.certificate)
    requires SealedRing.XhmqvSeal(g, hash, s, b, sender, c, r).Ok?
    requires var m := SealedRing.XhmqvMessage(g, hash, s, b, sender, c, r).0;
             && Codec.FieldsFit(m)
             && Codec.InnerFits(SealedRing.XHMQV_FORMAT,
                                SealedRing.InnerOf(c, Xhmqv.PublicKey(g, sender),
                                                   SealedRing.Signature(s, b.pq, c, m.ct1, m.ct2)))
    requires e.bobRatchet != e.first
    ensures var (data, sent) := SealedRing.XhmqvSeal(g, hash, s, b, sender, c, r).value;
            var accepted := SealedRing.XhmqvOpen(g, hash, s, certificate, k, data);
            accepted.Ok? ==> Meet(SealedXhmqvSession, sent, accepted.value.sessionKey, e)
  {
    SealedRing.XhmqvRoundTrip(g, hash, s, certificate, b, k, sender, c, r);
    var (_, sent) := SealedRing.XhmqvSeal(g, hash, s, b, sender, c, r).value;
    MeetIff(SealedXhmqvSession, sent, sent, e);
  }

  /** Sealed X3DH, with the sender's certificate. */
  lemma X3dhSessionsMeet(v: SealedRing.Curve, s: SealedRing.Suite, certified: SealedRing.CertificateKey,
                         b: SealedRing.X3dhBundle, k: SealedRing.X3dhSecrets, sender: Bytes, c: SealedRing.Content,
                         r: SealedRing.X3dhCoins, e: Parties)
    requires SealedRing.CurveLaws(v) && SealedRing.SuiteLaws(s) && SealedRing.X3dhMatches(v, s, b, k)
    requires certified(c.certificate) == Some(v.publicKey(sender))
             && SealedRing.X3dhSeal(v, s, b, sender, c, r).Ok?
    requires var m := SealedRing.X3dhMessage(v, s, b, sender, c, r).0;
             && Codec.FieldsFit(m)
             && Codec.InnerFits(SealedRing.X3DH_FORMAT,
                                SealedRing.InnerOf(c, v.publicKey(sender),
                                                   SealedRing.Signature(s, b.pq, c, m.ct1, m.ct2)))
    requires e.bobRatchet != e.first
    ensures var (data, sent) := SealedRing.X3dhSeal(v, s, b, sender, c, r).value;
            var accepted := SealedRing.X3dhOpen(v, s, certified, k, data);
            accepted.Ok? ==> Meet(SealedX3dhSession, sent, accepted.value.sessionKey, e)
  {
    SealedRing.X3dhRoundTrip(v, s, certified, b, k, sender, c, r);
    var (_, sent) := SealedRing.X3dhSeal(v, s, b, sender, c, r).value;
    MeetIff(SealedX3dhSession, sent, sent, e);
  }

  /** Sealed PQXDH: the message opens and the sessions meet. */
  lemma SpqxdhSessionsMeet(v: SealedRing.Curve, s: SealedRing.Suite, k: Spqxdh.Kdf, w: Spqxdh.Wire,
                           certified: SealedRing.CertificateKey, b: Spqxdh.Bundle, t: Spqxdh.Stores, sender: Bytes,
                           c: Spqxdh.Payload, ephemeral: Bytes, coins: Bytes, e: Parties)
    requires SealedRing.CurveLaws(v) && SealedRing.SuiteLaws(s) && Spqxdh.Published(v, s, b, t)
             && certified(c.certificate) == Some(v.publicKey(sender))
    requires Spqxdh.WireLaw(w, Spqxdh.SealedMessage(v, s, k, b, c, ephemeral, coins))
    requires e.bobRatchet != e.first
    ensures var (data, sent) := Spqxdh.Send(v, s, k, w, b, sender, c, ephemeral, coins);
            var received := Spqxdh.Recv(v, s, k, w, certified, t, data);
            received.Ok? && Meet(SealedPqxdhSession, sent, received.value.sessionKey, e)
  {
    Spqxdh.RoundTrip(v, s, k, w, certified, b, t, sender, c, ephemeral, coins);
    var (_, sent) := Spqxdh.Send(v, s, k, w, b, sender, c, ephemeral, coins);
    MeetIff(SealedPqxdhSession, sent, sent, e);
  }
}
