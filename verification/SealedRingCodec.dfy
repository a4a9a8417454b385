/**
 The byte formats of the sealed ring handshakes (rust/protocol/src/sealed_ringxkem_xhmqv.rs:69-80 and 208-332, and the
 same functions of sealed_ringxkem_x3dh.rs). The two handshakes differ in the version byte and in the length of an
 encoded public key, which are parameters here.
 */
module SealedRingCodec {
  import opened Prelude
  import opened ByteStrings

  const MAC_LEN := 32
  const U16_LIMIT := 0x1_0000
  const U32_LIMIT := 0x1_0000_0000

  // ---------------------------------------------------------------------------------------------
  // Little-endian lengths

  function LittleEndian(n: nat, k: nat): (b: Bytes)
    ensures |b| == k
  {
    if k == 0 then [] else [n % 0x100] + LittleEndian(n / 0x100, k - 1)
  }

  function FromLittleEndian(b: Bytes): nat {
    if b == [] then 0 else b[0] + 0x100 * FromLittleEndian(b[1..])
  }

  function Power256(k: nat): nat {
    if k == 0 then 1 else 0x100 * Power256(k - 1)
  }

  /** Reading back keeps a number exactly when it fits k bytes, and shrinks it otherwise. */
  lemma {:induction false} LittleEndianReadsBack(n: nat, k: nat)
    ensures FromLittleEndian(LittleEndian(n, k)) <= n
    ensures FromLittleEndian(LittleEndian(n, k)) == n <==> n < Power256(k)
  {
    if k > 0 {
      LittleEndianReadsBack(n / 0x100, k - 1);
      assert LittleEndian(n, k)[1..] == LittleEndian(n / 0x100, k - 1);
    }
  }

  lemma {:induction false} LittleEndianInverse(b: Bytes)
    ensures LittleEndian(FromLittleEndian(b), |b|) == b && FromLittleEndian(b) < Power256(|b|)
  {
    if b != [] {
      LittleEndianInverse(b[1..]);
      var n := FromLittleEndian(b);
      assert n % 0x100 == b[0] && n / 0x100 == FromLittleEndian(b[1..]);
    }
  }

  lemma Powers()
    ensures Power256(2) == U16_LIMIT && Power256(4) == U32_LIMIT
  {
    assert Power256(3) == 0x100_0000;
  }

  /** A field preceded by its length in k bytes; a length that does not fit loses its high bytes. */
  function Field(data: Bytes, k: nat): Bytes {
    LittleEndian(|data|, k) + data
  }

  /** Splits a length-prefixed field off the front. */
  function TakeField(b: Bytes, k: nat): Option<(Bytes, Bytes)> {
    if |b| < k then None
    else
      var n := FromLittleEndian(b[..k]);
      if |b| < k + n then None else Some((b[k..k + n], b[k + n..]))
  }

  lemma SplitFront(a: Bytes, b: Bytes, n: nat)
    requires n <= |b|
    ensures (a + b)[..|a|] == a && (a + b)[|a|..|a| + n] == b[..n] && (a + b)[|a| + n..] == b[n..]
  {
  }

  /** The field comes back, with what followed it, exactly when its length fits the prefix. */
  lemma FieldRoundTripIff(data: Bytes, k: nat, rest: Bytes)
    ensures TakeField(Field(data, k) + rest, k) == Some((data, rest)) <==> |data| < Power256(k)
    ensures var r := TakeField(Field(data, k) + rest, k);
            r.Some? && |r.value.0| <= |data|
  {
    var prefix := LittleEndian(|data|, k);
    var n := FromLittleEndian(prefix);
    LittleEndianReadsBack(|data|, k);
    assert Field(data, k) + rest == prefix + (data + rest);
    SplitFront(prefix, data + rest, n);
    if n == |data| {
      SplitFront(data, rest, 0);
    }
  }

  lemma TakeFieldInverse(b: Bytes, k: nat)
    ensures var r := TakeField(b, k);
            r.Some? ==> b == Field(r.value.0, k) + r.value.1 && |r.value.0| < Power256(k)
  {
    if TakeField(b, k).Some? {
      LittleEndianInverse(b[..k]);
      var n := FromLittleEndian(b[..k]);
      assert b == b[..k] + b[k..k + n] + b[k + n..];
    }
  }

  // ---------------------------------------------------------------------------------------------
  // Outer message

  datatype Format = Format(version: byte, keyLength: nat)

  datatype Outer = Outer(ephemeral: Bytes, ct1: Bytes, ct2: Bytes, inner: Bytes)

  /** `serialize_without_mac_inner` */
  function EncodeOuter(f: Format, m: Outer): Bytes {
    [f.version] + m.ephemeral + EncodeFields(m)
  }

  function EncodeFields(m: Outer): Bytes {
    Field(m.ct1, 4) + (Field(m.ct2, 4) + Field(m.inner, 4))
  }

  datatype ParsedOuter = ParsedOuter(encoded: Bytes, mac: Bytes, message: Outer)

  /** The three length-prefixed fields; bytes after the last one are ignored. */
  function ParseFields(b: Bytes): Option<(Bytes, Bytes, Bytes)> {
    var first := TakeField(b, 4);
    if first.None? then None
    else
      var second := TakeField(first.value.1, 4);
      if second.None? then None
      else
        var third := TakeField(second.value.1, 4);
        if third.None? then None else Some((first.value.0, second.value.0, third.value.0))
  }

  /** The outcome of `verified_parse_outer`. */
  function ParseOuter(f: Format, data: Bytes): Option<ParsedOuter> {
    if |data| < MAC_LEN + 1 then None
    else
      var encoded, mac := data[..|data| - MAC_LEN], data[|data| - MAC_LEN..];
      if encoded[0] != f.version || |encoded| < 1 + f.keyLength then None
      else
        var fields := ParseFields(encoded[1 + f.keyLength..]);
        if fields.None? then None
        else Some(ParsedOuter(encoded, mac,
                              Outer(encoded[1..1 + f.keyLength], fields.value.0, fields.value.1, fields.value.2)))
  }

  predicate FieldsFit(m: Outer) {
    |m.ct1| < U32_LIMIT && |m.ct2| < U32_LIMIT && |m.inner| < U32_LIMIT
  }

  lemma FieldsRoundTripIff(m: Outer)
    ensures ParseFields(EncodeFields(m)) == Some((m.ct1, m.ct2, m.inner)) <==> FieldsFit(m)
  {
    Powers();
    var tail2 := Field(m.ct2, 4) + Field(m.inner, 4);
    FieldRoundTripIff(m.ct1, 4, tail2);
    FieldRoundTripIff(m.ct2, 4, Field(m.inner, 4));
    FieldRoundTripIff(m.inner, 4, []);
    assert Field(m.inner, 4) + [] == Field(m.inner, 4);
    if |m.ct1| >= U32_LIMIT {
      CutFieldIsShorter(m.ct1, 4, tail2);
    } else if |m.ct2| >= U32_LIMIT {
      CutFieldIsShorter(m.ct2, 4, Field(m.inner, 4));
    } else if |m.inner| >= U32_LIMIT {
      CutFieldIsShorter(m.inner, 4, []);
    }
  }

  lemma CutFieldIsShorter(data: Bytes, k: nat, rest: Bytes)
    requires |data| >= Power256(k)
    ensures var r := TakeField(Field(data, k) + rest, k);
            r.Some? && r.value.0 != data
  {
    FieldRoundTripIff(data, k, rest);
    LittleEndianReadsBack(|data|, k);
    assert (Field(data, k) + rest)[..k] == LittleEndian(|data|, k);
  }

  /** A serialized message parses back to itself exactly when its three fields are shorter than 2^32 bytes. */
  lemma OuterRoundTripIff(f: Format, m: Outer, mac: Bytes)
    requires |m.ephemeral| == f.keyLength && |mac| == MAC_LEN
    ensures ParseOuter(f, EncodeOuter(f, m) + mac) == Some(ParsedOuter(EncodeOuter(f, m), mac, m)) <==> FieldsFit(m)
  {
    var encoded := EncodeOuter(f, m);
    var data := encoded + mac;
    assert data[..|data| - MAC_LEN] == encoded && data[|data| - MAC_LEN..] == mac;
    assert encoded[1..1 + f.keyLength] == m.ephemeral && encoded[1 + f.keyLength..] == EncodeFields(m);
    FieldsRoundTripIff(m);
  }

  lemma FieldsCanonical(b: Bytes)
    ensures var r := ParseFields(b);
            r.Some? ==>
              var m := Outer([], r.value.0, r.value.1, r.value.2);
              EncodeFields(m) <= b && FieldsFit(m)
  {
    if ParseFields(b).Some? {
      Powers();
      var first := TakeField(b, 4).value;
      var second := TakeField(first.1, 4).value;
      var third := TakeField(second.1, 4).value;
      TakeFieldInverse(b, 4);
      TakeFieldInverse(first.1, 4);
      TakeFieldInverse(second.1, 4);
      assert b == (Field(first.0, 4) + (Field(second.0, 4) + Field(third.0, 4))) + third.1;
    }
  }

  /** Every byte string that parses is the serialization of what was parsed, then ignored bytes, then the MAC. */
  lemma OuterCanonical(f: Format, data: Bytes)
    requires ParseOuter(f, data).Some?
    ensures var p := ParseOuter(f, data).value;
            data == p.encoded + p.mac && |p.mac| == MAC_LEN && |p.message.ephemeral| == f.keyLength &&
            FieldsFit(p.message) && EncodeOuter(f, p.message) <= p.encoded
  {
    OuterShape(f, data);
    ShapeIsCanonical(f, ParseOuter(f, data).value);
  }

  lemma OuterShape(f: Format, data: Bytes)
    requires ParseOuter(f, data).Some?
    ensures var p := ParseOuter(f, data).value;
            data == p.encoded + p.mac && |p.mac| == MAC_LEN && Shaped(f, p)
  {
    assert data == data[..|data| - MAC_LEN] + data[|data| - MAC_LEN..];
  }

  /** The parts of a parsed message lie where the format puts them. */
  predicate Shaped(f: Format, p: ParsedOuter) {
    var k := 1 + f.keyLength;
    |p.encoded| >= k && p.encoded[0] == f.version && p.message.ephemeral == p.encoded[1..k] &&
    ParseFields(p.encoded[k..]) == Some((p.message.ct1, p.message.ct2, p.message.inner))
  }

  lemma ShapeIsCanonical(f: Format, p: ParsedOuter)
    requires Shaped(f, p)
    ensures |p.message.ephemeral| == f.keyLength && FieldsFit(p.message) && EncodeOuter(f, p.message) <= p.encoded
  {
    var k := 1 + f.keyLength;
    Rejoin(p.encoded, k);
    FieldsCanonical(p.encoded[k..]);
    SerializedIsPrefix(f, p.message, p.encoded);
  }

  lemma SerializedIsPrefix(f: Format, m: Outer, encoded: Bytes)
    requires |encoded| > |m.ephemeral| && encoded == ([f.version] + m.ephemeral) + encoded[1 + |m.ephemeral|..]
    requires EncodeFields(m) <= encoded[1 + |m.ephemeral|..]
    ensures EncodeOuter(f, m) <= encoded
  {
    PrefixAfter([f.version] + m.ephemeral, EncodeFields(m), encoded[1 + |m.ephemeral|..]);
  }

  lemma Rejoin(b: Bytes, k: nat)
    requires 1 <= k <= |b|
    ensures b == ([b[0]] + b[1..k]) + b[k..]
  {
  }

  lemma PrefixAfter(a: Bytes, b: Bytes, c: Bytes)
    requires b <= c
    ensures a + b <= a + c
  {
    assert a + c == (a + b) + c[|b|..];
  }

  /** `verified_parse_outer`: an index moves over the buffer, checked before every read. */
  method VerifiedParseOuter(f: Format, data: Bytes) returns (r: Option<ParsedOuter>)
    ensures r == ParseOuter(f, data)
  {
    if |data| < MAC_LEN + 1 {
      return None;
    }
    var encoded, expectedMac := data[..|data| - MAC_LEN], data[|data| - MAC_LEN..];
    if encoded[0] != f.version {
      return None;
    }
    var idx := 1;
    if |encoded| < idx + f.keyLength {
      return None;
    }
    var eph := encoded[idx..idx + f.keyLength];
    idx := idx + f.keyLength;
    var fields := ReadFields(encoded, idx);
    if fields.None? {
      return None;
    }
    return Some(ParsedOuter(encoded, expectedMac, Outer(eph, fields.value.0, fields.value.1, fields.value.2)));
  }

  method ReadFields(encoded: Bytes, idx: nat) returns (r: Option<(Bytes, Bytes, Bytes)>)
    requires idx <= |encoded|
    ensures r == ParseFields(encoded[idx..])
  {
    var first := ReadField(encoded, idx, 4);
    if first.None? {
      return None;
    }
    var second := ReadField(encoded, first.value.1, 4);
    if second.None? {
      return None;
    }
    var third := ReadField(encoded, second.value.1, 4);
    if third.None? {
      return None;
    }
    return Some((first.value.0, second.value.0, third.value.0));
  }

  /** A length-prefixed field at an index, and the index after it. */
  method ReadField(b: Bytes, idx: nat, k: nat) returns (r: Option<(Bytes, nat)>)
    requires idx <= |b|
    ensures r.None? <==> TakeField(b[idx..], k).None?
    ensures r.Some? ==> r.value.1 <= |b| && TakeField(b[idx..], k) == Some((r.value.0, b[r.value.1..]))
  {
    if |b| < idx + k {
      return None;
    }
    var n := FromLittleEndian(b[idx..idx + k]);
    assert b[idx..][..k] == b[idx..idx + k];
    var start := idx + k;
    if |b| < start + n {
      return None;
    }
    assert b[idx..][k..k + n] == b[start..start + n] && b[idx..][k + n..] == b[start + n..];
    return Some((b[start..start + n], start + n));
  }

  // ---------------------------------------------------------------------------------------------
  // Inner message

  datatype MessageType = Whisper | PreKey | SenderKey | Plaintext

  function TypeByte(t: MessageType): byte {
    match t
    case Whisper => 2
    case PreKey => 3
    case SenderKey => 7
    case Plaintext => 8
  }

  function TypeOf(b: byte): Option<MessageType> {
    if b == 2 then Some(Whisper) else if b == 3 then Some(PreKey) else if b == 7 then Some(SenderKey)
    else if b == 8 then Some(Plaintext) else None
  }

  datatype ContentHint = Default | Resendable | Implicit | Unknown(value: u32)

  function HintToU32(h: ContentHint): u32 {
    match h
    case Default => 0
    case Resendable => 1
    case Implicit => 2
    case Unknown(value) => value
  }

  function HintFromU32(n: u32): ContentHint {
    if n == 0 then Default else if n == 1 then Resendable else if n == 2 then Implicit else Unknown(n)
  }

  /** The hint after its trip through one byte. */
  function OneByteHint(h: ContentHint): ContentHint {
    HintFromU32(HintToU32(h) % 0x100)
  }

  /** Unknown hints of 256 and above come back as other hints. */
  lemma HintSurvivesIff(h: ContentHint)
    ensures OneByteHint(h) == h <==> (h.Unknown? ==> 3 <= h.value < 0x100)
    ensures h.Unknown? && h.value % 0x100 == 0 ==> OneByteHint(h) == Default
  {
  }

  datatype Inner = Inner(
    registrationId: u32, messageType: MessageType, hint: ContentHint, identity: Bytes, vks: Bytes, sigma: Bytes,
    certificate: Bytes)

  datatype InnerError = TooShort | InvalidMessageType | InvalidIdentityKey | InvalidCertificate

  /** Which byte strings decode as public keys and as certificates. */
  datatype Decoders = Decoders(key: Bytes -> bool, certificate: Bytes -> bool)

  /** `build_inner_message`, before encryption. */
  function EncodeInner(m: Inner): Bytes {
    LittleEndian(m.registrationId, 4) + [TypeByte(m.messageType)] + [HintToU32(m.hint) % 0x100] + m.identity
        + EncodeTail(m)
  }

  function EncodeTail(m: Inner): Bytes {
    Field(m.vks, 2) + (Field(m.sigma, 2) + Field(m.certificate, 4))
  }

  function ParseTail(b: Bytes): Option<(Bytes, Bytes, Bytes)> {
    var vks := TakeField(b, 2);
    if vks.None? then None
    else
      var sigma := TakeField(vks.value.1, 2);
      if sigma.None? then None
      else
        var certificate := TakeField(sigma.value.1, 4);
        if certificate.None? then None else Some((vks.value.0, sigma.value.0, certificate.value.0))
  }

  /** The outcome of `validated_parse_inner`, after decryption. */
  function ParseInner(f: Format, d: Decoders, b: Bytes): Result<Inner, InnerError> {
    var k := 6 + f.keyLength;
    if |b| < k + 2 + 2 + 4 then Err(TooShort)
    else
      var messageType := TypeOf(b[4]);
      if messageType.None? then Err(InvalidMessageType)
      else if !d.key(b[6..k]) then Err(InvalidIdentityKey)
      else
        var tail := ParseTail(b[k..]);
        if tail.None? then Err(TooShort)
        else if !d.certificate(tail.value.2) then Err(InvalidCertificate)
        else
          LittleEndianInverse(b[..4]);
          Powers();
          Ok(Inner(FromLittleEndian(b[..4]), messageType.value, HintFromU32(b[5]), b[6..k], tail.value.0, tail.value.1,
                   tail.value.2))
  }

  /** Lengths that the writer can represent: it refuses a longer key or signature. */
  predicate InnerFits(f: Format, m: Inner) {
    |m.identity| == f.keyLength && |m.vks| < U16_LIMIT && |m.sigma| < U16_LIMIT && |m.certificate| < U32_LIMIT
  }

  lemma TailRoundTrip(m: Inner)
    requires |m.vks| < U16_LIMIT && |m.sigma| < U16_LIMIT && |m.certificate| < U32_LIMIT
    ensures ParseTail(EncodeTail(m)) == Some((m.vks, m.sigma, m.certificate))
  {
    Powers();
    FieldRoundTripIff(m.vks, 2, Field(m.sigma, 2) + Field(m.certificate, 4));
    FieldRoundTripIff(m.sigma, 2, Field(m.certificate, 4));
    FieldRoundTripIff(m.certificate, 4, []);
    assert Field(m.certificate, 4) + [] == Field(m.certificate, 4);
  }

  /** An inner message parses back to itself, except that its hint is cut to one byte. */
  lemma InnerRoundTrip(f: Format, d: Decoders, m: Inner)
    requires InnerFits(f, m) && d.key(m.identity) && d.certificate(m.certificate)
    ensures ParseInner(f, d, EncodeInner(m)) == Ok(m.(hint := OneByteHint(m.hint)))
  {
    Powers();
    LittleEndianReadsBack(m.registrationId, 4);
    TailRoundTrip(m);
    LayoutReads(f, LittleEndian(m.registrationId, 4), TypeByte(m.messageType), HintToU32(m.hint) % 0x100, EncodeTail(m),
                m.(hint := OneByteHint(m.hint)));
    ParseInnerOf(f, d, EncodeInner(m), m.(hint := OneByteHint(m.hint)));
  }

  /** The parts of the byte string, where the format puts them, read as those of `m`. */
  predicate ReadsAs(f: Format, b: Bytes, m: Inner) {
    var k := 6 + f.keyLength;
    |b| >= k + 8 && FromLittleEndian(b[..4]) == m.registrationId && TypeOf(b[4]) == Some(m.messageType) &&
    HintFromU32(b[5]) == m.hint && b[6..k] == m.identity && ParseTail(b[k..]) == Some((m.vks, m.sigma, m.certificate))
  }

  lemma LayoutReads(f: Format, registration: Bytes, t: byte, h: byte, tail: Bytes, m: Inner)
    requires |registration| == 4 && FromLittleEndian(registration) == m.registrationId && |m.identity| == f.keyLength
    requires TypeOf(t) == Some(m.messageType) && HintFromU32(h) == m.hint
    requires |tail| >= 8 && ParseTail(tail) == Some((m.vks, m.sigma, m.certificate))
    ensures ReadsAs(f, registration + [t] + [h] + m.identity + tail, m)
  {
    var b, k := registration + [t] + [h] + m.identity + tail, 6 + f.keyLength;
    assert b[..4] == registration && b[4] == t && b[5] == h && b[6..k] == m.identity && b[k..] == tail;
  }

  lemma ParseInnerOf(f: Format, d: Decoders, b: Bytes, m: Inner)
    requires ReadsAs(f, b, m) && d.key(m.identity) && d.certificate(m.certificate)
    ensures ParseInner(f, d, b) == Ok(m)
  {
  }

  /** `validated_parse_inner` with its moving offset. */
  method ValidatedParseInner(f: Format, d: Decoders, b: Bytes) returns (r: Result<Inner, InnerError>)
    ensures r == ParseInner(f, d, b)
  {
    if |b| < 6 + f.keyLength + 2 + 2 + 4 {
      return Err(TooShort);
    }
    LittleEndianInverse(b[..4]);
    Powers();
    var registrationId: u32 := FromLittleEndian(b[..4]);
    var messageType := TypeOf(b[4]);
    if messageType.None? {
      return Err(InvalidMessageType);
    }
    var hint := HintFromU32(b[5]);
    var o := 6 + f.keyLength;
    var identity := b[6..o];
    if !d.key(identity) {
      return Err(InvalidIdentityKey);
    }
    var vks := ReadField(b, o, 2);
    if vks.None? || |b| < vks.value.1 + 2 {
      return Err(TooShort);
    }
    var sigma := ReadField(b, vks.value.1, 2);
    if sigma.None? || |b| < sigma.value.1 + 4 {
      return Err(TooShort);
    }
    var certificate := ReadField(b, sigma.value.1, 4);
    if certificate.None? {
      return Err(TooShort);
    }
    if !d.certificate(certificate.value.0) {
      return Err(InvalidCertificate);
    }
    return Ok(Inner(registrationId, messageType.value, hint, identity, vks.value.0, sigma.value.0,
                    certificate.value.0));
  }
}
