/**
 The wire format of Sealed Sender v2 sent messages (rust/protocol/src/sealed_sender.rs:1300-1350).

 A sent message is a version byte, a recipient count, one entry per group of devices and per excluded recipient, and
 the bytes shared by all recipients. The functions below define the encoding and the outcome of the parser; the
 parser itself, with its cursor and loops, is in module `SentMessageParser`.
 */
module SealedSenderWire {
  import opened Prelude
  import opened ByteStrings

  type u16 = x: int | 0 <= x < 0x1_0000
  type Uuid = b: Bytes | |b| == 16 witness [0, 0, 0, 0, 0, 0, 0, 0, 0, 0, 0, 0, 0, 0, 0, 0]
  type DeviceId = x: byte | 0 < x <= 127 witness 1
  type RegistrationId = x: u16 | x < 0x4000   // 14 bits

  const UUID_FULL_VERSION: byte := 0x22
  const SERVICE_ID_FULL_VERSION: byte := 0x23
  const REGISTRATION_ID_LIMIT := 0x4000
  const HAS_MORE := 0x8000
  const MAX_VALID_DEVICE_ID: byte := 127
  const KEY_MATERIAL_LEN := 48   // C (32 bytes) and AT (16 bytes)
  const PUBLIC_KEY_LEN := 32

  datatype WireError = MessageWasEmpty | UnknownVersion(version: byte) | InvalidEncoding | RedundantlyEmpty

  datatype ServiceId = Aci(uuid: Uuid) | Pni(uuid: Uuid)

  datatype Device = Device(deviceId: DeviceId, registrationId: RegistrationId)

  datatype Recipient = Recipient(devices: seq<Device>, keyMaterial: Bytes)

  /** One entry on the wire, and one entry of the parsed, insertion-ordered recipient map. */
  datatype Entry = Entry(id: ServiceId, recipient: Recipient)

  datatype SentMessage = SentMessage(version: byte, recipients: seq<Entry>, shared: Bytes)

  // ---------------------------------------------------------------------------------------------
  // Primitive encodings

  function IdBytes(id: ServiceId): Bytes {
    [if id.Aci? then 0 else 1] + id.uuid
  }

  function ParseId(b: Bytes): Option<ServiceId>
    requires |b| == 17
  {
    if b[0] == 0 then Some(Aci(b[1..])) else if b[0] == 1 then Some(Pni(b[1..])) else None
  }

  function Be16(x: u16): Bytes {
    [x / 0x100, x % 0x100]
  }

  function FromBe16(hi: byte, lo: byte): u16 {
    0x100 * hi + lo
  }

  /** The masks of the device word, read as arithmetic. */
  lemma MasksAreArithmetic(word: bv16)
    ensures word & 0x3FFF == word % 0x4000
    ensures word & 0x8000 != 0 <==> word >= 0x8000
    ensures word & 0x3FFF == word <==> word < 0x4000
    ensures word < 0x4000 ==> word | 0x8000 == word + 0x8000 && word + 0x8000 >= 0x8000
  {
  }

  /** Base-128 varint, least significant group first. */
  function Varint(n: nat): Bytes {
    if n < 128 then [n] else [n % 128 + 128] + Varint(n / 128)
  }

  /** Decodes a varint of at most `limit` bytes. */
  function DecodeVarint(b: Bytes, limit: nat): Option<nat> {
    if b == [] || limit == 0 then None
    else if b[0] < 128 then Some(b[0])
    else match DecodeVarint(b[1..], limit - 1)
         case None => None
         case Some(rest) => Some(b[0] - 128 + 128 * rest)
  }

  const VARINT_LIMIT := 10

  /** The canonical form of a decoded number is no longer than the bytes it was decoded from. */
  lemma {:induction false} CanonicalFits(b: Bytes, limit: nat)
    ensures var n := DecodeVarint(b, limit);
            n.Some? ==> |Varint(n.value)| <= |b|
    decreases |b|
  {
    if b != [] && limit > 0 && b[0] >= 128 {
      CanonicalFits(b[1..], limit - 1);
    }
  }

  /** A number below 128^limit is read back from its first `limit` bytes; a larger one does not decode. */
  lemma {:induction false} VarintRoundTrip(n: nat, rest: Bytes, limit: nat)
    requires limit > 0
    ensures DecodeVarint(Varint(n) + rest, limit) == if n < Power128(limit) then Some(n) else None
    decreases limit
  {
    assert Power128(limit) == 128 * Power128(limit - 1);
    if n >= 128 {
      assert (Varint(n) + rest)[1..] == Varint(n / 128) + rest;
      if limit > 1 {
        VarintRoundTrip(n / 128, rest, limit - 1);
      }
    }
  }

  function Power128(k: nat): (p: nat)
    ensures p > 0
  {
    if k == 0 then 1 else 128 * Power128(k - 1)
  }

  lemma CountFits(n: nat)
    requires n <= U32_MAX
    ensures n < Power128(VARINT_LIMIT)
  {
    assert Power128(2) == 16384;
    assert Power128(4) == 268435456;
    assert Power128(6) == 4398046511104;
    assert Power128(8) == 72057594037927936;
  }

  // ---------------------------------------------------------------------------------------------
  // Encoding

  /** An excluded recipient has neither devices nor key material. */
  predicate IsEntry(e: Entry) {
    |e.recipient.keyMaterial| == if e.recipient.devices == [] then 0 else KEY_MATERIAL_LEN
  }

  function EncodeDevices(ds: seq<Device>): Bytes {
    if ds == [] then []
    else
      var more := if |ds| > 1 then HAS_MORE else 0;
      [ds[0].deviceId] + Be16(ds[0].registrationId + more) + EncodeDevices(ds[1..])
  }

  function EncodeEntry(e: Entry): Bytes
    requires IsEntry(e)
  {
    IdBytes(e.id)
        + (if e.recipient.devices == [] then [0] else EncodeDevices(e.recipient.devices) + e.recipient.keyMaterial)
  }

  function EncodeEntries(es: seq<Entry>): Bytes
    requires forall e :: e in es ==> IsEntry(e)
  {
    if es == [] then [] else EncodeEntry(es[0]) + EncodeEntries(es[1..])
  }

  function EncodeSent(es: seq<Entry>, shared: Bytes): Bytes
    requires forall e :: e in es ==> IsEntry(e)
  {
    [SERVICE_ID_FULL_VERSION] + (Varint(|es|) + (EncodeEntries(es) + shared))
  }

  // ---------------------------------------------------------------------------------------------
  // Outcome of the parser

  /** The device list at the head of a buffer; a list that starts with 0 is empty, a later 0 is an error. */
  function ParseDevices(b: Bytes, first: bool): Result<(seq<Device>, Bytes), WireError> {
    if |b| < 1 then Err(InvalidEncoding)
    else if b[0] == 0 then (if first then Ok(([], b[1..])) else Err(InvalidEncoding))
    else if b[0] > MAX_VALID_DEVICE_ID || |b| < 3 then Err(InvalidEncoding)
    else
      var word := FromBe16(b[1], b[2]);
      var d := Device(b[0], word % REGISTRATION_ID_LIMIT);
      if word < HAS_MORE then Ok(([d], b[3..]))
      else
        var (ds, rest) :- ParseDevices(b[3..], false);
        Ok(([d] + ds, rest))
  }

  function IdLength(version: byte): nat {
    if version == UUID_FULL_VERSION then 16 else 17
  }

  function ParseEntry(b: Bytes, version: byte): Result<(Entry, Bytes), WireError> {
    if |b| < IdLength(version) then Err(InvalidEncoding)
    else
      var id := if version == UUID_FULL_VERSION then Some(Aci(b[..16])) else ParseId(b[..17]);
      if id.None? then Err(InvalidEncoding)
      else
        var (ds, rest) :- ParseDevices(b[IdLength(version)..], true);
        if ds == [] then Ok((Entry(id.value, Recipient([], [])), rest))
        else if |rest| < KEY_MATERIAL_LEN then Err(InvalidEncoding)
        else Ok((Entry(id.value, Recipient(ds, rest[..KEY_MATERIAL_LEN])), rest[KEY_MATERIAL_LEN..]))
  }

  function FindEntry(es: seq<Entry>, id: ServiceId): (r: Option<nat>)
    ensures r.Some? ==> r.value < |es| && es[r.value].id == id
    ensures r.Some? ==> forall j :: 0 <= j < r.value ==> es[j].id != id
    ensures r.None? ==> forall j :: 0 <= j < |es| ==> es[j].id != id
  {
    if es == [] then None
    else if es[0].id == id then Some(0)
    else
      var rest := FindEntry(es[1..], id);
      if rest.Some? then Some(rest.value + 1) else None
  }

  /** A repeated recipient gains devices but keeps its first key material; neither occurrence may be empty. */
  function Merge(es: seq<Entry>, e: Entry): Result<seq<Entry>, WireError> {
    match FindEntry(es, e.id)
    case None => Ok(es + [e])
    case Some(i) =>
      if es[i].recipient.devices == [] || e.recipient.devices == [] then Err(RedundantlyEmpty)
      else Ok(es[i := Entry(e.id, es[i].recipient.(devices := es[i].recipient.devices + e.recipient.devices))])
  }

  function ParseEntries(b: Bytes, version: byte, count: nat, es: seq<Entry>): Result<(seq<Entry>, Bytes), WireError>
    decreases count
  {
    if count == 0 then Ok((es, b))
    else
      var (e, rest) :- ParseEntry(b, version);
      var es' :- Merge(es, e);
      ParseEntries(rest, version, count - 1, es')
  }

  function ParseSent(data: Bytes): Result<SentMessage, WireError> {
    if data == [] then Err(MessageWasEmpty)
    else if data[0] != UUID_FULL_VERSION && data[0] != SERVICE_ID_FULL_VERSION then Err(UnknownVersion(data[0]))
    else
      var b := data[1..];
      match DecodeVarint(b, VARINT_LIMIT)
      case None => Err(InvalidEncoding)
      case Some(count) =>
        // the cursor moves by the canonical length of the decoded count
        CanonicalFits(b, VARINT_LIMIT);
        if count > U32_MAX then Err(InvalidEncoding)
        else ParseCounted(b[|Varint(count)|..], data[0], count)
  }

  /** Everything after the recipient count. */
  function ParseCounted(b: Bytes, version: byte, count: nat): Result<SentMessage, WireError> {
    var (es, rest) :- ParseEntries(b, version, count, []);
    if |rest| < PUBLIC_KEY_LEN then Err(InvalidEncoding)
    else Ok(SentMessage(version, es, rest))
  }

  /** The ReceivedMessage for one recipient. */
  function ReceivedFor(m: SentMessage, r: Recipient): Bytes {
    [UUID_FULL_VERSION] + r.keyMaterial + m.shared
  }

  // ---------------------------------------------------------------------------------------------
  // Entries read back what was written

  /** Reads one device and its continuation flag. */
  lemma DeviceStep(d: Device, more: u16, rest: Bytes, first: bool)
    requires more == HAS_MORE || more == 0
    ensures ParseDevices([d.deviceId] + Be16(d.registrationId + more) + rest, first)
         == if more == 0 then Ok(([d], rest)) else PrependDevice(d, ParseDevices(rest, false))
  {
    DeviceLayout(d, more, rest);
    ParseOneDevice(d, more, [d.deviceId] + Be16(d.registrationId + more) + rest, rest, first);
  }

  lemma DeviceLayout(d: Device, more: u16, rest: Bytes)
    requires more == HAS_MORE || more == 0
    ensures var b := [d.deviceId] + Be16(d.registrationId + more) + rest;
            |b| >= 3 && b[0] == d.deviceId && FromBe16(b[1], b[2]) == d.registrationId + more && b[3..] == rest
  {
    var word := d.registrationId + more;
    assert [d.deviceId] + Be16(word) + rest == [d.deviceId, word / 0x100, word % 0x100] + rest;
  }

  lemma ParseOneDevice(d: Device, more: u16, b: Bytes, rest: Bytes, first: bool)
    requires more == HAS_MORE || more == 0
    requires |b| >= 3 && b[0] == d.deviceId && FromBe16(b[1], b[2]) == d.registrationId + more && b[3..] == rest
    ensures ParseDevices(b, first) == if more == 0 then Ok(([d], rest)) else PrependDevice(d, ParseDevices(rest, false))
  {
    assert (d.registrationId + more) % REGISTRATION_ID_LIMIT == d.registrationId;
  }

  function PrependDevice(d: Device, r: Result<(seq<Device>, Bytes), WireError>)
    : Result<(seq<Device>, Bytes), WireError>
  {
    match r
    case Ok(p) => Ok(([d] + p.0, p.1))
    case Err(e) => Err(e)
  }

  lemma {:induction false} DevicesRoundTrip(ds: seq<Device>, rest: Bytes, first: bool)
    requires ds != []
    ensures ParseDevices(EncodeDevices(ds) + rest, first) == Ok((ds, rest))
    decreases |ds|
  {
    var d, more := ds[0], if |ds| > 1 then HAS_MORE else 0;
    var tail := EncodeDevices(ds[1..]) + rest;
    assert EncodeDevices(ds) + rest == [d.deviceId] + Be16(d.registrationId + more) + tail;
    DeviceStep(d, more, tail, first);
    if |ds| > 1 {
      DevicesRoundTrip(ds[1..], rest, false);
      assert ParseDevices(tail, false) == Ok((ds[1..], rest));
      assert ds == [d] + ds[1..];
    } else {
      assert ds[1..] == [] && tail == rest && ds == [d];
    }
  }

  lemma IdRoundTrip(id: ServiceId, rest: Bytes)
    ensures var b := IdBytes(id) + rest;
            |b| >= 17 && ParseId(b[..17]) == Some(id) && b[17..] == rest
  {
    var b := IdBytes(id) + rest;
    assert b[..17] == IdBytes(id);
    assert IdBytes(id)[1..] == id.uuid;
  }

  lemma EntryRoundTrip(e: Entry, rest: Bytes)
    requires IsEntry(e)
    ensures ParseEntry(EncodeEntry(e) + rest, SERVICE_ID_FULL_VERSION) == Ok((e, rest))
  {
    var r := e.recipient;
    if r.devices == [] {
      assert EncodeEntry(e) + rest == IdBytes(e.id) + ([0] + rest);
      IdRoundTrip(e.id, [0] + rest);
      assert ([0] + rest)[1..] == rest;
      assert r.keyMaterial == [];
    } else {
      var tail := r.keyMaterial + rest;
      assert EncodeEntry(e) + rest == IdBytes(e.id) + (EncodeDevices(r.devices) + tail);
      IdRoundTrip(e.id, EncodeDevices(r.devices) + tail);
      DevicesRoundTrip(r.devices, tail, true);
      assert tail[..KEY_MATERIAL_LEN] == r.keyMaterial && tail[KEY_MATERIAL_LEN..] == rest;
    }
  }

  /** The recipient map built from entries in wire order. */
  function MergeAll(es: seq<Entry>, wire: seq<Entry>): Result<seq<Entry>, WireError>
    decreases |wire|
  {
    if wire == [] then Ok(es)
    else
      var es' :- Merge(es, wire[0]);
      MergeAll(es', wire[1..])
  }

  function WithTail(r: Result<seq<Entry>, WireError>, tail: Bytes): Result<(seq<Entry>, Bytes), WireError> {
    match r
    case Ok(es) => Ok((es, tail))
    case Err(e) => Err(e)
  }

  lemma ParseEntriesStep(b: Bytes, version: byte, e: Entry, rest: Bytes, count: nat, es: seq<Entry>)
    requires ParseEntry(b, version) == Ok((e, rest))
    ensures ParseEntries(b, version, count + 1, es)
         == var merged := Merge(es, e);
            if merged.Ok? then ParseEntries(rest, version, count, merged.value) else Err(merged.error)
  {
  }

  lemma {:induction false} EntriesRoundTrip(wire: seq<Entry>, tail: Bytes, es: seq<Entry>)
    requires forall e :: e in wire ==> IsEntry(e)
    ensures ParseEntries(EncodeEntries(wire) + tail, SERVICE_ID_FULL_VERSION, |wire|, es)
         == WithTail(MergeAll(es, wire), tail)
    decreases |wire|
  {
    if wire == [] {
      assert EncodeEntries(wire) + tail == tail;
    } else {
      var rest := EncodeEntries(wire[1..]) + tail;
      assert EncodeEntries(wire) + tail == EncodeEntry(wire[0]) + rest;
      EntryRoundTrip(wire[0], rest);
      ParseEntriesStep(EncodeEntries(wire) + tail, SERVICE_ID_FULL_VERSION, wire[0], rest, |wire| - 1, es);
      if Merge(es, wire[0]).Ok? {
        EntriesRoundTrip(wire[1..], tail, Merge(es, wire[0]).value);
      }
    }
  }

  /** The count at the head of an encoded message; one above 2^32 - 1 is refused. */
  lemma ParseBody(version: byte, count: nat, body: Bytes)
    requires version == UUID_FULL_VERSION || version == SERVICE_ID_FULL_VERSION
    ensures ParseSent([version] + (Varint(count) + body))
         == if count <= U32_MAX then ParseCounted(body, version, count) else Err(InvalidEncoding)
  {
    var data := [version] + (Varint(count) + body);
    assert data[1..] == Varint(count) + body;
    assert data[1..][|Varint(count)|..] == body;
    VarintRoundTrip(count, body, VARINT_LIMIT);
    if count <= U32_MAX {
      CountFits(count);
    }
  }

  /** Parsing an encoded message is merging its entries. */
  lemma SentRoundTrip(wire: seq<Entry>, shared: Bytes)
    requires (forall e :: e in wire ==> IsEntry(e)) && |shared| >= PUBLIC_KEY_LEN
    ensures ParseSent(EncodeSent(wire, shared))
         == if |wire| > U32_MAX then Err(InvalidEncoding)
            else match MergeAll([], wire)
                 case Ok(all) => Ok(SentMessage(SERVICE_ID_FULL_VERSION, all, shared))
                 case Err(e) => Err(e)
  {
    ParseBody(SERVICE_ID_FULL_VERSION, |wire|, EncodeEntries(wire) + shared);
    EntriesRoundTrip(wire, shared, []);
  }
}
