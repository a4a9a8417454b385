/**
 Further laws of Sealed Sender v2 (rust/protocol/src/sealed_sender.rs:1115-1145, 1634-1750 and 1911-1962): what any
 accepted byte string looks like, the older entries without a type byte, and what the authentication tag binds.
 */
module WireLaws {
  import opened Prelude
  import opened ByteStrings
  import opened SealedSenderWire
  import opened SealedSenderV2

  // ---------------------------------------------------------------------------------------------
  // Accepted byte strings

  /** Three bytes that stand for a device, with the continuation flag on the second. */
  predicate DeviceAt(b: Bytes, at: nat, d: Device, more: bool) {
    && at + 2 < |b| && b[at] == d.deviceId && (b[at + 1] >= 0x80 <==> more)
    && d.registrationId == (0x100 * (b[at + 1] as int) + b[at + 2]) % 0x4000
  }

  lemma DeviceShifts(b: Bytes, at: nat, d: Device, more: bool)
    requires |b| >= 3 && DeviceAt(b[3..], at, d, more)
    ensures DeviceAt(b, at + 3, d, more)
  {
  }

  /** A device list takes three bytes a device and ends at the first device without the continuation flag. */
  lemma {:induction false} ParsedDevices(b: Bytes, first: bool)
    requires ParseDevices(b, first).Ok?
    ensures var (ds, rest) := ParseDevices(b, first).value;
            && (ds == [] <==> first && b[0] == 0) && (ds == [] ==> b == [0] + rest)
            && (ds != [] ==> |b| == 3 * |ds| + |rest| && b[3 * |ds|..] == rest)
            && (forall i :: 0 <= i < |ds| ==> DeviceAt(b, 3 * i, ds[i], i < |ds| - 1))
    decreases |b|
  {
    if b[0] != 0 {
      assert DeviceAt(b, 0, ParseDevices(b, first).value.0[0], b[1] >= 0x80);
      if b[1] >= 0x80 {
        ParsedDevices(b[3..], false);
        var tail, ds := ParseDevices(b[3..], false).value.0, ParseDevices(b, first).value.0;
        assert ds == [ds[0]] + tail;
        forall i | 1 <= i < |ds| ensures DeviceAt(b, 3 * i, ds[i], i < |ds| - 1) {
          assert DeviceAt(b[3..], 3 * (i - 1), tail[i - 1], i - 1 < |tail| - 1);
          DeviceShifts(b, 3 * (i - 1), ds[i], i < |ds| - 1);
        }
      }
    }
  }

  /** An accepted message has a known version, at least a public key of shared bytes at its end, and no ID twice. */
  lemma ParsedSent(data: Bytes)
    requires ParseSent(data).Ok?
    ensures var m := ParseSent(data).value;
            && data[0] == m.version && (m.version == UUID_FULL_VERSION || m.version == SERVICE_ID_FULL_VERSION)
            && |data| > |m.shared| >= PUBLIC_KEY_LEN && data[|data| - |m.shared|..] == m.shared
            && (forall i, j :: 0 <= i < j < |m.recipients| ==> m.recipients[i].id != m.recipients[j].id)
  {
    var b := data[1..];
    var count := DecodeVarint(b, VARINT_LIMIT).value;
    CanonicalFits(b, VARINT_LIMIT);
    ParsedEntries(b[|Varint(count)|..], data[0], count, []);
  }

  lemma {:induction false} ParsedEntries(b: Bytes, version: byte, count: nat, es: seq<Entry>)
    requires ParseEntries(b, version, count, es).Ok?
    requires forall i, j :: 0 <= i < j < |es| ==> es[i].id != es[j].id
    ensures var (all, rest) := ParseEntries(b, version, count, es).value;
            && |rest| <= |b| && b[|b| - |rest|..] == rest
            && (forall i, j :: 0 <= i < j < |all| ==> all[i].id != all[j].id)
    decreases count
  {
    if count > 0 {
      var (e, rest) := ParseEntry(b, version).value;
      ParsedEntry(b, version);
      var es' := Merge(es, e).value;
      ParsedEntries(rest, version, count - 1, es');
    }
  }

  /** An entry ends with its key material if it has devices, and starts with its ID. */
  lemma ParsedEntry(b: Bytes, version: byte)
    requires ParseEntry(b, version).Ok?
    ensures var (e, rest) := ParseEntry(b, version).value;
            && |rest| <= |b| && b[|b| - |rest|..] == rest
            && |e.recipient.keyMaterial| == (if e.recipient.devices == [] then 0 else KEY_MATERIAL_LEN)
            && (version == UUID_FULL_VERSION ==> e.id == Aci(b[..16]))
            && (version != UUID_FULL_VERSION ==> b[..17] == [if e.id.Aci? then 0 else 1] + e.id.uuid)
  {
    ParsedDevices(b[IdLength(version)..], true);
  }

  // ---------------------------------------------------------------------------------------------
  // Entries without a type byte

  /** The older form of an entry, whose ID is always an ACI. */
  function EncodeUuidEntry(e: Entry): Bytes
    requires IsEntry(e)
  {
    e.id.uuid + (if e.recipient.devices == [] then [0]
                 else EncodeDevices(e.recipient.devices) + e.recipient.keyMaterial)
  }

  lemma UuidEntryRoundTrip(e: Entry, rest: Bytes)
    requires IsEntry(e) && e.id.Aci?
    ensures ParseEntry(EncodeUuidEntry(e) + rest, UUID_FULL_VERSION) == Ok((e, rest))
  {
    var r, b := e.recipient, EncodeUuidEntry(e) + rest;
    if r.devices == [] {
      assert b == e.id.uuid + ([0] + rest);
      assert b[..16] == e.id.uuid && b[16..] == [0] + rest && ([0] + rest)[1..] == rest;
      assert r.keyMaterial == [];
    } else {
      var tail := r.keyMaterial + rest;
      assert b == e.id.uuid + (EncodeDevices(r.devices) + tail);
      assert b[..16] == e.id.uuid && b[16..] == EncodeDevices(r.devices) + tail;
      DevicesRoundTrip(r.devices, tail, true);
      assert tail[..KEY_MATERIAL_LEN] == r.keyMaterial && tail[KEY_MATERIAL_LEN..] == rest;
    }
  }

  function EncodeUuidEntries(es: seq<Entry>): Bytes
    requires forall e :: e in es ==> IsEntry(e)
  {
    if es == [] then [] else EncodeUuidEntry(es[0]) + EncodeUuidEntries(es[1..])
  }

  lemma {:induction false} UuidEntriesRoundTrip(wire: seq<Entry>, tail: Bytes, es: seq<Entry>)
    requires forall e :: e in wire ==> IsEntry(e) && e.id.Aci?
    ensures ParseEntries(EncodeUuidEntries(wire) + tail, UUID_FULL_VERSION, |wire|, es)
         == WithTail(MergeAll(es, wire), tail)
    decreases |wire|
  {
    if wire == [] {
      assert EncodeUuidEntries(wire) + tail == tail;
    } else {
      var rest := EncodeUuidEntries(wire[1..]) + tail;
      assert EncodeUuidEntries(wire) + tail == EncodeUuidEntry(wire[0]) + rest;
      UuidEntryRoundTrip(wire[0], rest);
      ParseEntriesStep(EncodeUuidEntries(wire) + tail, UUID_FULL_VERSION, wire[0], rest, |wire| - 1, es);
      if Merge(es, wire[0]).Ok? {
        UuidEntriesRoundTrip(wire[1..], tail, Merge(es, wire[0]).value);
      }
    }
  }

  /** A message of the older version, whose IDs have no type byte, is parsed by merging its entries as well. */
  lemma UuidSentRoundTrip(wire: seq<Entry>, shared: Bytes)
    requires (forall e :: e in wire ==> IsEntry(e) && e.id.Aci?) && |shared| >= PUBLIC_KEY_LEN && |wire| <= U32_MAX
    ensures ParseSent([UUID_FULL_VERSION] + (Varint(|wire|) + (EncodeUuidEntries(wire) + shared)))
         == match MergeAll([], wire)
            case Ok(all) => Ok(SentMessage(UUID_FULL_VERSION, all, shared))
            case Err(e) => Err(e)
  {
    ParseBody(UUID_FULL_VERSION, |wire|, EncodeUuidEntries(wire) + shared);
    UuidEntriesRoundTrip(wire, shared, []);
  }

  // ---------------------------------------------------------------------------------------------
  // The tag

  /** For one recipient and one claimed sender the tag input determines E and C, once their lengths are fixed. */
  lemma TagInputBinds(s: Suite, ours: Bytes, theirKey: Bytes, direction: Direction, e: Bytes, c: Bytes, e': Bytes,
                      c': Bytes)
    requires |e| == |e'|
    requires TagInput(s, ours, theirKey, direction, e, c) == TagInput(s, ours, theirKey, direction, e', c')
    ensures e == e' && c == c'
  {
    var head := s.agreement(ours, theirKey) + [0x05];
    var own, their := SerializeKey(s.publicKey(ours)), SerializeKey(theirKey);
    var keys := if direction.Sending? then own + their else their + own;
    var x, y := TagInput(s, ours, theirKey, direction, e, c), TagInput(s, ours, theirKey, direction, e', c');
    assert x == head + (e + (c + keys)) && y == head + (e' + (c' + keys));
    SameSplit(head, e + (c + keys), head, e' + (c' + keys));
    SameSplit(e, c + keys, e', c' + keys);
    assert |c| == |c'|;
    SameSplit(c, keys, c', keys);
  }

  lemma SameSplit(a: Bytes, x: Bytes, b: Bytes, y: Bytes)
    requires a + x == b + y && |a| == |b|
    ensures a == b && x == y
  {
    assert (a + x)[..|a|] == a && (b + y)[..|b|] == b && (a + x)[|a|..] == x && (b + y)[|b|..] == y;
  }

  /**
   The tag binds the key material: of two messages that a recipient opens as coming from one sender with one tag, C and
   E are the same, or two explicit tag inputs collide.
   */
  lemma TagBindsKeyMaterial(s: Suite, parse: Parser, ours: Bytes, data: Bytes, data': Bytes)
    requires Open(s, parse, ours, data).Ok? && Open(s, parse, ours, data').Ok?
    requires Open(s, parse, ours, data).value.senderKey == Open(s, parse, ours, data').value.senderKey
    requires data[33..49] == data'[33..49]
    ensures var key := Open(s, parse, ours, data).value.senderKey;
            || (data[1..33] == data'[1..33] && data[49..81] == data'[49..81])
            || TagCollision(s, TagInput(s, ours, key, Receiving, data[49..81], data[1..33]),
                            TagInput(s, ours, key, Receiving, data'[49..81], data'[1..33]))
  {
    var key := Open(s, parse, ours, data).value.senderKey;
    var x := TagInput(s, ours, key, Receiving, data[49..81], data[1..33]);
    var y := TagInput(s, ours, key, Receiving, data'[49..81], data'[1..33]);
    if x == y {
      TagInputBinds(s, ours, key, Receiving, data[49..81], data[1..33], data'[49..81], data'[1..33]);
    }
  }

  /** Whatever opens was masked for this recipient with the ephemeral key that its own message key derives. */
  lemma OpenedKeyDerivesEphemeral(s: Suite, parse: Parser, ours: Bytes, data: Bytes)
    requires Open(s, parse, ours, data).Ok?
    ensures |data| >= 81 && data[0] / 16 == 2
    ensures var m := ApplyAgreementXor(s, ours, data[49..81], Receiving, data[1..33]);
            s.publicKey(s.derive(EphemeralKey, m)) == data[49..81]
  {
  }
}
