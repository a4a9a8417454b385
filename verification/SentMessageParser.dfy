/**
 The parser of Sealed Sender v2 sent messages as a cursor moving over the input
 (rust/protocol/src/sealed_sender.rs:1634-1750), proved against `ParseSent`.
 */
module SentMessageParser {
  import opened Prelude
  import opened ByteStrings
  import opened SealedSenderWire

  /** `advance`: splits a fixed number of bytes off the front of the cursor. */
  method Advance(remaining: Bytes, n: nat) returns (r: Result<(Bytes, Bytes), WireError>)
    ensures r == if |remaining| < n then Err(InvalidEncoding) else Ok((remaining[..n], remaining[n..]))
  {
    if |remaining| < n {
      return Err(InvalidEncoding);
    }
    return Ok((remaining[..n], remaining[n..]));
  }

  /** The devices parsed so far in front of those still to come. */
  function Before(ds: seq<Device>, r: Result<(seq<Device>, Bytes), WireError>)
    : Result<(seq<Device>, Bytes), WireError>
  {
    match r
    case Ok(p) => Ok((ds + p.0, p.1))
    case Err(e) => Err(e)
  }

  lemma BeforeStep(ds: seq<Device>, b: Bytes)
    requires |b| >= 3 && 0 < b[0] <= MAX_VALID_DEVICE_ID
    ensures var word := FromBe16(b[1], b[2]);
            var ds' := ds + [Device(b[0], word % REGISTRATION_ID_LIMIT)];
            Before(ds, ParseDevices(b, ds == []))
            == if word < HAS_MORE then Ok((ds', b[3..])) else Before(ds', ParseDevices(b[3..], false))
  {
    var word := FromBe16(b[1], b[2]);
    var d := Device(b[0], word % REGISTRATION_ID_LIMIT);
    var rest := ParseDevices(b[3..], false);
    if word >= HAS_MORE && rest.Ok? {
      assert ds + ([d] + rest.value.0) == (ds + [d]) + rest.value.0;
    }
  }

  method ReadDevices(cursor: Bytes) returns (r: Result<(seq<Device>, Bytes), WireError>)
    ensures r == ParseDevices(cursor, true)
  {
    var remaining, devices: seq<Device> := cursor, [];
    var more := true;
    ghost var all := ParseDevices(cursor, true);
    assert all.Ok? ==> [] + all.value.0 == all.value.0;
    while more
      invariant more ==> ParseDevices(cursor, true) == Before(devices, ParseDevices(remaining, devices == []))
      invariant !more ==> ParseDevices(cursor, true) == Ok((devices, remaining))
      decreases |remaining| + if more then 1 else 0
    {
      var idRead :- Advance(remaining, 1);
      var id, afterId := idRead.0, idRead.1;
      assert id[0] == remaining[0];
      if id[0] == 0 {
        if devices != [] {
          return Err(InvalidEncoding);
        }
        remaining := afterId;
        more := false;
      } else if id[0] > MAX_VALID_DEVICE_ID {
        return Err(InvalidEncoding);
      } else {
        var wordRead :- Advance(afterId, 2);
        var word, afterWord := wordRead.0, wordRead.1;
        assert word[0] == remaining[1] && word[1] == remaining[2] && afterWord == remaining[3..];
        BeforeStep(devices, remaining);
        var value := FromBe16(word[0], word[1]);
        devices := devices + [Device(id[0], value % REGISTRATION_ID_LIMIT)];
        remaining := afterWord;
        more := value >= HAS_MORE;
      }
    }
    return Ok((devices, remaining));
  }

  method ReadId(cursor: Bytes, version: byte) returns (r: Result<(ServiceId, Bytes), WireError>)
    ensures r == if |cursor| < IdLength(version) then Err(InvalidEncoding)
                 else
                   var id := if version == UUID_FULL_VERSION then Some(Aci(cursor[..16])) else ParseId(cursor[..17]);
                   if id.None? then Err(InvalidEncoding) else Ok((id.value, cursor[IdLength(version)..]))
  {
    if version == UUID_FULL_VERSION {
      var uuidRead :- Advance(cursor, 16);
      var uuid, rest := uuidRead.0, uuidRead.1;
      return Ok((Aci(uuid), rest));
    }
    var bytesRead :- Advance(cursor, 17);
    var bytes, rest := bytesRead.0, bytesRead.1;
    var id := ParseId(bytes);
    if id.None? {
      return Err(InvalidEncoding);
    }
    return Ok((id.value, rest));
  }

  method ReadEntry(cursor: Bytes, version: byte) returns (r: Result<(Entry, Bytes), WireError>)
    ensures r == ParseEntry(cursor, version)
  {
    var idRead :- ReadId(cursor, version);
    var id, afterId := idRead.0, idRead.1;
    var devicesRead :- ReadDevices(afterId);
    var devices, afterDevices := devicesRead.0, devicesRead.1;
    if devices == [] {
      return Ok((Entry(id, Recipient([], [])), afterDevices));
    }
    var keyMaterialRead :- Advance(afterDevices, KEY_MATERIAL_LEN);
    var keyMaterial, rest := keyMaterialRead.0, keyMaterialRead.1;
    return Ok((Entry(id, Recipient(devices, keyMaterial)), rest));
  }

  /** Parses a sent message, filling the recipient map entry by entry. */
  method Parse(data: Bytes) returns (r: Result<SentMessage, WireError>)
    ensures r == ParseSent(data)
  {
    if data == [] {
      return Err(MessageWasEmpty);
    }
    var version := data[0];
    if version != UUID_FULL_VERSION && version != SERVICE_ID_FULL_VERSION {
      return Err(UnknownVersion(version));
    }
    var count := DecodeVarint(data[1..], VARINT_LIMIT);
    if count.None? || count.value > U32_MAX {
      return Err(InvalidEncoding);
    }
    CanonicalFits(data[1..], VARINT_LIMIT);
    r := ParseRecipients(data[1..][|Varint(count.value)|..], version, count.value);
  }

  method ParseRecipients(cursor: Bytes, version: byte, count: nat) returns (r: Result<SentMessage, WireError>)
    ensures r == ParseCounted(cursor, version, count)
  {
    var remaining, recipients: seq<Entry> := cursor, [];
    for i := 0 to count
      invariant ParseEntries(cursor, version, count, []) == ParseEntries(remaining, version, count - i, recipients)
    {
      var entryRead :- ReadEntry(remaining, version);
      var entry, rest := entryRead.0, entryRead.1;
      recipients :- Merge(recipients, entry);
      remaining := rest;
    }
    if |remaining| < PUBLIC_KEY_LEN {
      return Err(InvalidEncoding);
    }
    return Ok(SentMessage(version, recipients, remaining));
  }
}
