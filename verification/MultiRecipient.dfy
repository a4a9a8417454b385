/**
 Writing a Sealed Sender v2 message for many recipients (rust/protocol/src/sealed_sender.rs:1377-1601), and what the
 server and the recipients make of it.
 */
module MultiRecipient {
  import opened Prelude
  import opened ByteStrings
  import opened SealedSenderWire
  import opened SealedSenderV2
  import opened FanOut
  import opened RecipientMap

  datatype Address = Address(name: string, deviceId: DeviceId)

  /** A destination with the registration ID of its current session, if there is one. */
  datatype Destination = Destination(address: Address, registrationId: Option<nat>)

  datatype SendError =
    | LengthMismatch
    | SessionNotFound(address: Address)
    | NotAServiceId(name: string)
    | NoRegistrationId(address: Address)
    | InvalidRegistrationId(address: Address, registrationId: nat)

  /** What a send depends on besides its destinations. */
  datatype Job = Job(
    suite: Suite,
    identity: Bytes,
    identityOf: Address -> Option<Bytes>,
    serviceId: string -> Option<ServiceId>,
    messageKey: Bytes,
    usmc: Bytes)

  /** A run of destinations with one name, and the identity key stored for the first of them. */
  datatype RawGroup = Group(identityKey: Bytes, members: seq<Destination>)
  type Group = g: RawGroup | g.members != [] witness Group([], [Destination(Address("", 1), None)])

  // ---------------------------------------------------------------------------------------------
  // Grouping by name

  function SameName(ds: seq<Destination>, name: string): (n: nat)
    ensures n <= |ds|
    ensures forall i :: 0 <= i < n ==> ds[i].address.name == name
    ensures n < |ds| ==> ds[n].address.name != name
  {
    if ds == [] || ds[0].address.name != name then 0 else 1 + SameName(ds[1..], name)
  }

  /** The maximal runs of equal names, in order, or the first destination without a known identity. */
  function GroupByName(identityOf: Address -> Option<Bytes>, ds: seq<Destination>): Result<seq<Group>, SendError>
    decreases |ds|
  {
    if ds == [] then Ok([])
    else
      var n := SameName(ds, ds[0].address.name);
      match identityOf(ds[0].address)
      case None => Err(SessionNotFound(ds[0].address))
      case Some(key) => Following([Group(key, ds[..n])], GroupByName(identityOf, ds[n..]))
  }

  function Following(gs: seq<Group>, r: Result<seq<Group>, SendError>): Result<seq<Group>, SendError> {
    match r
    case Ok(rest) => Ok(gs + rest)
    case Err(e) => Err(e)
  }

  function Members(gs: seq<Group>): seq<Destination> {
    if gs == [] then [] else gs[0].members + Members(gs[1..])
  }

  predicate OneName(g: Group) {
    forall d :: d in g.members ==> d.address.name == g.members[0].address.name
  }

  predicate IsGroupOf(identityOf: Address -> Option<Bytes>, g: Group) {
    OneName(g) && identityOf(g.members[0].address) == Some(g.identityKey)
  }

  /** The groups list every destination once and in order. */
  lemma {:induction false} GroupsCover(identityOf: Address -> Option<Bytes>, ds: seq<Destination>)
    requires GroupByName(identityOf, ds).Ok?
    ensures var gs := GroupByName(identityOf, ds).value;
            Members(gs) == ds && (ds != [] ==> gs != [] && gs[0].members[0] == ds[0])
    decreases |ds|
  {
    if ds != [] {
      var n := SameName(ds, ds[0].address.name);
      GroupsCover(identityOf, ds[n..]);
      var gs, rest := GroupByName(identityOf, ds).value, GroupByName(identityOf, ds[n..]).value;
      assert gs[1..] == rest && gs[0].members == ds[..n];
    }
  }

  /** Each group has one name and carries the identity key of its first address. */
  lemma {:induction false} GroupsShareIdentity(identityOf: Address -> Option<Bytes>, ds: seq<Destination>)
    requires GroupByName(identityOf, ds).Ok?
    ensures forall g :: g in GroupByName(identityOf, ds).value ==> IsGroupOf(identityOf, g)
    decreases |ds|
  {
    if ds != [] {
      var n := SameName(ds, ds[0].address.name);
      GroupsShareIdentity(identityOf, ds[n..]);
      var gs, rest := GroupByName(identityOf, ds).value, GroupByName(identityOf, ds[n..]).value;
      assert gs == [gs[0]] + rest && gs[0].members == ds[..n];
      forall g | g in gs ensures IsGroupOf(identityOf, g) {
        if g == gs[0] {
          FirstRunIsGroup(identityOf, ds, g);
        }
      }
    }
  }

  lemma FirstRunIsGroup(identityOf: Address -> Option<Bytes>, ds: seq<Destination>, g: Group)
    requires ds != [] && g.members == ds[..SameName(ds, ds[0].address.name)]
    requires identityOf(ds[0].address) == Some(g.identityKey)
    ensures IsGroupOf(identityOf, g)
  {
    var n := SameName(ds, ds[0].address.name);
    assert g.members[0] == ds[0];
    forall d | d in g.members ensures d.address.name == ds[0].address.name {
      var i :| 0 <= i < n && g.members[i] == d;
    }
  }

  /** Neighbouring groups have different names, so each group is a whole run. */
  lemma {:induction false} GroupsAreMaximal(identityOf: Address -> Option<Bytes>, ds: seq<Destination>, i: nat)
    requires GroupByName(identityOf, ds).Ok? && 0 < i < |GroupByName(identityOf, ds).value|
    ensures var gs := GroupByName(identityOf, ds).value;
            gs[i - 1].members[0].address.name != gs[i].members[0].address.name
    decreases |ds|
  {
    var n := SameName(ds, ds[0].address.name);
    var gs, rest := GroupByName(identityOf, ds).value, GroupByName(identityOf, ds[n..]).value;
    assert gs == [gs[0]] + rest;
    if i == 1 {
      GroupsCover(identityOf, ds[n..]);
    } else {
      GroupsAreMaximal(identityOf, ds[n..], i - 1);
    }
  }

  // ---------------------------------------------------------------------------------------------
  // One group

  function DevicesFor(ds: seq<Destination>): (r: Result<seq<Device>, SendError>)
    ensures r.Ok? ==> |r.value| == |ds| && forall i :: 0 <= i < |ds| ==>
              r.value[i].deviceId == ds[i].address.deviceId && ds[i].registrationId == Some(r.value[i].registrationId)
  {
    if ds == [] then Ok([])
    else match ds[0].registrationId
         case None => Err(NoRegistrationId(ds[0].address))
         case Some(id) =>
           if id >= REGISTRATION_ID_LIMIT then Err(InvalidRegistrationId(ds[0].address, id))
           else
             var rest :- DevicesFor(ds[1..]);
             Ok([Device(ds[0].address.deviceId, id)] + rest)
  }

  function EntryFor(job: Job, g: Group): Result<Entry, SendError> {
    match job.serviceId(g.members[0].address.name)
    case None => Err(NotAServiceId(g.members[0].address.name))
    case Some(id) =>
      var devices :- DevicesFor(g.members);
      Ok(Entry(id, Recipient(devices, KeyMaterial(job.suite, job.messageKey, job.identity, g.identityKey))))
  }

  /** `serialize_recipient_destinations_into`, as a value. */
  function WriteGroup(job: Job, g: Group): Result<Bytes, SendError> {
    var e :- EntryFor(job, g);
    Ok(IdBytes(e.id) + EncodeDevices(e.recipient.devices) + e.recipient.keyMaterial)
  }

  function Writer(job: Job): (write: Group -> Result<Bytes, SendError>)
    ensures forall g :: write(g) == WriteGroup(job, g)
  {
    g => WriteGroup(job, g)
  }

  function EntriesFor(job: Job, gs: seq<Group>): Result<seq<Entry>, SendError> {
    if gs == [] then Ok([])
    else
      var e :- EntryFor(job, gs[0]);
      var rest :- EntriesFor(job, gs[1..]);
      Ok([e] + rest)
  }

  predicate ReadyJob(job: Job) {
    |job.messageKey| == MESSAGE_KEY_LEN
  }

  lemma MaterialLength(job: Job, key: Bytes)
    requires Laws(job.suite) && ReadyJob(job)
    ensures |KeyMaterial(job.suite, job.messageKey, job.identity, key)| == KEY_MATERIAL_LEN
  {
  }

  lemma EntryForIsEntry(job: Job, g: Group)
    requires Laws(job.suite) && ReadyJob(job) && EntryFor(job, g).Ok?
    ensures var e := EntryFor(job, g).value;
            IsEntry(e) && e.recipient.devices != [] && WriteGroup(job, g) == Ok(EncodeEntry(e))
  {
    MaterialLength(job, g.identityKey);
    var e := EntryFor(job, g).value;
    var id, ds, km := IdBytes(e.id), EncodeDevices(e.recipient.devices), e.recipient.keyMaterial;
    assert (id + ds) + km == id + (ds + km);
  }

  lemma {:induction false} EntriesForAre(job: Job, gs: seq<Group>)
    requires Laws(job.suite) && ReadyJob(job) && EntriesFor(job, gs).Ok?
    ensures var es := EntriesFor(job, gs).value;
            |es| == |gs| && forall i :: 0 <= i < |gs| ==>
              EntryFor(job, gs[i]) == Ok(es[i]) && IsEntry(es[i]) && es[i].recipient.devices != []
    decreases |gs|
  {
    if gs != [] {
      EntryForIsEntry(job, gs[0]);
      EntriesForAre(job, gs[1..]);
      var es := EntriesFor(job, gs).value;
      forall i | 0 <= i < |gs|
        ensures EntryFor(job, gs[i]) == Ok(es[i]) && IsEntry(es[i]) && es[i].recipient.devices != []
      {
        if i > 0 {
          assert gs[i] == gs[1..][i - 1] && es[i] == EntriesFor(job, gs[1..]).value[i - 1];
        }
      }
    }
  }

  /** The sequential pass over the groups writes the encoding of their entries, or stops at the same error. */
  lemma {:induction false} WriteAllIsEncoding(job: Job, gs: seq<Group>)
    requires Laws(job.suite) && ReadyJob(job)
    ensures EntriesFor(job, gs).Err? ==> WriteAll(Writer(job), gs) == Err(EntriesFor(job, gs).error)
    ensures EntriesFor(job, gs).Ok? ==> forall e :: e in EntriesFor(job, gs).value ==> IsEntry(e)
    ensures EntriesFor(job, gs).Ok? ==> WriteAll(Writer(job), gs) == Ok(EncodeEntries(EntriesFor(job, gs).value))
    decreases |gs|
  {
    if gs != [] {
      WriteAllIsEncoding(job, gs[1..]);
      if EntryFor(job, gs[0]).Ok? {
        EntryForIsEntry(job, gs[0]);
      }
    }
  }

  // ---------------------------------------------------------------------------------------------
  // The writer

  /** `serialize_recipient_destinations_into`: appends one group to the buffer, device by device. */
  method SerializeRecipient(job: Job, serialized: Bytes, g: Group) returns (r: Result<Bytes, SendError>)
    ensures r == After(serialized, WriteGroup(job, g))
  {
    var id := job.serviceId(g.members[0].address.name);
    if id.None? {
      return Err(NotAServiceId(g.members[0].address.name));
    }
    var head := IdBytes(id.value);
    var buffer :- AppendDevices(serialized + head, g.members);
    var material := KeyMaterial(job.suite, job.messageKey, job.identity, g.identityKey);
    Regroup(serialized, head, EncodeDevices(DevicesFor(g.members).value), material);
    return Ok(buffer + material);
  }

  lemma Regroup(a: Bytes, b: Bytes, c: Bytes, d: Bytes)
    ensures ((a + b) + c) + d == a + ((b + c) + d)
  {
  }

  function EncodedDevices(ds: seq<Destination>): Result<Bytes, SendError> {
    var devices :- DevicesFor(ds);
    Ok(EncodeDevices(devices))
  }

  lemma DeviceEncodingStep(d: Destination, rest: seq<Destination>)
    requires d.registrationId.Some? && d.registrationId.value < REGISTRATION_ID_LIMIT
    ensures var word := d.registrationId.value + if rest == [] then 0 else HAS_MORE;
            EncodedDevices([d] + rest) == After([d.address.deviceId] + Be16(word), EncodedDevices(rest))
  {
    assert ([d] + rest)[1..] == rest;
    var tail := DevicesFor(rest);
    if tail.Ok? {
      var first := Device(d.address.deviceId, d.registrationId.value);
      assert ([first] + tail.value)[1..] == tail.value;
    }
  }

  /** Appends the device list, setting the continuation flag on all but the last device. */
  method AppendDevices(serialized: Bytes, ds: seq<Destination>) returns (r: Result<Bytes, SendError>)
    ensures r == After(serialized, EncodedDevices(ds))
  {
    var buffer, rest := serialized, ds;
    while rest != []
      invariant After(serialized, EncodedDevices(ds)) == After(buffer, EncodedDevices(rest))
      decreases |rest|
    {
      var d := rest[0];
      if d.registrationId.None? {
        return Err(NoRegistrationId(d.address));
      }
      var registrationId := d.registrationId.value;
      if registrationId >= REGISTRATION_ID_LIMIT {
        return Err(InvalidRegistrationId(d.address, registrationId));
      }
      assert rest == [d] + rest[1..];
      DeviceEncodingStep(d, rest[1..]);
      var bytes := [d.address.deviceId] + Be16(registrationId + if |rest| > 1 then HAS_MORE else 0);
      AfterAfter(buffer, bytes, EncodedDevices(rest[1..]));
      buffer := buffer + bytes;
      rest := rest[1..];
    }
    assert buffer + [] == buffer;
    return Ok(buffer);
  }

  lemma AfterAfter(a: Bytes, b: Bytes, r: Result<Bytes, SendError>)
    ensures After(a, After(b, r)) == After(a + b, r)
  {
    if r.Ok? {
      assert a + (b + r.value) == (a + b) + r.value;
    }
  }

  method CountRun(ds: seq<Destination>) returns (count: nat)
    requires ds != []
    ensures count == SameName(ds, ds[0].address.name) > 0
  {
    count := 1;
    while count < |ds| && ds[count].address.name == ds[0].address.name
      invariant 1 <= count <= |ds|
      invariant forall k :: 0 <= k < count ==> ds[k].address.name == ds[0].address.name
    {
      count := count + 1;
    }
  }

  method GroupDestinations(job: Job, destinations: seq<Destination>) returns (r: Result<seq<Group>, SendError>)
    ensures r == GroupByName(job.identityOf, destinations)
  {
    var groups: seq<Group>, rest := [], destinations;
    ghost var all := GroupByName(job.identityOf, destinations);
    assert all.Ok? ==> [] + all.value == all.value;
    while rest != []
      invariant all == Following(groups, GroupByName(job.identityOf, rest))
      decreases |rest|
    {
      var count := CountRun(rest);
      var key := job.identityOf(rest[0].address);
      if key.None? {
        return Err(SessionNotFound(rest[0].address));
      }
      var g: Group := Group(key.value, rest[..count]);
      FollowingStep(groups, g, GroupByName(job.identityOf, rest[count..]));
      groups := groups + [g];
      rest := rest[count..];
    }
    assert groups + [] == groups;
    return Ok(groups);
  }

  lemma FollowingStep(gs: seq<Group>, g: Group, r: Result<seq<Group>, SendError>)
    ensures Following(gs, Following([g], r)) == Following(gs + [g], r)
  {
    if r.Ok? {
      assert gs + ([g] + r.value) == (gs + [g]) + r.value;
    }
  }

  /** The message for given groups, or the first error. */
  function MessageFor(job: Job, groups: seq<Group>, excluded: seq<ServiceId>): Result<Bytes, SendError>
    requires Laws(job.suite) && ReadyJob(job)
  {
    var entries :- EntriesFor(job, groups);
    EntriesForAre(job, groups);
    assert forall e :: e in entries + ExcludedEntries(excluded) ==> IsEntry(e);
    Ok(EncodeSent(entries + ExcludedEntries(excluded), SharedBytes(job.suite, job.messageKey, job.usmc)))
  }

  /** The whole message, or the first error, as a value. */
  function Message(job: Job, destinations: seq<Address>, sessions: seq<Option<nat>>, excluded: seq<ServiceId>)
    : Result<Bytes, SendError>
    requires Laws(job.suite) && ReadyJob(job)
  {
    if |destinations| != |sessions| then Err(LengthMismatch)
    else
      var groups :- GroupByName(job.identityOf, Zip(destinations, sessions));
      MessageFor(job, groups, excluded)
  }

  function Zip(destinations: seq<Address>, sessions: seq<Option<nat>>): seq<Destination>
    requires |destinations| == |sessions|
  {
    seq(|destinations|, i requires 0 <= i < |destinations| => Destination(destinations[i], sessions[i]))
  }

  /** `sealed_sender_multi_recipient_encrypt`: the same message for every parallelism. */
  method Encrypt(job: Job, destinations: seq<Address>, sessions: seq<Option<nat>>, excluded: seq<ServiceId>,
                 parallelism: nat)
    returns (r: Result<Bytes, SendError>)
    requires Laws(job.suite) && ReadyJob(job) && parallelism > 0
    ensures r == Message(job, destinations, sessions, excluded)
  {
    if |destinations| != |sessions| {
      return Err(LengthMismatch);
    }
    var groups :- GroupDestinations(job, Zip(destinations, sessions));
    r := EncryptGroups(job, groups, excluded, parallelism);
  }

  method EncryptGroups(job: Job, groups: seq<Group>, excluded: seq<ServiceId>, parallelism: nat)
    returns (r: Result<Bytes, SendError>)
    requires Laws(job.suite) && ReadyJob(job) && parallelism > 0
    ensures r == MessageFor(job, groups, excluded)
  {
    WrittenMessage(job, groups, excluded);
    var header: Bytes := [SERVICE_ID_FULL_VERSION] + Varint(|groups| + |excluded|);
    var written :- WriteGroups(Writer(job), header, groups, parallelism);
    var serialized := AppendExcluded(written, excluded);
    return Ok(serialized + SharedBytes(job.suite, job.messageKey, job.usmc));
  }

  /** The bytes in front of the excluded recipients: header and groups. */
  function Written(job: Job, groups: seq<Group>, excluded: seq<ServiceId>): Result<Bytes, SendError> {
    After([SERVICE_ID_FULL_VERSION] + Varint(|groups| + |excluded|), WriteAll(Writer(job), groups))
  }

  lemma WrittenMessage(job: Job, groups: seq<Group>, excluded: seq<ServiceId>)
    requires Laws(job.suite) && ReadyJob(job)
    ensures var w := Written(job, groups, excluded);
            MessageFor(job, groups, excluded)
            == if w.Err? then w
               else Ok((w.value + EncodeEntries(ExcludedEntries(excluded)))
                       + SharedBytes(job.suite, job.messageKey, job.usmc))
  {
    WriteAllIsEncoding(job, groups);
    var entries := EntriesFor(job, groups);
    if entries.Ok? {
      EntriesForAre(job, groups);
      AssembleFor(entries.value, |groups|, excluded, SharedBytes(job.suite, job.messageKey, job.usmc));
    }
  }

  lemma AssembleFor(entries: seq<Entry>, count: nat, excluded: seq<ServiceId>, shared: Bytes)
    requires |entries| == count && forall e :: e in entries ==> IsEntry(e)
    ensures forall e :: e in entries + ExcludedEntries(excluded) ==> IsEntry(e)
    ensures var header := [SERVICE_ID_FULL_VERSION] + Varint(count + |excluded|);
            ((header + EncodeEntries(entries)) + EncodeEntries(ExcludedEntries(excluded))) + shared
            == EncodeSent(entries + ExcludedEntries(excluded), shared)
  {
    Assemble(entries, ExcludedEntries(excluded), shared);
  }

  method AppendExcluded(serialized: Bytes, excluded: seq<ServiceId>) returns (r: Bytes)
    ensures r == serialized + EncodeEntries(ExcludedEntries(excluded))
  {
    r := serialized;
    var i := 0;
    assert ExcludedEntries(excluded[..0]) == [];
    while i < |excluded|
      invariant 0 <= i <= |excluded|
      invariant r == serialized + EncodeEntries(ExcludedEntries(excluded[..i]))
    {
      ExcludedSnoc(excluded, i);
      r := r + IdBytes(excluded[i]) + [0];
      i := i + 1;
    }
    assert excluded[..i] == excluded;
  }

  lemma Assemble(entries: seq<Entry>, others: seq<Entry>, shared: Bytes)
    requires forall e :: e in entries || e in others ==> IsEntry(e)
    ensures forall e :: e in entries + others ==> IsEntry(e)
    ensures var header := [SERVICE_ID_FULL_VERSION] + Varint(|entries| + |others|);
            ((header + EncodeEntries(entries)) + EncodeEntries(others)) + shared == EncodeSent(entries + others, shared)
  {
    var xs, ys, all := EncodeEntries(entries), EncodeEntries(others), EncodeEntries(entries + others);
    assert all == xs + ys by { EncodeEntriesConcat(entries, others); }
    var count := Varint(|entries| + |others|);
    assert ((([SERVICE_ID_FULL_VERSION] + count) + xs) + ys) + shared
               == [SERVICE_ID_FULL_VERSION] + (count + (all + shared)) by {
      Reassociate([SERVICE_ID_FULL_VERSION], count, xs, ys, shared);
    }
  }

  lemma Reassociate(a: Bytes, b: Bytes, c: Bytes, d: Bytes, e: Bytes)
    ensures (((a + b) + c) + d) + e == a + (b + ((c + d) + e))
  {
  }

  lemma {:induction false} EncodeEntriesConcat(xs: seq<Entry>, ys: seq<Entry>)
    requires forall e :: e in xs || e in ys ==> IsEntry(e)
    ensures EncodeEntries(xs + ys) == EncodeEntries(xs) + EncodeEntries(ys)
    decreases |xs|
  {
    if xs == [] {
      assert xs + ys == ys;
    } else {
      assert (xs + ys)[0] == xs[0] && (xs + ys)[1..] == xs[1..] + ys;
      EncodeEntriesConcat(xs[1..], ys);
    }
  }

  lemma ExcludedSnoc(ids: seq<ServiceId>, i: nat)
    requires i < |ids|
    ensures EncodeEntries(ExcludedEntries(ids[..i + 1]))
         == EncodeEntries(ExcludedEntries(ids[..i])) + (IdBytes(ids[i]) + [0])
  {
    var e := Entry(ids[i], Recipient([], []));
    assert ExcludedEntries(ids[..i + 1]) == ExcludedEntries(ids[..i]) + [e];
    EncodeEntriesConcat(ExcludedEntries(ids[..i]), [e]);
    assert EncodeEntries([e]) == EncodeEntry(e);
  }

  // ---------------------------------------------------------------------------------------------
  // From sender to recipient

  lemma {:induction false} FirstKeyAt(wire: seq<Entry>, i: nat)
    requires i < |wire| && forall j :: 0 <= j < i ==> wire[j].id != wire[i].id
    ensures FirstKey(wire, wire[i].id) == wire[i].recipient.keyMaterial
  {
    if i > 0 {
      assert wire[0].id != wire[i].id && wire[1..][i - 1] == wire[i];
      FirstKeyAt(wire[1..], i - 1);
    }
  }

  /** The service ID of every group is known once the message could be written. */
  lemma WrittenIds(job: Job, groups: seq<Group>, i: nat)
    requires Laws(job.suite) && ReadyJob(job) && i < |groups| && EntriesFor(job, groups).Ok?
    ensures var e := EntriesFor(job, groups).value;
            |e| == |groups| && job.serviceId(groups[i].members[0].address.name) == Some(e[i].id) &&
            e[i].recipient.keyMaterial == KeyMaterial(job.suite, job.messageKey, job.identity, groups[i].identityKey) &&
            DevicesFor(groups[i].members) == Ok(e[i].recipient.devices)
  {
    EntriesForAre(job, groups);
    assert EntryFor(job, groups[i]) == Ok(EntriesFor(job, groups).value[i]);
  }

  /**
   The server's view: a written message parses if and only if the excluded recipients are distinct and no destination,
   and then lists the written entries summarised by ID.
   */
  lemma ServerParses(job: Job, groups: seq<Group>, excluded: seq<ServiceId>)
    requires Laws(job.suite) && ReadyJob(job) && MessageFor(job, groups, excluded).Ok?
    ensures var entries := EntriesFor(job, groups).value;
            ParseSent(MessageFor(job, groups, excluded).value)
            == if |groups| + |excluded| > U32_MAX then Err(InvalidEncoding)
               else if !ExcludedApart(entries, excluded) then Err(RedundantlyEmpty)
               else Ok(SentMessage(SERVICE_ID_FULL_VERSION, Summary(entries + ExcludedEntries(excluded)),
                                   SharedBytes(job.suite, job.messageKey, job.usmc)))
  {
    var entries := EntriesFor(job, groups).value;
    EntriesForAre(job, groups);
    SentParsesIff(entries, excluded, SharedBytes(job.suite, job.messageKey, job.usmc));
  }

  /** The parsed recipient of a group carries the key material of the first group with its ID. */
  lemma RecipientOf(entries: seq<Entry>, excluded: seq<ServiceId>, i: nat)
    requires i < |entries| && forall j :: 0 <= j < i ==> entries[j].id != entries[i].id
    ensures var es := Summary(entries + ExcludedEntries(excluded));
            var k := FindEntry(es, entries[i].id);
            k.Some? && es[k.value].recipient.keyMaterial == entries[i].recipient.keyMaterial &&
            es[k.value].recipient.devices == DevicesOf(entries + ExcludedEntries(excluded), entries[i].id)
  {
    var wire, id := entries + ExcludedEntries(excluded), entries[i].id;
    assert wire[i] == entries[i] && forall j :: 0 <= j < i ==> wire[j] == entries[j];
    FirstKeyAt(wire, i);
    var k := FindEntry(Summary(wire), id);
    if k.None? {
      NotFoundIsNew(wire, id);
    } else {
      assert Summary(wire)[k.value] == SummaryOf(wire, FirstIds(wire)[k.value]);
    }
  }

  /**
   The recipient's view: for the holder `b` of the identity key of a group, the message the server hands out for its ID
   opens to the original content when the certificate carries the sender's identity key, and is refused otherwise unless
   two different tag inputs collide.
   */
  lemma FannedOutMessageOpens(
    job: Job, groups: seq<Group>, excluded: seq<ServiceId>, parse: Parser, content: Content, i: nat, b: Bytes)
    requires Laws(job.suite) && ReadyJob(job)
    requires MessageFor(job, groups, excluded).Ok? && ParseSent(MessageFor(job, groups, excluded).value).Ok?
    requires parse(job.usmc) == Some(content) && |content.senderKey| == PUBLIC_KEY_LEN
    requires i < |groups| && groups[i].identityKey == job.suite.publicKey(b)
    requires forall j :: 0 <= j < i ==> NameOf(job, groups[j]) != NameOf(job, groups[i])
    ensures NameOf(job, groups[i]).Some?
    ensures var m := ParseSent(MessageFor(job, groups, excluded).value).value;
            var k := FindEntry(m.recipients, NameOf(job, groups[i]).value);
            var s, e, ours := job.suite, Ephemeral(job.suite, job.messageKey), job.suite.publicKey(b);
            var c := ApplyAgreementXor(s, e, ours, Sending, job.messageKey);
            k.Some? &&
            Open(s, parse, b, ReceivedFor(m, m.recipients[k.value].recipient))
            == if content.senderKey == s.publicKey(job.identity) ||
                  TagCollision(s, TagInput(s, job.identity, ours, Sending, s.publicKey(e), c),
                               TagInput(s, b, content.senderKey, Receiving, s.publicKey(e), c))
               then Ok(content) else Err(TagMismatch)
  {
    var data := HandedOut(job, groups, excluded, i);
    OpensIffCertificateMatches(job.suite, parse, job.messageKey, job.identity, b, job.usmc, content);
  }

  /**
   A later group with the ID of an earlier one but another identity key: its holder `b` is handed the earlier group's
   key material and refuses the message, unless two message keys share an ephemeral key or masks and tags both
   collide.
   */
  lemma LaterIdentityIsRefused(
    job: Job, groups: seq<Group>, excluded: seq<ServiceId>, parse: Parser, content: Content, i: nat, b: Bytes)
    requires Laws(job.suite) && ReadyJob(job)
    requires MessageFor(job, groups, excluded).Ok? && ParseSent(MessageFor(job, groups, excluded).value).Ok?
    requires parse(job.usmc) == Some(content)
    requires i < |groups| && |groups[i].identityKey| == PUBLIC_KEY_LEN
             && job.suite.publicKey(b) != groups[i].identityKey
    requires forall j :: 0 <= j < i ==> NameOf(job, groups[j]) != NameOf(job, groups[i])
    ensures NameOf(job, groups[i]).Some?
    ensures var m := ParseSent(MessageFor(job, groups, excluded).value).value;
            var k := FindEntry(m.recipients, NameOf(job, groups[i]).value);
            var s, e, theirs := job.suite, Ephemeral(job.suite, job.messageKey), groups[i].identityKey;
            var eph, c := s.publicKey(e), ApplyAgreementXor(s, e, theirs, Sending, job.messageKey);
            && k.Some?
            && (Open(s, parse, b, ReceivedFor(m, m.recipients[k.value].recipient)).Ok? ==>
                  || EphemeralCollision(s, job.messageKey, ApplyAgreementXor(s, b, eph, Receiving, c))
                  || (MaskCollision(s, AgreementInput(s, e, theirs, Sending), AgreementInput(s, b, eph, Receiving)) &&
                      TagCollision(s, TagInput(s, job.identity, theirs, Sending, eph, c),
                                   TagInput(s, b, content.senderKey, Receiving, eph, c))))
  {
    var data := HandedOut(job, groups, excluded, i);
    if Open(job.suite, parse, b, data).Ok? {
      OtherKeyIsRefused(job.suite, parse, job.messageKey, job.identity, groups[i].identityKey, b, job.usmc, content);
    }
  }

  /** The service ID of a group's name. */
  function NameOf(job: Job, g: Group): Option<ServiceId> {
    job.serviceId(g.members[0].address.name)
  }

  /** What the server hands out for the ID of the first group that has it. */
  lemma HandedOut(job: Job, groups: seq<Group>, excluded: seq<ServiceId>, i: nat) returns (data: Bytes)
    requires Laws(job.suite) && ReadyJob(job)
    requires MessageFor(job, groups, excluded).Ok? && ParseSent(MessageFor(job, groups, excluded).value).Ok?
    requires i < |groups| && forall j :: 0 <= j < i ==> NameOf(job, groups[j]) != NameOf(job, groups[i])
    ensures NameOf(job, groups[i]).Some?
    ensures var m := ParseSent(MessageFor(job, groups, excluded).value).value;
            var k := FindEntry(m.recipients, NameOf(job, groups[i]).value);
            k.Some? && data == ReceivedFor(m, m.recipients[k.value].recipient)
    ensures data == [UUID_FULL_VERSION] + KeyMaterial(job.suite, job.messageKey, job.identity, groups[i].identityKey)
                    + SharedBytes(job.suite, job.messageKey, job.usmc)
  {
    var entries := EntriesFor(job, groups).value;
    WrittenIds(job, groups, i);
    forall j | 0 <= j < i ensures entries[j].id != entries[i].id {
      WrittenIds(job, groups, j);
    }
    ServerParses(job, groups, excluded);
    RecipientOf(entries, excluded, i);
    var m := ParseSent(MessageFor(job, groups, excluded).value).value;
    data := ReceivedFor(m, m.recipients[FindEntry(m.recipients, entries[i].id).value].recipient);
  }
}
