/**
 The recipient map a parser of Sealed Sender v2 sent messages builds (rust/protocol/src/sealed_sender.rs:1675-1738).

 `Summary` says what the map should be without following the parser: the IDs in order of first appearance, each with
 the devices of all its entries in wire order and the key material of its first entry. `MergeAll` meets it exactly on
 the lists in which a repeated recipient is never empty.
 */
module RecipientMap {
  import opened Prelude
  import opened ByteStrings
  import opened SealedSenderWire

  /** The IDs of a list of entries, each once, in order of first appearance. */
  function FirstIds(wire: seq<Entry>): (ids: seq<ServiceId>)
    ensures forall i, j :: 0 <= i < j < |ids| ==> ids[i] != ids[j]
    ensures forall i :: 0 <= i < |wire| ==> wire[i].id in ids
    ensures forall id :: id in ids ==> Appears(wire, id)
  {
    if wire == [] then []
    else
      var n := |wire| - 1;
      var ids := FirstIds(wire[..n]);
      assert forall id :: Appears(wire[..n], id) ==> Appears(wire, id) by { AppearsInPrefix(wire, n); }
      if wire[n].id in ids then ids else ids + [wire[n].id]
  }

  predicate Appears(wire: seq<Entry>, id: ServiceId) {
    exists i :: 0 <= i < |wire| && wire[i].id == id
  }

  lemma AppearsInPrefix(wire: seq<Entry>, n: nat)
    requires n <= |wire|
    ensures forall id :: Appears(wire[..n], id) ==> Appears(wire, id)
  {
    forall id | Appears(wire[..n], id) ensures Appears(wire, id) {
      var i :| 0 <= i < n && wire[..n][i].id == id;
      assert wire[i].id == id;
    }
  }

  /** All devices listed for an ID, in wire order. */
  function DevicesOf(wire: seq<Entry>, id: ServiceId): seq<Device> {
    if wire == [] then []
    else
      var n := |wire| - 1;
      DevicesOf(wire[..n], id) + (if wire[n].id == id then wire[n].recipient.devices else [])
  }

  /** The key material in the first entry for an ID. */
  function FirstKey(wire: seq<Entry>, id: ServiceId): Bytes {
    if wire == [] then [] else if wire[0].id == id then wire[0].recipient.keyMaterial else FirstKey(wire[1..], id)
  }

  function SummaryOf(wire: seq<Entry>, id: ServiceId): Entry {
    Entry(id, Recipient(DevicesOf(wire, id), FirstKey(wire, id)))
  }

  function Summary(wire: seq<Entry>): (es: seq<Entry>)
    ensures |es| == |FirstIds(wire)|
    ensures forall i :: 0 <= i < |es| ==> es[i] == SummaryOf(wire, FirstIds(wire)[i])
  {
    var ids := FirstIds(wire);
    seq(|ids|, i requires 0 <= i < |ids| => SummaryOf(wire, ids[i]))
  }

  /** No recipient with an empty device list appears twice. */
  predicate NoRedundantEmpty(wire: seq<Entry>) {
    forall i, j :: 0 <= i < j < |wire| && wire[i].id == wire[j].id ==>
      wire[i].recipient.devices != [] && wire[j].recipient.devices != []
  }

  lemma {:induction false} DevicesEmptyWhen(wire: seq<Entry>, i: nat)
    requires NoRedundantEmpty(wire) && i < |wire|
    ensures DevicesOf(wire, wire[i].id) == [] <==> wire[i].recipient.devices == []
    decreases |wire|
  {
    var n := |wire| - 1;
    var id := wire[i].id;
    if i < n {
      assert wire[..n][i] == wire[i];
      DevicesEmptyWhen(wire[..n], i);
    } else {
      DevicesElsewhere(wire[..n], id);
      if Appears(wire[..n], id) {
        var k :| 0 <= k < n && wire[..n][k].id == id;
        assert wire[k].id == wire[n].id;
      }
    }
  }

  lemma {:induction false} DevicesElsewhere(wire: seq<Entry>, id: ServiceId)
    ensures !Appears(wire, id) ==> DevicesOf(wire, id) == []
    decreases |wire|
  {
    if wire != [] && !Appears(wire, id) {
      var n := |wire| - 1;
      AppearsInPrefix(wire, n);
      DevicesElsewhere(wire[..n], id);
      assert wire[n].id != id;
    }
  }

  lemma {:induction false} FirstKeySnoc(wire: seq<Entry>, e: Entry, id: ServiceId)
    ensures FirstKey(wire + [e], id) == if Appears(wire, id) then FirstKey(wire, id) else FirstKey([e], id)
    decreases |wire|
  {
    if wire == [] {
      assert wire + [e] == [e];
    } else {
      assert (wire + [e])[0] == wire[0] && (wire + [e])[1..] == wire[1..] + [e];
      FirstKeySnoc(wire[1..], e, id);
      if wire[0].id != id {
        assert Appears(wire, id) <==> Appears(wire[1..], id) by {
          if Appears(wire, id) {
            var i :| 0 <= i < |wire| && wire[i].id == id;
            assert wire[1..][i - 1].id == id;
          }
        }
      } else {
        assert wire[0].id == id && Appears(wire, id);
      }
    }
  }

  lemma SummaryOfSnoc(wire: seq<Entry>, e: Entry, id: ServiceId)
    ensures id != e.id && Appears(wire, id) ==> SummaryOf(wire + [e], id) == SummaryOf(wire, id)
    ensures id == e.id && Appears(wire, id) ==>
              SummaryOf(wire + [e], id)
              == Entry(id, Recipient(DevicesOf(wire, id) + e.recipient.devices, FirstKey(wire, id)))
    ensures id == e.id && !Appears(wire, id) ==> SummaryOf(wire + [e], id) == e
  {
    assert (wire + [e])[..|wire|] == wire;
    FirstKeySnoc(wire, e, id);
    DevicesElsewhere(wire, id);
  }

  lemma SummaryNew(wire: seq<Entry>, e: Entry)
    requires !Appears(wire, e.id)
    ensures Summary(wire + [e]) == Summary(wire) + [e]
  {
    var ids := FirstIds(wire);
    assert (wire + [e])[..|wire|] == wire;
    assert FirstIds(wire + [e]) == ids + [e.id];
    forall j | 0 <= j < |ids| ensures Summary(wire + [e])[j] == Summary(wire)[j] {
      assert ids[j] in ids;
      SummaryOfSnoc(wire, e, ids[j]);
    }
    SummaryOfSnoc(wire, e, e.id);
  }

  lemma SummaryRepeat(wire: seq<Entry>, e: Entry, i: nat)
    requires i < |Summary(wire)| && Summary(wire)[i].id == e.id
    ensures var r := Summary(wire)[i].recipient;
            Summary(wire + [e]) == Summary(wire)[i := Entry(e.id, r.(devices := r.devices + e.recipient.devices))]
  {
    var ids := FirstIds(wire);
    assert (wire + [e])[..|wire|] == wire;
    assert ids[i] == e.id;
    assert FirstIds(wire + [e]) == ids;
    forall j | 0 <= j < |ids| && j != i ensures Summary(wire + [e])[j] == Summary(wire)[j] {
      assert ids[j] in ids && ids[j] != ids[i];
      SummaryOfSnoc(wire, e, ids[j]);
    }
    SummaryOfSnoc(wire, e, e.id);
  }

  /** One merge step extends the summary, or reports a redundant empty entry. */
  lemma MergeStep(wire: seq<Entry>, e: Entry)
    requires NoRedundantEmpty(wire)
    ensures Merge(Summary(wire), e) == Expected(wire + [e])
  {
    var es := Summary(wire);
    var found := FindEntry(es, e.id);
    if found.Some? {
      assert es[found.value].id == FirstIds(wire)[found.value];
      assert Appears(wire, e.id);
      var k :| 0 <= k < |wire| && wire[k].id == e.id;
      RedundancyAt(wire, e, k);
      DevicesEmptyWhen(wire, k);
      SummaryRepeat(wire, e, found.value);
    } else {
      assert !Appears(wire, e.id) by { NotFoundIsNew(wire, e.id); }
      SummaryNew(wire, e);
      NewIsNotRedundant(wire, e);
    }
  }

  lemma NotFoundIsNew(wire: seq<Entry>, id: ServiceId)
    requires FindEntry(Summary(wire), id).None?
    ensures !Appears(wire, id)
  {
  }

  lemma NewIsNotRedundant(wire: seq<Entry>, e: Entry)
    requires NoRedundantEmpty(wire) && !Appears(wire, e.id)
    ensures NoRedundantEmpty(wire + [e])
  {
    var w := wire + [e];
    forall i, j | 0 <= i < j < |w| && w[i].id == w[j].id
      ensures w[i].recipient.devices != [] && w[j].recipient.devices != []
    {
      assert w[i] == wire[i];
    }
  }

  lemma PrefixNotRedundant(wire: seq<Entry>, rest: seq<Entry>)
    requires NoRedundantEmpty(wire + rest)
    ensures NoRedundantEmpty(wire)
  {
    forall i, j | 0 <= i < j < |wire| && wire[i].id == wire[j].id
      ensures wire[i].recipient.devices != [] && wire[j].recipient.devices != []
    {
      assert (wire + rest)[i] == wire[i] && (wire + rest)[j] == wire[j];
    }
  }

  lemma RedundancyAt(wire: seq<Entry>, e: Entry, k: nat)
    requires NoRedundantEmpty(wire) && k < |wire| && wire[k].id == e.id
    ensures NoRedundantEmpty(wire + [e]) <==> wire[k].recipient.devices != [] && e.recipient.devices != []
  {
    var w, n := wire + [e], |wire|;
    assert w[k] == wire[k] && w[n] == e;
    if wire[k].recipient.devices != [] && e.recipient.devices != [] {
      forall i, j | 0 <= i < j < |w| && w[i].id == w[j].id
        ensures w[i].recipient.devices != [] && w[j].recipient.devices != []
      {
        if j < n {
          assert w[i] == wire[i] && w[j] == wire[j];
        } else if i != k {
          assert wire[i].id == wire[k].id;
        }
      }
    }
  }

  /** What the parser should make of a list of entries. */
  function Expected(wire: seq<Entry>): Result<seq<Entry>, WireError> {
    if NoRedundantEmpty(wire) then Ok(Summary(wire)) else Err(RedundantlyEmpty)
  }

  lemma {:induction false} MergeAllFrom(es: seq<Entry>, wire: seq<Entry>, rest: seq<Entry>)
    requires Expected(wire) == Ok(es)
    ensures MergeAll(es, rest) == Expected(wire + rest)
    decreases |rest|
  {
    if rest == [] {
      assert wire + rest == wire;
    } else {
      var w := wire + [rest[0]];
      assert w + rest[1..] == wire + rest;
      assert Merge(es, rest[0]) == Expected(w) by { MergeStep(wire, rest[0]); }
      if Expected(w).Ok? {
        MergeAllFrom(Expected(w).value, w, rest[1..]);
      } else {
        assert Expected(w + rest[1..]) == Expected(w) by { RedundantStays(w, rest[1..]); }
      }
    }
  }

  lemma RedundantStays(wire: seq<Entry>, rest: seq<Entry>)
    requires Expected(wire).Err?
    ensures Expected(wire + rest) == Expected(wire)
  {
    if NoRedundantEmpty(wire + rest) {
      PrefixNotRedundant(wire, rest);
    }
  }

  /** For every list of entries, the parser's map is the summary exactly when no empty entry is repeated. */
  lemma MergeAllIsSummary(wire: seq<Entry>)
    ensures MergeAll([], wire) == Expected(wire)
  {
    assert Summary([]) == [];
    assert [] + wire == wire;
    MergeAllFrom([], [], wire);
  }

  // ---------------------------------------------------------------------------------------------
  // What the sender writes

  function ExcludedEntries(ids: seq<ServiceId>): seq<Entry> {
    seq(|ids|, i requires 0 <= i < |ids| => Entry(ids[i], Recipient([], [])))
  }

  /** Excluded recipients are distinct and none of them is also a destination. */
  predicate ExcludedApart(groups: seq<Entry>, excluded: seq<ServiceId>) {
    (forall i, j :: 0 <= i < j < |excluded| ==> excluded[i] != excluded[j]) &&
    (forall i, j :: 0 <= i < |groups| && 0 <= j < |excluded| ==> groups[i].id != excluded[j])
  }

  lemma ApartIffNotRedundant(groups: seq<Entry>, excluded: seq<ServiceId>)
    requires forall g :: g in groups ==> g.recipient.devices != []
    ensures NoRedundantEmpty(groups + ExcludedEntries(excluded)) <==> ExcludedApart(groups, excluded)
  {
    var w, n := groups + ExcludedEntries(excluded), |groups|;
    assert forall j :: 0 <= j < |excluded| ==> w[n + j] == Entry(excluded[j], Recipient([], []));
    assert forall i :: 0 <= i < n ==> w[i] == groups[i];
    if NoRedundantEmpty(w) {
      forall i, j | 0 <= i < j < |excluded| ensures excluded[i] != excluded[j] {
        assert w[n + i].id == excluded[i] && w[n + j].id == excluded[j];
      }
      forall i, j | 0 <= i < n && 0 <= j < |excluded| ensures groups[i].id != excluded[j] {
        assert w[i].id == groups[i].id && w[n + j].id == excluded[j];
      }
    }
  }

  /**
   A message written for any list of groups and any excluded recipients parses if and only if the excluded recipients
   are distinct and disjoint from the destinations and the count fits 32 bits; the result is then the summary of what
   was written.
   */
  lemma SentParsesIff(groups: seq<Entry>, excluded: seq<ServiceId>, shared: Bytes)
    requires forall g :: g in groups ==> IsEntry(g) && g.recipient.devices != []
    requires |shared| >= PUBLIC_KEY_LEN
    ensures forall e :: e in groups + ExcludedEntries(excluded) ==> IsEntry(e)
    ensures var wire := groups + ExcludedEntries(excluded);
            ParseSent(EncodeSent(wire, shared))
            == if |wire| > U32_MAX then Err(InvalidEncoding)
               else if ExcludedApart(groups, excluded)
                        then Ok(SentMessage(SERVICE_ID_FULL_VERSION, Summary(wire), shared))
               else Err(RedundantlyEmpty)
  {
    var wire := groups + ExcludedEntries(excluded);
    forall e | e in wire ensures IsEntry(e) {
      if e !in groups {
        assert e in ExcludedEntries(excluded);
        assert e.id in excluded;
      }
    }
    SentRoundTrip(wire, shared);
    MergeAllIsSummary(wire);
    ApartIffNotRedundant(groups, excluded);
  }
}
