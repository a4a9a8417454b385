/**
 When a Sealed Sender v2 message for many recipients can be written at all
 (rust/protocol/src/sealed_sender.rs:1377-1532), in terms of what the caller passes in.
 */
module SendOutcome {
  import opened Prelude
  import opened ByteStrings
  import opened SealedSenderWire
  import opened SealedSenderV2
  import opened MultiRecipient

  /** A destination starts a run of destinations with one name. */
  predicate StartsRun(ds: seq<Destination>, i: nat)
    requires i < |ds|
  {
    i == 0 || ds[i - 1].address.name != ds[i].address.name
  }

  predicate RunsKnown(identityOf: Address -> Option<Bytes>, ds: seq<Destination>) {
    forall i :: 0 <= i < |ds| && StartsRun(ds, i) ==> identityOf(ds[i].address).Some?
  }

  /** Grouping succeeds exactly if an identity is stored for the first address of every run of one name. */
  lemma {:induction false} GroupsIff(identityOf: Address -> Option<Bytes>, ds: seq<Destination>)
    ensures GroupByName(identityOf, ds).Ok? <==> RunsKnown(identityOf, ds)
    decreases |ds|
  {
    if ds != [] {
      var n := SameName(ds, ds[0].address.name);
      GroupsIff(identityOf, ds[n..]);
      RunsSplit(identityOf, ds, n);
    }
  }

  lemma RunsSplit(identityOf: Address -> Option<Bytes>, ds: seq<Destination>, n: nat)
    requires 0 < n <= |ds| && (forall i :: 0 <= i < n ==> ds[i].address.name == ds[0].address.name)
    requires n < |ds| ==> ds[n].address.name != ds[0].address.name
    ensures RunsKnown(identityOf, ds) <==> identityOf(ds[0].address).Some? && RunsKnown(identityOf, ds[n..])
  {
    var rest := ds[n..];
    assert StartsRun(ds, 0);
    assert forall i :: 0 <= i < |rest| ==> rest[i] == ds[n + i] && (StartsRun(rest, i) <==> StartsRun(ds, n + i));
    if identityOf(ds[0].address).Some? && RunsKnown(identityOf, rest) {
      forall i | 0 <= i < |ds| && StartsRun(ds, i) ensures identityOf(ds[i].address).Some? {
        if i >= n {
          assert StartsRun(rest, i - n) && rest[i - n] == ds[i];
        }
      }
    }
    if RunsKnown(identityOf, ds) {
      forall i | 0 <= i < |rest| && StartsRun(rest, i) ensures identityOf(rest[i].address).Some? {
        assert StartsRun(ds, n + i);
      }
    }
  }

  /** The destination has a registration ID of 14 bits and a name that is a service ID. */
  predicate Reachable(job: Job, d: Destination) {
    d.registrationId.Some? && d.registrationId.value < 0x4000 && job.serviceId(d.address.name).Some?
  }

  lemma {:induction false} DevicesForIff(ds: seq<Destination>)
    ensures DevicesFor(ds).Ok?
       <==> forall d :: d in ds ==> d.registrationId.Some? && d.registrationId.value < 0x4000
    decreases |ds|
  {
    if ds != [] {
      DevicesForIff(ds[1..]);
      assert ds == [ds[0]] + ds[1..];
    }
  }

  lemma EntryForIff(job: Job, g: Group)
    requires OneName(g)
    ensures EntryFor(job, g).Ok? <==> forall d :: d in g.members ==> Reachable(job, d)
  {
    DevicesForIff(g.members);
    assert g.members[0] in g.members;
  }

  lemma {:induction false} EntriesForIff(job: Job, gs: seq<Group>)
    requires forall g :: g in gs ==> OneName(g)
    ensures EntriesFor(job, gs).Ok? <==> forall d :: d in Members(gs) ==> Reachable(job, d)
    decreases |gs|
  {
    if gs != [] {
      EntryForIff(job, gs[0]);
      EntriesForIff(job, gs[1..]);
    }
  }

  /**
   A message is written if and only if there is one session per destination, an identity is stored for the first address
   of every run of one name, and every destination has a registration ID of 14 bits and a name that is a service ID.
   */
  lemma WrittenIff(job: Job, destinations: seq<Address>, sessions: seq<Option<nat>>, excluded: seq<ServiceId>)
    requires Laws(job.suite) && ReadyJob(job)
    ensures Message(job, destinations, sessions, excluded).Ok? <==>
              && |destinations| == |sessions| && RunsKnown(job.identityOf, Zip(destinations, sessions))
              && forall i :: 0 <= i < |destinations| ==>
                   && sessions[i].Some? && sessions[i].value < 0x4000 && job.serviceId(destinations[i].name).Some?
  {
    if |destinations| == |sessions| {
      var ds := Zip(destinations, sessions);
      GroupsIff(job.identityOf, ds);
      if GroupByName(job.identityOf, ds).Ok? {
        var gs := GroupByName(job.identityOf, ds).value;
        GroupsCover(job.identityOf, ds);
        GroupsShareIdentity(job.identityOf, ds);
        forall g | g in gs ensures OneName(g) {
          assert IsGroupOf(job.identityOf, g);
        }
        EntriesForIff(job, gs);
        AllReachable(job, destinations, sessions);
      }
    } else {
      assert Message(job, destinations, sessions, excluded).Err?;
    }
  }

  lemma AllReachable(job: Job, destinations: seq<Address>, sessions: seq<Option<nat>>)
    requires |destinations| == |sessions|
    ensures (forall d :: d in Zip(destinations, sessions) ==> Reachable(job, d)) <==>
              forall i :: 0 <= i < |destinations| ==>
                && sessions[i].Some? && sessions[i].value < 0x4000 && job.serviceId(destinations[i].name).Some?
  {
    var ds := Zip(destinations, sessions);
    if forall d :: d in ds ==> Reachable(job, d) {
      forall i | 0 <= i < |destinations|
        ensures sessions[i].Some? && sessions[i].value < 0x4000 && job.serviceId(destinations[i].name).Some?
      {
        assert ds[i] in ds;
      }
    }
  }
}
