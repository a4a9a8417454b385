/**
 When a device can send (rust/protocol/src/session_cipher.rs:19-147), in terms of what it called and received before:
 over any sequence of calls, each attempt to send is decided by the last call that left the address a current session.
 */
module SendingRuns {
  import opened Prelude
  import opened Symbolic
  import opened Messages
  import opened SessionStates
  import opened SessionCipher
  import opened SessionRecords
  import opened Handshake
  import opened Devices
  import opened DeviceRuns
  import opened RecordRuns
  import opened MessageCounters
  import opened DeviceFrames
  import opened Authenticity

  /** The call started a session for the address or received a message from it. */
  predicate Contacts(step: Step, out: Output, addr: Address) {
    && AddressOf(step) == Some(addr)
    && if step.Start? then out.Quiet? else (step.ReceivePreKey? || step.ReceiveSignal?) && out.Received?
  }

  /** The last such call among the first `n`, unless the session was archived after it. */
  function LastContact(steps: seq<Step>, outs: seq<Output>, n: nat, addr: Address): (j: Option<nat>)
    requires n <= |steps| && n <= |outs|
    ensures j.Some? ==> j.value < n && Contacts(steps[j.value], outs[j.value], addr)
    ensures j.Some? ==> forall k :: j.value < k < n ==> !Contacts(steps[k], outs[k], addr) && steps[k] != Archive(addr)
    ensures j.None? ==> forall k :: 0 <= k < n && Contacts(steps[k], outs[k], addr) ==>
                          exists l :: k < l < n && steps[l] == Archive(addr)
  {
    if n == 0 then None
    else if steps[n - 1] == Archive(addr) then assert !Contacts(steps[n - 1], outs[n - 1], addr); None
    else if Contacts(steps[n - 1], outs[n - 1], addr) then Some(n - 1)
    else LastContact(steps, outs, n - 1, addr)
  }

  /** The session can send: it has a chain, on which at most `n` messages were sent, and is for the known key. */
  predicate Usable(t: SessionStructure, d: Device, addr: Address, n: nat) {
    && t.senderChain.Some? && t.senderChain.value.chainKey.index <= n
    && t.senderChain.value.chainKey.index <= U32_MAX
    && addr in d.knownKeys && d.knownKeys[addr] == t.remoteIdentity
  }

  ghost predicate AllUsable(r: Record, d: Device, addr: Address, n: nat) {
    && |r.previous| <= ARCHIVED_STATES_MAX_LENGTH
    && forall k :: 0 <= k < |Sessions(r)| ==> Usable(Sessions(r)[k], d, addr, n)
  }

  /** The session is the one the call left current: pending since then if the call started it. */
  predicate LeftBy(s: SessionStructure, step: Step) {
    match step
    case Start(_, b, now, base, coins, _, _) =>
      s.aliceBaseKey == base
      && s.pendingPreKey == Some(PendingPreKey(OneTimeId(b), b.signedPreKeyId, base, now))
    case ReceivePreKey(_, pm, _, _, _) => s.aliceBaseKey == pm.baseKey && !HasPending(s)
    case _ => !HasPending(s)
  }

  predicate CurrentIs(r: Record, last: Option<Step>) {
    && (r.current.Some? <==> last.Some?)
    && (last.Some? ==> LeftBy(r.current.value, last.value))
  }

  // ---------------------------------------------------------------------------------------------
  // One call

  lemma ReplaceUsable(r: Record, k: nat, t: SessionStructure, d: Device, addr: Address, n: nat)
    requires AllUsable(r, d, addr, n) && k < |Sessions(r)| && Usable(t, d, addr, n + 1)
    ensures AllUsable(Apply(r, Replace(k, t)), d, addr, n + 1)
  {
    ReplaceSessions(r, k, t);
    var ss, ss' := Sessions(r), Sessions(Apply(r, Replace(k, t)));
    forall j | 1 <= j < |ss'| ensures Usable(ss'[j], d, addr, n + 1) {
      assert Usable(ss[Skip(k, j - 1)], d, addr, n);
    }
  }

  lemma AddUsable(r: Record, t: SessionStructure, d: Device, addr: Address, n: nat)
    requires AllUsable(r, d, addr, n) && Usable(t, d, addr, n + 1)
    ensures AllUsable(Apply(r, Add(t)), d, addr, n + 1)
  {
    AddSessions(r, t);
    PromoteStateConserves(r, t);
    var ss, ss' := Sessions(r), Sessions(Apply(r, Add(t)));
    forall j | 1 <= j < |ss'| ensures Usable(ss'[j], d, addr, n + 1) {
      assert Usable(ss[j - 1], d, addr, n);
    }
  }

  lemma RetireUsable(r: Record, d: Device, addr: Address, n: nat)
    requires AllUsable(r, d, addr, n)
    ensures AllUsable(Apply(r, Retire), d, addr, n + 1)
  {
    RetireSessions(r);
    var ss, ss' := Sessions(r), Sessions(Apply(r, Retire));
    forall j | 0 <= j < |ss'| ensures Usable(ss'[j], d, addr, n + 1) {
      assert Usable(ss[j], d, addr, n);
    }
  }

  /** The same key is known for the address, or it is known now and there was none. */
  predicate KeepsKey(r: Record, d: Device, d': Device, addr: Address) {
    Sessions(r) != [] ==> addr in d.knownKeys && addr in d'.knownKeys && d'.knownKeys[addr] == d.knownKeys[addr]
  }

  lemma SameKeyUsable(r: Record, d: Device, d': Device, addr: Address, n: nat)
    requires AllUsable(r, d, addr, n) && KeepsKey(r, d, d', addr)
    ensures AllUsable(r, d', addr, n)
  {
    forall k | 0 <= k < |Sessions(r)| ensures Usable(Sessions(r)[k], d', addr, n) {
      assert Usable(Sessions(r)[k], d, addr, n);
    }
  }

  lemma StartKeepsUsable(d: Device, step: Step, n: nat)
    requires step.Start? && AllUsable(LoadOrFresh(d, step.addr), d, step.addr, n) && Exec(d, step).1.Quiet?
    ensures var d' := Exec(d, step).0;
            && AllUsable(LoadOrFresh(d', step.addr), d', step.addr, n + 1)
            && CurrentIs(LoadOrFresh(d', step.addr), Some(step))
  {
    var Start(addr, b, now, base, coins, eph, pqInit) := step;
    var d', r, t := Exec(d, step).0, LoadOrFresh(d, addr), NewOutgoing(d, b, now, base, coins, eph, pqInit);
    if Sessions(r) != [] {
      assert Usable(Sessions(r)[0], d, addr, n);
    }
    SameKeyUsable(r, d, d', addr, n);
    AddUsable(r, t, d', addr, n);
  }

  lemma SendKeepsUsable(d: Device, addr: Address, plaintext: Plaintext, now: nat, pqSend: PqSend, n: nat,
                        last: Option<Step>)
    requires AllUsable(LoadOrFresh(d, addr), d, addr, n) && CurrentIs(LoadOrFresh(d, addr), last)
    requires MessageEncrypt(d, addr, plaintext, now, pqSend).Ok?
    ensures var d' := MessageEncrypt(d, addr, plaintext, now, pqSend).value.0;
            && AllUsable(LoadOrFresh(d', addr), d', addr, n + 1) && CurrentIs(LoadOrFresh(d', addr), last)
  {
    var r, d' := d.sessions[addr], MessageEncrypt(d, addr, plaintext, now, pqSend).value.0;
    assert Usable(Sessions(r)[0], d, addr, n);
    var (pq, pqKey, pqMsg) := pqSend(r.current.value.pq).value;
    SameKeyUsable(r, d, d', addr, n);
    ReplaceUsable(r, 0, EncryptWithState(r.current.value, plaintext, pq, pqKey, pqMsg).0, d', addr, n);
  }

  /** The session that accepted can send, and waits for nothing. */
  lemma AcceptUsable(s: SessionStructure, m: SignalMessage, eph: Name, o: Oracles, d: Device, addr: Address, n: nat)
    requires DecryptWithState(s, m, eph, o).Ok? && Usable(s, d, addr, n)
    ensures var t := DecryptWithState(s, m, eph, o).value.0;
            Usable(t, d, addr, n + 1) && !HasPending(t) && t.aliceBaseKey == s.aliceBaseKey
  {
    DecryptEnds(s, m, eph, o);
    AcceptFields(s, m, eph, o);
  }

  lemma SignalKeepsUsable(d: Device, step: Step, n: nat)
    requires step.ReceiveSignal? && AllUsable(LoadOrFresh(d, step.addr), d, step.addr, n) && Exec(d, step).1.Received?
    ensures var d' := Exec(d, step).0;
            && AllUsable(LoadOrFresh(d', step.addr), d', step.addr, n + 1)
            && CurrentIs(LoadOrFresh(d', step.addr), Some(step))
  {
    var ReceiveSignal(addr, m, eph, o) := step;
    var k := SignalChange(d, addr, m, eph, o);
    var r, d' := d.sessions[addr], Exec(d, step).0;
    var s := Sessions(r)[k];
    assert Usable(s, d, addr, n);
    AcceptUsable(s, m, eph, o, d, addr, n);
    DecryptEnds(s, m, eph, o);
    SameKeyUsable(r, d, d', addr, n);
    ReplaceUsable(r, k, Successor(r, k, m, eph, o), d', addr, n);
  }

  lemma PreKeyKeepsUsable(d: Device, step: Step, n: nat)
    requires step.ReceivePreKey? && AllUsable(LoadOrFresh(d, step.addr), d, step.addr, n) && Exec(d, step).1.Received?
    ensures var d' := Exec(d, step).0;
            && AllUsable(LoadOrFresh(d', step.addr), d', step.addr, n + 1)
            && CurrentIs(LoadOrFresh(d', step.addr), Some(step))
  {
    var ReceivePreKey(addr, pm, eph, o, pqInit) := step;
    var existing, k := PreKeyChange(d, addr, pm, eph, o, pqInit);
    var r, d' := LoadOrFresh(d, addr), Exec(d, step).0;
    PreKeyTrusts(d, addr, pm, eph, o, pqInit);
    if Sessions(r) != [] {
      assert Usable(Sessions(r)[0], d, addr, n);
    }
    SameKeyUsable(r, d, d', addr, n);
    if existing {
      AcceptUsable(Sessions(r)[k], pm.message, eph, o, d', addr, n);
      ReplaceUsable(r, k, Successor(r, k, pm.message, eph, o), d', addr, n);
    } else {
      NewIncomingUsable(d, d', addr, pm, pqInit);
      AcceptUsable(NewIncoming(d, pm, pqInit), pm.message, eph, o, d', addr, n);
      AddUsable(r, DecryptWithState(NewIncoming(d, pm, pqInit), pm.message, eph, o).value.0, d', addr, n);
    }
  }

  lemma NewIncomingUsable(d: Device, d': Device, addr: Address, pm: PreKeySignalMessage, pqInit: PqInit)
    requires HasPreKeys(d, pm) && addr in d'.knownKeys && d'.knownKeys[addr] == pm.identityKey
    ensures Usable(NewIncoming(d, pm, pqInit), d', addr, 0)
    ensures NewIncoming(d, pm, pqInit).aliceBaseKey == pm.baseKey
  {
  }

  /** Calls that neither start, receive nor archive leave the current session the one it was. */
  lemma CallKeepsUsable(d: Device, step: Step, addr: Address, n: nat, last: Option<Step>)
    requires AllUsable(LoadOrFresh(d, addr), d, addr, n) && CurrentIs(LoadOrFresh(d, addr), last)
    ensures var (d', out) := Exec(d, step);
            && AllUsable(LoadOrFresh(d', addr), d', addr, n + 1)
            && CurrentIs(LoadOrFresh(d', addr),
                         if step == Archive(addr) then None else if Contacts(step, out, addr) then Some(step) else last)
  {
    var (d', out) := Exec(d, step);
    if AddressOf(step) != Some(addr) {
      ElsewhereUsable(d, step, addr, n);
    } else if Contacts(step, out, addr) {
      match step {
        case Start(_, _, _, _, _, _, _) => StartKeepsUsable(d, step, n);
        case ReceivePreKey(_, _, _, _, _) => PreKeyKeepsUsable(d, step, n);
        case ReceiveSignal(_, _, _, _) => SignalKeepsUsable(d, step, n);
      }
    } else if step.Archive? {
      RetireUsable(LoadOrFresh(d, addr), d, addr, n);
    } else if step.Send? && out.Emitted? {
      SendKeepsUsable(d, addr, step.plaintext, step.now, step.pqSend, n, last);
    } else {
      FailedUsable(d, step, n);
    }
  }

  lemma ElsewhereUsable(d: Device, step: Step, addr: Address, n: nat)
    requires AllUsable(LoadOrFresh(d, addr), d, addr, n) && AddressOf(step) != Some(addr)
    ensures var d' := Exec(d, step).0;
            AllUsable(LoadOrFresh(d', addr), d', addr, n + 1) && LoadOrFresh(d', addr) == LoadOrFresh(d, addr)
  {
    ElsewhereKeeps(d, step, addr);
    var d', ss := Exec(d, step).0, Sessions(LoadOrFresh(d, addr));
    forall k | 0 <= k < |ss| ensures Usable(ss[k], d', addr, n + 1) {
      var key := ss[k].remoteIdentity;
      assert Usable(ss[k], d, addr, n) && IsTrusted(d, addr, key) && !IsTrusted(d, addr, key + 1);
      assert IsTrusted(d', addr, key) && !IsTrusted(d', addr, key + 1);
    }
  }

  lemma FailedUsable(d: Device, step: Step, n: nat)
    requires AddressOf(step).Some? && Exec(d, step).1.Failed?
    requires var addr := AddressOf(step).value; AllUsable(LoadOrFresh(d, addr), d, addr, n)
    ensures var d', addr := Exec(d, step).0, AddressOf(step).value;
            AllUsable(LoadOrFresh(d', addr), d', addr, n + 1) && LoadOrFresh(d', addr) == LoadOrFresh(d, addr)
  {
    var d', addr := Exec(d, step).0, AddressOf(step).value;
    var ss := Sessions(LoadOrFresh(d, addr));
    if step.ReceivePreKey? {
      PreKeyTrusts(d, addr, step.preKey, step.eph, step.oracles, step.pqInit);
    }
    forall k | 0 <= k < |ss| ensures Usable(ss[k], d', addr, n + 1) {
      assert Usable(ss[k], d, addr, n);
    }
  }

  // ---------------------------------------------------------------------------------------------
  // Any sequence of calls

  function LastContactStep(steps: seq<Step>, outs: seq<Output>, n: nat, addr: Address): Option<Step>
    requires n <= |steps| && n <= |outs|
  {
    match LastContact(steps, outs, n, addr)
    case None => None
    case Some(j) => Some(steps[j])
  }

  lemma {:induction false} AlwaysUsable(ds: seq<Device>, outs: seq<Output>, steps: seq<Step>, n: nat, addr: Address)
    requires Calls(ds, outs, steps) && ds[0].sessions == map[] && n <= |steps|
    ensures AllUsable(LoadOrFresh(ds[n], addr), ds[n], addr, n)
    ensures CurrentIs(LoadOrFresh(ds[n], addr), LastContactStep(steps, outs, n, addr))
  {
    if n > 0 {
      AlwaysUsable(ds, outs, steps, n - 1, addr);
      assert CallAt(ds, outs, steps, n - 1);
      CallKeepsUsable(ds[n - 1], steps[n - 1], addr, n - 1, LastContactStep(steps, outs, n - 1, addr));
    }
  }

  /** There is a session to send in exactly if the device made contact with the address since it last archived. */
  lemma HasSessionIff(ds: seq<Device>, outs: seq<Output>, steps: seq<Step>, n: nat, addr: Address)
    requires Calls(ds, outs, steps) && ds[0].sessions == map[] && n <= |steps|
    ensures addr in ds[n].sessions && ds[n].sessions[addr].current.Some?
       <==> exists j {:trigger steps[j]} :: 0 <= j < n && Contacts(steps[j], outs[j], addr)
              && forall k :: j < k < n ==> steps[k] != Archive(addr)
  {
    AlwaysUsable(ds, outs, steps, n, addr);
    var last := LastContact(steps, outs, n, addr);
    if last.Some? {
      assert Contacts(steps[last.value], outs[last.value], addr);
    }
  }

  /**
   The exact outcome of every attempt to send, after any calls and any messages at all. It fails without contact since
   the last archiving, when the post-quantum ratchet refuses, more than 30 days after a start that nothing was received
   since, and when the counter is used up, which takes that many calls; it never fails for want of trust. A pre-key
   message goes out exactly if the last contact was the start of a session, and it names the base key of that start.
   */
  lemma SendIsDecided(ds: seq<Device>, outs: seq<Output>, steps: seq<Step>, i: nat)
    requires Calls(ds, outs, steps) && ds[0].sessions == map[] && i < |steps| && steps[i].Send?
    ensures var Send(addr, _, now, pqSend) := steps[i];
            match LastContact(steps, outs, i, addr)
            case None => outs[i] == Failed(SessionNotFound)
            case Some(j) =>
              && addr in ds[i].sessions && ds[i].sessions[addr].current.Some?
              && var s := ds[i].sessions[addr].current.value;
              && s.senderChain.Some? && s.senderChain.value.chainKey.index <= i
              && if pqSend(s.pq).None? then outs[i] == Failed(InvalidState)
                 else if steps[j].Start? && steps[j].now + 30 * 24 * 60 * 60 < now then
                   outs[i] == Failed(SessionNotFound)
                 else if s.senderChain.value.chainKey.index == 0xFFFF_FFFF then outs[i] == Failed(CounterOverflow)
                 else
                   && outs[i].Emitted? && outs[i].addr == addr && outs[i].base == s.aliceBaseKey
                   && (outs[i].message.PreKey? <==> steps[j].Start?)
                   && (steps[j].Start? ==> outs[i].message.preKey.baseKey == steps[j].base)
                   && (steps[j].ReceivePreKey? ==> outs[i].base == steps[j].preKey.baseKey)
    ensures outs[i].Failed? ==> ds[i + 1] == ds[i]
  {
    assert CallAt(ds, outs, steps, i);
    AlwaysUsable(ds, outs, steps, i, steps[i].addr);
    var d, addr := ds[i], steps[i].addr;
    if addr in d.sessions && d.sessions[addr].current.Some? {
      assert Usable(Sessions(d.sessions[addr])[0], d, addr, i);
    }
  }

  /** A bundle is taken exactly if its identity key signed both pre-keys and no other one is known for the address. */
  lemma StartIsDecided(ds: seq<Device>, outs: seq<Output>, steps: seq<Step>, i: nat)
    requires Calls(ds, outs, steps) && ds[0].sessions == map[] && i < |steps| && steps[i].Start?
    ensures var Start(addr, b, _, _, _, _, _) := steps[i];
            && (outs[i].Quiet? <==>
                  && b.signedPreKeySignature == Signed(b.identityKey, b.signedPreKey)
                  && b.kyberPreKeySignature == Signed(b.identityKey, b.kyberPreKey)
                  && (addr in ds[i].knownKeys ==> ds[i].knownKeys[addr] == b.identityKey))
            && if outs[i].Quiet? then LastContact(steps, outs, i + 1, addr) == Some(i) else ds[i + 1] == ds[i]
  {
    assert CallAt(ds, outs, steps, i);
  }
}
