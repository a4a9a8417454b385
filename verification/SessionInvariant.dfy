/**
 What every receive keeps on one session.

 A slot is an index of a receiving chain, named by the chain's origin. A session can yield a slot if some
 retained chain still has it available, or if the chain would be created by a later ratchet step. Receiving a
 message uses up one slot for good and makes no other slot available.
 */
module SessionInvariants {
  import opened Prelude
  import opened Symbolic
  import opened RatchetKeys
  import opened Messages
  import opened SessionStates
  import opened SessionCipher
  import opened SkippedKeys

  type Slot = (Term, nat)

  ghost predicate ChainsInv(chains: seq<Chain>, family: Family, depth: nat) {
    && (forall i :: 0 <= i < |chains| ==>
          && ChainInv(chains[i])
          && OriginFamily(ChainOrigin(chains[i])) == family
          && OriginRank(ChainOrigin(chains[i])) < depth)
    && (forall i, j :: 0 <= i < j < |chains| ==>
          OriginRank(ChainOrigin(chains[i])) < OriginRank(ChainOrigin(chains[j])))
  }

  /** Chains belong to the session's own handshake, were created in order, and precede the current root. */
  ghost predicate SessionInv(s: SessionStructure) {
    && |s.receiverChains| <= MAX_RECEIVER_CHAINS
    && ChainsInv(s.receiverChains, FamilyOf(s.rootKey), RootDepth(s.rootKey))
  }

  ghost predicate ChainsYield(chains: seq<Chain>, slot: Slot) {
    exists i :: 0 <= i < |chains| && ChainOrigin(chains[i]) == slot.0 && Available(chains[i], slot.1)
  }

  ghost predicate Upcoming(root: Term, slot: Slot) {
    IsRatchetOrigin(slot.0) && OriginFamily(slot.0) == FamilyOf(root) && OriginRank(slot.0) >= RootDepth(root)
  }

  ghost predicate CanYield(s: SessionStructure, slot: Slot) {
    ChainsYield(s.receiverChains, slot) || Upcoming(s.rootKey, slot)
  }

  /** Nothing the session can still yield was taken before. */
  ghost predicate Unspent(s: SessionStructure, taken: iset<Slot>) {
    forall slot: Slot :: CanYield(s, slot) ==> slot !in taken
  }

  /** Every chain's store is a window over what was taken. */
  ghost predicate StoresAreWindows(chains: seq<Chain>, taken: iset<Slot>) {
    forall i :: 0 <= i < |chains| ==> HasWindow(chains[i], taken)
  }

  ghost predicate HasWindow(c: Chain, taken: iset<Slot>) {
    exists floor: nat :: FloorOk(c, floor) && StoreIsWindow(c, taken, floor)
  }

  /** The fields a receive leaves alone. */
  predicate SameEnds(s: SessionStructure, t: SessionStructure) {
    && s.version == t.version && s.localIdentity == t.localIdentity && s.remoteIdentity == t.remoteIdentity
    && s.aliceBaseKey == t.aliceBaseKey
    && s.remoteRegistrationId == t.remoteRegistrationId && s.localRegistrationId == t.localRegistrationId
  }

  lemma AddChainKeeps(chains: seq<Chain>, c: Chain, family: Family, depth: nat, depth': nat)
    requires ChainInv(c) && OriginFamily(ChainOrigin(c)) == family
    requires ChainsInv(chains, family, depth) && depth <= OriginRank(ChainOrigin(c)) < depth'
    ensures ChainsInv(AddChain(chains, c), family, depth')
  {
    var all := chains + [c];
    assert ChainsInv(all, family, depth');
  }

  lemma RatchetStepKeeps(s: SessionStructure, theirs: Name, eph: Name, taken: iset<Slot>)
    requires SessionInv(s) && s.senderChain.Some?
    requires Unspent(s, taken) && StoresAreWindows(s.receiverChains, taken)
    ensures var t := RatchetStep(s, theirs, eph);
            && SessionInv(t) && FamilyOf(t.rootKey) == FamilyOf(s.rootKey)
            && RootDepth(t.rootKey) == RootDepth(s.rootKey) + 2
            && (forall slot: Slot :: CanYield(t, slot) ==> CanYield(s, slot))
            && Unspent(t, taken) && StoresAreWindows(t.receiverChains, taken)
  {
    var t := RatchetStep(s, theirs, eph);
    var (root1, receiving) := CreateChain(s.rootKey, theirs, s.senderChain.value.ratchetKey);
    var secret := Agree(s.senderChain.value.ratchetKey, theirs);
    RootStep(s.rootKey, secret, Agree(eph, theirs));
    var c := Chain(theirs, receiving, []);
    FreshChainInv(theirs, receiving.key);
    AddChainKeeps(s.receiverChains, c, FamilyOf(s.rootKey), RootDepth(s.rootKey), RootDepth(t.rootKey));
    assert IsRatchetOrigin(ChainOrigin(c)) && Upcoming(s.rootKey, (ChainOrigin(c), 0));
    AddChainYields(s, t, c);
    AddChainWindows(s.receiverChains, c, taken);
  }

  /** A chain the session would create anyway, and a later root, make no slot available. */
  lemma AddChainYields(s: SessionStructure, t: SessionStructure, c: Chain)
    requires t.receiverChains == AddChain(s.receiverChains, c)
    requires FamilyOf(t.rootKey) == FamilyOf(s.rootKey) && RootDepth(s.rootKey) <= RootDepth(t.rootKey)
    requires Upcoming(s.rootKey, (ChainOrigin(c), 0))
    ensures forall slot: Slot :: CanYield(t, slot) ==> CanYield(s, slot)
  {
    forall slot: Slot | ChainsYield(t.receiverChains, slot) ensures CanYield(s, slot) {
      var i :| 0 <= i < |t.receiverChains| && ChainOrigin(t.receiverChains[i]) == slot.0
               && Available(t.receiverChains[i], slot.1);
      if t.receiverChains[i] != c {
        assert t.receiverChains[i] in s.receiverChains;
      }
    }
  }

  lemma AddChainWindows(chains: seq<Chain>, c: Chain, taken: iset<Slot>)
    requires StoresAreWindows(chains, taken) && c.chainKey.index == 0 && c.messageKeys == []
    ensures StoresAreWindows(AddChain(chains, c), taken)
  {
    var all := AddChain(chains, c);
    assert StoreIsWindow(c, taken, 0);
    forall i | 0 <= i < |all| ensures HasWindow(all[i], taken) {
      if all[i] != c {
        assert all[i] in chains;
      }
    }
  }

  lemma TakeKeyForKeeps(s: SessionStructure, theirs: Name, counter: nat, taken: iset<Slot>) returns (slot: Slot)
    requires SessionInv(s)
    requires FindChain(s.receiverChains, theirs).Some? && TakeKeyFor(s, theirs, counter).Ok?
    requires Unspent(s, taken) && StoresAreWindows(s.receiverChains, taken)
    ensures var (t, seed) := TakeKeyFor(s, theirs, counter).value;
            && slot.1 == counter && IsReceivingOrigin(slot.0) && seed == SeedAt(slot.0, slot.1)
            && CanYield(s, slot) && !CanYield(t, slot)
            && SessionInv(t) && t.rootKey == s.rootKey
            && (forall sl: Slot :: CanYield(t, sl) ==> CanYield(s, sl))
            && Unspent(t, taken + iset{slot}) && StoresAreWindows(t.receiverChains, taken + iset{slot})
  {
    var i := FindChain(s.receiverChains, theirs).value;
    var c := s.receiverChains[i];
    var t := TakeKeyFor(s, theirs, counter).value.0;
    slot := (ChainOrigin(c), counter);
    TakeKeyKeepsChain(s, c, counter);
    TakenChainKeeps(s, t, i, counter);
    WindowsAfterTake(s, i, counter, taken);
  }

  /** One chain lost one available index and gained none. */
  lemma TakenChainKeeps(s: SessionStructure, t: SessionStructure, i: nat, counter: nat)
    requires SessionInv(s) && i < |s.receiverChains| == |t.receiverChains|
    requires t == s.(receiverChains := s.receiverChains[i := t.receiverChains[i]])
    requires var c, c' := s.receiverChains[i], t.receiverChains[i];
             && ChainInv(c') && ChainOrigin(c') == ChainOrigin(c) && Available(c, counter) && !Available(c', counter)
             && (forall n: nat :: Available(c', n) ==> Available(c, n))
    ensures var slot := (ChainOrigin(s.receiverChains[i]), counter);
            && SessionInv(t) && CanYield(s, slot) && !CanYield(t, slot)
            && (forall sl: Slot :: CanYield(t, sl) ==> CanYield(s, sl))
  {
    var slot := (ChainOrigin(s.receiverChains[i]), counter);
    assert forall j :: 0 <= j < |s.receiverChains| ==>
             ChainOrigin(t.receiverChains[j]) == ChainOrigin(s.receiverChains[j]);
    forall sl: Slot | CanYield(t, sl) ensures CanYield(s, sl) && sl != slot {
      if ChainsYield(t.receiverChains, sl) {
        var j :| 0 <= j < |t.receiverChains| && ChainOrigin(t.receiverChains[j]) == sl.0
                 && Available(t.receiverChains[j], sl.1);
        assert Available(s.receiverChains[j], sl.1);
      }
    }
  }

  lemma WindowsAfterTake(s: SessionStructure, i: nat, counter: nat, taken: iset<Slot>)
    requires SessionInv(s) && i < |s.receiverChains|
    requires TakeKey(s, s.receiverChains[i], counter).Ok?
    requires Unspent(s, taken) && StoresAreWindows(s.receiverChains, taken)
    ensures var c := s.receiverChains[i];
            var (c', _) := TakeKey(s, c, counter).value;
            StoresAreWindows(s.receiverChains[i := c'], taken + iset{(ChainOrigin(c), counter)})
  {
    var c := s.receiverChains[i];
    var (c', _) := TakeKey(s, c, counter).value;
    var slot := (ChainOrigin(c), counter);
    assert HasWindow(c, taken);
    var floor: nat :| FloorOk(c, floor) && StoreIsWindow(c, taken, floor);
    forall n: nat | n >= c.chainKey.index ensures (ChainOrigin(c), n) !in taken {
      assert Available(c, n);
      assert CanYield(s, (ChainOrigin(c), n));
    }
    var floor' := TakeKeyKeepsWindow(s, c, counter, taken, floor);
    assert HasWindow(c', taken + iset{slot});
    forall j | 0 <= j < |s.receiverChains| && j != i ensures HasWindow(s.receiverChains[j], taken + iset{slot}) {
      var d := s.receiverChains[j];
      assert HasWindow(d, taken);
      var f: nat :| FloorOk(d, f) && StoreIsWindow(d, taken, f);
      assert ChainOrigin(d) != ChainOrigin(c);
      assert StoreIsWindow(d, taken + iset{slot}, f);
    }
  }

  /** The MAC an accepted message must carry. */
  ghost predicate MacUses(m: SignalMessage, slot: Slot) {
    exists pqKey: Option<Term>, sender: Name, receiver: Name ::
      m.mac == Mac(GenerateKeys(SeedAt(slot.0, slot.1), pqKey).macKey, sender, receiver, m.content)
  }

  lemma MacUsesOneSlot(m: SignalMessage, a: Slot, b: Slot)
    requires IsOrigin(a.0) && IsOrigin(b.0) && MacUses(m, a) && MacUses(m, b)
    ensures a == b
  {
    var pq1: Option<Term>, s1: Name, r1: Name :|
      m.mac == Mac(GenerateKeys(SeedAt(a.0, a.1), pq1).macKey, s1, r1, m.content);
    var pq2: Option<Term>, s2: Name, r2: Name :|
      m.mac == Mac(GenerateKeys(SeedAt(b.0, b.1), pq2).macKey, s2, r2, m.content);
    MacKeyDeterminesSlot(a.0, a.1, pq1, b.0, b.1, pq2);
  }

  /**
   Accepting a message: exactly one slot is used up, it is the slot of the message's MAC, no slot becomes
   available, and each skipped-key store stays the window of what was taken.
   */
  lemma DecryptKeeps(s: SessionStructure, m: SignalMessage, eph: Name, o: Oracles, taken: iset<Slot>)
    returns (slot: Slot)
    requires SessionInv(s) && DecryptWithState(s, m, eph, o).Ok?
    requires Unspent(s, taken) && StoresAreWindows(s.receiverChains, taken)
    ensures var t := DecryptWithState(s, m, eph, o).value.0;
            && slot.1 == m.content.counter && IsReceivingOrigin(slot.0) && MacUses(m, slot)
            && CanYield(s, slot) && !CanYield(t, slot)
            && SessionInv(t) && FamilyOf(t.rootKey) == FamilyOf(s.rootKey)
            && (forall sl: Slot :: CanYield(t, sl) ==> CanYield(s, sl))
            && Unspent(t, taken + iset{slot}) && StoresAreWindows(t.receiverChains, taken + iset{slot})
            && SameEnds(s, t) && !HasPending(t)
  {
    var theirs, counter := m.content.ratchetKey, m.content.counter;
    var s1 := WithChainFor(s, theirs, eph).value;
    WithChainForFinds(s, theirs, eph);
    if FindChain(s.receiverChains, theirs).None? {
      RatchetStepKeeps(s, theirs, eph, taken);
    }
    slot := TakeKeyForKeeps(s1, theirs, counter, taken);
    var (s2, seed) := TakeKeyFor(s1, theirs, counter).value;
    var (pq, pqKey) := o.pqRecv(s2.pq, m.content.pq).value;
    assert m.mac == Mac(GenerateKeys(SeedAt(slot.0, slot.1), pqKey).macKey, s2.remoteIdentity, s2.localIdentity,
                        m.content);
    var t := DecryptWithState(s, m, eph, o).value.0;
    assert t.receiverChains == s2.receiverChains && t.rootKey == s2.rootKey;
    assert forall sl: Slot :: CanYield(t, sl) <==> CanYield(s2, sl);
  }
}
