/**
 The skipped-key store of a receiving chain (rust/protocol/src/state/session.rs:434-478).

 The store is compared with its specification, a window: an index is still available when it lies ahead of
 the chain, or behind it, at or above an eviction floor, and was not taken yet.
 */
module SkippedKeys {
  import opened Prelude
  import opened Symbolic
  import opened RatchetKeys
  import opened Messages
  import opened SessionStates
  import opened SessionCipher

  function ChainOrigin(c: Chain): Term {
    OriginOf(c.chainKey.key)
  }

  predicate Stored(c: Chain, n: nat) {
    exists k :: 0 <= k < |c.messageKeys| && c.messageKeys[k].index == n
  }

  predicate Available(c: Chain, n: nat) {
    n >= c.chainKey.index || Stored(c, n)
  }

  /** Every key is the one derived from the origin at its own index; indices strictly decrease, below the chain's. */
  ghost predicate ChainInv(c: Chain) {
    && IsReceivingOrigin(ChainOrigin(c))
    && c.chainKey == ChainAt(ChainOrigin(c), c.chainKey.index)
    && |c.messageKeys| <= MAX_MESSAGE_KEYS
    && (forall k :: 0 <= k < |c.messageKeys| ==>
          c.messageKeys[k].index < c.chainKey.index && IsKeyOf(ChainOrigin(c), c.messageKeys[k]))
    && Descending(c.messageKeys)
  }

  /** The key is the one derived from the origin at the key's own index. */
  predicate IsKeyOf(o: Term, k: MessageSeed) {
    k == SeedAt(o, k.index)
  }

  ghost predicate Descending(keys: seq<MessageSeed>) {
    forall j, k :: 0 <= j < k < |keys| ==> keys[j].index > keys[k].index
  }

  /** The stored set is exactly the skipped indices at or above the floor that were not taken. */
  ghost predicate StoreIsWindow(c: Chain, taken: iset<(Term, nat)>, floor: nat) {
    forall n: nat :: n < c.chainKey.index ==>
      (Stored(c, n) <==> floor <= n && (ChainOrigin(c), n) !in taken)
  }

  /** The floor leaves the last 2000 indices behind the chain alone; it is 0 until more would have to be kept. */
  predicate FloorOk(c: Chain, floor: nat) {
    floor == 0 || floor + MAX_MESSAGE_KEYS < c.chainKey.index
  }

  /** Strictly decreasing indices fall by at least one per position. */
  lemma {:induction false} DescendingFalls(keys: seq<MessageSeed>, k: nat)
    requires Descending(keys) && k < |keys|
    ensures keys[k].index + k <= keys[0].index
  {
    if k > 0 {
      DescendingFalls(keys, k - 1);
    }
  }

  lemma {:induction false} ForwardIsChainAt(o: Term, ck: ChainKey, counter: nat)
    requires ck.index <= counter <= U32_MAX && ck == ChainAt(o, ck.index)
    ensures Forward(ck, counter) == ChainAt(o, counter)
    decreases counter - ck.index
  {
    if ck.index < counter {
      ForwardIsChainAt(o, NextChainKey(ck), counter);
    }
  }

  lemma {:induction false} SkippedKeysOf(o: Term, ck: ChainKey, counter: nat)
    requires ck.index <= counter <= U32_MAX && ck == ChainAt(o, ck.index)
    ensures forall k :: 0 <= k < counter - ck.index ==>
              Skipped(ck, counter)[k].index == counter - 1 - k && IsKeyOf(o, Skipped(ck, counter)[k])
    decreases counter - ck.index
  {
    if ck.index < counter {
      SkippedKeysOf(o, NextChainKey(ck), counter);
      assert IsKeyOf(o, SeedOf(ck));
    }
  }

  /** What the store would hold after a jump if it had no bound. */
  function AllKeys(c: Chain, counter: nat): seq<MessageSeed>
    requires c.chainKey.index <= counter <= U32_MAX
  {
    Skipped(c.chainKey, counter) + c.messageKeys
  }

  lemma AllKeysAre(c: Chain, counter: nat)
    requires ChainInv(c) && c.chainKey.index <= counter <= U32_MAX
    ensures var all, jump := AllKeys(c, counter), counter - c.chainKey.index;
            && (forall k :: 0 <= k < |all| ==> IsKeyOf(ChainOrigin(c), all[k]) && all[k].index < counter)
            && (forall k :: 0 <= k < jump ==> all[k].index == counter - 1 - k)
            && (forall k :: jump <= k < |all| ==> all[k] == c.messageKeys[k - jump])
            && Descending(all)
  {
    SkippedKeysOf(ChainOrigin(c), c.chainKey, counter);
  }

  lemma FreshChainInv(theirs: Name, origin: Term)
    requires IsReceivingOrigin(origin)
    ensures var c := Chain(theirs, ChainKey(origin, 0), []);
            ChainInv(c) && ChainOrigin(c) == origin && forall n: nat :: Available(c, n)
  {
  }

  /** Taking a key keeps the chain well formed, yields the key of its index, and only removes availability. */
  lemma TakeKeyKeepsChain(s: SessionStructure, c: Chain, counter: nat)
    requires ChainInv(c) && TakeKey(s, c, counter).Ok?
    ensures var (c', seed) := TakeKey(s, c, counter).value;
            && ChainInv(c') && ChainOrigin(c') == ChainOrigin(c) && c'.ratchetKey == c.ratchetKey
            && seed == SeedAt(ChainOrigin(c), counter)
            && Available(c, counter) && !Available(c', counter)
            && (forall n: nat :: Available(c', n) ==> Available(c, n))
  {
    var o, index := ChainOrigin(c), c.chainKey.index;
    var (c', seed) := TakeKey(s, c, counter).value;
    if index > counter {
      var k := FindKey(c.messageKeys, counter).value;
      assert forall n: nat :: Stored(c', n) ==> Stored(c, n);
    } else {
      AllKeysAre(c, counter);
      var all := AllKeys(c, counter);
      assert c'.messageKeys == all[..|c'.messageKeys|];
      ForwardIsChainAt(o, c.chainKey, counter);
      assert c'.chainKey == ChainAt(o, counter + 1);
      OriginOfKeyAt(o, counter + 1);
      assert Descending(c'.messageKeys);
      JumpAvailability(c, c', counter);
    }
  }

  lemma JumpAvailability(c: Chain, c': Chain, counter: nat)
    requires ChainInv(c) && c.chainKey.index <= counter < U32_MAX
    requires c'.chainKey.index == counter + 1
    requires |c'.messageKeys| <= |AllKeys(c, counter)|
    requires c'.messageKeys == AllKeys(c, counter)[..|c'.messageKeys|]
    ensures !Available(c', counter)
    ensures forall n: nat :: Available(c', n) ==> Available(c, n)
  {
    AllKeysAre(c, counter);
    var all, jump := AllKeys(c, counter), counter - c.chainKey.index;
    forall n: nat | Available(c', n) && n < c.chainKey.index ensures Stored(c, n) {
      var k :| 0 <= k < |c'.messageKeys| && c'.messageKeys[k].index == n;
      assert all[k].index == n;
      assert c.messageKeys[k - jump].index == n;
    }
  }

  /**
   A rejected index is not available: it is a duplicate exactly when it was taken or fell below the floor, and
   anything else rejected lies more than 25000 ahead.
   */
  lemma RejectedIsUnavailable(s: SessionStructure, c: Chain, counter: nat)
    requires ChainInv(c)
    ensures TakeKey(s, c, counter).Ok?
            <==> Available(c, counter) && !TooFar(s, c.chainKey.index, counter) && !Overflows(c.chainKey.index, counter)
    ensures TakeKey(s, c, counter).Err? && TakeKey(s, c, counter).error.DuplicatedMessage?
            <==> !Available(c, counter)
  {
  }

  /** The number of keys the store would hold without its bound. */
  function Unbounded(c: Chain, counter: nat): nat {
    |c.messageKeys| + (if counter > c.chainKey.index then counter - c.chainKey.index else 0)
  }

  /** The window after taking an index: the floor moves only when more than 2000 keys would have to be kept. */
  lemma TakeKeyKeepsWindow(s: SessionStructure, c: Chain, counter: nat, taken: iset<(Term, nat)>, floor: nat)
    returns (floor': nat)
    requires ChainInv(c) && TakeKey(s, c, counter).Ok?
    requires StoreIsWindow(c, taken, floor)
    requires forall n: nat :: n >= c.chainKey.index ==> (ChainOrigin(c), n) !in taken
    requires FloorOk(c, floor)
    ensures var (c', _) := TakeKey(s, c, counter).value;
            && StoreIsWindow(c', taken + iset{(ChainOrigin(c), counter)}, floor')
            && floor <= floor' && FloorOk(c', floor')
            && (Unbounded(c, counter) <= MAX_MESSAGE_KEYS ==> floor' == floor)
  {
    var o, index := ChainOrigin(c), c.chainKey.index;
    var (c', seed) := TakeKey(s, c, counter).value;
    var taken' := taken + iset{(o, counter)};
    TakeKeyKeepsChain(s, c, counter);
    floor' := floor;
    if index > counter {
      var k := FindKey(c.messageKeys, counter).value;
      forall n: nat | n < index
        ensures Stored(c', n) <==> floor <= n && (o, n) !in taken'
      {
        if Stored(c, n) && n != counter {
          var j :| 0 <= j < |c.messageKeys| && c.messageKeys[j].index == n;
          assert c'.messageKeys[if j < k then j else j - 1].index == n;
        }
      }
    } else {
      floor' := WindowAfterJump(s, c, counter, taken, floor);
    }
  }

  lemma WindowAfterJump(s: SessionStructure, c: Chain, counter: nat, taken: iset<(Term, nat)>, floor: nat)
    returns (floor': nat)
    requires ChainInv(c) && c.chainKey.index <= counter < U32_MAX && TakeKey(s, c, counter).Ok?
    requires StoreIsWindow(c, taken, floor)
    requires forall n: nat :: n >= c.chainKey.index ==> (ChainOrigin(c), n) !in taken
    requires FloorOk(c, floor)
    ensures var (c', _) := TakeKey(s, c, counter).value;
            && StoreIsWindow(c', taken + iset{(ChainOrigin(c), counter)}, floor')
            && floor <= floor' && FloorOk(c', floor')
            && (Unbounded(c, counter) <= MAX_MESSAGE_KEYS ==> floor' == floor)
  {
    var c' := TakeKey(s, c, counter).value.0;
    var all := AllKeys(c, counter);
    assert c'.messageKeys == all[..Min(|all|, MAX_MESSAGE_KEYS)] && c'.chainKey.index == counter + 1;
    assert !Available(c', counter) && ChainOrigin(c') == ChainOrigin(c) by {
      TakeKeyKeepsChain(s, c, counter);
    }
    floor' := WindowAfterStore(c, c', counter, taken, floor);
  }

  /** The window once the skipped keys are stored, as far as they fit. */
  lemma WindowAfterStore(c: Chain, c': Chain, counter: nat, taken: iset<(Term, nat)>, floor: nat) returns (floor': nat)
    requires ChainInv(c) && c.chainKey.index <= counter < U32_MAX && StoreIsWindow(c, taken, floor) && FloorOk(c, floor)
    requires forall n: nat :: n >= c.chainKey.index ==> (ChainOrigin(c), n) !in taken
    requires ChainOrigin(c') == ChainOrigin(c) && c'.chainKey.index == counter + 1 && !Available(c', counter)
    requires c'.messageKeys == AllKeys(c, counter)[..Min(|AllKeys(c, counter)|, MAX_MESSAGE_KEYS)]
    ensures StoreIsWindow(c', taken + iset{(ChainOrigin(c), counter)}, floor') && floor <= floor' && FloorOk(c', floor')
    ensures Unbounded(c, counter) <= MAX_MESSAGE_KEYS ==> floor' == floor
  {
    AllKeysAre(c, counter);
    // without the bound, the window would simply grow
    UnboundedWindow(c, c'.(messageKeys := AllKeys(c, counter)), counter, taken, floor);
    floor' := CutWindow(c, c', AllKeys(c, counter), counter, taken, floor);
  }

  lemma CutWindow(c: Chain, c': Chain, all: seq<MessageSeed>, counter: nat, taken: iset<(Term, nat)>, floor: nat)
    returns (floor': nat)
    requires FloorOk(c, floor) && c.chainKey.index <= counter && Descending(all)
    requires forall k :: 0 <= k < |all| ==> all[k].index < counter
    requires ChainOrigin(c') == ChainOrigin(c) && c'.chainKey.index == counter + 1 && !Stored(c', counter)
    requires c'.messageKeys == all[..Min(|all|, MAX_MESSAGE_KEYS)]
    requires var u := c'.(messageKeys := all);
             forall n: nat :: n < counter ==> (Stored(u, n) <==> floor <= n && (ChainOrigin(c), n) !in taken)
    ensures StoreIsWindow(c', taken + iset{(ChainOrigin(c), counter)}, floor') && floor <= floor' && FloorOk(c', floor')
    ensures |all| <= MAX_MESSAGE_KEYS ==> floor' == floor
  {
    var u := c'.(messageKeys := all);
    floor' := floor;
    if |all| <= MAX_MESSAGE_KEYS {
      assert c'.messageKeys == u.messageKeys;
    } else {
      floor' := all[MAX_MESSAGE_KEYS - 1].index;
      assert Stored(u, floor') && floor <= floor';
      DescendingFalls(all, MAX_MESSAGE_KEYS - 1);
      TruncatedWindow(u, c', MAX_MESSAGE_KEYS);
    }
    ExtendWindow(c, c', u, counter, taken, floor, floor');
  }

  /** A window below `counter`, cut at a higher floor, with `counter` itself taken. */
  lemma ExtendWindow(c: Chain, c': Chain, u: Chain, counter: nat, taken: iset<(Term, nat)>, floor: nat, floor': nat)
    requires ChainOrigin(c') == ChainOrigin(c) && c'.chainKey.index == counter + 1 && !Stored(c', counter)
             && floor <= floor'
    requires forall n: nat :: n < counter ==> (Stored(u, n) <==> floor <= n && (ChainOrigin(c), n) !in taken)
    requires forall n: nat :: n < counter ==> (Stored(c', n) <==> Stored(u, n) && n >= floor')
    ensures StoreIsWindow(c', taken + iset{(ChainOrigin(c), counter)}, floor')
  {
  }

  /** Keeping the first entries of a descending store keeps what lies at or above the last one kept. */
  lemma TruncatedWindow(u: Chain, c: Chain, bound: nat)
    requires Descending(u.messageKeys) && 0 < bound <= |u.messageKeys|
    requires c.messageKeys == u.messageKeys[..bound]
    ensures forall n: nat :: Stored(c, n) <==> Stored(u, n) && n >= u.messageKeys[bound - 1].index
  {
    forall n: nat | Stored(u, n) && n >= u.messageKeys[bound - 1].index ensures Stored(c, n) {
      var j :| 0 <= j < |u.messageKeys| && u.messageKeys[j].index == n;
      assert j < bound;
      assert c.messageKeys[j].index == n;
    }
  }

  lemma UnboundedWindow(c: Chain, u: Chain, counter: nat, taken: iset<(Term, nat)>, floor: nat)
    requires ChainInv(c) && c.chainKey.index <= counter < U32_MAX
    requires u.messageKeys == AllKeys(c, counter)
    requires StoreIsWindow(c, taken, floor) && FloorOk(c, floor)
    requires forall n: nat :: n >= c.chainKey.index ==> (ChainOrigin(c), n) !in taken
    ensures forall n: nat :: n < counter ==> (Stored(u, n) <==> floor <= n && (ChainOrigin(c), n) !in taken)
  {
    AllKeysAre(c, counter);
    var all, jump := AllKeys(c, counter), counter - c.chainKey.index;
    forall n: nat | n < counter
      ensures Stored(u, n) <==> floor <= n && (ChainOrigin(c), n) !in taken
    {
      if n >= c.chainKey.index {
        assert all[counter - 1 - n].index == n;
      } else if Stored(c, n) {
        var j :| 0 <= j < |c.messageKeys| && c.messageKeys[j].index == n;
        assert all[j + jump].index == n;
      }
    }
  }
}
