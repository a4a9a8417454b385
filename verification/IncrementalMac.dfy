/**
 Incremental message authentication (rust/protocol/src/incremental_mac.rs).

 `digest` stands for the one-shot MAC under a fixed key; the running MAC object is represented by the bytes it has
 absorbed. A chunked MAC is checked against `AllMacs`, which speaks only of prefixes of the whole input.
 */
module IncrementalMac {
  import opened Prelude
  import opened ByteStrings

  // ---------------------------------------------------------------------------------------------
  // Reference: MACs of prefixes

  /** The MACs of the prefixes of length at + chunk, at + 2 * chunk, ... that fit in `whole`. */
  function PrefixMacs<D>(digest: Bytes -> D, chunk: nat, at: nat, whole: Bytes): seq<D>
    requires chunk > 0
    decreases |whole| - at
  {
    if at + chunk > |whole| then []
    else [digest(whole[..at + chunk])] + PrefixMacs(digest, chunk, at + chunk, whole)
  }

  /** Every chunk boundary of the input, then the input itself. */
  function AllMacs<D>(digest: Bytes -> D, chunk: nat, whole: Bytes): seq<D>
    requires chunk > 0
  {
    PrefixMacs(digest, chunk, 0, whole) + [digest(whole)]
  }

  /** What is left of `n` after taking away whole chunks. */
  function Rest(chunk: nat, n: nat): (r: nat)
    requires chunk > 0
    ensures r < chunk && r <= n
  {
    if n < chunk then n else Rest(chunk, n - chunk)
  }

  lemma {:induction false} RestOfSum(chunk: nat, n: nat, more: nat)
    requires chunk > 0
    ensures Rest(chunk, Rest(chunk, n) + more) == Rest(chunk, n + more)
    decreases n
  {
    if n >= chunk {
      RestOfSum(chunk, n - chunk, more);
    }
  }

  /** The size of k chunks. */
  function Times(k: nat, chunk: nat): nat {
    if k == 0 then 0 else chunk + Times(k - 1, chunk)
  }

  lemma {:induction false} TimesIsProduct(k: nat, chunk: nat)
    ensures Times(k, chunk) == k * chunk
  {
    if k > 0 {
      TimesIsProduct(k - 1, chunk);
      assert k * chunk == (k - 1) * chunk + chunk;
    }
  }

  /** One MAC per whole chunk since `at`. */
  lemma {:induction false} PrefixMacsCount<D>(digest: Bytes -> D, chunk: nat, at: nat, whole: Bytes)
    requires chunk > 0 && at <= |whole|
    ensures Times(|PrefixMacs(digest, chunk, at, whole)|, chunk) == |whole| - at - Rest(chunk, |whole| - at)
    decreases |whole| - at
  {
    if at + chunk <= |whole| {
      PrefixMacsCount(digest, chunk, at + chunk, whole);
    }
  }

  /** The k-th of them is the MAC of the prefix ending k + 1 chunks after `at`. */
  lemma {:induction false} PrefixMacsAt<D>(digest: Bytes -> D, chunk: nat, at: nat, whole: Bytes, k: nat)
    requires chunk > 0 && k < |PrefixMacs(digest, chunk, at, whole)|
    ensures at + Times(k + 1, chunk) <= |whole|
    ensures PrefixMacs(digest, chunk, at, whole)[k] == digest(whole[..at + Times(k + 1, chunk)])
    decreases k
  {
    if k > 0 {
      PrefixMacsAt(digest, chunk, at + chunk, whole, k - 1);
    }
  }

  /** The boundaries of a longer input are those of the shorter one, then the new ones. */
  lemma {:induction false} PrefixMacsExtend<D>(digest: Bytes -> D, chunk: nat, at: nat, data: Bytes, more: Bytes)
    requires chunk > 0 && at <= |data|
    ensures PrefixMacs(digest, chunk, at, data + more)
         == PrefixMacs(digest, chunk, at, data)
                + PrefixMacs(digest, chunk, |data| - Rest(chunk, |data| - at), data + more)
    decreases |data| - at
  {
    if at + chunk <= |data| {
      assert (data + more)[..at + chunk] == data[..at + chunk];
      PrefixMacsExtend(digest, chunk, at + chunk, data, more);
    }
  }

  // ---------------------------------------------------------------------------------------------
  // Validation as a value

  /** Bytes absorbed, how many of them are past the last chunk boundary, and the MACs still expected, next one first. */
  datatype Validator<D> = Validator(data: Bytes, pending: nat, expected: seq<D>)

  predicate ValidatorInv<D>(chunk: nat, v: Validator<D>) {
    v.pending < chunk && v.pending <= |v.data|
  }

  /** Outcome of matching a list of MACs: what is still expected, how many matched, and whether all did. */
  datatype Matched<D> = Matched(expected: seq<D>, count: nat, all: bool)

  /** A MAC that is not the next expected one leaves the list as it is; later ones are still compared. */
  function Match<D(==)>(expected: seq<D>, macs: seq<D>): (m: Matched<D>)
    ensures m.count <= |macs| && (m.all <==> m.count == |macs|)
    ensures m.all <==> macs <= expected
    ensures m.all ==> expected == macs + m.expected
    decreases |macs|
  {
    if macs == [] then Matched(expected, 0, true)
    else if expected != [] && expected[0] == macs[0] then
      var m := Match(expected[1..], macs[1..]);
      assert macs == [macs[0]] + macs[1..] && expected == [expected[0]] + expected[1..];
      assert macs <= expected <==> macs[1..] <= expected[1..];
      m.(count := m.count + 1)
    else Match(expected, macs[1..]).(all := false)
  }

  /** The MACs that absorbing `bytes` completes. */
  function NewMacs<D>(digest: Bytes -> D, chunk: nat, data: Bytes, pending: nat, bytes: Bytes): seq<D>
    requires chunk > 0 && pending <= |data|
  {
    PrefixMacs(digest, chunk, |data| - pending, data + bytes)
  }

  /** Up to the next chunk boundary there is one MAC if the boundary is reached, and none before. */
  lemma MacsWithinChunk<D>(digest: Bytes -> D, chunk: nat, data: Bytes, pending: nat, bytes: Bytes)
    requires chunk > 0 && pending <= |data| && pending + |bytes| <= chunk
    ensures NewMacs(digest, chunk, data, pending, bytes) == if pending + |bytes| == chunk then [digest(data + bytes)]
                else []
    ensures Rest(chunk, pending + |bytes|) == if pending + |bytes| == chunk then 0 else pending + |bytes|
  {
    var whole := data + bytes;
    if pending + |bytes| == chunk {
      assert whole[..|whole|] == whole;
      assert PrefixMacs(digest, chunk, |whole|, whole) == [];
    }
  }

  function UpdateValidator<D(==)>(digest: Bytes -> D, chunk: nat, v: Validator<D>,
                                  bytes: Bytes): (r: (Validator<D>, Option<nat>))
    requires chunk > 0 && ValidatorInv(chunk, v)
    ensures ValidatorInv(chunk, r.0)
  {
    var m := Match(v.expected, NewMacs(digest, chunk, v.data, v.pending, bytes));
    (Validator(v.data + bytes, Rest(chunk, v.pending + |bytes|), m.expected), if m.all then Some(Times(m.count, chunk))
     else None)
  }

  function FinalizeValidator<D(==)>(digest: Bytes -> D, v: Validator<D>): Option<nat> {
    if v.expected == [digest(v.data)] then Some(v.pending) else None
  }

  /** All updates, then finalize: the total byte count if every call succeeds. */
  function Validate<D(==)>(digest: Bytes -> D, chunk: nat, v: Validator<D>, parts: seq<Bytes>): Option<nat>
    requires chunk > 0 && ValidatorInv(chunk, v)
    decreases |parts|
  {
    if parts == [] then FinalizeValidator(digest, v)
    else
      var (v', n) := UpdateValidator(digest, chunk, v, parts[0]);
      var rest := Validate(digest, chunk, v', parts[1..]);
      if n.Some? && rest.Some? then Some(n.value + rest.value) else None
  }

  /** What the expected list must be if `rest` is still to come. */
  function StillExpected<D>(digest: Bytes -> D, chunk: nat, data: Bytes, pending: nat, rest: Bytes): seq<D>
    requires chunk > 0 && pending <= |data|
  {
    NewMacs(digest, chunk, data, pending, rest) + [digest(data + rest)]
  }

  lemma StillExpectedSplits<D>(digest: Bytes -> D, chunk: nat, data: Bytes, pending: nat, first: Bytes, rest: Bytes)
    requires chunk > 0 && pending <= |data|
    ensures StillExpected(digest, chunk, data, pending, first + rest)
         == NewMacs(digest, chunk, data, pending, first)
            + StillExpected(digest, chunk, data + first, Rest(chunk, pending + |first|), rest)
  {
    var now := NewMacs(digest, chunk, data, pending, first);
    var later := NewMacs(digest, chunk, data + first, Rest(chunk, pending + |first|), rest);
    assert data + (first + rest) == (data + first) + rest;
    assert |data + first| - (|data| - pending) == pending + |first|;
    PrefixMacsExtend(digest, chunk, |data| - pending, data + first, rest);
    assert (now + later) + [digest((data + first) + rest)] == now + (later + [digest((data + first) + rest)]);
  }

  /** An update succeeds, and leaves the right list, exactly when the list was right before. */
  lemma UpdateKeepsMatch<D>(digest: Bytes -> D, chunk: nat, v: Validator<D>, first: Bytes, rest: Bytes)
    requires chunk > 0 && ValidatorInv(chunk, v)
    ensures var r := UpdateValidator(digest, chunk, v, first);
            v.expected == StillExpected(digest, chunk, v.data, v.pending, first + rest)
            <==> r.1.Some? && r.0.expected == StillExpected(digest, chunk, r.0.data, r.0.pending, rest)
  {
    var r := UpdateValidator(digest, chunk, v, first);
    var now := NewMacs(digest, chunk, v.data, v.pending, first);
    var later := StillExpected(digest, chunk, r.0.data, r.0.pending, rest);
    assert StillExpected(digest, chunk, v.data, v.pending, first + rest) == now + later by {
      StillExpectedSplits(digest, chunk, v.data, v.pending, first, rest);
    }
    MatchIff(v.expected, now, later);
  }

  lemma UpdateCounts<D>(digest: Bytes -> D, chunk: nat, v: Validator<D>, bytes: Bytes)
    requires chunk > 0 && ValidatorInv(chunk, v)
    ensures var (v', n) := UpdateValidator(digest, chunk, v, bytes);
            n.Some? ==> n.value == v.pending + |bytes| - v'.pending
  {
    assert |v.data + bytes| - (|v.data| - v.pending) == v.pending + |bytes|;
    PrefixMacsCount(digest, chunk, |v.data| - v.pending, v.data + bytes);
  }

  lemma MatchIff<D>(expected: seq<D>, macs: seq<D>, later: seq<D>)
    ensures var m := Match(expected, macs);
            expected == macs + later <==> m.all && m.expected == later
  {
    var m := Match(expected, macs);
    if expected == macs + later {
      assert m.all;
      assert (macs + m.expected)[|macs|..] == m.expected && (macs + later)[|macs|..] == later;
    }
  }

  lemma {:induction false} ValidateFrom<D>(digest: Bytes -> D, chunk: nat, v: Validator<D>, parts: seq<Bytes>)
    requires chunk > 0 && ValidatorInv(chunk, v)
    ensures Validate(digest, chunk, v, parts)
         == if v.expected == StillExpected(digest, chunk, v.data, v.pending, Flatten(parts))
            then Some(v.pending + |Flatten(parts)|) else None
    decreases |parts|
  {
    if parts == [] {
      assert v.data + [] == v.data;
      assert NewMacs(digest, chunk, v.data, v.pending, []) == [];
      assert [] + [digest(v.data)] == [digest(v.data)];
    } else {
      UpdateKeepsMatch(digest, chunk, v, parts[0], Flatten(parts[1..]));
      UpdateCounts(digest, chunk, v, parts[0]);
      ValidateFrom(digest, chunk, UpdateValidator(digest, chunk, v, parts[0]).0, parts[1..]);
    }
  }

  /**
   Under every splitting of the input, all calls succeed if and only if the expected list is the MACs of the prefixes
   at chunk boundaries followed by the MAC of the whole, and the counts then add up to the input length.
   */
  lemma ValidatesIff<D>(digest: Bytes -> D, chunk: nat, expected: seq<D>, parts: seq<Bytes>)
    requires chunk > 0
    ensures Validate(digest, chunk, Validator([], 0, expected), parts)
         == if expected == AllMacs(digest, chunk, Flatten(parts)) then Some(|Flatten(parts)|) else None
  {
    ValidateFrom(digest, chunk, Validator([], 0, expected), parts);
    assert [] + Flatten(parts) == Flatten(parts);
  }

  // ---------------------------------------------------------------------------------------------
  // After a failure

  /** Matching two lists one after the other leaves what matching their concatenation leaves. */
  lemma {:induction false} MatchAppend<D>(expected: seq<D>, a: seq<D>, b: seq<D>)
    ensures Match(expected, a + b).expected == Match(Match(expected, a).expected, b).expected
    decreases |a|
  {
    if a == [] {
      assert a + b == b;
    } else {
      assert (a + b)[0] == a[0] && (a + b)[1..] == a[1..] + b;
      MatchAppend(if expected != [] && expected[0] == a[0] then expected[1..] else expected, a[1..], b);
    }
  }

  /** The state after all updates, whether they succeeded or not. */
  function AfterUpdates<D(==)>(digest: Bytes -> D, chunk: nat, v: Validator<D>, parts: seq<Bytes>): (r: Validator<D>)
    requires chunk > 0 && ValidatorInv(chunk, v)
    ensures ValidatorInv(chunk, r)
    decreases |parts|
  {
    if parts == [] then v else AfterUpdates(digest, chunk, UpdateValidator(digest, chunk, v, parts[0]).0, parts[1..])
  }

  /** Two updates leave the state of one update with both inputs, failures included. */
  lemma UpdateTwice<D>(digest: Bytes -> D, chunk: nat, v: Validator<D>, first: Bytes, second: Bytes)
    requires chunk > 0 && ValidatorInv(chunk, v)
    ensures UpdateValidator(digest, chunk, UpdateValidator(digest, chunk, v, first).0, second).0
         == UpdateValidator(digest, chunk, v, first + second).0
  {
    var both := UpdateValidator(digest, chunk, v, first + second).0;
    var v1 := UpdateValidator(digest, chunk, v, first).0;
    var v2 := UpdateValidator(digest, chunk, v1, second).0;
    assert v2.data == both.data;
    assert v2.pending == both.pending by { RestOfSum(chunk, v.pending + |first|, |second|); }
    assert v2.expected == both.expected by { MatchTwice(digest, chunk, v, first, second); }
  }

  lemma MatchTwice<D>(digest: Bytes -> D, chunk: nat, v: Validator<D>, first: Bytes, second: Bytes)
    requires chunk > 0 && ValidatorInv(chunk, v)
    ensures var now := NewMacs(digest, chunk, v.data, v.pending, first);
            var later := NewMacs(digest, chunk, v.data + first, Rest(chunk, v.pending + |first|), second);
            Match(v.expected, NewMacs(digest, chunk, v.data, v.pending, first + second)).expected
            == Match(Match(v.expected, now).expected, later).expected
  {
    ExtendMacs(digest, chunk, v.data, v.pending, first, second);
    MatchAppend(v.expected, NewMacs(digest, chunk, v.data, v.pending, first),
                NewMacs(digest, chunk, v.data + first, Rest(chunk, v.pending + |first|), second));
  }

  lemma UpdateWithNothing<D>(digest: Bytes -> D, chunk: nat, v: Validator<D>)
    requires chunk > 0 && ValidatorInv(chunk, v)
    ensures UpdateValidator(digest, chunk, v, []).0 == v
  {
    assert v.data + [] == v.data;
    MacsWithinChunk(digest, chunk, v.data, v.pending, []);
  }

  /** The state after any splitting is the state after one update with the whole input. */
  lemma {:induction false} StateIsSplitIndependent<D>(digest: Bytes -> D, chunk: nat, v: Validator<D>,
                                                      parts: seq<Bytes>)
    requires chunk > 0 && ValidatorInv(chunk, v)
    ensures AfterUpdates(digest, chunk, v, parts) == UpdateValidator(digest, chunk, v, Flatten(parts)).0
    decreases |parts|
  {
    if parts == [] {
      UpdateWithNothing(digest, chunk, v);
    } else {
      StateIsSplitIndependent(digest, chunk, UpdateValidator(digest, chunk, v, parts[0]).0, parts[1..]);
      UpdateTwice(digest, chunk, v, parts[0], Flatten(parts[1..]));
    }
  }

  /**
   Exactly when finalize accepts, whatever happened before it: under every splitting, the expected MACs that the prefix
   MACs of the input did not match in order must be the MAC of the whole input alone.
   */
  lemma FinalizesIff<D>(digest: Bytes -> D, chunk: nat, expected: seq<D>, parts: seq<Bytes>)
    requires chunk > 0
    ensures var whole := Flatten(parts);
            FinalizeValidator(digest, AfterUpdates(digest, chunk, Validator([], 0, expected), parts))
            == if Match(expected, PrefixMacs(digest, chunk, 0, whole)).expected == [digest(whole)]
               then Some(Rest(chunk, |whole|)) else None
  {
    StateIsSplitIndependent(digest, chunk, Validator([], 0, expected), parts);
    assert [] + Flatten(parts) == Flatten(parts);
  }

  /** Each match takes one MAC off the front of the list. */
  lemma {:induction false} MatchCounts<D>(expected: seq<D>, macs: seq<D>)
    ensures var m := Match(expected, macs);
            |m.expected| + m.count == |expected| && m.expected == expected[m.count..]
    decreases |macs|
  {
    if macs != [] {
      if expected != [] && expected[0] == macs[0] {
        MatchCounts(expected[1..], macs[1..]);
      } else {
        MatchCounts(expected, macs[1..]);
      }
    }
  }

  /** When finalize accepts, every update succeeded if and only if the list was not too short; it is never too long. */
  lemma FinalizeAfterFailure<D>(digest: Bytes -> D, chunk: nat, expected: seq<D>, parts: seq<Bytes>)
    requires chunk > 0
    requires FinalizeValidator(digest, AfterUpdates(digest, chunk, Validator([], 0, expected), parts)).Some?
    ensures Validate(digest, chunk, Validator([], 0, expected), parts).Some?
       <==> |expected| == |AllMacs(digest, chunk, Flatten(parts))|
    ensures |expected| <= |AllMacs(digest, chunk, Flatten(parts))|
  {
    var macs := PrefixMacs(digest, chunk, 0, Flatten(parts));
    FinalizesIff(digest, chunk, expected, parts);
    ValidatesIff(digest, chunk, expected, parts);
    MatchCounts(expected, macs);
    MatchIff(expected, macs, [digest(Flatten(parts))]);
  }

  /** A failed update does not stop a later one, nor finalize, from succeeding. */
  lemma FailureIsNotSticky<D>(digest: Bytes -> D, a: byte, b: byte)
    requires digest([a]) != digest([a, b])
    ensures var v0 := Validator([], 0, [digest([a, b]), digest([a, b])]);
            var (v1, n1) := UpdateValidator(digest, 1, v0, [a]);
            var (v2, n2) := UpdateValidator(digest, 1, v1, [b]);
            n1.None? && n2 == Some(1) && FinalizeValidator(digest, v2) == Some(0)
  {
    var v0 := Validator([], 0, [digest([a, b]), digest([a, b])]);
    assert [] + [a] == [a] && [a] + [b] == [a, b];
    MacsWithinChunk(digest, 1, [], 0, [a]);
    MacsWithinChunk(digest, 1, [a], 0, [b]);
    assert Match(v0.expected, [digest([a])]) == Matched(v0.expected, 0, false);
  }

  // ---------------------------------------------------------------------------------------------
  // The objects

  class Incremental<D> {
    const digest: Bytes -> D
    const chunkSize: nat
    var absorbed: Bytes
    var unusedLength: nat

    ghost predicate Valid()
      reads this
    {
      0 < unusedLength <= chunkSize && chunkSize - unusedLength <= |absorbed|
    }

    constructor (digest: Bytes -> D, chunkSize: nat)
      requires chunkSize > 0
      ensures Valid() && this.digest == digest && this.chunkSize == chunkSize
      ensures absorbed == [] && Pending() == 0
    {
      this.digest, this.chunkSize := digest, chunkSize;
      absorbed, unusedLength := [], chunkSize;
    }

    function Pending(): int
      reads this
    {
      chunkSize - unusedLength
    }

    /** Absorbs at most the rest of the current chunk; yields a MAC when the chunk is complete. */
    method UpdateChunk(bytes: Bytes) returns (mac: seq<D>)
      requires Valid() && |bytes| <= unusedLength
      modifies this
      ensures Valid() && absorbed == old(absorbed) + bytes
      ensures Pending() == Rest(chunkSize, old(Pending()) + |bytes|)
      ensures mac == NewMacs(digest, chunkSize, old(absorbed), old(Pending()), bytes)
    {
      MacsWithinChunk(digest, chunkSize, absorbed, Pending(), bytes);
      absorbed := absorbed + bytes;
      unusedLength := unusedLength - |bytes|;
      if unusedLength == 0 {
        unusedLength := chunkSize;
        mac := [digest(absorbed)];
      } else {
        mac := [];
      }
    }

    /** Absorbs any number of bytes, chunk by chunk, and yields the MACs of all completed chunks. */
    method Update(bytes: Bytes) returns (macs: seq<D>)
      requires Valid()
      modifies this
      ensures Valid() && absorbed == old(absorbed) + bytes
      ensures Pending() == Rest(chunkSize, old(Pending()) + |bytes|)
      ensures macs == NewMacs(digest, chunkSize, old(absorbed), old(Pending()), bytes)
    {
      ghost var data, pending := absorbed, Pending();
      var done := Min(|bytes|, unusedLength);
      macs := UpdateChunk(bytes[..done]);
      while done < |bytes|
        invariant Valid() && done <= |bytes| && (done < |bytes| ==> unusedLength == chunkSize)
        invariant pending <= |data| && absorbed == data + bytes[..done] && Pending() == Rest(chunkSize, pending + done)
        invariant macs == NewMacs(digest, chunkSize, data, pending, bytes[..done])
      {
        var next := done + Min(|bytes| - done, chunkSize);
        NextChunk(digest, chunkSize, data, pending, bytes, done, next);
        var more := UpdateChunk(bytes[done..next]);
        macs := macs + more;
        done := next;
      }
      assert bytes[..done] == bytes;
    }

    method Finalize() returns (mac: D)
      ensures mac == digest(absorbed)
    {
      mac := digest(absorbed);
    }
  }

  /** Two updates yield the MACs of one update with both inputs. */
  lemma ExtendMacs<D>(digest: Bytes -> D, chunk: nat, data: Bytes, pending: nat, first: Bytes, second: Bytes)
    requires chunk > 0 && pending <= |data|
    ensures NewMacs(digest, chunk, data, pending, first + second)
         == NewMacs(digest, chunk, data, pending, first)
            + NewMacs(digest, chunk, data + first, Rest(chunk, pending + |first|), second)
  {
    assert data + (first + second) == (data + first) + second;
    assert |data + first| - (|data| - pending) == pending + |first|;
    PrefixMacsExtend(digest, chunk, |data| - pending, data + first, second);
  }

  lemma NextChunk<D>(digest: Bytes -> D, chunk: nat, data: Bytes, pending: nat, bytes: Bytes, done: nat, next: nat)
    requires chunk > 0 && pending <= |data| && done <= next <= |bytes|
    ensures (data + bytes[..done]) + bytes[done..next] == data + bytes[..next]
    ensures NewMacs(digest, chunk, data, pending, bytes[..next])
         == NewMacs(digest, chunk, data, pending, bytes[..done])
            + NewMacs(digest, chunk, data + bytes[..done], Rest(chunk, pending + done), bytes[done..next])
    ensures Rest(chunk, pending + next) == Rest(chunk, Rest(chunk, pending + done) + (next - done))
  {
    var first, second := bytes[..done], bytes[done..next];
    assert first + second == bytes[..next];
    assert (data + first) + second == data + (first + second);
    ExtendMacs(digest, chunk, data, pending, first, second);
    RestOfSum(chunk, pending + done, next - done);
  }

  function Reversed<D>(s: seq<D>): (r: seq<D>)
    ensures |r| == |s| && forall i :: 0 <= i < |s| ==> r[i] == s[|s| - 1 - i]
  {
    if s == [] then [] else Reversed(s[1..]) + [s[0]]
  }

  class Validating<D(==)> {
    const incremental: Incremental<D>
    var expected: seq<D>   // in reverse, so that the next one is popped off the end

    ghost predicate Valid()
      reads this, incremental
    {
      incremental.Valid()
    }

    /** The state as a value. */
    ghost function State(): Validator<D>
      requires Valid()
      reads this, incremental
    {
      Validator(incremental.absorbed, incremental.Pending(), Reversed(expected))
    }

    constructor (incremental: Incremental<D>, macs: seq<D>)
      requires incremental.Valid()
      ensures Valid() && this.incremental == incremental
      ensures State() == Validator(incremental.absorbed, incremental.Pending(), macs)
    {
      this.incremental := incremental;
      expected := Reversed(macs);
      new;
      assert Reversed(Reversed(macs)) == macs;
    }

    method Update(bytes: Bytes) returns (r: Option<nat>)
      requires Valid()
      modifies this, incremental
      ensures Valid() && ValidatorInv(incremental.chunkSize, old(State()))
      ensures (State(), r) == UpdateValidator(incremental.digest, incremental.chunkSize, old(State()), bytes)
    {
      ghost var v := State();
      var macs := incremental.Update(bytes);
      assert macs == NewMacs(incremental.digest, incremental.chunkSize, v.data, v.pending, bytes);
      var wholeChunks, failed := PopMatching(macs);
      var validatedBytes := wholeChunks * incremental.chunkSize;
      TimesIsProduct(wholeChunks, incremental.chunkSize);
      return if failed then None else Some(validatedBytes);
    }

    /** Pops one expected MAC for each computed one that equals it. */
    method PopMatching(macs: seq<D>) returns (wholeChunks: nat, failed: bool)
      modifies this
      ensures Matched(Reversed(expected), wholeChunks, !failed) == Match(old(Reversed(expected)), macs)
    {
      wholeChunks, failed := 0, false;
      var i := 0;
      ghost var all := Match(Reversed(expected), macs);
      while i < |macs|
        invariant 0 <= i <= |macs|
        invariant var m := Match(Reversed(expected), macs[i..]);
                  all == Matched(m.expected, wholeChunks + m.count, !failed && m.all)
      {
        assert macs[i..][1..] == macs[i + 1..];
        if expected != [] && expected[|expected| - 1] == macs[i] {
          assert Reversed(expected[..|expected| - 1]) == Reversed(expected)[1..];
          wholeChunks := wholeChunks + 1;
          expected := expected[..|expected| - 1];
        } else {
          failed := true;
        }
        i := i + 1;
      }
      assert macs[i..] == [];
    }

    method Finalize() returns (r: Option<nat>)
      requires Valid()
      ensures r == FinalizeValidator(incremental.digest, State())
    {
      var pending := incremental.Pending();
      var mac := incremental.Finalize();
      if |expected| == 1 && expected[0] == mac {
        assert Reversed(expected) == [mac];
        return Some(pending);
      }
      assert |expected| == 1 ==> Reversed(expected)[0] == expected[0];
      return None;
    }
  }
}
