/**
 What the construction of AES-256-GCM (rust/crypto/src/aes_gcm.rs, rust/crypto/src/aes_ctr.rs) is for, whatever the
 block cipher: no block of a message shares its cipher input with another or with the tag, the hash covers every byte
 and both lengths, and a change within one block changes the tag.
 */
module GcmLaws {
  import opened Prelude
  import opened ByteStrings
  import opened AesGcm

  function Pow256(k: nat): (n: nat)
    ensures n > 0
  {
    if k == 0 then 1 else 0x100 * Pow256(k - 1)
  }

  /** Each byte is its digit in base 256, the most significant first. */
  lemma {:induction false} BigEndianDigit(n: nat, k: nat, i: nat)
    requires i < k
    ensures BigEndian(n, k)[i] == n / Pow256(k - 1 - i) % 0x100
  {
    if i < k - 1 {
      BigEndianDigit(n / 0x100, k - 1, i);
      DivTwice(n, Pow256(k - 2 - i));
    }
  }

  lemma DivTwice(n: nat, d: nat)
    requires d > 0
    ensures n / 0x100 / d == n / (0x100 * d)
  {
    var q, r := n / (0x100 * d), n % (0x100 * d);
    assert n == 0x100 * (d * q) + r;
    assert n / 0x100 == d * q + r / 0x100;
    assert r / 0x100 < d;
    assert (d * q + r / 0x100) / d == q by {
      DivUnique(d * q + r / 0x100, d, q, r / 0x100);
    }
  }

  lemma DivUnique(n: nat, d: nat, q: nat, r: nat)
    requires d > 0 && n == d * q + r && r < d
    ensures n / d == q
  {
    var q' := n / d;
    assert n == d * q' + n % d;
    assert q' < q ==> d * (q' + 1) <= d * q;
    assert q < q' ==> d * (q + 1) <= d * q';
  }

  /** Numbers that fit are told apart. */
  lemma {:induction false} BigEndianInjective(m: nat, n: nat, k: nat)
    requires m < Pow256(k) && n < Pow256(k) && BigEndian(m, k) == BigEndian(n, k)
    ensures m == n
  {
    if k > 0 {
      var a, b := BigEndian(m, k), BigEndian(n, k);
      assert a[..k - 1] == BigEndian(m / 0x100, k - 1) && b[..k - 1] == BigEndian(n / 0x100, k - 1);
      assert a[k - 1] == m % 0x100 && b[k - 1] == n % 0x100;
      BigEndianInjective(m / 0x100, n / 0x100, k - 1);
    }
  }

  // ---------------------------------------------------------------------------------------------
  // Counter mode

  /** The cipher input for the counter, written out. */
  function InputBlock(nonce: Bytes, counter: u32): Block
    requires |nonce| == NONCE_SIZE
  {
    nonce + [counter / 0x100_0000, counter / 0x1_0000 % 0x100, counter / 0x100 % 0x100, counter % 0x100]
  }

  lemma CounterBlockIs(nonce: Bytes, counter: u32)
    requires |nonce| == NONCE_SIZE
    ensures CounterBlock(nonce, counter) == InputBlock(nonce, counter)
  {
    var b := BigEndian(counter, 4);
    assert Pow256(1) == 0x100 * Pow256(0) && Pow256(2) == 0x100 * Pow256(1) && Pow256(3) == 0x100 * Pow256(2);
    BigEndianDigit(counter, 4, 0);
    BigEndianDigit(counter, 4, 1);
    BigEndianDigit(counter, 4, 2);
    BigEndianDigit(counter, 4, 3);
    assert b == [b[0], b[1], b[2], b[3]];
  }

  lemma InputBlockInjective(nonce: Bytes, c: u32, d: u32)
    requires |nonce| == NONCE_SIZE && InputBlock(nonce, c) == InputBlock(nonce, d)
    ensures c == d
  {
    InputBlockCounts(nonce, c);
    InputBlockCounts(nonce, d);
  }

  /** The counter can be read off. */
  lemma InputBlockCounts(nonce: Bytes, counter: u32)
    requires |nonce| == NONCE_SIZE
    ensures var b := InputBlock(nonce, counter);
            counter == 0x100_0000 * (b[12] as int) + 0x1_0000 * (b[13] as int) + 0x100 * (b[14] as int) + (b[15] as int)
  {
    Digits(counter);
  }

  lemma Digits(n: u32)
    ensures n == 0x100_0000 * (n / 0x100_0000) + 0x1_0000 * (n / 0x1_0000 % 0x100) + 0x100 * (n / 0x100 % 0x100)
                 + n % 0x100
  {
    var a, b := n / 0x100, n / 0x1_0000;
    assert a / 0x100 == b && b / 0x100 == n / 0x100_0000;
  }

  /** Byte `i` of the ciphertext: block `i / 16` is masked with the cipher of the counter two further on. */
  lemma CiphertextByte(p: Primitives, key: Bytes, nonce: Bytes, data: Bytes, i: nat)
    requires |nonce| == NONCE_SIZE && i < |data| && 2 + i / BLOCK_SIZE <= U32_MAX
    ensures OneShotCiphertext(p, key, nonce, data)[i]
         == XorByte(p.encryptBlock(key, InputBlock(nonce, 2 + i / BLOCK_SIZE))[i % BLOCK_SIZE], data[i])
  {
    CounterBlockIs(nonce, 2 + i / BLOCK_SIZE);
    assert (BLOCK_SIZE + i) / BLOCK_SIZE == 1 + i / BLOCK_SIZE && (BLOCK_SIZE + i) % BLOCK_SIZE == i % BLOCK_SIZE;
  }

  /** The tag is masked with the cipher of counter 1, and the hash key is the cipher of the zero block. */
  lemma TagMask(p: Primitives, key: Bytes, nonce: Bytes, ad: Bytes, ciphertext: Bytes)
    requires |nonce| == NONCE_SIZE
    ensures Xor(OneShotTag(p, key, nonce, ad, ciphertext), p.encryptBlock(key, InputBlock(nonce, 1)))
         == OneShotHash(p, p.encryptBlock(key, Zeros(BLOCK_SIZE)), ad, ciphertext)
  {
    CounterBlockIs(nonce, 1);
    var hash, mask := OneShotHash(p, HashKey(p, key), ad, ciphertext), p.encryptBlock(key, InputBlock(nonce, 1));
    var tag := OneShotTag(p, key, nonce, ad, ciphertext);
    forall i | 0 <= i < BLOCK_SIZE ensures XorByte(tag[i], mask[i]) == hash[i] {
      XorByteCommutes(tag[i], mask[i]);
      XorByteCommutes(hash[i], mask[i]);
      XorByteInvolutive(mask[i], hash[i]);
    }
  }

  lemma {:induction false} XorBitsCommutes(a: nat, b: nat, k: nat)
    ensures XorBits(a, b, k) == XorBits(b, a, k)
  {
    if k > 0 {
      XorBitsCommutes(a / 2, b / 2, k - 1);
    }
  }

  lemma XorByteCommutes(a: byte, b: byte)
    ensures XorByte(a, b) == XorByte(b, a)
  {
    XorBitsCommutes(a, b, 8);
  }

  /**
   No two uses of the block cipher for one message share an input: the blocks of the message, up to 2^32 - 2 of them,
   the block that masks the tag, and the zero block that gives the hash key are pairwise different.
   */
  lemma InputsDiffer(nonce: Bytes, j: nat, k: nat)
    requires |nonce| == NONCE_SIZE && j < k < U32_MAX - 1
    ensures InputBlock(nonce, 2 + j) != InputBlock(nonce, 2 + k)
    ensures InputBlock(nonce, 1) !in {InputBlock(nonce, 2 + j), InputBlock(nonce, 2 + k)}
    ensures Zeros(BLOCK_SIZE) !in {InputBlock(nonce, 1), InputBlock(nonce, 2 + j), InputBlock(nonce, 2 + k)}
  {
    if InputBlock(nonce, 2 + j) == InputBlock(nonce, 2 + k) {
      InputBlockInjective(nonce, 2 + j, 2 + k);
    }
    if InputBlock(nonce, 1) == InputBlock(nonce, 2 + j) {
      InputBlockInjective(nonce, 1, 2 + j);
    }
    if InputBlock(nonce, 1) == InputBlock(nonce, 2 + k) {
      InputBlockInjective(nonce, 1, 2 + k);
    }
    NotZero(nonce, 1);
    NotZero(nonce, 2 + j);
    NotZero(nonce, 2 + k);
  }

  lemma NotZero(nonce: Bytes, counter: u32)
    requires |nonce| == NONCE_SIZE && counter > 0
    ensures InputBlock(nonce, counter) != Zeros(BLOCK_SIZE)
  {
    InputBlockCounts(nonce, counter);
  }

  // ---------------------------------------------------------------------------------------------
  // The hash

  lemma {:induction false} PaddedCount(data: Bytes)
    ensures |Padded(data)| == (|data| + BLOCK_SIZE - 1) / BLOCK_SIZE
    decreases |data|
  {
    if |data| >= BLOCK_SIZE {
      PaddedCount(data[BLOCK_SIZE..]);
    }
  }

  /** Strings of one length are told apart by their padded blocks. */
  lemma {:induction false} PaddedInjective(a: Bytes, b: Bytes)
    requires |a| == |b| && Padded(a) == Padded(b)
    ensures a == b
    decreases |a|
  {
    if |a| >= BLOCK_SIZE {
      assert Padded(a)[0] == Padded(b)[0] && Padded(a)[1..] == Padded(b)[1..];
      PaddedInjective(a[BLOCK_SIZE..], b[BLOCK_SIZE..]);
      assert a == a[..BLOCK_SIZE] + a[BLOCK_SIZE..] && b == b[..BLOCK_SIZE] + b[BLOCK_SIZE..];
    } else if a != [] {
      assert PadBlock(a) == Padded(a)[0] == Padded(b)[0] == PadBlock(b);
      assert a == PadBlock(a)[..|a|] && b == PadBlock(b)[..|a|];
    }
  }

  /** What is hashed determines the associated data and the ciphertext, up to 2^61 bytes each. */
  lemma HashInputDetermines(ad: Bytes, message: Bytes, ad': Bytes, message': Bytes)
    requires 8 * |ad| < Pow256(8) && 8 * |message| < Pow256(8) && 8 * |ad'| < Pow256(8) && 8 * |message'| < Pow256(8)
    requires HashInput(ad, message) == HashInput(ad', message')
    ensures ad == ad' && message == message'
  {
    var x, y := HashInput(ad, message), HashInput(ad', message');
    var l, l' := LengthBlock(|ad|, |message|), LengthBlock(|ad'|, |message'|);
    assert x[|x| - 1] == l && y[|y| - 1] == l';
    assert l[..8] == BigEndian(8 * |ad|, 8) && l'[..8] == BigEndian(8 * |ad'|, 8);
    assert l[8..] == BigEndian(8 * |message|, 8) && l'[8..] == BigEndian(8 * |message'|, 8);
    BigEndianInjective(8 * |ad|, 8 * |ad'|, 8);
    BigEndianInjective(8 * |message|, 8 * |message'|, 8);
    PaddedCount(ad);
    PaddedCount(ad');
    var n := |Padded(ad)|;
    assert x[..n] == Padded(ad) && y[..n] == Padded(ad');
    assert x[n..|x| - 1] == Padded(message) && y[n..|y| - 1] == Padded(message');
    PaddedInjective(ad, ad');
    PaddedInjective(message, message');
  }

  /** Multiplying by the hash key loses nothing, as for any key but zero. */
  ghost predicate Injective(p: Primitives, h: Block) {
    forall a, b :: p.product(a, h) == p.product(b, h) ==> a == b
  }

  lemma {:induction false} StartMatters(p: Primitives, h: Block, a: Block, b: Block, blocks: seq<Block>)
    requires Injective(p, h) && Ghash(p, h, a, blocks) == Ghash(p, h, b, blocks)
    ensures a == b
    decreases |blocks|
  {
    if blocks != [] {
      StartMatters(p, h, p.product(XorBlocks(a, blocks[0]), h), p.product(XorBlocks(b, blocks[0]), h), blocks[1..]);
      XorCancel(a, b, blocks[0]);
    }
  }

  /** A change within one block changes the hash. */
  lemma OneBlockMatters(p: Primitives, h: Block, acc: Block, before: seq<Block>, a: Block, b: Block, after: seq<Block>)
    requires Injective(p, h) && a != b
    ensures Ghash(p, h, acc, before + [a] + after) != Ghash(p, h, acc, before + [b] + after)
  {
    var start := Ghash(p, h, acc, before);
    assert before + [a] + after == before + ([a] + after) && before + [b] + after == before + ([b] + after);
    GhashSplits(p, h, acc, before, [a] + after);
    GhashSplits(p, h, acc, before, [b] + after);
    assert ([a] + after)[1..] == after && ([b] + after)[1..] == after;
    if Ghash(p, h, start, [a] + after) == Ghash(p, h, start, [b] + after) {
      StartMatters(p, h, p.product(XorBlocks(start, a), h), p.product(XorBlocks(start, b), h), after);
      XorSecondCancel(start, a, b);
    }
  }

  lemma XorSecondCancel(start: Block, a: Block, b: Block)
    requires Xor(start, a) == Xor(start, b)
    ensures a == b
  {
    forall i | 0 <= i < BLOCK_SIZE ensures a[i] == b[i] {
      assert Xor(start, a)[i] == Xor(start, b)[i];
      XorByteInvolutive(start[i], a[i]);
      XorByteInvolutive(start[i], b[i]);
    }
  }

  /** Strings that differ within one block are hashed from inputs that differ in one block. */
  lemma OneBlockDiffers(ad: Bytes, c: Bytes, d: Bytes, k: nat)
    requires |c| == |d| && c != d && k < |Padded(c)|
    requires forall i :: 0 <= i < |c| && i / BLOCK_SIZE != k ==> c[i] == d[i]
    ensures var x, y, at := HashInput(ad, c), HashInput(ad, d), |Padded(ad)| + k;
            at < |x| == |y| && x[at] != y[at] && x[..at] == y[..at] && x[at + 1..] == y[at + 1..]
  {
    var x, y, at := HashInput(ad, c), HashInput(ad, d), |Padded(ad)| + k;
    PaddedCount(c);
    PaddedCount(d);
    forall j | 0 <= j < |Padded(c)| && j != k ensures Padded(c)[j] == Padded(d)[j] {
      PaddedAt(c, j);
      PaddedAt(d, j);
    }
    assert forall j :: 0 <= j < |x| && j != at ==> x[j] == y[j];
    if x[at] == y[at] {
      assert Padded(c) == Padded(d);
      PaddedInjective(c, d);
    }
  }

  /** A ciphertext changed within one block has another tag. */
  lemma ChangedBlockIsDetected(p: Primitives, key: Bytes, nonce: Bytes, ad: Bytes, c: Bytes, d: Bytes, k: nat)
    requires |nonce| == NONCE_SIZE && Injective(p, HashKey(p, key)) && |c| == |d| && c != d
    requires k < |Padded(c)|
    requires forall i :: 0 <= i < |c| && i / BLOCK_SIZE != k ==> c[i] == d[i]
    ensures OneShotTag(p, key, nonce, ad, c) != OneShotTag(p, key, nonce, ad, d)
  {
    var h, x, y, at := HashKey(p, key), HashInput(ad, c), HashInput(ad, d), |Padded(ad)| + k;
    OneBlockDiffers(ad, c, d, k);
    assert x == x[..at] + [x[at]] + x[at + 1..] && y == x[..at] + [y[at]] + x[at + 1..];
    OneBlockMatters(p, h, Zeros(BLOCK_SIZE), x[..at], x[at], y[at], x[at + 1..]);
    if OneShotTag(p, key, nonce, ad, c) == OneShotTag(p, key, nonce, ad, d) {
      XorCancel(OneShotHash(p, h, ad, c), OneShotHash(p, h, ad, d), p.encryptBlock(key, CounterBlock(nonce, 1)));
    }
  }

  lemma {:induction false} PaddedAt(data: Bytes, j: nat)
    requires j < |Padded(data)|
    ensures forall i :: 0 <= i < BLOCK_SIZE ==>
              Padded(data)[j][i] == if BLOCK_SIZE * j + i < |data| then data[BLOCK_SIZE * j + i] else 0
    decreases |data|
  {
    if |data| >= BLOCK_SIZE && j > 0 {
      PaddedAt(data[BLOCK_SIZE..], j - 1);
    }
  }
}
