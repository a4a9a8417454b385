/**
 Streaming AES-256-GCM (rust/crypto/src/aes_gcm.rs and aes_ctr.rs) against its one-shot definition.

 `OneShotCiphertext` and `OneShotTag` are the definitions of sections 6.4, 6.5, 7.1 and 7.2 of NIST SP 800-38D for a
 96-bit nonce, over whole byte strings. The block cipher and the product in GF(2^128) are the fields of `Primitives`.
 */
module AesGcm {
  import opened Prelude
  import opened ByteStrings

  const BLOCK_SIZE := 16
  const TAG_SIZE := 16
  const NONCE_SIZE := 12
  const KEY_SIZE := 32

  type Block = b: Bytes | |b| == BLOCK_SIZE witness [0, 0, 0, 0, 0, 0, 0, 0, 0, 0, 0, 0, 0, 0, 0, 0]

  datatype Primitives = Primitives(encryptBlock: (Bytes, Block) -> Block, product: (Block, Block) -> Block)

  datatype Error = InvalidNonceSize | InvalidKeySize | InvalidTag

  // ---------------------------------------------------------------------------------------------
  // One-shot definition

  function XorBlocks(a: Block, b: Block): Block {
    Xor(a, b)
  }

  function CounterBlock(nonce: Bytes, counter: nat): Block
    requires |nonce| == NONCE_SIZE
  {
    nonce + BigEndian(counter, 4)
  }

  /** Byte number `i` of the key stream that starts with counter 1. */
  function KeyByte(p: Primitives, key: Bytes, nonce: Bytes, i: nat): byte
    requires |nonce| == NONCE_SIZE
  {
    p.encryptBlock(key, CounterBlock(nonce, 1 + i / BLOCK_SIZE))[i % BLOCK_SIZE]
  }

  /** `data` under the key stream from byte number `from`. */
  function Stream(p: Primitives, key: Bytes, nonce: Bytes, from: nat, data: Bytes): (r: Bytes)
    requires |nonce| == NONCE_SIZE
    ensures |r| == |data| && forall i :: 0 <= i < |data| ==> r[i] == XorByte(KeyByte(p, key, nonce, from + i), data[i])
  {
    seq(|data|, i requires 0 <= i < |data| => XorByte(KeyByte(p, key, nonce, from + i), data[i]))
  }

  /** Data bytes start with counter 2. */
  function OneShotCiphertext(p: Primitives, key: Bytes, nonce: Bytes, plaintext: Bytes): Bytes
    requires |nonce| == NONCE_SIZE
  {
    Stream(p, key, nonce, BLOCK_SIZE, plaintext)
  }

  function HashKey(p: Primitives, key: Bytes): Block {
    p.encryptBlock(key, Zeros(BLOCK_SIZE))
  }

  /** The hash function of section 6.4, started from `acc`. */
  function Ghash(p: Primitives, h: Block, acc: Block, blocks: seq<Block>): Block
    decreases |blocks|
  {
    if blocks == [] then acc else Ghash(p, h, p.product(XorBlocks(acc, blocks[0]), h), blocks[1..])
  }

  function PadBlock(data: Bytes): Block
    requires |data| <= BLOCK_SIZE
  {
    data + Zeros(BLOCK_SIZE - |data|)
  }

  /** The blocks of a string followed by zero bytes up to the next block boundary. */
  function Padded(data: Bytes): seq<Block>
    decreases |data|
  {
    if data == [] then []
    else if |data| < BLOCK_SIZE then [PadBlock(data)]
    else [data[..BLOCK_SIZE]] + Padded(data[BLOCK_SIZE..])
  }

  function LengthBlock(adLen: nat, messageLen: nat): Block {
    BigEndian(8 * adLen, 8) + BigEndian(8 * messageLen, 8)
  }

  function HashInput(ad: Bytes, message: Bytes): seq<Block> {
    Padded(ad) + Padded(message) + [LengthBlock(|ad|, |message|)]
  }

  function OneShotHash(p: Primitives, h: Block, ad: Bytes, message: Bytes): Block {
    Ghash(p, h, Zeros(BLOCK_SIZE), HashInput(ad, message))
  }

  function OneShotTag(p: Primitives, key: Bytes, nonce: Bytes, ad: Bytes, ciphertext: Bytes): Block
    requires |nonce| == NONCE_SIZE
  {
    XorBlocks(OneShotHash(p, HashKey(p, key), ad, ciphertext), p.encryptBlock(key, CounterBlock(nonce, 1)))
  }

  // ---------------------------------------------------------------------------------------------
  // Lemmas about the definition

  lemma StreamInverts(p: Primitives, key: Bytes, nonce: Bytes, from: nat, data: Bytes)
    requires |nonce| == NONCE_SIZE
    ensures Stream(p, key, nonce, from, Stream(p, key, nonce, from, data)) == data
  {
    forall i | 0 <= i < |data|
      ensures XorByte(KeyByte(p, key, nonce, from + i), XorByte(KeyByte(p, key, nonce, from + i), data[i])) == data[i]
    {
      XorByteInvolutive(KeyByte(p, key, nonce, from + i), data[i]);
    }
  }

  lemma StreamSplits(p: Primitives, key: Bytes, nonce: Bytes, from: nat, a: Bytes, b: Bytes)
    requires |nonce| == NONCE_SIZE
    ensures Stream(p, key, nonce, from, a + b) == Stream(p, key, nonce, from, a) + Stream(p, key, nonce, from + |a|, b)
  {
    var whole := Stream(p, key, nonce, from, a + b);
    var parts := Stream(p, key, nonce, from, a) + Stream(p, key, nonce, from + |a|, b);
    forall i | 0 <= i < |a + b| ensures whole[i] == parts[i] {
      if i >= |a| {
        assert from + |a| + (i - |a|) == from + i;
      }
    }
  }

  lemma {:induction false} GhashSplits(p: Primitives, h: Block, acc: Block, a: seq<Block>, b: seq<Block>)
    ensures Ghash(p, h, acc, a + b) == Ghash(p, h, Ghash(p, h, acc, a), b)
    decreases |a|
  {
    if a == [] {
      assert a + b == b;
    } else {
      assert (a + b)[0] == a[0] && (a + b)[1..] == a[1..] + b;
      GhashSplits(p, h, p.product(XorBlocks(acc, a[0]), h), a[1..], b);
    }
  }

  /** The complete blocks of a string. */
  function Full(data: Bytes): seq<Block>
    decreases |data|
  {
    if |data| < BLOCK_SIZE then [] else [data[..BLOCK_SIZE]] + Full(data[BLOCK_SIZE..])
  }

  /** What is left after them. */
  function Left(data: Bytes): (r: Bytes)
    ensures |r| < BLOCK_SIZE
    decreases |data|
  {
    if |data| < BLOCK_SIZE then data else Left(data[BLOCK_SIZE..])
  }

  /** Appending to a string only touches what is left over. */
  lemma {:induction false} BlocksOfAppend(a: Bytes, b: Bytes)
    ensures Full(a + b) == Full(a) + Full(Left(a) + b) && Left(a + b) == Left(Left(a) + b)
    decreases |a|
  {
    if |a| >= BLOCK_SIZE {
      assert (a + b)[..BLOCK_SIZE] == a[..BLOCK_SIZE] && (a + b)[BLOCK_SIZE..] == a[BLOCK_SIZE..] + b;
      BlocksOfAppend(a[BLOCK_SIZE..], b);
    }
  }

  function Rest(data: Bytes): seq<Block> {
    if Left(data) == [] then [] else [PadBlock(Left(data))]
  }

  lemma {:induction false} PaddedIsFullAndRest(data: Bytes)
    ensures Padded(data) == Full(data) + Rest(data)
    decreases |data|
  {
    if |data| >= BLOCK_SIZE {
      PaddedIsFullAndRest(data[BLOCK_SIZE..]);
    }
  }

  // ---------------------------------------------------------------------------------------------
  // The running hash

  class GcmGhash {
    const primitives: Primitives
    const h: Block
    const pad: Block
    const ad: Bytes
    var ghash: Block
    const msgBuf: array<byte>
    var msgBufOffset: nat
    var msgLen: nat
    ghost var fed: Bytes   // every message byte so far

    ghost predicate Valid()
      reads this, msgBuf
    {
      msgBuf.Length == TAG_SIZE && msgBufOffset == |Left(fed)| && msgLen == |fed| &&
      msgBuf[..msgBufOffset] == Left(fed) && ghash == Ghash(primitives, h, Start(), Full(fed))
    }

    /** The hash after the associated data. */
    ghost function Start(): Block {
      Ghash(primitives, h, Zeros(BLOCK_SIZE), Padded(ad))
    }

    constructor (primitives: Primitives, h: Block, pad: Block, ad: Bytes)
      ensures Valid() && fresh(msgBuf) && fed == []
      ensures this.primitives == primitives && this.h == h && this.pad == pad && this.ad == ad
    {
      this.primitives, this.h, this.pad, this.ad := primitives, h, pad, ad;
      ghash := Ghash(primitives, h, Zeros(BLOCK_SIZE), Padded(ad));
      msgBuf := new byte[TAG_SIZE](_ => 0);
      msgBufOffset, msgLen := 0, 0;
      fed := [];
    }

    /** Fills the buffer first; once it is full, hashes it and goes on with the rest of the message. */
    method Update(msg: Bytes)
      requires Valid()
      modifies this, msgBuf
      ensures Valid() && fed == old(fed) + msg
      decreases |msg| + msgBufOffset, msgBufOffset
    {
      if msgBufOffset > 0 {
        var taking := Min(|msg|, TAG_SIZE - msgBufOffset);
        var filled := FillBuffer(msg[..taking]);
        assert msg[..taking] + msg[taking..] == msg;
        if filled {
          Update(msg[taking..]);
        } else {
          assert msg[..taking] == msg;
        }
      } else {
        UpdateAligned(msg);
      }
    }

    /** With an empty buffer, complete blocks go to the hash and the rest to the buffer. */
    method UpdateAligned(msg: Bytes)
      requires Valid() && msgBufOffset == 0
      modifies this, msgBuf
      ensures Valid() && fed == old(fed) + msg
    {
      BlocksOfAppend(fed, msg);
      assert [] + msg == msg;
      GhashSplits(primitives, h, Start(), Full(fed), Full(msg));
      msgLen := msgLen + |msg|;
      ghash := Ghash(primitives, h, ghash, Full(msg));
      CopyInto(msgBuf, 0, Left(msg));
      msgBufOffset := |Left(msg)|;
      fed := fed + msg;
    }

    /** Adds to a started buffer what fits in it, and hashes the buffer when it becomes full. */
    method FillBuffer(taken: Bytes) returns (filled: bool)
      requires Valid() && 0 < msgBufOffset && msgBufOffset + |taken| <= TAG_SIZE
      modifies this, msgBuf
      ensures Valid() && fed == old(fed) + taken
      ensures filled == (old(msgBufOffset) + |taken| == TAG_SIZE) && (filled ==> msgBufOffset == 0)
    {
      BlocksOfAppend(fed, taken);
      ghost var joined := Left(fed) + taken;
      CopyInto(msgBuf, msgBufOffset, taken);
      msgBufOffset := msgBufOffset + |taken|;
      msgLen := msgLen + |taken|;
      assert msgBuf[..msgBufOffset] == joined;
      filled := msgBufOffset == TAG_SIZE;
      if filled {
        OneBlock(joined);
        GhashSplits(primitives, h, Start(), Full(fed), [joined]);
        ghash := Ghash(primitives, h, ghash, [msgBuf[..]]);
        assert msgBuf[..] == joined;
        msgBufOffset := 0;
      } else {
        assert Full(fed) + [] == Full(fed);
      }
      fed := fed + taken;
    }

    /** Pads what is buffered, adds the length block and masks the result. */
    method Finalize() returns (tag: Block)
      requires Valid()
      ensures tag == XorBlocks(OneShotHash(primitives, h, ad, fed), pad)
    {
      var acc := ghash;
      if msgBufOffset > 0 {
        acc := Ghash(primitives, h, acc, [PadBlock(msgBuf[..msgBufOffset])]);
      }
      acc := Ghash(primitives, h, acc, [LengthBlock(|ad|, msgLen)]);
      HashOfParts(primitives, h, ad, fed);
      tag := XorBlocks(acc, pad);
    }
  }

  lemma OneBlock(b: Block)
    ensures Full(b) == [b] && Left(b) == []
  {
    assert b[..BLOCK_SIZE] == b && b[BLOCK_SIZE..] == [];
    assert [b] + [] == [b];
  }

  /** Copies `source` over part of an array. */
  method CopyInto(a: array<byte>, at: nat, source: Bytes)
    requires at + |source| <= a.Length
    modifies a
    ensures a[..at] == old(a[..at]) && a[..at + |source|] == a[..at] + source
  {
    forall i | 0 <= i < |source| {
      a[at + i] := source[i];
    }
  }

  /** The one-shot hash, taken apart the way it is computed. */
  lemma HashOfParts(p: Primitives, h: Block, ad: Bytes, message: Bytes)
    ensures var acc := Ghash(p, h, Ghash(p, h, Zeros(BLOCK_SIZE), Padded(ad)), Full(message));
            OneShotHash(p, h, ad, message)
                == Ghash(p, h, Ghash(p, h, acc, Rest(message)), [LengthBlock(|ad|, |message|)])
  {
    var zero: Block := Zeros(BLOCK_SIZE);
    PaddedIsFullAndRest(message);
    GhashSplits(p, h, zero, Padded(ad) + Padded(message), [LengthBlock(|ad|, |message|)]);
    GhashSplits(p, h, zero, Padded(ad), Padded(message));
    GhashSplits(p, h, Ghash(p, h, zero, Padded(ad)), Full(message), Rest(message));
  }

  // ---------------------------------------------------------------------------------------------
  // Streaming encryption and decryption

  class Aes256Ctr32 {
    const primitives: Primitives
    const key: Bytes
    const nonce: Bytes
    var position: nat

    constructor (primitives: Primitives, key: Bytes, nonce: Bytes)
      requires |nonce| == NONCE_SIZE
      ensures this.primitives == primitives && this.key == key && this.nonce == nonce && position == 0
    {
      this.primitives, this.key, this.nonce, position := primitives, key, nonce, 0;
    }

    /** Applies the key stream in place. */
    method Process(buf: array<byte>)
      requires |nonce| == NONCE_SIZE
      modifies this, buf
      ensures buf[..] == Stream(primitives, key, nonce, old(position), old(buf[..]))
      ensures position == old(position) + buf.Length
    {
      ghost var before := buf[..];
      for i := 0 to buf.Length
        invariant position == old(position)
        invariant forall k :: 0 <= k < i ==> buf[k] == XorByte(KeyByte(primitives, key, nonce, position + k), before[k])
        invariant forall k :: i <= k < buf.Length ==> buf[k] == before[k]
      {
        buf[i] := XorByte(KeyByte(primitives, key, nonce, position + i), buf[i]);
      }
      position := position + buf.Length;
    }
  }

  /** The first block of the key stream is the cipher applied to counter 1. */
  lemma FirstKeyBlock(p: Primitives, key: Bytes, nonce: Bytes)
    requires |nonce| == NONCE_SIZE
    ensures Stream(p, key, nonce, 0, Zeros(BLOCK_SIZE)) == p.encryptBlock(key, CounterBlock(nonce, 1))
  {
    var block := p.encryptBlock(key, CounterBlock(nonce, 1));
    forall i | 0 <= i < BLOCK_SIZE ensures XorByte(KeyByte(p, key, nonce, i), 0) == block[i] {
      XorByteZero(block[i]);
    }
  }

  /** The key stream and the hash of one message agree on key and nonce. */
  ghost predicate Matching(ctr: Aes256Ctr32, ghash: GcmGhash)
    reads ghash, ghash.msgBuf
  {
    |ctr.nonce| == NONCE_SIZE && ghash.Valid() && ghash.primitives == ctr.primitives &&
    ghash.h == HashKey(ctr.primitives, ctr.key)
    && ghash.pad == ctr.primitives.encryptBlock(ctr.key, CounterBlock(ctr.nonce, 1))
  }

  /** `setup_gcm`: fails exactly on a nonce or key of the wrong size. */
  method SetupGcm(p: Primitives, key: Bytes, nonce: Bytes, ad: Bytes)
    returns (r: Result<(Aes256Ctr32, GcmGhash), Error>)
    ensures |nonce| != NONCE_SIZE ==> r == Err(InvalidNonceSize)
    ensures |nonce| == NONCE_SIZE && |key| != KEY_SIZE ==> r == Err(InvalidKeySize)
    ensures |nonce| == NONCE_SIZE && |key| == KEY_SIZE ==> r.Ok?
    ensures r.Ok? ==> var (ctr, ghash) := r.value;
                      fresh(ctr) && fresh(ghash) && fresh(ghash.msgBuf) && Matching(ctr, ghash) &&
                      ctr.primitives == p && ctr.key == key && ctr.nonce == nonce &&
                      ctr.position == BLOCK_SIZE && ghash.ad == ad && ghash.fed == []
  {
    if |nonce| != NONCE_SIZE {
      return Err(InvalidNonceSize);
    }
    if |key| != KEY_SIZE {
      return Err(InvalidKeySize);
    }
    var ctr := new Aes256Ctr32(p, key, nonce);
    var pad := new byte[TAG_SIZE](_ => 0);
    assert pad[..] == Zeros(BLOCK_SIZE);
    ctr.Process(pad);
    FirstKeyBlock(p, key, nonce);
    var ghash := new GcmGhash(p, HashKey(p, key), pad[..], ad);
    return Ok((ctr, ghash));
  }

  class Aes256GcmEncryption {
    const ctr: Aes256Ctr32
    const ghash: GcmGhash
    ghost var plaintext: Bytes

    ghost predicate Valid()
      reads this, ctr, ghash, ghash.msgBuf
    {
      Matching(ctr, ghash) && ctr.position == BLOCK_SIZE + |plaintext| &&
      ghash.fed == OneShotCiphertext(ctr.primitives, ctr.key, ctr.nonce, plaintext)
    }

    constructor (ctr: Aes256Ctr32, ghash: GcmGhash)
      requires Matching(ctr, ghash) && ctr.position == BLOCK_SIZE && ghash.fed == []
      ensures Valid() && this.ctr == ctr && this.ghash == ghash && plaintext == []
    {
      this.ctr, this.ghash, plaintext := ctr, ghash, [];
    }

    /** Encrypts a buffer in place as the next part of the message. */
    method Encrypt(buf: array<byte>)
      requires Valid() && buf != ghash.msgBuf
      modifies this, ctr, ghash, ghash.msgBuf, buf
      ensures Valid() && plaintext == old(plaintext) + old(buf[..])
      ensures ghash.fed == old(ghash.fed) + buf[..]
    {
      StreamSplits(ctr.primitives, ctr.key, ctr.nonce, BLOCK_SIZE, plaintext, buf[..]);
      plaintext := plaintext + buf[..];
      ctr.Process(buf);
      ghash.Update(buf[..]);
    }

    method ComputeTag() returns (tag: Block)
      requires Valid()
      ensures tag == OneShotTag(ctr.primitives, ctr.key, ctr.nonce, ghash.ad, ghash.fed)
    {
      tag := ghash.Finalize();
    }
  }

  class Aes256GcmDecryption {
    const ctr: Aes256Ctr32
    const ghash: GcmGhash

    ghost predicate Valid()
      reads this, ctr, ghash, ghash.msgBuf
    {
      Matching(ctr, ghash) && ctr.position == BLOCK_SIZE + |ghash.fed|
    }

    constructor (ctr: Aes256Ctr32, ghash: GcmGhash)
      requires Matching(ctr, ghash) && ctr.position == BLOCK_SIZE && ghash.fed == []
      ensures Valid() && this.ctr == ctr && this.ghash == ghash
    {
      this.ctr, this.ghash := ctr, ghash;
    }

    /** Decrypts a buffer in place as the next part of the message. */
    method Decrypt(buf: array<byte>)
      requires Valid() && buf != ghash.msgBuf
      modifies ctr, ghash, ghash.msgBuf, buf
      ensures Valid() && ghash.fed == old(ghash.fed) + old(buf[..])
      ensures buf[..] == Stream(ctr.primitives, ctr.key, ctr.nonce, BLOCK_SIZE + |old(ghash.fed)|, old(buf[..]))
    {
      ghash.Update(buf[..]);
      ctr.Process(buf);
    }

    method VerifyTag(tag: Bytes) returns (ok: bool)
      requires Valid()
      ensures ok <==> tag == OneShotTag(ctr.primitives, ctr.key, ctr.nonce, ghash.ad, ghash.fed)
    {
      if |tag| != TAG_SIZE {
        return false;
      }
      var computed := ghash.Finalize();
      ok := tag == computed;
    }
  }

  // ---------------------------------------------------------------------------------------------
  // Whole messages in parts

  lemma FlattenNext(parts: seq<Bytes>, i: nat)
    requires i < |parts|
    ensures Flatten(parts[..i + 1]) == Flatten(parts[..i]) + parts[i]
  {
    assert parts[..i + 1] == parts[..i] + [parts[i]];
    FlattenSnoc(parts[..i], parts[i]);
  }

  /** Encrypting a message part by part gives the one-shot ciphertext and tag, whatever the parts. */
  method EncryptParts(p: Primitives, key: Bytes, nonce: Bytes, ad: Bytes, parts: seq<Bytes>)
    returns (r: Result<(seq<Bytes>, Block), Error>)
    ensures |nonce| != NONCE_SIZE ==> r == Err(InvalidNonceSize)
    ensures |nonce| == NONCE_SIZE && |key| != KEY_SIZE ==> r == Err(InvalidKeySize)
    ensures |nonce| == NONCE_SIZE && |key| == KEY_SIZE ==>
              r.Ok? && |r.value.0| == |parts| &&
              Flatten(r.value.0) == OneShotCiphertext(p, key, nonce, Flatten(parts)) &&
              r.value.1 == OneShotTag(p, key, nonce, ad, OneShotCiphertext(p, key, nonce, Flatten(parts)))
  {
    var setup :- SetupGcm(p, key, nonce, ad);
    var gcm := new Aes256GcmEncryption(setup.0, setup.1);
    var out: seq<Bytes> := [];
    for i := 0 to |parts|
      invariant fresh(gcm) && fresh(gcm.ctr) && fresh(gcm.ghash) && fresh(gcm.ghash.msgBuf)
      invariant gcm.Valid() && |out| == i
      invariant gcm.plaintext == Flatten(parts[..i]) && Flatten(out) == gcm.ghash.fed
    {
      var buf := new byte[|parts[i]|](k requires 0 <= k < |parts[i]| => parts[i][k]);
      assert buf[..] == parts[i];
      gcm.Encrypt(buf);
      FlattenNext(parts, i);
      FlattenSnoc(out, buf[..]);
      out := out + [buf[..]];
    }
    assert parts[..|parts|] == parts;
    var tag := gcm.ComputeTag();
    return Ok((out, tag));
  }

  /** Decrypting part by part inverts the key stream, and accepts exactly the one-shot tag. */
  method DecryptParts(p: Primitives, key: Bytes, nonce: Bytes, ad: Bytes, parts: seq<Bytes>, tag: Bytes)
    returns (r: Result<(seq<Bytes>, bool), Error>)
    ensures |nonce| != NONCE_SIZE ==> r == Err(InvalidNonceSize)
    ensures |nonce| == NONCE_SIZE && |key| != KEY_SIZE ==> r == Err(InvalidKeySize)
    ensures |nonce| == NONCE_SIZE && |key| == KEY_SIZE ==>
              r.Ok? && |r.value.0| == |parts| &&
              OneShotCiphertext(p, key, nonce, Flatten(r.value.0)) == Flatten(parts) &&
              (r.value.1 <==> tag == OneShotTag(p, key, nonce, ad, Flatten(parts)))
  {
    var setup :- SetupGcm(p, key, nonce, ad);
    var gcm := new Aes256GcmDecryption(setup.0, setup.1);
    var out: seq<Bytes> := [];
    for i := 0 to |parts|
      invariant fresh(gcm) && fresh(gcm.ctr) && fresh(gcm.ghash) && fresh(gcm.ghash.msgBuf)
      invariant gcm.Valid() && |out| == i && gcm.ghash.fed == Flatten(parts[..i])
      invariant Flatten(out) == Stream(p, key, nonce, BLOCK_SIZE, Flatten(parts[..i]))
    {
      var buf := new byte[|parts[i]|](k requires 0 <= k < |parts[i]| => parts[i][k]);
      assert buf[..] == parts[i];
      gcm.Decrypt(buf);
      FlattenNext(parts, i);
      FlattenSnoc(out, buf[..]);
      StreamSplits(p, key, nonce, BLOCK_SIZE, Flatten(parts[..i]), parts[i]);
      out := out + [buf[..]];
    }
    assert parts[..|parts|] == parts;
    StreamInverts(p, key, nonce, BLOCK_SIZE, Flatten(parts));
    var ok := gcm.VerifyTag(tag);
    return Ok((out, ok));
  }

  /**
   End to end: encrypt under one splitting, decrypt under any other splitting of the same ciphertext; the plaintext
   comes back and the tag verifies.
   */
  method RoundTrip(p: Primitives, key: Bytes, nonce: Bytes, ad: Bytes, parts: seq<Bytes>, resplit: Bytes -> seq<Bytes>)
    returns (out: seq<Bytes>, ok: bool)
    requires |nonce| == NONCE_SIZE && |key| == KEY_SIZE && forall b :: Flatten(resplit(b)) == b
    ensures ok && Flatten(out) == Flatten(parts)
  {
    var sealed := EncryptParts(p, key, nonce, ad, parts);
    var ciphertext := Flatten(sealed.value.0);
    var unsealed := DecryptParts(p, key, nonce, ad, resplit(ciphertext), sealed.value.1);
    out, ok := unsealed.value.0, unsealed.value.1;
    StreamInverts(p, key, nonce, BLOCK_SIZE, Flatten(out));
    StreamInverts(p, key, nonce, BLOCK_SIZE, Flatten(parts));
  }
}
