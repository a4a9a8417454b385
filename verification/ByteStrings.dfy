/** Bytes as integers below 256, exclusive or, and big-endian numbers. */
module ByteStrings {
  type byte = x: int | 0 <= x < 0x100
  type Bytes = seq<byte>

  function Power2(k: nat): nat {
    if k == 0 then 1 else 2 * Power2(k - 1)
  }

  function XorBits(a: nat, b: nat, k: nat): (r: nat)
    ensures r < Power2(k)
  {
    if k == 0 then 0 else (if a % 2 == b % 2 then 0 else 1) + 2 * XorBits(a / 2, b / 2, k - 1)
  }

  lemma {:induction false} XorBitsInvolutive(a: nat, b: nat, k: nat)
    requires a < Power2(k)
    ensures XorBits(b, XorBits(b, a, k), k) == a
  {
    if k > 0 {
      XorBitsInvolutive(a / 2, b / 2, k - 1);
      var x := XorBits(b, a, k);
      assert x / 2 == XorBits(b / 2, a / 2, k - 1) && (x % 2 == 0 <==> a % 2 == b % 2);
    }
  }

  function XorByte(a: byte, b: byte): byte {
    assert Power2(8) == 256;
    XorBits(a, b, 8)
  }

  lemma {:induction false} XorBitsZero(a: nat, k: nat)
    requires a < Power2(k)
    ensures XorBits(a, 0, k) == a
  {
    if k > 0 {
      XorBitsZero(a / 2, k - 1);
    }
  }

  lemma XorByteZero(a: byte)
    ensures XorByte(a, 0) == a
  {
    assert Power2(8) == 256;
    XorBitsZero(a, 8);
  }

  /** Folds `input` into `mask` byte by byte. */
  function Xor(mask: Bytes, input: Bytes): (r: Bytes)
    ensures |r| == |mask|
    ensures forall i :: 0 <= i < |mask| ==> r[i] == if i < |input| then XorByte(mask[i], input[i]) else mask[i]
  {
    if mask == [] || input == [] then mask else [XorByte(mask[0], input[0])] + Xor(mask[1..], input[1..])
  }

  lemma XorByteInvolutive(mask: byte, input: byte)
    ensures XorByte(mask, XorByte(mask, input)) == input
  {
    assert Power2(8) == 256;
    XorBitsInvolutive(input, mask, 8);
  }

  lemma {:induction false} XorBitsCancel(a: nat, b: nat, c: nat, k: nat)
    requires a < Power2(k) && b < Power2(k) && XorBits(a, c, k) == XorBits(b, c, k)
    ensures a == b
  {
    if k > 0 {
      var x, y := XorBits(a / 2, c / 2, k - 1), XorBits(b / 2, c / 2, k - 1);
      assert x == XorBits(a, c, k) / 2 && y == XorBits(b, c, k) / 2;
      XorBitsCancel(a / 2, b / 2, c / 2, k - 1);
    }
  }

  /** Masks that give one output for one input are equal. */
  lemma XorCancel(mask: Bytes, mask': Bytes, input: Bytes)
    requires |mask| == |mask'| == |input| && Xor(mask, input) == Xor(mask', input)
    ensures mask == mask'
  {
    forall i | 0 <= i < |mask| ensures mask[i] == mask'[i] {
      assert Xor(mask, input)[i] == Xor(mask', input)[i];
      assert Power2(8) == 256;
      XorBitsCancel(mask[i], mask'[i], input[i], 8);
    }
  }

  lemma XorInvolutive(mask: Bytes, input: Bytes)
    requires |mask| == |input|
    ensures Xor(mask, Xor(mask, input)) == input
  {
    forall i | 0 <= i < |input| ensures XorByte(mask[i], XorByte(mask[i], input[i])) == input[i] {
      XorByteInvolutive(mask[i], input[i]);
    }
  }

  /** The low k bytes of a number, most significant first. */
  function BigEndian(n: nat, k: nat): (b: Bytes)
    ensures |b| == k
  {
    if k == 0 then [] else BigEndian(n / 0x100, k - 1) + [n % 0x100]
  }

  function Zeros(k: nat): (b: Bytes)
    ensures |b| == k && forall i :: 0 <= i < k ==> b[i] == 0
  {
    seq(k, i => 0)
  }
}
