/** Branch-free comparison of byte strings (rust/core/src/curve/utils.rs:8-82). */
module ConstantTime {
  datatype Ordering = Less | Equal | Greater

  // ---------------------------------------------------------------------------------------------
  // Branch-free selection

  function ExpandTopBit(a: bv8): bv8 {
    0 - (a >> 7)
  }

  function IsZero(a: bv8): bv8 {
    ExpandTopBit(!a & (a - 1))
  }

  function IsEq(a: bv8, b: bv8): bv8 {
    IsZero(a ^ b)
  }

  function IsLt(a: bv8, b: bv8): bv8 {
    ExpandTopBit(a ^ ((a ^ b) | ((a - b) ^ a)))
  }

  function Select(mask: bv8, a: bv8, b: bv8): bv8 {
    b ^ (mask & (a ^ b))
  }

  lemma MasksDecide(a: bv8, b: bv8)
    ensures IsEq(a, b) == if a == b then 0xFF else 0
    ensures IsLt(a, b) == if a < b then 0xFF else 0
  {
  }

  lemma SelectChooses(a: bv8, b: bv8)
    ensures Select(0xFF, a, b) == a && Select(0, a, b) == b
  {
  }

  /** One pass of the loop body. */
  function Step(result: bv8, a: bv8, b: bv8): bv8 {
    Select(IsEq(a, b), result, Select(IsLt(a, b), 1, 255))
  }

  lemma StepDecides(result: bv8, a: bv8, b: bv8)
    ensures Step(result, a, b) == if a == b then result else if a < b then 1 else 255
  {
    MasksDecide(a, b);
    SelectChooses(result, Select(IsLt(a, b), 1, 255));
    SelectChooses(1, 255);
  }

  // ---------------------------------------------------------------------------------------------
  // Reference order: shorter first, then lexicographic

  function Lexicographic(x: seq<bv8>, y: seq<bv8>): Ordering
    requires |x| == |y|
  {
    if x == [] then Equal
    else if x[0] < y[0] then Less
    else if x[0] > y[0] then Greater
    else Lexicographic(x[1..], y[1..])
  }

  function Compare(x: seq<bv8>, y: seq<bv8>): Ordering {
    if |x| < |y| then Less else if |x| > |y| then Greater else Lexicographic(x, y)
  }

  function Reverse(o: Ordering): Ordering {
    match o
    case Less => Greater
    case Equal => Equal
    case Greater => Less
  }

  lemma {:induction false} LexicographicIsTotal(x: seq<bv8>, y: seq<bv8>)
    requires |x| == |y|
    ensures (Lexicographic(x, y) == Equal <==> x == y) && Lexicographic(y, x) == Reverse(Lexicographic(x, y))
    decreases |x|
  {
    if x != [] {
      LexicographicIsTotal(x[1..], y[1..]);
      assert x == [x[0]] + x[1..] && y == [y[0]] + y[1..];
    }
  }

  lemma {:induction false} LexicographicIsTransitive(x: seq<bv8>, y: seq<bv8>, z: seq<bv8>)
    requires |x| == |y| == |z| && Lexicographic(x, y) != Greater && Lexicographic(y, z) != Greater
    ensures Lexicographic(x, z) != Greater
    ensures Lexicographic(x, z) == Equal ==> Lexicographic(x, y) == Equal && Lexicographic(y, z) == Equal
    decreases |x|
  {
    if x != [] && x[0] == y[0] == z[0] {
      LexicographicIsTransitive(x[1..], y[1..], z[1..]);
    }
  }

  /** A total order on all byte strings: equal only to itself, antisymmetric, transitive. */
  lemma CompareIsTotalOrder(x: seq<bv8>, y: seq<bv8>, z: seq<bv8>)
    ensures Compare(x, y) == Equal <==> x == y
    ensures Compare(y, x) == Reverse(Compare(x, y))
    ensures Compare(x, y) != Greater && Compare(y, z) != Greater ==> Compare(x, z) != Greater
  {
    if |x| == |y| {
      LexicographicIsTotal(x, y);
      if |y| == |z| && Lexicographic(x, y) != Greater && Lexicographic(y, z) != Greater {
        LexicographicIsTransitive(x, y, z);
      }
    }
  }

  // ---------------------------------------------------------------------------------------------
  // The loop

  function Code(o: Ordering): bv8 {
    match o
    case Equal => 0
    case Less => 1
    case Greater => 255
  }

  lemma CodeStep(x: seq<bv8>, y: seq<bv8>)
    requires |x| == |y| > 0
    ensures Step(Code(Lexicographic(x[1..], y[1..])), x[0], y[0]) == Code(Lexicographic(x, y))
  {
    StepDecides(Code(Lexicographic(x[1..], y[1..])), x[0], y[0]);
  }

  /** Visits every byte, last first, without branching on their values. */
  method ConstantTimeCmp(x: seq<bv8>, y: seq<bv8>) returns (o: Ordering)
    ensures o == Compare(x, y)
  {
    if |x| < |y| {
      return Less;
    }
    if |x| > |y| {
      return Greater;
    }
    var result: bv8 := 0;
    assert x[|x|..] == [] && y[|x|..] == [];
    for i := 0 to |x|
      invariant result == Code(Lexicographic(x[|x| - i..], y[|x| - i..]))
    {
      var at := |x| - 1 - i;
      assert x[at..][1..] == x[at + 1..] && y[at..][1..] == y[at + 1..];
      CodeStep(x[at..], y[at..]);
      result := Step(result, x[at], y[at]);
    }
    assert x[0..] == x && y[0..] == y;
    return if result == 0 then Equal else if result == 1 then Less else Greater;
  }
}
