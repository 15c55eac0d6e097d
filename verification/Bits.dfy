/**
 Single bits of a 32-bit word.

 The bit operations are wrapped in functions so that the proofs about words
 as arrays of bits can leave their definitions aside.
 */
module Bits {

  const ALL_ONES: bv32 := 0xFFFF_FFFF

  function And(a: bv32, b: bv32): bv32 { a & b }
  function Or(a: bv32, b: bv32): bv32 { a | b }
  function Half(a: bv32): bv32 { a >> 1 }
  function Twice(a: bv32): bv32 { a << 1 }
  function Below(a: bv32): bv32 { a - 1 }

  // 1 << j
  function Mask(j: nat): bv32
    requires j < 32
  {
    1 << j
  }

  predicate Bit(w: bv32, j: nat)
    requires j < 32
  {
    And(w, Mask(j)) != 0
  }

  // ------------------------------------------------- facts about whole words

  lemma TwiceApart(a: bv32, b: bv32)
    ensures And(a, b) == 0 ==> And(Twice(a), Twice(b)) == 0
    ensures And(1, Twice(a)) == 0
  {
  }

  lemma OrSets(w: bv32, m: bv32, n: bv32)
    ensures m != 0 ==> And(Or(w, m), m) != 0
    ensures And(m, n) == 0 || And(n, m) == 0 ==> (And(Or(w, m), n) != 0 <==> And(w, n) != 0)
  {
  }

  lemma ShiftedBit(w: bv32, m: bv32)
    ensures And(w, Twice(m)) != 0 ==> And(Half(w), m) != 0
    ensures And(Half(w), m) == m ==> And(w, Twice(m)) == Twice(m)
    ensures And(w, 1) != 0 ==> And(w, 1) == 1
  {
  }

  lemma DoublePower(m: bv32)
    ensures And(m, Below(m)) == 0 ==> And(Twice(m), Below(Twice(m))) == 0
    ensures And(1, Below(1)) == 0
  {
  }

  lemma FillStep(w: bv32, m: bv32)
    ensures And(m, Below(m)) == 0 && And(w, Below(m)) == Below(m) && And(w, m) == m
      ==> And(w, Below(Twice(m))) == Below(Twice(m))
    ensures And(w, Below(1)) == Below(1)
  {
  }

  lemma TopBit(w: bv32)
    ensures And(w, Below(0x8000_0000)) == Below(0x8000_0000) && And(w, 0x8000_0000) == 0x8000_0000 ==> w == ALL_ONES
    ensures And(ALL_ONES, w) == w
  {
  }

  lemma TwiceZero(m: bv32)
    requires Twice(m) != 0
    ensures m != 0
  {
  }

  lemma MaskTable(j: nat)
    requires j < 31
    ensures Mask(j + 1) == Twice(Mask(j))
    ensures Mask(0) == 1 && Mask(31) == 0x8000_0000
  {
  }

  // ------------------------------------------------ words as arrays of bits

  lemma {:induction false} MasksApart(j: nat, k: nat)
    requires j < k < 32
    ensures And(Mask(j), Mask(k)) == 0
  {
    hide *;
    MaskTable(k - 1);
    if j == 0 {
      TwiceApart(Mask(k - 1), 0);
    } else {
      MaskTable(j - 1);
      MasksApart(j - 1, k - 1);
      TwiceApart(Mask(j - 1), Mask(k - 1));
    }
  }

  lemma {:induction false} MaskNonZero(j: nat)
    requires j < 32
    ensures Mask(j) != 0
    decreases 31 - j
  {
    hide *;
    if j < 31 {
      MaskNonZero(j + 1);
      MaskTable(j);
      TwiceZero(Mask(j));
    } else {
      MaskTable(0);
    }
  }

  // Setting bit j sets bit j and no other.
  lemma SetOneBit(w: bv32, j: nat, k: nat)
    requires j < 32 && k < 32
    ensures Bit(Or(w, Mask(j)), k) <==> j == k || Bit(w, k)
  {
    hide And, Or, Mask;
    MaskNonZero(j);
    OrSets(w, Mask(j), Mask(k));
    if j < k {
      MasksApart(j, k);
    } else if k < j {
      MasksApart(k, j);
    }
  }

  lemma {:induction false} WholeBit(w: bv32, j: nat)
    requires j < 32 && And(w, Mask(j)) != 0
    ensures And(w, Mask(j)) == Mask(j)
    decreases j
  {
    hide *;
    MaskTable(if j == 0 then 0 else j - 1);
    if j == 0 {
      ShiftedBit(w, 0);
    } else {
      ShiftedBit(w, Mask(j - 1));
      WholeBit(Half(w), j - 1);
    }
  }

  lemma {:induction false} MaskIsPowerOfTwo(j: nat)
    requires j < 32
    ensures And(Mask(j), Below(Mask(j))) == 0
  {
    hide *;
    MaskTable(if j == 0 then 0 else j - 1);
    if j == 0 {
      DoublePower(0);
    } else {
      MaskIsPowerOfTwo(j - 1);
      DoublePower(Mask(j - 1));
    }
  }

  lemma {:induction false} LowBitsFull(w: bv32, n: nat)
    requires n < 32 && forall j :: 0 <= j < n ==> And(w, Mask(j)) != 0
    ensures And(w, Below(Mask(n))) == Below(Mask(n))
  {
    hide *;
    MaskTable(if n == 0 then 0 else n - 1);
    if n == 0 {
      FillStep(w, 0);
    } else {
      LowBitsFull(w, n - 1);
      MaskIsPowerOfTwo(n - 1);
      WholeBit(w, n - 1);
      FillStep(w, Mask(n - 1));
    }
  }

  // A word is all ones if and only if every bit of it is set.
  lemma FullWord(w: bv32)
    ensures w == ALL_ONES <==> forall j :: 0 <= j < 32 ==> Bit(w, j)
  {
    hide And, Below, Mask, ALL_ONES;
    MaskTable(0);
    TopBit(w);
    if w == ALL_ONES {
      forall j | 0 <= j < 32 ensures Bit(w, j) {
        MaskNonZero(j);
        TopBit(Mask(j));
      }
    }
    if forall j :: 0 <= j < 32 ==> Bit(w, j) {
      forall j | 0 <= j < 32 ensures And(w, Mask(j)) != 0 {
        assert Bit(w, j);
      }
      LowBitsFull(w, 31);
      WholeBit(w, 31);
    }
  }
}
