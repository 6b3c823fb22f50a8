/** The 16-bit index of the ready queues. */
module Primap {

  /** PRIMAP_BIT: 1 shifted left by pri. */
  function PrimapBit(pri: nat): (b: bv16)
    requires pri < 16
  {
    match pri
    case 0 => 0x0001
    case 1 => 0x0002
    case 2 => 0x0004
    case 3 => 0x0008
    case 4 => 0x0010
    case 5 => 0x0020
    case 6 => 0x0040
    case 7 => 0x0080
    case 8 => 0x0100
    case 9 => 0x0200
    case 10 => 0x0400
    case 11 => 0x0800
    case 12 => 0x1000
    case 13 => 0x2000
    case 14 => 0x4000
    case _ => 0x8000
  }

  predicate Test(bitmap: bv16, bit: bv16) { bitmap & bit != 0 }

  predicate Has(bitmap: bv16, pri: nat)
    requires pri < 16
  {
    Test(bitmap, PrimapBit(pri))
  }

  lemma BitsDistinct(p: nat, q: nat)
    requires p < 16 && q < 16
    ensures PrimapBit(p) != 0
    ensures PrimapBit(p) == PrimapBit(q) <==> p == q
    ensures p != q ==> !Test(PrimapBit(p), PrimapBit(q))
  {
  }

  lemma SetTest(m: bv16, b: bv16, d: bv16)
    requires b != 0 && (b == d || !Test(b, d))
    ensures Test(m | b, d) <==> b == d || Test(m, d)
  {
    if b == d {
      Absorb(m, b);
    } else {
      Distribute(m, b, d);
      NoneAdded(m & d);
    }
  }

  lemma Absorb(m: bv16, b: bv16)
    ensures (m | b) & b == b
  {
  }

  lemma Distribute(m: bv16, b: bv16, d: bv16)
    ensures (m | b) & d == (m & d) | (b & d)
  {
  }

  lemma NoneAdded(m: bv16)
    ensures m | 0 == m
  {
  }

  lemma ClearTest(m: bv16, b: bv16, d: bv16)
    requires b != 0 && (b == d || !Test(b, d))
    ensures Test(m & !b, d) <==> b != d && Test(m, d)
  {
  }

  function Or(m: bv16, b: bv16): bv16 { m | b }

  function AndNot(m: bv16, b: bv16): bv16 { m & !b }

  lemma OrTest(m: bv16, b: bv16, d: bv16)
    requires b != 0 && (b == d || !Test(b, d))
    ensures Test(Or(m, b), d) <==> b == d || Test(m, d)
  {
    hide Test;
    SetTest(m, b, d);
  }

  lemma AndNotTest(m: bv16, b: bv16, d: bv16)
    requires b != 0 && (b == d || !Test(b, d))
    ensures Test(AndNot(m, b), d) <==> b != d && Test(m, d)
  {
    hide Test;
    ClearTest(m, b, d);
  }

  /** primap_set. */
  function PrimapSet(m: bv16, p: nat): bv16
    requires p < 16
  {
    Or(m, PrimapBit(p))
  }

  /** primap_clear. */
  function PrimapClear(m: bv16, p: nat): bv16
    requires p < 16
  {
    AndNot(m, PrimapBit(p))
  }

  lemma SetBit(m: bv16, p: nat, q: nat)
    requires p < 16 && q < 16
    ensures Has(PrimapSet(m, p), q) <==> q == p || Has(m, q)
  {
    hide PrimapBit, Test, Or;
    BitsDistinct(p, q);
    OrTest(m, PrimapBit(p), PrimapBit(q));
  }

  lemma ClearBit(m: bv16, p: nat, q: nat)
    requires p < 16 && q < 16
    ensures Has(PrimapClear(m, p), q) <==> q != p && Has(m, q)
  {
    hide PrimapBit, Test, AndNot;
    BitsDistinct(p, q);
    AndNotTest(m, PrimapBit(p), PrimapBit(q));
  }

  lemma SomeBit(m: bv16)
    ensures m == 0 <==> forall q :: 0 <= q < 16 ==> !Has(m, q)
  {
    if m != 0 {
      assert Has(m, 0) || Has(m, 1) || Has(m, 2) || Has(m, 3) || Has(m, 4) || Has(m, 5) || Has(m, 6) || Has(m, 7)
        || Has(m, 8) || Has(m, 9) || Has(m, 10) || Has(m, 11) || Has(m, 12) || Has(m, 13) || Has(m, 14) || Has(m, 15);
    }
  }

  /** bitmap_search_table, less one place for the missing entry 0. */
  function SearchTable(nibble: bv16): nat
    requires nibble != 0 && nibble < 16
  {
    match nibble
    case 1 => 0
    case 2 => 1
    case 3 => 0
    case 4 => 2
    case 5 => 0
    case 6 => 1
    case 7 => 0
    case 8 => 3
    case 9 => 0
    case 10 => 1
    case 11 => 0
    case 12 => 2
    case 13 => 0
    case 14 => 1
    case _ => 0
  }

  /** bitmap_search: the number of the lowest bit set. */
  method BitmapSearch(bits: bv16) returns (n: nat)
    requires bits != 0
    ensures n < 16 && Has(bits, n)
    ensures forall q :: 0 <= q < n ==> !Has(bits, q)
  {
    var bitmap := bits;
    n := 0;
    if bitmap & 0x00ff == 0 {
      bitmap := bitmap >> 8;
      n := n + 8;
    }
    if bitmap & 0x0f == 0 {
      bitmap := bitmap >> 4;
      n := n + 4;
    }
    assert bitmap & 0x0f != 0;
    n := n + SearchTable(bitmap & 0x0f);
  }
}
