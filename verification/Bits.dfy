/** The bits of 32-bit patterns by their numbers. */
module Bits {

  /** 1 shifted left by i. */
  function BitMask(i: nat): (d: bv32)
    requires i < 32
  {
    match i
    case 0 => 0x1
    case 1 => 0x2
    case 2 => 0x4
    case 3 => 0x8
    case 4 => 0x10
    case 5 => 0x20
    case 6 => 0x40
    case 7 => 0x80
    case 8 => 0x100
    case 9 => 0x200
    case 10 => 0x400
    case 11 => 0x800
    case 12 => 0x1000
    case 13 => 0x2000
    case 14 => 0x4000
    case 15 => 0x8000
    case 16 => 0x10000
    case 17 => 0x20000
    case 18 => 0x40000
    case 19 => 0x80000
    case 20 => 0x100000
    case 21 => 0x200000
    case 22 => 0x400000
    case 23 => 0x800000
    case 24 => 0x1000000
    case 25 => 0x2000000
    case 26 => 0x4000000
    case 27 => 0x8000000
    case 28 => 0x10000000
    case 29 => 0x20000000
    case 30 => 0x40000000
    case _ => 0x80000000
  }

  predicate Bit(ptn: bv32, i: nat)
    requires i < 32
  {
    Meets(ptn, BitMask(i))
  }

  predicate Meets(p: bv32, d: bv32) { And(p, d) != 0 }

  function And(p: bv32, c: bv32): bv32 { p & c }

  function Or(p: bv32, c: bv32): bv32 { p | c }

  function Minus(p: bv32, c: bv32): bv32 { p & !c }

  /** A mask of one bit lies within a pattern or outside of it. */
  lemma InOrOut(p: bv32, i: nat)
    requires i < 32
    ensures BitMask(i) != 0 && (And(p, BitMask(i)) == 0 || And(p, BitMask(i)) == BitMask(i))
  {
  }

  lemma AndAnd(p: bv32, c: bv32, d: bv32)
    ensures And(And(p, c), d) == And(And(p, d), And(c, d))
  {
  }

  lemma OrAnd(p: bv32, c: bv32, d: bv32)
    ensures And(Or(p, c), d) == Or(And(p, d), And(c, d))
  {
  }

  lemma MinusAnd(p: bv32, c: bv32, d: bv32)
    ensures And(Minus(p, c), d) == Minus(And(p, d), And(c, d))
  {
  }

  lemma WithNothing(d: bv32)
    ensures And(d, d) == Or(d, d) == d && Minus(d, d) == 0
    ensures And(0, d) == And(d, 0) == And(0, 0) == Or(0, 0) == Minus(0, d) == Minus(0, 0) == 0
    ensures Or(0, d) == Or(d, 0) == Minus(d, 0) == d
  {
  }

  lemma MeetSingle(p: bv32, c: bv32, d: bv32)
    requires d != 0 && (And(p, d) == 0 || And(p, d) == d) && (And(c, d) == 0 || And(c, d) == d)
    ensures And(And(p, c), d) != 0 <==> And(p, d) != 0 && And(c, d) != 0
    ensures And(Or(p, c), d) != 0 <==> And(p, d) != 0 || And(c, d) != 0
    ensures And(Minus(p, c), d) != 0 <==> And(p, d) != 0 && And(c, d) == 0
  {
    hide And, Or, Minus;
    AndAnd(p, c, d);
    OrAnd(p, c, d);
    MinusAnd(p, c, d);
    WithNothing(d);
  }

  lemma BitOf(p: bv32, c: bv32, i: nat)
    requires i < 32
    ensures Bit(And(p, c), i) <==> Bit(p, i) && Bit(c, i)
    ensures Bit(Or(p, c), i) <==> Bit(p, i) || Bit(c, i)
    ensures Bit(Minus(p, c), i) <==> Bit(p, i) && !Bit(c, i)
  {
    hide And, Or, Minus, BitMask;
    InOrOut(p, i);
    InOrOut(c, i);
    MeetSingle(p, c, BitMask(i));
  }

  lemma NoBit(i: nat)
    requires i < 32
    ensures !Bit(0, i)
  {
    hide BitMask;
    ZeroMeets(BitMask(i));
  }

  lemma ZeroMeets(d: bv32)
    ensures !Meets(0, d)
  {
  }

  lemma Halves(m: bv32)
    requires m != 0
    ensures Meets(m, 0xffff) || Meets(m, 0xffff0000)
  {
  }

  lemma SomeLow(m: bv32) returns (i: nat)
    requires Meets(m, 0xffff)
    ensures i < 32 && Bit(m, i)
  {
    if
    case Meets(m, 0x1) => i := 0;
    case Meets(m, 0x2) => i := 1;
    case Meets(m, 0x4) => i := 2;
    case Meets(m, 0x8) => i := 3;
    case Meets(m, 0x10) => i := 4;
    case Meets(m, 0x20) => i := 5;
    case Meets(m, 0x40) => i := 6;
    case Meets(m, 0x80) => i := 7;
    case Meets(m, 0x100) => i := 8;
    case Meets(m, 0x200) => i := 9;
    case Meets(m, 0x400) => i := 10;
    case Meets(m, 0x800) => i := 11;
    case Meets(m, 0x1000) => i := 12;
    case Meets(m, 0x2000) => i := 13;
    case Meets(m, 0x4000) => i := 14;
    case Meets(m, 0x8000) => i := 15;
  }

  lemma SomeHigh(m: bv32) returns (i: nat)
    requires Meets(m, 0xffff0000)
    ensures i < 32 && Bit(m, i)
  {
    if
    case Meets(m, 0x10000) => i := 16;
    case Meets(m, 0x20000) => i := 17;
    case Meets(m, 0x40000) => i := 18;
    case Meets(m, 0x80000) => i := 19;
    case Meets(m, 0x100000) => i := 20;
    case Meets(m, 0x200000) => i := 21;
    case Meets(m, 0x400000) => i := 22;
    case Meets(m, 0x800000) => i := 23;
    case Meets(m, 0x1000000) => i := 24;
    case Meets(m, 0x2000000) => i := 25;
    case Meets(m, 0x4000000) => i := 26;
    case Meets(m, 0x8000000) => i := 27;
    case Meets(m, 0x10000000) => i := 28;
    case Meets(m, 0x20000000) => i := 29;
    case Meets(m, 0x40000000) => i := 30;
    case Meets(m, 0x80000000) => i := 31;
  }

  /** A pattern that is not 0 has a bit. */
  lemma SomeBit(m: bv32) returns (i: nat)
    requires m != 0
    ensures i < 32 && Bit(m, i)
  {
    hide Meets, BitMask;
    Halves(m);
    if Meets(m, 0xffff) {
      i := SomeLow(m);
    } else {
      i := SomeHigh(m);
    }
  }

  lemma NothingLeft(p: bv32, w: bv32)
    ensures Minus(w, p) == 0 <==> And(p, w) == w
  {
  }

  /** The AND condition, bit by bit. */
  lemma AllBits(p: bv32, w: bv32)
    ensures And(p, w) == w <==> forall i :: 0 <= i < 32 && Bit(w, i) ==> Bit(p, i)
  {
    hide Bit, And, Minus;
    NothingLeft(p, w);
    if And(p, w) == w {
      forall i | 0 <= i < 32 && Bit(w, i) ensures Bit(p, i) {
        BitOf(p, w, i);
      }
    } else {
      var i := SomeBit(Minus(w, p));
      BitOf(w, p, i);
    }
  }

  /** The OR condition, bit by bit. */
  lemma AnyBit(p: bv32, w: bv32)
    ensures And(p, w) != 0 <==> exists i :: 0 <= i < 32 && Bit(p, i) && Bit(w, i)
  {
    hide Bit, And;
    if And(p, w) != 0 {
      var i := SomeBit(And(p, w));
      BitOf(p, w, i);
    } else {
      forall i | 0 <= i < 32 ensures !(Bit(p, i) && Bit(w, i)) {
        BitOf(p, w, i);
        NoBit(i);
      }
    }
  }
}
