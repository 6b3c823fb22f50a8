/** 32-bit event times and the unbounded times they stand for.

  The kernel keeps every event time in 32 bits and lets it wrap around.  Two
  such times are compared by their distance from a moving boundary, which
  always lies BOUNDARY_MARGIN before the current event time.  This module
  relates that comparison to the order of the unbounded times. */
module EventTime {

  const TWO32 := 0x1_0000_0000
  const TWO64 := 0x1_0000_0000_0000_0000

  type u32 = x: int | 0 <= x < TWO32
  type u64 = x: int | 0 <= x < TWO64

  const BOUNDARY_MARGIN := 200000000
  const TMAX_RELTIM := 4000000000
  const TMIN_ADJTIM := -1000000
  const TMAX_ADJTIM := 1000000

  /** The largest lead the monotonic time can have over the current one, plus one. */
  const ADJ_LEAD := 2000000

  function Wrap32(x: int): u32 { x % TWO32 }

  function Wrap64(x: int): u64 { x % TWO64 }

  /** Unsigned 32-bit addition and subtraction. */
  function Add32(a: u32, b: u32): u32 { Wrap32(a + b) }

  function Sub32(a: u32, b: u32): u32 { Wrap32(a - b) }

  /** EVTTIM_ADVANCE, EVTTIM_LT and EVTTIM_LE relative to a boundary. */
  function Advance(boundary: u32, t: u32): u32 { Sub32(t, boundary) }

  predicate EvttimLt(boundary: u32, t1: u32, t2: u32) {
    Advance(boundary, t1) < Advance(boundary, t2)
  }

  predicate EvttimLe(boundary: u32, t1: u32, t2: u32) {
    Advance(boundary, t1) <= Advance(boundary, t2)
  }

  /** A true time lies in the 2^32 window that starts at `lo`. */
  predicate InWindow(lo: int, t: int) { lo <= t < lo + TWO32 }

  lemma SubWrap(a: int, b: int)
    ensures Sub32(Wrap32(a), Wrap32(b)) == Wrap32(a - b)
    ensures Add32(Wrap32(a), Wrap32(b)) == Wrap32(a + b)
  {
    var qa, qb := a / TWO32, b / TWO32;
    assert a == qa * TWO32 + Wrap32(a) && b == qb * TWO32 + Wrap32(b);
    WrapShift(Wrap32(a) - Wrap32(b), qa - qb);
    WrapShift(Wrap32(a) + Wrap32(b), qa + qb);
    assert a - b == Wrap32(a) - Wrap32(b) + (qa - qb) * TWO32;
    assert a + b == Wrap32(a) + Wrap32(b) + (qa + qb) * TWO32;
  }

  lemma {:induction false} WrapShift(x: int, k: int)
    ensures Wrap32(x + k * TWO32) == Wrap32(x)
    decreases if k < 0 then -k else k
  {
    if k > 0 {
      WrapShift(x, k - 1);
    } else if k < 0 {
      WrapShift(x, k + 1);
    }
  }

  lemma AdvanceIsDistance(lo: int, t: int)
    requires InWindow(lo, t)
    ensures Advance(Wrap32(lo), Wrap32(t)) == t - lo
  {
    SubWrap(t, lo);
  }

  /** Inside one window the moving 32-bit comparison is the order of the true
    times, for every position of the boundary. */
  lemma OrderAgrees(lo: int, t1: int, t2: int)
    requires InWindow(lo, t1) && InWindow(lo, t2)
    ensures EvttimLe(Wrap32(lo), Wrap32(t1), Wrap32(t2)) <==> t1 <= t2
    ensures EvttimLt(Wrap32(lo), Wrap32(t1), Wrap32(t2)) <==> t1 < t2
  {
    AdvanceIsDistance(lo, t1);
    AdvanceIsDistance(lo, t2);
  }

  /** What a timer that counts modulo tcyc shows after `count` counts. */
  function Shown(count: nat, tcyc: int): (c: int)
    requires 0 < tcyc
    ensures 0 <= c < tcyc
  {
    count % tcyc
  }

  /** hrtcnt_advance as update_current_evttim computes it. */
  function CountAdvance(before: u32, after: u32, tcyc: int): u32 {
    var advance := Sub32(after, before);
    if tcyc < TWO32 && after < before then Add32(advance, Wrap32(tcyc)) else advance
  }

  /** Two readings of a counter that runs modulo tcyc give back the counts
    elapsed between them, whether or not the counter went round. */
  lemma ElapsedFromCounts(hrt: nat, elapsed: nat, tcyc: int)
    requires 0 < tcyc <= TWO32 && elapsed < tcyc
    ensures CountAdvance(Shown(hrt, tcyc), Shown(hrt + elapsed, tcyc), tcyc) == elapsed
  {
    ModSum(hrt, elapsed, tcyc);
    AdvanceOf(Shown(hrt, tcyc), elapsed, tcyc);
  }

  lemma AdvanceOf(r: u32, e: nat, tcyc: int)
    requires r < tcyc <= TWO32 && e < tcyc
    ensures CountAdvance(r, if r + e < tcyc then r + e else r + e - tcyc, tcyc) == e
  {
  }

  lemma {:induction false} ModSum(a: nat, e: nat, m: int)
    requires 0 < m && e < m
    ensures Shown(a + e, m) == if Shown(a, m) + e < m then Shown(a, m) + e else Shown(a, m) + e - m
  {
    var q, r := a / m, a % m;
    assert a == q * m + r;
    if r + e < m {
      ModUnique(a + e, m, q, r + e);
    } else {
      assert (q + 1) * m == q * m + m;
      ModUnique(a + e, m, q + 1, r + e - m);
    }
  }

  lemma ModUnique(x: int, m: int, q: int, r: int)
    requires 0 < m && 0 <= r < m && x == q * m + r
    ensures x % m == r
  {
    var q', r' := x / m, x % m;
    assert x == q' * m + r';
    assert (q - q') * m == q * m - q' * m;
    MultipleBelow(q - q', m, r' - r);
  }

  /** Only 0 is a multiple of m strictly between -m and m. */
  lemma MultipleBelow(t: int, m: int, d: int)
    requires 0 < m && t * m == d && -m < d < m
    ensures d == 0
  {
    if t >= 1 {
      Multiple(t, m);
    } else if t <= -1 {
      Multiple(-t, m);
    }
  }

  lemma Multiple(t: int, m: int)
    requires 0 < m && 1 <= t
    ensures m <= t * m
  {
    assert t * m == (t - 1) * m + m;
  }

  lemma Wrap64Plus(a: int, b: int, d: int)
    requires Wrap64(a) == Wrap64(b)
    ensures Wrap64(a + d) == Wrap64(b + d)
    ensures Wrap64(Wrap64(a) + d) == Wrap64(a + d)
  {
    assert a == a / TWO64 * TWO64 + Wrap64(a);
  }

  /** A 32-bit register that moves forward by less than 2^32 goes round exactly
    when its new value is the smaller one; adding 2^32 to the 64-bit offset
    then keeps offset + register in step with the unbounded value. */
  lemma OffsetFollows(offset: u64, m: int, m': int, base: int)
    requires m < m' < m + TWO32
    requires Wrap64(offset + Wrap32(m)) == Wrap64(base + m)
    ensures var offset' := if Wrap32(m') < Wrap32(m) then Wrap64(offset + TWO32) else offset;
      Wrap64(offset' + Wrap32(m')) == Wrap64(base + m')
  {
    var d := m' - m;
    var w := if Wrap32(m') < Wrap32(m) then TWO32 else 0;
    assert w + Wrap32(m') == Wrap32(m) + d by {
      ModSumSigned(m, d);
    }
    Wrap64Plus(offset + Wrap32(m), base + m, d);
    Wrap64Plus(offset + w, offset + w, Wrap32(m'));
  }

  lemma ModSumSigned(m: int, d: int)
    requires 0 < d < TWO32
    ensures Wrap32(m + d) == if Wrap32(m) + d < TWO32 then Wrap32(m) + d else Wrap32(m) + d - TWO32
  {
    var q, r := m / TWO32, Wrap32(m);
    assert m == q * TWO32 + r;
  }

  /** The registers after the clock moves forward by `advance`. */
  lemma ForwardRegisters(now: int, mono: int, advance: u32, offset: u64, base: int)
    requires 0 <= mono - now < ADJ_LEAD
    requires Wrap64(offset + Wrap32(mono)) == Wrap64(base + mono)
    ensures Add32(Wrap32(now), advance) == Wrap32(now + advance)
    ensures Sub32(Wrap32(now + advance), BOUNDARY_MARGIN) == Wrap32(now + advance - BOUNDARY_MARGIN)
    ensures Sub32(Wrap32(mono), Wrap32(now)) == mono - now
    ensures mono < now + advance ==>
      var offset' := if Wrap32(now + advance) < Wrap32(mono) then Wrap64(offset + TWO32) else offset;
      Wrap64(offset' + Wrap32(now + advance)) == Wrap64(base + (now + advance))
  {
    AddWrap(now, advance);
    SubtractWrap(now + advance, BOUNDARY_MARGIN);
    DifferenceWrap(mono, now);
    if mono < now + advance {
      OffsetFollows(offset, mono, now + advance, base);
    }
  }

  /** Whether a pending event is due, and how far ahead it is otherwise, read
    off the registers. */
  lemma Remaining(lo: int, now: int, due: int)
    requires lo <= now < lo + TWO32 && InWindow(lo, due)
    ensures EvttimLe(Wrap32(lo), Wrap32(due), Wrap32(now)) <==> due <= now
    ensures now < due ==> Sub32(Wrap32(due), Wrap32(now)) == due - now
  {
    OrderAgrees(lo, due, now);
    SubWrap(due, now);
  }

  /** Adding to a wrapped time wraps the sum. */
  lemma AddWrap(t: int, d: u32)
    ensures Add32(Wrap32(t), d) == Wrap32(t + d)
  {
    SubWrap(t, d);
  }

  lemma SubtractWrap(t: int, d: u32)
    ensures Sub32(Wrap32(t), d) == Wrap32(t - d)
  {
    SubWrap(t, d);
  }

  lemma DifferenceWrap(a: int, b: int)
    requires b <= a < b + TWO32
    ensures Sub32(Wrap32(a), Wrap32(b)) == a - b
  {
    SubWrap(a, b);
  }

  lemma CountShown(count: nat, tcyc: int)
    requires count < tcyc
    ensures Shown(count, tcyc) == count
  {
  }

  lemma WrapZero()
    ensures Wrap32(0) == 0 && Wrap64(0) == 0
  {
  }
}
