/** The event clock: 32-bit registers updated lazily from a cyclic timer, and
  the 64-bit system time built from them. */
module EventClock {
  import opened EventTime

  class Clock {
    const tcyc: int       // the timer counts modulo tcyc; 2^32 when TCYC_HRTCNT is not defined
    var current: u32      // current_evttim
    var boundary: u32     // boundary_evttim
    var monotonic: u32    // monotonic_evttim
    var hrtcnt: u32       // current_hrtcnt
    var offset: u64       // systim_offset

    ghost var now: int    // unbounded event time
    ghost var mono: int   // the largest event time reached
    ghost var hrt: int    // unbounded timer count at the last reading
    ghost var base: int   // unbounded system time at event time 0

    ghost function SystemTime(): (t: int)
      reads this
    {
      base + mono
    }

    /** The registers hold the wrapped unbounded times, and the current time
      lags the largest one by less than two seconds. */
    ghost predicate Registers()
      reads this
    {
      && current == Wrap32(now) && boundary == Wrap32(now - BOUNDARY_MARGIN)
      && monotonic == Wrap32(mono) && 0 <= mono - now < ADJ_LEAD
      && Wrap64(offset + monotonic) == Wrap64(base + mono)
    }

    /** The counter register holds the unbounded count modulo the timer cycle. */
    ghost predicate Counter()
      reads this
    {
      0 <= hrt && 0 < tcyc <= TWO32 && hrtcnt == Shown(hrt, tcyc)
    }

    ghost predicate Valid()
      reads this
    {
      Registers() && Counter()
    }

    /** initialize_tmevt and the first reading of the timer. */
    constructor (tcyc: int, count: u32)
      requires 0 < tcyc <= TWO32 && count < tcyc
      ensures Valid() && this.tcyc == tcyc
      ensures now == 0 && mono == 0 && hrt == count && SystemTime() == 0
    {
      hide Wrap32, Wrap64;
      WrapZero();
      SubtractWrap(0, BOUNDARY_MARGIN);
      CountShown(count, tcyc);
      this.tcyc := tcyc;
      current, monotonic, offset, hrtcnt := 0, 0, 0, count;
      boundary := Sub32(0, BOUNDARY_MARGIN);
      now, mono, hrt, base := 0, 0, count, 0;
    }

    /** update_current_evttim: `newHrtcnt` is what the timer shows `elapsed`
      counts after the previous reading. */
    method Update(newHrtcnt: u32, ghost elapsed: nat)
      requires Valid() && elapsed < tcyc
      requires newHrtcnt == Shown(hrt + elapsed, tcyc)
      modifies this
      ensures Valid()
      ensures now == old(now) + elapsed && hrt == old(hrt) + elapsed
      ensures mono == (if old(mono) < now then now else old(mono)) && base == old(base)
    {
      var advance := ReadCounter(newHrtcnt, elapsed);
      Forward(advance);
    }

    /** The counts since the previous reading, from two readings of a timer
      that runs modulo its cycle. */
    method ReadCounter(newHrtcnt: u32, ghost elapsed: nat) returns (advance: u32)
      requires Counter() && elapsed < tcyc && newHrtcnt == Shown(hrt + elapsed, tcyc)
      modifies this`hrtcnt, this`hrt
      ensures Counter() && hrt == old(hrt) + elapsed
      ensures advance == elapsed
    {
      hide Shown;
      advance := Sub32(newHrtcnt, hrtcnt);
      if tcyc < TWO32 && newHrtcnt < hrtcnt {
        advance := Add32(advance, tcyc);
      }
      ElapsedFromCounts(hrt, elapsed, tcyc);
      hrtcnt := newHrtcnt;
      hrt := hrt + elapsed;
    }

    /** Moves the event time forward, and the monotonic time with it where it
      overtakes. */
    method Forward(advance: u32)
      requires Registers()
      modifies this`current, this`boundary, this`monotonic, this`offset, this`now, this`mono
      ensures Registers()
      ensures now == old(now) + advance
      ensures mono == if old(mono) < now then now else old(mono)
    {
      var previous := current;
      ForwardRegisters(now, mono, advance, offset, base);
      current := Add32(current, advance);
      boundary := Sub32(current, BOUNDARY_MARGIN);
      if Sub32(monotonic, previous) < advance {
        if current < monotonic {
          offset := Wrap64(offset + TWO32);
        }
        monotonic := current;
        mono := now + advance;
      }
      now := now + advance;
    }

    /** Moves the event time back; the monotonic time stays. */
    method Back(delay: u32)
      requires Registers() && mono - now + delay < ADJ_LEAD
      modifies this`current, this`boundary, this`now
      ensures Registers()
      ensures now == old(now) - delay
    {
      SubtractWrap(now, delay);
      SubtractWrap(now - delay, BOUNDARY_MARGIN);
      current := Sub32(current, delay);
      boundary := Sub32(current, BOUNDARY_MARGIN);
      now := now - delay;
    }

    /** calc_current_evttim_ub: the current time rounded up. */
    method CurrentUb(tstep: u32) returns (t: u32)
      requires Registers()
      ensures t == Wrap32(now + tstep)
    {
      AddWrap(now, tstep);
      t := Add32(current, tstep);
    }

    /** The register arithmetic of set_tim. */
    method SetOffset(systim: u64)
      requires Registers()
      modifies this`offset, this`base
      ensures Registers()
      ensures SystemTime() == systim
    {
      offset := Wrap64(systim - monotonic);
      base := systim - mono;
      Wrap64Plus(systim - monotonic, systim - monotonic, monotonic);
    }

    /** The register arithmetic of get_tim. */
    method GetTime() returns (systim: u64)
      requires Registers()
      ensures systim == Wrap64(SystemTime())
    {
      systim := Wrap64(offset + monotonic);
    }
  }
}
