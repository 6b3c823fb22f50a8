/** Registration of time events, the timer arming rule, time adjustment and
  the run of the timer interrupt handler, on top of the event clock and the
  time event heap. */
module TimeManager {
  import opened EventTime
  import opened EventClock
  import opened TimeEventHeap
  import opened Firings

  datatype AdjResult = AdjOk | AdjPar | AdjObj

  class TimeEvents {
    const clock: Clock
    const events: EventHeap
    const kinds: seq<Kind>
    const tstep: int      // TSTEP_HRTCNT
    const bound: int      // HRTCNT_BOUND

    var inSignal: bool       // in_signal_time
    var started: seq<bool>   // cycsta or almsta of each block's owner
    var raised: bool         // a timer interrupt has been requested outright
    ghost var alarmAt: int   // unbounded timer count of the armed interrupt

    ghost predicate Separate()
    {
      && events.Shape()
      && |kinds| == events.node.Length
      && KindsValid(kinds)
      && 0 <= tstep <= 4000
      && 0 < bound < 4294000000 && bound < clock.tcyc <= TWO32
    }

    /** Every pending event is at most BOUNDARY_MARGIN late and not further
      ahead than the longest relative time allows. */
    ghost predicate PendingNear()
      reads clock, events, events.evttim
    {
      && events.Timed(clock.now - BOUNDARY_MARGIN)
      && forall b :: b in events.due ==> events.due[b] <= clock.mono + tstep + TMAX_RELTIM
    }

    /** The flag of a cyclic or alarm handler is up exactly while its block is
      registered; `x` is a block whose owner is being changed. */
    ghost predicate FlagsMatch(x: nat)
      reads this, events
    {
      && |started| == |kinds|
      && forall b :: 0 <= b < |kinds| && b != x && kinds[b] != Timeout ==> (started[b] <==> b in events.due)
    }

    /** The timer interrupt comes no later than any pending event is due. */
    ghost predicate Armed()
      reads this, clock, events
    {
      raised || forall b :: b in events.due ==> alarmAt - clock.hrt <= events.due[b] - clock.now
    }

    /** Everything is in order but for the handlers' flags and the arming; the timer
      is never armed further ahead than HRTCNT_BOUND. */
    ghost predicate Timing()
      reads this, clock, events, events.heap, events.node, events.evttim
    {
      Separate() && events.Valid() && clock.Valid() && PendingNear() && alarmAt <= clock.hrt + bound
    }

    ghost predicate Valid()
      reads this, clock, events, events.heap, events.node, events.evttim
    {
      Timing() && FlagsMatch(|kinds|) && (!inSignal ==> Armed())
    }

    /** The environment's part of the bargain: the timer does not go round
      unread, and no pending event is left more than BOUNDARY_MARGIN late. */
    ghost predicate ReadInTime(elapsed: nat, newHrtcnt: u32)
      reads clock, events
    {
      && 0 <= clock.hrt && elapsed < clock.tcyc && newHrtcnt == Shown(clock.hrt + elapsed, clock.tcyc)
      && forall b :: b in events.due ==> clock.now + elapsed - BOUNDARY_MARGIN <= events.due[b]
    }

    /** The time event module before any handler is registered; `count` is the
      first reading of the timer. */
    constructor (kinds: seq<Kind>, tcyc: int, count: u32, tstep: int, bound: int)
      requires KindsValid(kinds) && 0 <= tstep <= 4000
      requires 0 < bound < 4294000000 && bound < tcyc <= TWO32 && count < tcyc
      ensures Timing() && FlagsMatch(|kinds|) && !inSignal && !raised
      ensures fresh(clock) && fresh(events) && fresh(events.heap) && fresh(events.node) && fresh(events.evttim)
      ensures this.kinds == kinds && this.tstep == tstep && this.bound == bound && clock.tcyc == tcyc
      ensures events.due == map[] && clock.now == 0 && clock.mono == 0 && clock.hrt == count && clock.SystemTime() == 0
    {
      this.kinds, this.tstep, this.bound := kinds, tstep, bound;
      clock := new Clock(tcyc, count);
      events := new EventHeap(|kinds|);
      inSignal, raised := false, false;
      started := seq(|kinds|, _ => false);
      alarmAt := 0;
    }

    /** The readings of one handler run: `elapsed` counts apart, the first in
      time for the pending events and the others less than BOUNDARY_MARGIN
      after the one before. */
    ghost predicate ReadingsInTime(readings: seq<u32>, elapsed: seq<nat>)
      reads clock, events
    {
      && |readings| == |elapsed| >= 1 && 0 <= clock.hrt && 0 < clock.tcyc
      && ReadInTime(elapsed[0], readings[0])
      && (forall i :: 1 <= i < |elapsed| ==> elapsed[i] < clock.tcyc && elapsed[i] <= BOUNDARY_MARGIN)
      && (forall i :: 0 <= i < |elapsed| ==> readings[i] == Shown(clock.hrt + Sum(elapsed, i + 1), clock.tcyc))
    }

    /** initialize_cyclic and the end of sta_ker: registers the handlers that
      start by themselves at their phases and arms the timer. */
    method StartUp()
      requires Timing() && FlagsMatch(|kinds|) && !inSignal
      requires clock.now == 0 && events.due == map[]
      modifies this`started, this`raised, this`alarmAt, events, events.heap, events.node, events.evttim
      ensures Valid()
      ensures forall b :: b in events.due <==> 0 <= b < |kinds| && kinds[b].Cyclic? && kinds[b].autostart
      ensures forall b :: b in events.due ==> events.due[b] == kinds[b].phase
    {
      hide events.Valid, clock.Valid;
      var b := 0;
      while b < |kinds|
        invariant 0 <= b <= |kinds|
        invariant Timing() && FlagsMatch(|kinds|)
        invariant forall c :: c in events.due <==> 0 <= c < b && kinds[c].Cyclic? && kinds[c].autostart
        invariant forall c :: c in events.due ==> events.due[c] == kinds[c].phase
      {
        if kinds[b].Cyclic? && kinds[b].autostart {
          AutoStart(b);
        }
        b := b + 1;
      }
      SetHrtEvent();
    }

    method AutoStart(b: nat)
      requires Timing() && FlagsMatch(|kinds|) && clock.now == 0
      requires b < |kinds| && kinds[b].Cyclic? && b !in events.due
      modifies this`started, events, events.heap, events.node, events.evttim
      ensures Timing() && FlagsMatch(|kinds|)
      ensures events.due == old(events.due)[b := kinds[b].phase]
      ensures started == old(started)[b := true]
    {
      started := started[b := true];
      events.evttim[b] := Wrap32(kinds[b].phase);
      Register(b, kinds[b].phase);
    }

    /** update_current_evttim. */
    method UpdateCurrentEvttim(newHrtcnt: u32, ghost elapsed: nat)
      requires Timing() && ReadInTime(elapsed, newHrtcnt)
      modifies clock
      ensures Timing()
      ensures clock.now == old(clock.now) + elapsed && clock.hrt == old(clock.hrt) + elapsed
      ensures clock.mono == (if old(clock.mono) < clock.now then clock.now else old(clock.mono)) &&
        clock.base == old(clock.base)
      ensures old(Armed()) ==> Armed()
    {
      clock.Update(newHrtcnt, elapsed);
    }

    /** set_hrt_event: arms the timer for the earliest event, at most
      HRTCNT_BOUND counts ahead, or requests the interrupt at once. */
    method SetHrtEvent()
      requires Timing()
      modifies this`raised, this`alarmAt
      ensures Armed() && (raised || forall b :: b in events.due ==> alarmAt - clock.hrt <= events.due[b] - clock.now)
      ensures (exists b :: b in events.due && events.due[b] <= clock.now) ==> raised && alarmAt == old(alarmAt)
      ensures (forall b :: b in events.due ==> clock.now < events.due[b]) ==>
        raised == old(raised) && clock.hrt < alarmAt <= clock.hrt + bound
    {
      events.TopIsEarliest();
      if events.last < 1 {
        SetEvent(bound);
      } else {
        var top := events.heap[1];
        assert top in events.due;
        Remaining(clock.now - BOUNDARY_MARGIN, clock.now, events.due[top]);
        if EvttimLe(clock.boundary, events.evttim[top], clock.current) {
          raised := true;
        } else {
          var count := Sub32(events.evttim[top], clock.current);
          if count > bound {
            SetEvent(bound);
          } else {
            SetEvent(count);
          }
        }
      }
    }

    /** target_hrt_set_event: the interrupt comes `count` counts from now. */
    method SetEvent(count: u32)
      modifies this`alarmAt
      ensures alarmAt == clock.hrt + count
    {
      alarmAt := clock.hrt + count;
    }

    /** Stamps block b with the time `time` after the rounded-up current time. */
    method Stamp(b: nat, time: nat)
      requires Timing() && b < |kinds| && b !in events.due && time <= TMAX_RELTIM
      modifies events.evttim
      ensures Timing()
      ensures events.evttim[b] == Wrap32(clock.now + tstep + time)
    {
      var ub := clock.CurrentUb(tstep);
      AddWrap(clock.now + tstep, time);
      events.evttim[b] := Add32(ub, time);
    }

    /** tmevtb_register: puts a stamped block into the heap. */
    method Register(b: nat, ghost d: int)
      requires Timing() && b < |kinds| && b !in events.due
      requires events.evttim[b] == Wrap32(d)
      requires clock.now - BOUNDARY_MARGIN <= d <= clock.mono + tstep + TMAX_RELTIM
      modifies events, events.heap, events.node
      ensures Timing()
      ensures events.due == old(events.due)[b := d]
      ensures events.node[b] != 1 ==> old(events.last) > 0 && events.heap[1] == old(events.heap[1])
    {
      events.Insert(b, clock.boundary, d, clock.now - BOUNDARY_MARGIN);
    }

    /** tmevtb_enqueue: registers block b to expire `time` after the current
      time rounded up; a timeout at any time, also between two callbacks. */
    method Enqueue(b: nat, time: nat, newHrtcnt: u32, ghost elapsed: nat)
      requires Timing() && (!inSignal ==> Armed())
      requires b < |kinds| && b !in events.due && time <= TMAX_RELTIM
      requires ReadInTime(elapsed, newHrtcnt)
      modifies clock, this`raised, this`alarmAt, events, events.heap, events.node, events.evttim
      ensures Timing() && (!inSignal ==> Armed())
      ensures clock.now == old(clock.now) + elapsed && clock.SystemTime() >= old(clock.SystemTime())
      ensures events.due == old(events.due)[b := clock.now + tstep + time]
      ensures old(Valid()) && kinds[b] == Timeout ==> Valid()
    {
      hide events.Valid, clock.Valid;
      ghost var due0 := events.due;
      UpdateCurrentEvttim(newHrtcnt, elapsed);
      Stamp(b, time);
      ghost var d := clock.now + tstep + time;
      RegisterArmed(b, d);
      assert events.due == due0[b := d];
    }

    /** The rest of tmevtb_enqueue: the timer is armed anew only when the new
      block is the earliest one. */
    method RegisterArmed(b: nat, ghost d: int)
      requires Timing() && (!inSignal ==> Armed())
      requires b < |kinds| && b !in events.due
      requires events.evttim[b] == Wrap32(d)
      requires clock.now - BOUNDARY_MARGIN <= d <= clock.mono + tstep + TMAX_RELTIM
      modifies this`raised, this`alarmAt, events, events.heap, events.node
      ensures Timing() && (!inSignal ==> Armed())
      ensures events.due == old(events.due)[b := d]
    {
      Register(b, d);
      events.TopIsEarliest();
      if !inSignal && events.node[b] == 1 {
        SetHrtEvent();
      }
    }

    /** tmevtb_dequeue: unregisters block b; the timer is armed anew only when
      the block was the earliest one. */
    method Dequeue(b: nat, newHrtcnt: u32, ghost elapsed: nat)
      requires Timing() && (!inSignal ==> Armed())
      requires b in events.due && ReadInTime(elapsed, newHrtcnt)
      modifies clock, this`raised, this`alarmAt, events, events.heap, events.node
      ensures Timing() && (!inSignal ==> Armed())
      ensures clock.now in {old(clock.now), old(clock.now) + elapsed} &&
        clock.now - clock.hrt == old(clock.now - clock.hrt)
      ensures clock.SystemTime() >= old(clock.SystemTime())
      ensures events.due == old(events.due) - {b}
      ensures old(Valid()) && kinds[b] == Timeout ==> Valid()
    {
      hide events.Valid;
      var node := events.node[b];
      events.Delete(b, clock.boundary, clock.now - BOUNDARY_MARGIN);
      if !inSignal && node == 1 {
        UpdateCurrentEvttim(newHrtcnt, elapsed);
        SetHrtEvent();
      }
    }

    /** tmevt_lefttim: the time left until block b expires, 0 when that time
      has passed. */
    method LeftTime(b: nat, newHrtcnt: u32, ghost elapsed: nat) returns (left: u32)
      requires Timing() && b in events.due && ReadInTime(elapsed, newHrtcnt)
      modifies clock
      ensures Timing() && (old(Armed()) ==> Armed())
      ensures clock.now == old(clock.now) + elapsed && clock.SystemTime() >= old(clock.SystemTime())
      ensures left == if events.due[b] <= clock.now + tstep then 0 else events.due[b] - (clock.now + tstep)
    {
      hide events.Valid, Wrap32, Sub32, EvttimLe;
      UpdateCurrentEvttim(newHrtcnt, elapsed);
      var ub := clock.CurrentUb(tstep);
      Remaining(clock.now - BOUNDARY_MARGIN, clock.now + tstep, events.due[b]);
      if EvttimLe(clock.boundary, events.evttim[b], ub) {
        left := 0;
      } else {
        left := Sub32(events.evttim[b], ub);
      }
    }

    /** set_tim. */
    method SetTim(systim: u64, newHrtcnt: u32, ghost elapsed: nat)
      requires Valid() && ReadInTime(elapsed, newHrtcnt)
      modifies clock
      ensures Valid()
      ensures clock.SystemTime() == systim
    {
      hide events.Valid;
      UpdateCurrentEvttim(newHrtcnt, elapsed);
      clock.SetOffset(systim);
    }

    /** get_tim: the unbounded system time, which never goes back, reduced to
      64 bits. */
    method GetTim(newHrtcnt: u32, ghost elapsed: nat) returns (systim: u64)
      requires Valid() && ReadInTime(elapsed, newHrtcnt)
      modifies clock
      ensures Valid()
      ensures clock.SystemTime() >= old(clock.SystemTime())
      ensures clock.SystemTime() == clock.base + clock.mono && clock.base == old(clock.base)
      ensures systim == Wrap64(clock.SystemTime())
    {
      hide events.Valid;
      UpdateCurrentEvttim(newHrtcnt, elapsed);
      systim := clock.GetTime();
    }

    /** check_adjtim: a step forward is refused exactly while some event is a second
      late already, a step back exactly while the time is a second behind already. */
    method CheckAdjtim(adjtim: int) returns (refuse: bool)
      requires Timing()
      ensures adjtim > 0 ==> (refuse <==> exists b :: b in events.due && clock.now - events.due[b] >= 1_000_000)
      ensures adjtim < 0 ==> (refuse <==> clock.mono - clock.now >= 1_000_000)
      ensures adjtim == 0 ==> !refuse
    {
      if adjtim > 0 {
        refuse := false;
        events.TopIsEarliest();
        if events.last >= 1 {
          var top := events.heap[1];
          Remaining(clock.now - BOUNDARY_MARGIN, clock.now - TMAX_ADJTIM, events.due[top]);
          SubtractWrap(clock.now, TMAX_ADJTIM);
          refuse := EvttimLe(clock.boundary, events.evttim[top], Sub32(clock.current, TMAX_ADJTIM));
        }
      } else if adjtim < 0 {
        SubWrap(clock.mono, clock.now);
        refuse := Sub32(clock.monotonic, clock.current) >= -TMIN_ADJTIM;
      } else {
        refuse := false;
      }
    }

    /** The adjustment itself. */
    method Adjust(adjtim: int)
      requires Timing() && TMIN_ADJTIM <= adjtim <= TMAX_ADJTIM
      requires adjtim > 0 ==> forall b :: b in events.due ==> clock.now - events.due[b] < 1_000_000
      requires adjtim < 0 ==> clock.mono - clock.now < 1_000_000
      modifies clock
      ensures Timing()
      ensures clock.now == old(clock.now) + adjtim
      ensures clock.mono == (if old(clock.mono) < clock.now then clock.now else old(clock.mono)) &&
        clock.base == old(clock.base)
      ensures adjtim > 0 ==> forall b :: b in events.due ==> clock.now - ADJ_LEAD < events.due[b]
    {
      if adjtim >= 0 {
        clock.Forward(adjtim);
      } else {
        clock.Back(-adjtim);
      }
    }

    /** adj_tim: which adjustments are accepted, both ways; it moves the event time,
      never leaving a pending event two seconds or more behind that was not so
      before, and system time never goes back. */
    method AdjTim(adjtim: int, newHrtcnt: u32, ghost elapsed: nat) returns (ercd: AdjResult)
      requires Valid() && ReadInTime(elapsed, newHrtcnt)
      modifies clock, this`raised, this`alarmAt
      ensures Valid() && (ercd == AdjOk ==> Armed())
      ensures ercd == AdjPar <==> adjtim < -1_000_000 || adjtim > 1_000_000
      ensures ercd == AdjPar ==> clock.now == old(clock.now)
      ensures var now := old(clock.now) + elapsed; var mono := if old(clock.mono) < now then now else old(clock.mono);
        && (-1_000_000 <= adjtim < 0 ==> (ercd == AdjOk <==> mono - now < 1_000_000))
        && (0 < adjtim <= 1_000_000 ==>
          (ercd == AdjOk <==> forall b :: b in events.due ==> now - events.due[b] < 1_000_000))
        && (adjtim == 0 ==> ercd == AdjOk)
      ensures ercd == AdjObj ==> clock.now == old(clock.now) + elapsed
      ensures ercd == AdjOk ==> clock.now == old(clock.now) + elapsed + adjtim
      ensures ercd == AdjOk && adjtim > 0 ==> forall b :: b in events.due ==> clock.now - events.due[b] < 2_000_000
      ensures clock.SystemTime() >= old(clock.SystemTime()) && clock.base == old(clock.base)
      ensures clock.mono - clock.now < 2_000_000
    {
      hide events.Valid, events.Timed;
      if !(TMIN_ADJTIM <= adjtim <= TMAX_ADJTIM) {
        return AdjPar;
      }
      UpdateCurrentEvttim(newHrtcnt, elapsed);
      var refuse := CheckAdjtim(adjtim);
      if refuse {
        return AdjObj;
      }
      Adjust(adjtim);
      SetHrtEvent();
      ercd := AdjOk;
    }

    /** sta_cyc and sta_alm: starts or restarts a handler's block.  The timer may
      advance between the two readings of a restart, of which `first` is the one
      made when the block is taken out. */
    method StartHandler(b: nat, time: nat, first: u32, second: u32, ghost elapsed1: nat, ghost elapsed: nat)
      requires Valid() && b < |kinds| && kinds[b] != Timeout
      requires time <= TMAX_RELTIM && (kinds[b].Cyclic? ==> time == kinds[b].phase)
      requires ReadInTime(elapsed1, first) && ReadInTime(elapsed, second) && elapsed1 <= elapsed
      modifies clock, this`raised, this`alarmAt, this`started, events, events.heap, events.node, events.evttim
      ensures Valid()
      ensures clock.now == old(clock.now) + elapsed
      ensures started == old(started)[b := true]
      ensures events.due == old(events.due)[b := clock.now + tstep + time]
      ensures clock.SystemTime() >= old(clock.SystemTime())
    {
      hide events.Valid, clock.Valid, events.Timed;
      ghost var due0, now0 := events.due, clock.now;
      if started[b] {
        Dequeue(b, first, elapsed1);
      } else {
        started := started[b := true];
      }
      Enqueue(b, time, second, now0 + elapsed - clock.now);
      assert events.due == due0[b := clock.now + tstep + time];
    }

    /** stp_cyc and stp_alm. */
    method StopHandler(b: nat, newHrtcnt: u32, ghost elapsed: nat)
      requires Valid() && b < |kinds| && kinds[b] != Timeout
      requires ReadInTime(elapsed, newHrtcnt)
      modifies clock, this`raised, this`alarmAt, this`started, events, events.heap, events.node
      ensures Valid()
      ensures started == old(started)[b := false]
      ensures events.due == old(events.due) - {b}
      ensures clock.SystemTime() >= old(clock.SystemTime())
    {
      hide events.Valid;
      if started[b] {
        started := started[b := false];
        Dequeue(b, newHrtcnt, elapsed);
      }
    }

    /** The callback of the block just taken off the top: call_cyclic registers
      the block again one period after the time it was due, call_alarm stops
      the alarm. */
    method Callback(b: nat, ghost d: int)
      requires Timing() && FlagsMatch(b) && b < |kinds| && b !in events.due
      requires kinds[b] != Timeout ==> started[b]
      requires clock.now - BOUNDARY_MARGIN <= d <= clock.now && events.evttim[b] == Wrap32(d)
      modifies this`started, events, events.heap, events.node, events.evttim
      ensures Timing() && FlagsMatch(|kinds|)
      ensures events.due == if kinds[b].Cyclic? then old(events.due)[b := d + kinds[b].period] else old(events.due)
    {
      match kinds[b] {
        case Cyclic(period, phase, autostart) =>
          AddWrap(d, period);
          events.evttim[b] := Add32(events.evttim[b], period);
          Register(b, d + period);
        case Alarm =>
          started := started[b := false];
        case Timeout =>
      }
    }

    /** Takes the earliest block off the heap. */
    method TakeTop() returns (b: nat)
      requires Timing() && FlagsMatch(|kinds|) && events.last > 0
      modifies events, events.heap, events.node
      ensures Timing() && FlagsMatch(b) && b < |kinds|
      ensures b in old(events.due) && events.due == old(events.due) - {b}
      ensures forall c :: c in old(events.due) ==> old(events.due)[b] <= old(events.due)[c]
      ensures kinds[b] != Timeout ==> started[b]
      ensures events.evttim[b] == Wrap32(old(events.due)[b])
      ensures clock.now - BOUNDARY_MARGIN <= old(events.due)[b]
    {
      events.TopIsEarliest();
      b := events.DeleteTop(clock.boundary, clock.now - BOUNDARY_MARGIN);
    }

    /** One round of the handler's inner loop: fires the earliest block, which
      has expired. */
    method FireTop(ghost log0: seq<Firing>) returns (ghost log: seq<Firing>)
      requires Timing() && FlagsMatch(|kinds|) && events.last > 0
      requires exists b :: b in events.due && events.due[b] <= clock.now
      modifies this`started, events, events.heap, events.node, events.evttim
      ensures Timing() && FlagsMatch(|kinds|)
      ensures FiredOne(kinds, old(events.due), events.due, clock.now, log0, log)
    {
      hide events.Valid, clock.Valid, events.Timed;
      ghost var due0 := events.due;
      var b := TakeTop();
      Callback(b, due0[b]);
      log := log0 + [Firing(b, due0[b])];
      if kinds[b].Cyclic? {
        PutBack(due0, b, due0[b] + kinds[b].period);
      }
      assert FiredBlock(kinds, due0, events.due, clock.now, log0, log, b);
    }

    /** Whether the earliest block has expired. */
    method TopExpired() returns (expired: bool)
      requires Timing()
      ensures expired <==> exists b :: b in events.due && events.due[b] <= clock.now
      ensures expired ==> events.last > 0
    {
      events.TopIsEarliest();
      expired := false;
      if events.last >= 1 {
        Remaining(clock.now - BOUNDARY_MARGIN, clock.now, events.due[events.heap[1]]);
        expired := EvttimLe(clock.boundary, events.evttim[events.heap[1]], clock.current);
      }
    }

    /** The inner loop of signal_time: fires expired blocks until none is left.
      It ends although cyclic handlers register themselves again, because
      every firing shrinks the backlog. */
    method FireExpired(ghost floor: int) returns (callflag: bool, ghost log: seq<Firing>)
      requires Timing() && FlagsMatch(|kinds|)
      requires forall b :: b in events.due ==> floor <= events.due[b]
      modifies this`started, events, events.heap, events.node, events.evttim
      ensures Timing() && FlagsMatch(|kinds|)
      ensures Drained(kinds, old(events.due), events.due, log, clock.now)
      ensures forall b :: b in events.due ==> clock.now < events.due[b]
      ensures callflag <==> log != []
      ensures callflag ==> exists b :: b in old(events.due) && old(events.due)[b] <= clock.now
      ensures forall i :: 0 <= i < |log| ==> floor <= log[i].at
    {
      hide events.Valid, clock.Valid, events.Timed, Partly, Drained, FiredOne, Backlog;
      callflag, log := false, [];
      ghost var due0 := events.due;
      PartlyStart(kinds, due0, floor, clock.now);
      var expired := TopExpired();
      while expired
        invariant Timing() && FlagsMatch(|kinds|)
        invariant Partly(kinds, due0, events.due, log, floor, clock.now)
        invariant expired <==> exists b :: b in events.due && events.due[b] <= clock.now
        invariant expired ==> events.last > 0
        invariant callflag <==> log != []
        invariant (callflag || expired) ==> exists b :: b in due0 && due0[b] <= clock.now
        decreases Backlog(events.due, clock.now, |kinds|), if expired then 1 else 0
      {
        ghost var due1, log1 := events.due, log;
        log := FireTop(log);
        PartlyStep(kinds, due0, due1, events.due, log1, log, floor, clock.now);
        callflag := true;
        expired := TopExpired();
      }
      PartlyDone(kinds, due0, events.due, log, floor, clock.now);
    }

    /** What the passes of the handler so far have achieved. */
    ghost predicate PassedOver(due0: map<nat, int>, log: seq<Firing>)
      reads clock, events
    {
      Drained(kinds, due0, events.due, log, clock.now) && forall b :: b in events.due ==> clock.now < events.due[b]
    }

    /** One pass of signal_time: reads the timer and fires what has expired. */
    method Pass(newHrtcnt: u32, ghost elapsed: nat, ghost first: bool, ghost due0: map<nat, int>,
        ghost log0: seq<Firing>)
      returns (callflag: bool, ghost log: seq<Firing>)
      requires Timing() && FlagsMatch(|kinds|) && ReadInTime(elapsed, newHrtcnt)
      requires if first then log0 == [] && events.due == due0 else PassedOver(due0, log0)
      modifies clock, this`started, events, events.heap, events.node, events.evttim
      ensures Timing() && FlagsMatch(|kinds|)
      ensures clock.now == old(clock.now) + elapsed && clock.hrt == old(clock.hrt) + elapsed
      ensures clock.SystemTime() >= old(clock.SystemTime())
      ensures PassedOver(due0, log)
      ensures callflag && !first ==> elapsed > 0
    {
      hide Drained, events.Valid, clock.Valid;
      ghost var now1, due1 := clock.now, events.due;
      ghost var floor := if first then clock.now - BOUNDARY_MARGIN else clock.now;
      UpdateCurrentEvttim(newHrtcnt, elapsed);
      callflag, log := FireExpired(floor);
      if !first {
        DrainCompose(kinds, due0, due1, events.due, log0, log, now1, clock.now);
        log := log0 + log;
      }
    }

    /** signal_time: passes over the expired events, each after a new reading of
      the timer, until a pass fires nothing.  `readings` is what the timer
      will show; the handler is still running when they are used up. */
    method SignalTime(readings: seq<u32>, ghost elapsed: seq<nat>)
      returns (done: bool, ghost passes: nat, ghost log: seq<Firing>)
      requires Valid() && !inSignal
      requires ReadingsInTime(readings, elapsed)
      modifies clock, this`inSignal, this`raised, this`alarmAt, this`started
      modifies events, events.heap, events.node, events.evttim
      ensures Valid() && (inSignal <==> !done)
      ensures 1 <= passes <= |elapsed| && clock.now == old(clock.now) + Sum(elapsed, passes)
      ensures PassedOver(old(events.due), log)
      ensures (exists i :: 1 <= i < |elapsed| && elapsed[i] == 0) ==> done
      ensures done ==> !raised && Armed() && clock.hrt < alarmAt <= clock.hrt + bound
      ensures clock.SystemTime() >= old(clock.SystemTime())
    {
      hide Drained, events.Valid, clock.Valid, events.Timed, Shown;
      inSignal, raised := true, false;
      ghost var due0, now0, hrt0 := events.due, clock.now, clock.hrt;
      var callflag, i := true, 1;
      callflag, log := Pass(readings[0], elapsed[0], true, due0, []);
      while callflag && i < |readings|
        invariant 1 <= i <= |readings| && inSignal && !raised
        invariant Timing() && FlagsMatch(|kinds|) && PassedOver(due0, log)
        invariant clock.now == now0 + Sum(elapsed, i) && clock.hrt == hrt0 + Sum(elapsed, i)
        invariant callflag ==> forall j :: 1 <= j < i ==> elapsed[j] != 0
        invariant clock.SystemTime() >= old(clock.SystemTime())
      {
        callflag, log := Pass(readings[i], elapsed[i], false, due0, log);
        i := i + 1;
      }
      passes := i;
      if !callflag {
        SetHrtEvent();
        inSignal := false;
      }
      done := !callflag;
    }

    // ----- signal_time step by step, with other calls between the callbacks -----

    /** The handler starts; until it ends no call arms the timer. */
    method BeginSignal()
      requires Valid() && !inSignal
      modifies this`inSignal, this`raised
      ensures Valid() && inSignal && !raised
    {
      inSignal, raised := true, false;
    }

    /** A pass starts with a reading of the timer.  If nothing has expired the handler
      ends there, with the timer armed; the CPU is locked all along. */
    method StartPass(newHrtcnt: u32, ghost elapsed: nat) returns (done: bool)
      requires Valid() && inSignal && ReadInTime(elapsed, newHrtcnt)
      modifies clock, this`inSignal, this`raised, this`alarmAt
      ensures Valid() && (inSignal <==> !done) && events.due == old(events.due)
      ensures clock.now == old(clock.now) + elapsed && clock.SystemTime() >= old(clock.SystemTime())
      ensures done <==> forall b :: b in events.due ==> clock.now < events.due[b]
      ensures done ==> Armed() && raised == old(raised) && clock.hrt < alarmAt <= clock.hrt + bound
    {
      hide events.Valid, clock.Valid, events.Timed;
      UpdateCurrentEvttim(newHrtcnt, elapsed);
      var expired := TopExpired();
      if !expired {
        SetHrtEvent();
        inSignal := false;
      }
      done := !expired;
    }

    /** One round of the inner loop: the earliest block is fired if it has expired,
      whatever was registered, cancelled or adjusted since the round before. */
    method FireNext() returns (fired: bool, ghost log: seq<Firing>)
      requires Valid() && inSignal
      modifies this`started, events, events.heap, events.node, events.evttim
      ensures Valid() && inSignal
      ensures fired <==> exists b :: b in old(events.due) && old(events.due)[b] <= clock.now
      ensures if fired then FiredOne(kinds, old(events.due), events.due, clock.now, [], log)
        else events.due == old(events.due) && log == []
    {
      hide events.Valid, clock.Valid, events.Timed, FiredOne;
      log := [];
      fired := TopExpired();
      if fired {
        log := FireTop(log);
      }
    }
  }
}
