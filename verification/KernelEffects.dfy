/** What each call and interrupt event answers and does, stated on the fields of
  the state alone. */
module KernelEffects {
  import opened Options
  import opened Queues
  import opened KernelState
  import opened KernelCalls
  import opened KernelPlacement
  import opened KernelInvariant
  import opened KernelLocking
  import opened KernelSteps
  import opened KernelDeltas

  /** The call is refused and changes nothing. */
  predicate Refused(s: Sys, out: Outcome, r: Sys, er: Er) { out == Done(er) && r == s }

  /** Locks and priorities stay. */
  predicate SameLocking(s: Sys, r: Sys) { r.held == s.held && r.pri == s.pri }

  predicate SameQueues(s: Sys, r: Sys) { r.ready == s.ready && r.wq == s.wq && r.registered == s.registered }

  /** Only the fields of one task change. */
  ghost predicate OneChanged(s: Sys, r: Sys, t: nat, k: Task) {
    t < |s.tasks| && r.tasks == s.tasks[t := k] && SameLocking(s, r) && SameQueues(s, r)
  }

  /** Task t becomes runnable, last in its ready queue. */
  ghost predicate Joined(s: Sys, r: Sys, t: nat, k: Task) {
    && t < |s.tasks| == |s.pri| && s.pri[t] < |s.ready| && r.tasks == s.tasks[t := k] && SameLocking(s, r)
    && r.ready == s.ready[s.pri[t] := s.ready[s.pri[t]] + [t]]
  }

  /** The wait of task t is over; it left the queue it was in and comes last in its
    ready queue unless it is suspended. */
  ghost predicate WaitOver(s: Sys, r: Sys, t: nat, er: Er) {
    Released(s, r, {}, {t}, er) && Left(s, r, t) && Grown(s, r) && SameLocking(s, r)
  }

  ghost predicate SharedDelta(c: Config, s: Sys, call: SharedCall, out: Outcome, r: Sys)
    requires Shaped(c, s)
  {
    match call
    case ActTsk(t) =>
      if t >= |s.tasks| then Refused(s, out, r, E_ID)
      else if s.tasks[t].st == Dormant then
        out == Done(E_OK) && r.wq == s.wq && Joined(s, r, t, s.tasks[t].(st := Runnable))
      else if c.noactque[t] || s.tasks[t].actque then Refused(s, out, r, E_QOVR)
      else out == Done(E_OK) && OneChanged(s, r, t, s.tasks[t].(actque := true))
    case WupTsk(t) =>
      if t >= |s.tasks| then Refused(s, out, r, E_ID)
      else if s.tasks[t].st == Dormant then Refused(s, out, r, E_OBJ)
      else if s.tasks[t].st.Waiting? && s.tasks[t].st.w == Slp then out == Done(E_OK) && WaitOver(s, r, t, E_OK)
      else if s.tasks[t].wupque then Refused(s, out, r, E_QOVR)
      else out == Done(E_OK) && OneChanged(s, r, t, s.tasks[t].(wupque := true))
    case RelWai(t) =>
      if t >= |s.tasks| then Refused(s, out, r, E_ID)
      else if !s.tasks[t].st.Waiting? then Refused(s, out, r, E_OBJ)
      else out == Done(E_OK) && WaitOver(s, r, t, E_RLWAI)
    case RotRdq(tskpri) =>
      if tskpri.None? && (s.inInt || s.run.None?) then Refused(s, out, r, E_PAR)
      else
        var p := if tskpri.Some? then tskpri.value else s.tasks[s.run.value].bpri;
        if p >= 16 then Refused(s, out, r, E_PAR)
        else
          && out == Done(E_OK) && r.tasks == s.tasks && SameLocking(s, r) && r.wq == s.wq
          && r.ready == if s.ready[p] == [] then s.ready else s.ready[p := s.ready[p][1..] + [s.ready[p][0]]]
    case WakeObj(o) =>
      if o >= |c.objs| || !c.objs[o].Plain? then Refused(s, out, r, E_ID)
      else if s.wq[o] == [] then out == Done(E_OK) && r.tasks == s.tasks && SameLocking(s, r) && SameQueues(s, r)
      else out == Done(E_OK) && WaitOver(s, r, s.wq[o][0], E_OK) && r.wq == s.wq[o := s.wq[o][1..]]
  }

  /** Only the running task can have changed. */
  lemma SettleOnly(c: Config, s: Sys)
    requires Shaped(c, s)
    ensures var r := SettleShaped(c, s); r == s.(run := r.run)
  {
  }

  lemma ActTskDelta(c: Config, s: Sys, t: nat)
    requires Inv(c, s)
    ensures var (r, out) := SharedStep(c, s, ActTsk(t)); SharedDelta(c, s, ActTsk(t), out, r)
  {
    hide Placed, TimersOk, TasksOk, MutexesOk, Settle, Within;
    if t < |s.tasks| && s.tasks[t].st == Dormant {
      SettleOnly(c, MakeRunnable(c, s, t));
    }
  }

  lemma EndWaitDelta(c: Config, s: Sys, t: nat, er: Er)
    requires Inv(c, s) && t < |s.tasks| && s.tasks[t].st.Waiting?
    ensures WaitOver(s, EndWait(c, s, t, er), t, er)
    ensures WaitOver(s, SettleShaped(c, EndWait(c, s, t, er)), t, er)
    ensures SettleShaped(c, EndWait(c, s, t, er)).wq == EndWait(c, s, t, er).wq
  {
    hide Placed, TimersOk, TasksOk, MutexesOk, EndWait, Settle, Within, Woken, Remove;
    EndWaitQueues(c, s, {}, t, er);
    SettleOnly(c, EndWait(c, s, t, er));
  }

  lemma WupTskDelta(c: Config, s: Sys, t: nat)
    requires Inv(c, s)
    ensures var (r, out) := SharedStep(c, s, WupTsk(t)); SharedDelta(c, s, WupTsk(t), out, r)
  {
    hide Placed, TimersOk, TasksOk, MutexesOk, Settle, Within, EndWait, WaitOver;
    if t < |s.tasks| && s.tasks[t].st.Waiting? {
      EndWaitDelta(c, s, t, E_OK);
    }
  }

  lemma RelWaiDelta(c: Config, s: Sys, t: nat)
    requires Inv(c, s)
    ensures var (r, out) := SharedStep(c, s, RelWai(t)); SharedDelta(c, s, RelWai(t), out, r)
  {
    hide Placed, TimersOk, TasksOk, MutexesOk, Settle, Within, EndWait, WaitOver;
    if t < |s.tasks| && s.tasks[t].st.Waiting? {
      EndWaitDelta(c, s, t, E_RLWAI);
    }
  }

  lemma RotRdqDelta(c: Config, s: Sys, tskpri: Option<nat>)
    requires Inv(c, s)
    ensures var (r, out) := SharedStep(c, s, RotRdq(tskpri)); SharedDelta(c, s, RotRdq(tskpri), out, r)
  {
    hide Placed, TimersOk, TasksOk, MutexesOk, Settle, Within;
    var p := if tskpri.Some? then tskpri.value else if s.run.Some? then s.tasks[s.run.value].bpri else 0;
    if p < TNUM_TPRI {
      SettleOnly(c, Rotate(c, s, p));
    }
  }

  lemma WakeObjDelta(c: Config, s: Sys, o: nat)
    requires Inv(c, s)
    ensures var (r, out) := SharedStep(c, s, WakeObj(o)); SharedDelta(c, s, WakeObj(o), out, r)
  {
    hide Placed, TimersOk, TasksOk, MutexesOk, Settle, Within, EndWait, WaitOver;
    if o < |s.wq| && s.wq[o] != [] {
      FirstOut(c, s, o, E_OK);
      QueueWaits(c, s, {}, o);
      EndWaitDelta(c, s, s.wq[o][0], E_OK);
    }
  }

  lemma SharedDeltas(c: Config, s: Sys, call: SharedCall)
    requires Inv(c, s)
    ensures Shaped(c, s) && var (r, out) := SharedStep(c, s, call); SharedDelta(c, s, call, out, r)
  {
    hide SharedStep, SharedDelta, Placed, TimersOk, TasksOk, MutexesOk;
    match call {
      case ActTsk(t) => ActTskDelta(c, s, t);
      case WupTsk(t) => WupTskDelta(c, s, t);
      case RelWai(t) => RelWaiDelta(c, s, t);
      case RotRdq(tskpri) => RotRdqDelta(c, s, tskpri);
      case WakeObj(o) => WakeObjDelta(c, s, o);
    }
  }

  // ----- Calls in which the running task may wait -----

  /** Where a task that starts to wait is queued: last in a queue in order of
    arrival, and in one in priority order behind those of its priority or higher. */
  ghost predicate QueuedAt(q: seq<nat>, q': seq<nat>, t: nat, pri: seq<nat>, tpri: bool, k: nat) {
    && k <= |q| && q' == q[..k] + [t] + q[k..] && Within(q, |pri|) && t < |pri|
    && (if tpri then (forall i :: 0 <= i < k ==> pri[q[i]] <= pri[t]) && (k < |q| ==> pri[t] < pri[q[k]]) else k == |q|)
  }

  /** The running task t waits for w, with a timeout or not. */
  ghost predicate WaitStarted(c: Config, s: Sys, r: Sys, t: nat, w: Wait, timed: bool) {
    && t < |s.tasks| && SameLocking(s, r) && Unreadied(s, r, t)
    && r.tasks == s.tasks[t := s.tasks[t].(st := Waiting(w, false), tmevtb := timed)]
    && r.registered == (if timed then s.registered + {t} else s.registered)
    && (if w.Obj? then
          w.o < |s.wq| == |c.objs| && |r.wq| == |s.wq| && r.wq == s.wq[w.o := r.wq[w.o]]
          && exists k :: QueuedAt(s.wq[w.o], r.wq[w.o], t, s.pri, InPriorityOrder(c, w.o), k)
        else r.wq == s.wq)
  }

  lemma EnwaitAt(c: Config, s: Sys, t: nat, o: nat)
    requires Shaped(c, s) && t < |s.tasks| && o < |s.wq|
    ensures var r := Enwait(c, s, t, o);
      && |r.wq| == |s.wq| && r.wq == s.wq[o := r.wq[o]]
      && exists k :: QueuedAt(s.wq[o], r.wq[o], t, s.pri, InPriorityOrder(c, o), k)
  {
    hide InsertTpri;
    var r, q := Enwait(c, s, t, o), s.wq[o];
    if InPriorityOrder(c, o) {
      var k := InsertTpriPlace(q, t, s.pri);
      assert QueuedAt(q, r.wq[o], t, s.pri, true, k);
    } else {
      assert q[..|q|] + [t] + q[|q|..] == q + [t];
      assert QueuedAt(q, r.wq[o], t, s.pri, false, |q|);
    }
  }

  lemma BlockDelta(c: Config, s: Sys, t: nat, w: Wait, timed: bool)
    requires Inv(c, s) && t < |s.tasks| && s.tasks[t].st == Runnable && (w.Obj? ==> w.o < |c.objs|)
    ensures WaitStarted(c, s, SettleShaped(c, Block(c, s, t, w, timed)), t, w, timed)
  {
    hide Placed, TimersOk, TasksOk, MutexesOk, Enwait, Remove, Settle, Within, QueuedAt;
    UnreadyQueues(c, s, t);
    BlockEffect(c, s, t, w, timed);
    var s1 := MakeWait(c, s, t, w, timed);
    if w.Obj? {
      EnwaitAt(c, s1, t, w.o);
      EnwaitOnly(c, s1, t, w.o);
    }
    SettleOnly(c, Block(c, s, t, w, timed));
  }

  lemma EnwaitOnly(c: Config, s: Sys, t: nat, o: nat)
    requires Shaped(c, s) && t < |s.tasks| && o < |s.wq|
    ensures Enwait(c, s, t, o) == s.(wq := Enwait(c, s, t, o).wq)
  {
    hide InsertTpri;
  }

  /** Task t starts to wait or, if it only polls, is refused. */
  ghost predicate WaitsOrPolls(c: Config, s: Sys, out: Outcome, r: Sys, t: nat, w: Wait, tmo: Tmo) {
    if tmo == Poll then Refused(s, out, r, E_TMOUT)
    else out == Waits && WaitStarted(c, s, r, t, w, tmo == Limited)
  }

  lemma BlockRunDelta(c: Config, s: Sys, t: nat, w: Wait, tmo: Tmo)
    requires Inv(c, s) && t < |s.tasks| && s.tasks[t].st == Runnable && (w.Obj? ==> w.o < |c.objs|)
    ensures var (r, out) := BlockRun(c, s, t, w, tmo); WaitsOrPolls(c, s, out, r, t, w, tmo)
  {
    hide Block, Settle, WaitStarted, Placed, TimersOk, TasksOk, MutexesOk;
    BlockDelta(c, s, t, w, tmo == Limited);
  }

  /** The ready queues after the priority of the runnable task t has become p: it is
    the first or the last of the tasks of that priority. */
  ghost predicate Replaced(s: Sys, ready: seq<seq<nat>>, t: nat, p: nat, front: bool) {
    && t < |s.pri| && s.pri[t] < |s.ready| && p < |s.ready|
    && var rest := s.ready[s.pri[t] := Remove(s.ready[s.pri[t]], t)];
      ready == rest[p := if front then [t] + rest[p] else rest[p] + [t]]
  }

  /** Task t gets mutex m: it is then the newest one it has locked.  If this raises
    its priority it comes first in its new ready queue. */
  ghost predicate LockedBy(c: Config, s: Sys, r: Sys, t: nat, m: nat) {
    && t < |s.held| && |r.pri| == |s.pri| && t < |s.pri| && r.tasks == s.tasks && r.wq == s.wq
    && r.held == s.held[t := s.held[t] + [m]]
    && (if r.pri[t] == s.pri[t] then r.ready == s.ready else Replaced(s, r.ready, t, r.pri[t], true))
  }

  ghost predicate LockDelta(c: Config, s: Sys, out: Outcome, r: Sys, t: nat, m: nat, tmo: Tmo)
    requires Shaped(c, s) && t < |s.tasks| && m < |c.objs|
  {
    if c.objs[m].Ceiling? && s.tasks[t].bpri < c.objs[m].ceil then Refused(s, out, r, E_ILUSE)
    else if m in s.held[t] then Refused(s, out, r, E_OBJ)
    else if exists u :: 0 <= u < |s.held| && m in s.held[u] then WaitsOrPolls(c, s, out, r, t, Obj(m), tmo)
    else out == Done(E_OK) && LockedBy(c, s, r, t, m)
  }

  lemma ReprioRunnable(c: Config, s: Sys, t: nat)
    requires Shaped(c, s) && t < |s.tasks| && s.tasks[t].st == Runnable
    ensures var r := Reprio(c, s, t);
      && r.tasks == s.tasks && r.wq == s.wq && r.held == s.held && |r.pri| == |s.pri| && SameMode(s, r)
      && (forall u :: 0 <= u < |s.pri| && u != t ==> r.pri[u] == s.pri[u])
      && (if r.pri[t] == s.pri[t] then r.ready == s.ready else Replaced(s, r.ready, t, r.pri[t], true))
  {
    hide Remove, Boosted, Within;
    BoostedBound(c, s.held[t], s.tasks[t].bpri);
  }

  lemma LockDeltas(c: Config, s: Sys, t: nat, m: nat, tmo: Tmo)
    requires Inv(c, s) && t < |s.tasks| && s.tasks[t].st == Runnable && IsMutex(c, m)
    ensures Shaped(c, s) && var (r, out) := Lock(c, s, t, m, tmo); LockDelta(c, s, out, r, t, m, tmo)
  {
    hide Placed, TimersOk, TasksOk, Reprio, BlockRun, WaitsOrPolls, Replaced;
    match Owner(s, m) {
      case None =>
        HeldOnce(c, s, t);
        ReprioRunnable(c, SetHeld(c, s, t, s.held[t] + [m]), t);
        ReplacedSame(s, SetHeld(c, s, t, s.held[t] + [m]), t);
      case Some(u) =>
        BlockRunDelta(c, s, t, Obj(m), tmo);
        assert m in s.held[u];
    }
  }

  lemma ReplacedSame(s: Sys, s1: Sys, t: nat)
    requires s1.pri == s.pri && s1.ready == s.ready
    ensures forall ready, p, front :: Replaced(s1, ready, t, p, front) <==> Replaced(s, ready, t, p, front)
  {
    hide Remove;
  }

  /** CHECK_DISPATCH has passed and t is running. */
  ghost predicate WaitingDelta(c: Config, s: Sys, call: WaitingCall, out: Outcome, r: Sys, t: nat)
    requires Shaped(c, s) && t < |s.tasks|
  {
    match call
    case SlpTsk(tmo) =>
      if s.tasks[t].raster then Refused(s, out, r, E_RASTER)
      else if s.tasks[t].wupque then out == Done(E_OK) && OneChanged(s, r, t, s.tasks[t].(wupque := false))
      else WaitsOrPolls(c, s, out, r, t, Slp, tmo)
    case DlyTsk =>
      if s.tasks[t].raster then Refused(s, out, r, E_RASTER) else WaitsOrPolls(c, s, out, r, t, Dly, Limited)
    case LocMtx(m, tmo) =>
      if m >= |c.objs| || c.objs[m].Plain? then Refused(s, out, r, E_ID)
      else if s.tasks[t].raster then Refused(s, out, r, E_RASTER)
      else LockDelta(c, s, out, r, t, m, tmo)
    case WaitObj(o, tmo) =>
      if o >= |c.objs| || !c.objs[o].Plain? then Refused(s, out, r, E_ID)
      else if s.tasks[t].raster then Refused(s, out, r, E_RASTER)
      else WaitsOrPolls(c, s, out, r, t, Obj(o), tmo)
  }

  lemma WaitingDeltas(c: Config, s: Sys, call: WaitingCall)
    requires Inv(c, s) && MayWait(s)
    ensures Shaped(c, s) && var t := s.run.value;
      t < |s.tasks| && var (r, out) := WaitingStep(c, s, call, t); WaitingDelta(c, s, call, out, r, t)
  {
    hide Placed, TimersOk, TasksOk, MutexesOk, BlockRun, Lock, WaitsOrPolls, LockDelta;
    var t := s.run.value;
    match call {
      case SlpTsk(tmo) => BlockRunDelta(c, s, t, Slp, tmo);
      case DlyTsk => BlockRunDelta(c, s, t, Dly, Limited);
      case LocMtx(m, tmo) =>
        if IsMutex(c, m) {
          LockDeltas(c, s, t, m, tmo);
        }
      case WaitObj(o, tmo) =>
        if o < |c.objs| {
          BlockRunDelta(c, s, t, Obj(o), tmo);
        }
    }
  }

  // ----- Other calls of the running task -----

  /** Task u has its new priority and the place that goes with it: in a ready queue
    first or last among its equals, in a wait queue in priority order behind them. */
  ghost predicate Repositioned(c: Config, s: Sys, r: Sys, u: nat, front: bool) {
    && u < |s.tasks| && |r.pri| == |s.pri| && u < |s.pri|
    && match s.tasks[u].st
       case Runnable => r.wq == s.wq && Replaced(s, r.ready, u, r.pri[u], front)
       case Waiting(Obj(o), _) =>
         && r.ready == s.ready && o < |s.wq| == |c.objs| == |r.wq|
         && if InPriorityOrder(c, o) then
              r.wq == s.wq[o := r.wq[o]] && exists k :: QueuedAt(Remove(s.wq[o], u), r.wq[o], u, r.pri, true, k)
            else r.wq == s.wq
       case _ => r.wq == s.wq && r.ready == s.ready
  }

  lemma RepositionDelta(c: Config, s: Sys, u: nat, p: nat, front: bool)
    requires Shaped(c, s) && u < |s.tasks| && p < TNUM_TPRI
    ensures var r := ChangePriority(c, s, u, p, front);
      && r.pri == s.pri[u := p] && r.tasks == s.tasks && r.held == s.held && r.registered == s.registered
      && SameMode(s, r) && Repositioned(c, s, r, u, front)
  {
    hide Remove, InsertTpri, Within, QueuedAt;
    ChangePriorityEffect(c, s, u, p, front);
    match s.tasks[u].st {
      case Waiting(Obj(o), _) =>
        if InPriorityOrder(c, o) {
          var s1 := SetPri(c, Unwait(c, s, u, o), u, p);
          EnwaitAt(c, s1, u, o);
          EnwaitOnly(c, s1, u, o);
        }
      case _ =>
    }
  }

  /** A ceiling mutex that task u has locked or waits for. */
  predicate CeilingOf(c: Config, s: Sys, u: nat, m: nat) {
    && u < |s.tasks| && u < |s.held| && m < |c.objs| && c.objs[m].Ceiling?
    && (m in s.held[u] || (s.tasks[u].st.Waiting? && s.tasks[u].st.w == Obj(m)))
  }

  ghost predicate ChgPriDelta(c: Config, s: Sys, out: Outcome, r: Sys, u: nat, tskpri: Option<nat>)
    requires Shaped(c, s)
  {
    if u >= |s.tasks| then Refused(s, out, r, E_ID)
    else if tskpri.Some? && tskpri.value >= 16 then Refused(s, out, r, E_PAR)
    else if s.tasks[u].st == Dormant then Refused(s, out, r, E_OBJ)
    else
      var b := if tskpri.Some? then tskpri.value else c.ipri[u];
      if exists m: nat :: CeilingOf(c, s, u, m) && b < c.objs[m].ceil then Refused(s, out, r, E_ILUSE)
      else
        && out == Done(E_OK) && r.tasks == s.tasks[u := s.tasks[u].(bpri := b)] && r.held == s.held
        && if exists m: nat :: m in s.held[u] && CeilingOf(c, s, u, m) then
             r.pri == s.pri && r.ready == s.ready && r.wq == s.wq
           else r.pri == s.pri[u := b] && Repositioned(c, s, r, u, false)
  }

  lemma ChgPriDeltas(c: Config, s: Sys, u: nat, tskpri: Option<nat>)
    requires Inv(c, s) && TaskCtx(s) && s.run.value < |s.tasks|
    ensures var (r, out) := TaskStep(c, s, ChgPri(u, tskpri), s.run.value); ChgPriDelta(c, s, out, r, u, tskpri)
  {
    hide Placed, TimersOk, TasksOk, MutexesOk, Settle, ChangePriority, Repositioned, SuitsCeilings, HoldsCeiling;
    hide Within;
    if u < |s.tasks| && (tskpri.Some? ==> tskpri.value < TNUM_TPRI) {
      var b := if tskpri.Some? then tskpri.value else c.ipri[u];
      CeilingsSuit(c, s, u, b);
      var s1 := SetTask(c, s, u, s.tasks[u].(bpri := b));
      CeilingHeld(c, s, s1, u);
      RepositionDelta(c, s1, u, b, false);
      var r := ChangePriority(c, s1, u, b, false);
      SettleOnly(c, r);
      RepositionedSame(c, s, s1, SettleShaped(c, r), r, u);
    }
  }

  lemma CeilingsSuit(c: Config, s: Sys, u: nat, b: nat)
    requires Shaped(c, s) && u < |s.tasks|
    ensures !SuitsCeilings(c, s, u, b) <==> exists m: nat :: CeilingOf(c, s, u, m) && b < c.objs[m].ceil
  {
    if !SuitsCeilings(c, s, u, b) {
      var m :| 0 <= m < |c.objs| && (m in s.held[u] || (IsMutex(c, m) && WaitsFor(s, u, m))) && AboveCeiling(c, m, b);
      assert CeilingOf(c, s, u, m);
    }
    if m: nat :| CeilingOf(c, s, u, m) && b < c.objs[m].ceil {
      assert 0 <= m < |c.objs| && (m in s.held[u] || (IsMutex(c, m) && WaitsFor(s, u, m))) && AboveCeiling(c, m, b);
    }
  }

  lemma CeilingHeld(c: Config, s: Sys, s1: Sys, u: nat)
    requires Shaped(c, s) && Shaped(c, s1) && u < |s.tasks| && |s1.tasks| == |s.tasks| && s1.held == s.held
    ensures HoldsCeiling(c, s1, u) <==> exists m: nat :: m in s.held[u] && CeilingOf(c, s, u, m)
  {
    if HoldsCeiling(c, s1, u) {
      var m :| m in s1.held[u] && m < |c.objs| && c.objs[m].Ceiling?;
      assert m in s.held[u] && CeilingOf(c, s, u, m);
    }
    if m: nat :| m in s.held[u] && CeilingOf(c, s, u, m) {
      assert m in s1.held[u] && c.objs[m].Ceiling?;
    }
  }

  /** Where the task is put does not depend on what else differs. */
  lemma RepositionedSame(c: Config, s: Sys, s1: Sys, r: Sys, r1: Sys, u: nat)
    requires u < |s.tasks| && u < |s1.tasks| && s1.tasks[u].st == s.tasks[u].st
    requires s1.pri == s.pri && s1.ready == s.ready && s1.wq == s.wq
    requires r.pri == r1.pri && r.ready == r1.ready && r.wq == r1.wq
    ensures forall front :: Repositioned(c, s1, r1, u, front) ==> Repositioned(c, s, r, u, front)
  {
    hide Remove, QueuedAt;
  }

  /** The wait of task u, if it waits, is cut short by a request for its end. */
  ghost predicate CutByRequest(s: Sys, r: Sys, u: nat) {
    && u < |s.tasks| == |s.pri| && s.pri[u] < |s.ready| && SameLocking(s, r) && Left(s, r, u)
    && r.ready == s.ready[s.pri[u] := s.ready[s.pri[u]] + [u]]
    && r.tasks == s.tasks[u := s.tasks[u].(st := Runnable, raster := true,
         wercd := if s.tasks[u].st.Waiting? then E_RASTER else s.tasks[u].wercd)]
  }

  lemma InterruptedLeft(c: Config, s: Sys, u: nat)
    requires Shaped(c, s) && Placed(c, s, {}) && u < |s.tasks|
    ensures var r := Interrupted(c, s, u); r.ready == s.ready && Left(s, r, u)
  {
    hide Placed, Remove, Within;
    DequeueLeft(c, s, {}, u);
    NotWaitingLeft(c, s, u);
    var s1 := SetTask(c, s, u, s.tasks[u].(raster := true));
    DequeueEffect(c, s1, u);
    assert DequeueWobj(c, s1, u).wq == DequeueWobj(c, s, u).wq;
    hide DequeueWobj;
  }

  lemma RunnableQueues(c: Config, s: Sys, u: nat)
    requires Shaped(c, s) && u < |s.tasks|
    ensures var r := MakeRunnable(c, s, u);
      && u < |s.pri| && s.pri[u] < |s.ready| && r.wq == s.wq
      && r.ready == s.ready[s.pri[u] := s.ready[s.pri[u]] + [u]]
  {
    hide Within;
  }

  lemma InterruptedDelta(c: Config, s: Sys, u: nat)
    requires Inv(c, s) && u < |s.tasks| && s.tasks[u].st != Runnable
    ensures CutByRequest(s, SettleShaped(c, MakeRunnable(c, Interrupted(c, s, u), u)), u)
  {
    hide Placed, TimersOk, TasksOk, MutexesOk, Settle, Remove, Within, Interrupted, MakeRunnable;
    InterruptedLeft(c, s, u);
    InterruptedPlaced(c, s, u);
    var s1 := Interrupted(c, s, u);
    RunnableEffect(c, s1, u);
    RunnableQueues(c, s1, u);
    SettleOnly(c, MakeRunnable(c, s1, u));
  }

  lemma TerminateDelta(c: Config, s: Sys, u: nat)
    requires Inv(c, s) && u < |s.tasks|
    ensures Shaped(c, s) && EndedTask(c, s, SettleShaped(c, Terminate(c, s, u)), u)
  {
    hide Placed, TimersOk, TasksOk, MutexesOk, Terminate, Settle, Released, Heads, Remove;
    TerminateQueues(c, s, u);
    SettleOnly(c, Terminate(c, s, u));
    EndedSame(c, s, s, Terminate(c, s, u), SettleShaped(c, Terminate(c, s, u)), u);
  }

  lemma EndedSame(c: Config, s: Sys, s1: Sys, r: Sys, r1: Sys, u: nat)
    requires u < |s.tasks| && u < |s.held| && u < |c.ipri| && EndedTask(c, s, r, u)
    requires s1.tasks == s.tasks && s1.held == s.held && s1.wq == s.wq && s1.ready == s.ready
    requires r1.tasks == r.tasks && r1.held == r.held && r1.wq == r.wq && r1.ready == r.ready && r1.pri == r.pri
    ensures EndedTask(c, s1, r1, u)
  {
    hide Remove, Ready, Passing;
    PassingSame(s, s1, s.held[u]);
    assert Heads(s1, s.held[u]) == Heads(s, s.held[u]);
    forall v: nat, m: nat | 0 <= v < |s.held| && v != u
      ensures m in r1.held[v] <==> m in s1.held[v] || FirstFor(s1, s1.held[u], m, v)
    {
      assert m in r.held[v] <==> m in s.held[v] || FirstFor(s, s.held[u], m, v);
    }
  }

  /** The ready queues after the newest mutex of the running task t has been given up:
    t comes first in its new one if its priority fell, and others may have joined. */
  ghost predicate UnlockedReady(s: Sys, r: Sys, t: nat) {
    && t < |s.pri| == |r.pri|
    && exists ready1 ::
      Extended(ready1, r.ready) &&
        if r.pri[t] == s.pri[t] then ready1 == s.ready else Replaced(s, ready1, t, r.pri[t], true)
  }

  ghost predicate Extended(ready: seq<seq<nat>>, ready': seq<seq<nat>>) {
    |ready'| == |ready| && forall p :: 0 <= p < |ready| ==> ready[p] <= ready'[p]
  }

  ghost predicate UnlMtxDelta(c: Config, s: Sys, out: Outcome, r: Sys, t: nat, m: nat)
    requires Shaped(c, s) && t < |s.tasks|
  {
    if m >= |c.objs| || c.objs[m].Plain? then Refused(s, out, r, E_ID)
    else if s.held[t] == [] || s.held[t][|s.held[t]| - 1] != m then Refused(s, out, r, E_OBJ)
    else
      && out == Done(E_OK) && UnlockedReady(s, r, t)
      && Released(s, r, {}, Heads(s, [m]), E_OK)
      && Passed(s.(held := s.held[t := s.held[t][..|s.held[t]| - 1]]), r, [m])
  }

  lemma UnlMtxDeltas(c: Config, s: Sys, m: nat)
    requires Inv(c, s) && TaskCtx(s) && s.run.value < |s.tasks|
    ensures Shaped(c, s) && var (r, out) := TaskStep(c, s, UnlMtx(m), s.run.value);
      UnlMtxDelta(c, s, out, r, s.run.value, m)
  {
    hide Placed, TimersOk, TasksOk, MutexesOk, Settle, HandOver, Reprio, UnlockedReady, Released, Passed;
    var t := s.run.value;
    if IsMutex(c, m) && s.held[t] != [] && s.held[t][|s.held[t]| - 1] == m {
      UnlockDelta(c, s, t);
    }
  }

  lemma UnlockDelta(c: Config, s: Sys, t: nat)
    requires Inv(c, s) && t < |s.tasks| && s.tasks[t].st == Runnable && s.held[t] != []
    ensures var n := |s.held[t]| - 1; var m := s.held[t][n];
      var s1 := SetHeld(c, s, t, s.held[t][..n]);
      var r := SettleShaped(c, HandOver(c, Reprio(c, s1, t), m));
      && UnlockedReady(s, r, t) && Released(s, r, {}, Heads(s, [m]), E_OK)
      && Passed(s.(held := s.held[t := s.held[t][..n]]), r, [m])
  {
    hide Placed, TimersOk, TasksOk, MutexesOk, Settle, HandOver, Reprio, Released, Passed, Heads, Within, NoDup, Grown;
    var n := |s.held[t]| - 1;
    var m := s.held[t][n];
    assert IsMutex(c, m);
    PopCore(c, s, t);
    var s1 := SetHeld(c, s, t, s.held[t][..n]);
    var s2 := Reprio(c, s1, t);
    ReprioRunnable(c, s1, t);
    ReplacedSame(s, s1, t);
    OneHandedOver(c, s2, {}, {m}, m);
    var s3 := HandOver(c, s2, m);
    HandOverPri(c, s2, t, m);
    SettleOnly(c, s3);
    hide Core, Shaped, Replaced;
    UnlockPieces(s, s1, s2, s3, SettleShaped(c, s3), t, m);
  }

  lemma HandOverPri(c: Config, s: Sys, t: nat, m: nat)
    requires Core(c, s, {}, {}, {m}) && IsMutex(c, m) && t < |s.tasks| && s.tasks[t].st == Runnable
    ensures |HandOver(c, s, m).pri| == |s.pri| && t < |s.pri| && HandOver(c, s, m).pri[t] == s.pri[t]
  {
    if s.wq[m] != [] {
      QueueWaits(c, s, {}, m);
      HandOverEffect(c, s, m);
      hide HandOver;
    }
  }

  lemma UnlockPieces(s: Sys, s1: Sys, s2: Sys, s3: Sys, r: Sys, t: nat, m: nat)
    requires t < |s.pri| == |s1.pri| == |s2.pri| == |s3.pri| && t < |s.held| && s.held[t] != []
    requires s1 == s.(held := s.held[t := s.held[t][..|s.held[t]| - 1]])
    requires s2.tasks == s1.tasks && s2.wq == s1.wq && s2.held == s1.held
    requires if s2.pri[t] == s.pri[t] then s2.ready == s.ready else Replaced(s, s2.ready, t, s2.pri[t], true)
    requires Passed(s2, s3, [m]) && Grown(s2, s3) && Released(s2, s3, {}, Heads(s2, [m]), E_OK)
    requires s3.pri[t] == s2.pri[t]
    requires r == s3.(run := r.run)
    ensures UnlockedReady(s, r, t) && Released(s, r, {}, Heads(s, [m]), E_OK) && Passed(s1, r, [m])
  {
    hide Replaced;
    assert Heads(s2, [m]) == Heads(s, [m]);
    assert Extended(s2.ready, r.ready);
    forall u: nat, x: nat | 0 <= u < |s1.held|
      ensures x in r.held[u] <==> x in s1.held[u] || FirstFor(s1, [m], x, u)
    {
      assert x in s3.held[u] <==> x in s2.held[u] || FirstFor(s2, [m], x, u);
    }
  }

  // ----- Initialisation -----

  /** Everybody in the queue of object o is waited out with E_DLT, first to last. */
  ghost predicate AllOut(s: Sys, r: Sys, o: nat) {
    && o < |s.wq| && Released(s, r, {}, Members(s.wq[o]), E_DLT) && r.wq == s.wq[o := []]
    && JoinInOrder(s, r, s.wq[o]) && SameLocking(s, r)
  }

  /** Mutex m is taken from its holder u, whose priority falls if m had raised it. */
  ghost predicate TakenFrom(c: Config, s: Sys, r: Sys, u: nat, m: nat) {
    && u < |s.held| && m in s.held[u] && r.held == s.held[u := Remove(s.held[u], m)]
    && r.tasks == s.tasks && u < |s.pri| == |r.pri| && r.pri == s.pri[u := r.pri[u]]
    && (if r.pri[u] == s.pri[u] then r.ready == s.ready && r.wq == s.wq else Repositioned(c, s, r, u, true))
  }

  /** First the waits end, then the mutex is taken from its holder, if it has one. */
  ghost predicate MutexReset(c: Config, s: Sys, r: Sys, m: nat) {
    exists s1: Sys :: AllOut(s, s1, m) &&
      if Locked(s, m) then exists u: nat :: TakenFrom(c, s1, r, u, m)
      else r.tasks == s1.tasks && SameLocking(s1, r) && r.ready == s1.ready && r.wq == s1.wq
  }

  lemma IniObjDelta(c: Config, s: Sys, o: nat)
    requires Inv(c, s) && o < |c.objs|
    ensures Shaped(c, s) && Within(s.wq[o], |s.tasks|) && AllOut(s, EndWaits(c, s, s.wq[o], E_DLT), o)
    ensures AllOut(s, SettleShaped(c, EndWaits(c, s, s.wq[o], E_DLT)), o)
  {
    hide Core, Settle, EndWaits, Released, Grown, Within, JoinInOrder;
    SameShape(c, s);
    EndWaitsQueues(c, s, o, E_DLT);
    EndWaitsOrder(c, s, o, E_DLT);
    var r := EndWaits(c, s, s.wq[o], E_DLT);
    SettleOnly(c, r);
    SameGrowth(s, r, SettleShaped(c, r), s.wq[o]);
  }

  lemma SameGrowth(s: Sys, r: Sys, r1: Sys, q: seq<nat>)
    requires r1.tasks == r.tasks && r1.ready == r.ready && r1.pri == r.pri
    ensures Released(s, r, {}, Members(q), E_DLT) ==> Released(s, r1, {}, Members(q), E_DLT)
    ensures JoinInOrder(s, r, q) ==> JoinInOrder(s, r1, q)
  {
  }

  lemma ReprioDelta(c: Config, s: Sys, u: nat)
    requires Shaped(c, s) && u < |s.tasks|
    ensures var r := Reprio(c, s, u);
      && r.tasks == s.tasks && r.held == s.held && SameMode(s, r) && |r.pri| == |s.pri| && u < |s.pri|
      && r.pri == s.pri[u := r.pri[u]]
      && (if r.pri[u] == s.pri[u] then r.ready == s.ready && r.wq == s.wq else Repositioned(c, s, r, u, true))
  {
    hide Boosted, Within, ChangePriority, Repositioned;
    BoostedBound(c, s.held[u], s.tasks[u].bpri);
    RepositionDelta(c, s, u, ClosedPri(c, s, u), true);
  }

  lemma InitMutexForm(c: Config, s: Sys, m: nat)
    requires Shaped(c, s) && IsMutex(c, m) && Within(s.wq[m], |s.tasks|)
    ensures var s1 := EndWaits(c, s, s.wq[m], E_DLT);
      if Owner(s1, m).None? then InitMutex(c, s, m) == s1
      else
        var u := Owner(s1, m).value;
        && (forall x :: x in Remove(s1.held[u], m) ==> IsMutex(c, x))
        && InitMutex(c, s, m) == Reprio(c, SetHeld(c, s1, u, Remove(s1.held[u], m)), u)
  {
    hide EndWaits, Reprio, Remove;
    var s1 := EndWaits(c, s, s.wq[m], E_DLT);
    if Owner(s1, m).Some? {
      HeldWithout(c, s1, Owner(s1, m).value, m);
    }
  }

  lemma IniMtxDelta(c: Config, s: Sys, m: nat)
    requires Inv(c, s) && IsMutex(c, m)
    ensures Shaped(c, s) && MutexReset(c, s, SettleShaped(c, InitMutex(c, s, m)), m)
  {
    hide Core, Settle, EndWaits, InitMutex, AllOut, Repositioned, Reprio, Remove, Within;
    IniObjDelta(c, s, m);
    var s1 := EndWaits(c, s, s.wq[m], E_DLT);
    assert s1.held == s.held by { EndWaitsQueues(c, s, m, E_DLT); }
    InitMutexForm(c, s, m);
    var r1 := InitMutex(c, s, m);
    SettleOnly(c, r1);
    var r := SettleShaped(c, r1);
    match Owner(s1, m) {
      case None => assert !Locked(s, m);
      case Some(u) =>
        assert Locked(s, m);
        var s2 := SetHeld(c, s1, u, Remove(s1.held[u], m));
        ReprioDelta(c, s2, u);
        RepositionedSame(c, s1, s2, r, r1, u);
        assert TakenFrom(c, s1, r, u, m);
    }
  }

  // ----- All calls of the running task -----

  ghost predicate SuspendDelta(s: Sys, out: Outcome, r: Sys, u: nat, t: nat) {
    if u >= |s.tasks| then Refused(s, out, r, E_ID)
    else if u == t && !(s.enadsp && s.ipm == 0) then Refused(s, out, r, E_CTX)
    else if s.tasks[u].st == Dormant then Refused(s, out, r, E_OBJ)
    else if s.tasks[u].raster then Refused(s, out, r, E_RASTER)
    else if s.tasks[u].st == Suspended || (s.tasks[u].st.Waiting? && s.tasks[u].st.sus) then Refused(s, out, r, E_QOVR)
    else
      && out == Done(E_OK) && SameLocking(s, r) && r.wq == s.wq
      && r.tasks == s.tasks[u := s.tasks[u].(st :=
           if s.tasks[u].st.Waiting? then Waiting(s.tasks[u].st.w, true) else Suspended)]
      && Unreadied(s, r, u)
  }

  ghost predicate ResumeDelta(s: Sys, out: Outcome, r: Sys, u: nat) {
    if u >= |s.tasks| then Refused(s, out, r, E_ID)
    else match s.tasks[u].st
      case Suspended => out == Done(E_OK) && r.wq == s.wq && Joined(s, r, u, s.tasks[u].(st := Runnable))
      case Waiting(w, true) => out == Done(E_OK) && OneChanged(s, r, u, s.tasks[u].(st := Waiting(w, false)))
      case _ => Refused(s, out, r, E_OBJ)
  }

  lemma NotReadyLeft(c: Config, s: Sys, u: nat)
    requires Shaped(c, s) && Placed(c, s, {}) && u < |s.tasks| && s.tasks[u].st != Runnable
    ensures Unreadied(s, s, u)
  {
    hide Placed, Remove;
    forall p | 0 <= p < |s.ready| ensures s.ready[p] == Remove(s.ready[p], u) {
      InNoOtherReady(c, s, {}, u, p);
    }
  }

  lemma SuspendedForm(c: Config, s: Sys, u: nat)
    requires Shaped(c, s) && u < |s.tasks|
    ensures var r := Unready(c, SetSt(c, s, u, Suspended), u);
      r.ready == Unready(c, s, u).ready && r.wq == s.wq && r.tasks == s.tasks[u := s.tasks[u].(st := Suspended)]
      && r.held == s.held && r.pri == s.pri
  {
    hide Remove, Within;
  }

  lemma SusTskDelta(c: Config, s: Sys, u: nat)
    requires Inv(c, s) && TaskCtx(s) && s.run.value < |s.tasks|
    ensures var (r, out) := TaskStep(c, s, SusTsk(u), s.run.value); SuspendDelta(s, out, r, u, s.run.value)
  {
    hide Placed, TimersOk, TasksOk, MutexesOk, Settle, Unready, Remove, Within;
    if u < |s.tasks| {
      if s.tasks[u].st == Runnable {
        UnreadyQueues(c, s, u);
        SuspendedForm(c, s, u);
        SettleOnly(c, Unready(c, SetSt(c, s, u, Suspended), u));
      } else {
        NotReadyLeft(c, s, u);
      }
    }
  }

  lemma RsmTskDelta(c: Config, s: Sys, u: nat)
    requires Inv(c, s) && TaskCtx(s) && s.run.value < |s.tasks|
    ensures var (r, out) := TaskStep(c, s, RsmTsk(u), s.run.value); ResumeDelta(s, out, r, u)
  {
    hide Core, Settle, MakeRunnable, Within;
    assert Shaped(c, s) by { SameShape(c, s); }
    if u < |s.tasks| {
      RunnableEffect(c, s, u);
      RunnableQueues(c, s, u);
      SettleOnly(c, MakeRunnable(c, s, u));
    }
  }

  lemma SameShape(c: Config, s: Sys)
    requires Inv(c, s)
    ensures Shaped(c, s)
  {
  }

  ghost predicate RequestDelta(c: Config, s: Sys, out: Outcome, r: Sys, u: nat, t: nat)
    requires Shaped(c, s)
  {
    if u >= |s.tasks| then Refused(s, out, r, E_ID)
    else if u == t then Refused(s, out, r, E_ILUSE)
    else if s.tasks[u].st == Dormant then Refused(s, out, r, E_OBJ)
    else
      && out == Done(E_OK)
      && if s.tasks[u].enater then EndedTask(c, s, r, u)
         else if s.tasks[u].st == Runnable then OneChanged(s, r, u, s.tasks[u].(raster := true))
         else CutByRequest(s, r, u)
  }

  lemma RasTerDelta(c: Config, s: Sys, u: nat)
    requires Inv(c, s) && TaskCtx(s) && s.run.value < |s.tasks|
    ensures Shaped(c, s) && var (r, out) := TaskStep(c, s, RasTer(u), s.run.value);
      RequestDelta(c, s, out, r, u, s.run.value)
  {
    hide Core, Settle, Terminate, MakeRunnable, Interrupted, EndedTask, CutByRequest, SettleShaped;
    SameShape(c, s);
    if u < |s.tasks| {
      TerminateDelta(c, s, u);
      if s.tasks[u].st != Runnable {
        InterruptedDelta(c, s, u);
      }
    }
  }

  ghost predicate TaskDelta(c: Config, s: Sys, call: TaskCall, out: Outcome, r: Sys, t: nat)
    requires Shaped(c, s) && t < |s.tasks|
  {
    match call
    case ChgPri(u, tskpri) => ChgPriDelta(c, s, out, r, u, tskpri)
    case RasTer(u) => RequestDelta(c, s, out, r, u, t)
    case TerTsk(u) =>
      if u >= |s.tasks| then Refused(s, out, r, E_ID)
      else if u == t then Refused(s, out, r, E_ILUSE)
      else if s.tasks[u].st == Dormant then Refused(s, out, r, E_OBJ)
      else out == Done(E_OK) && EndedTask(c, s, r, u)
    case SusTsk(u) => SuspendDelta(s, out, r, u, t)
    case RsmTsk(u) => ResumeDelta(s, out, r, u)
    case PlocMtx(m) =>
      if m >= |c.objs| || c.objs[m].Plain? then Refused(s, out, r, E_ID) else LockDelta(c, s, out, r, t, m, Poll)
    case UnlMtx(m) => UnlMtxDelta(c, s, out, r, t, m)
    case IniMtx(m) =>
      if m >= |c.objs| || c.objs[m].Plain? then Refused(s, out, r, E_ID)
      else out == Done(E_OK) && MutexReset(c, s, r, m)
    case IniObj(o) =>
      if o >= |c.objs| || !c.objs[o].Plain? then Refused(s, out, r, E_ID)
      else out == Done(E_OK) && AllOut(s, r, o)
  }

  lemma TerTskDelta(c: Config, s: Sys, u: nat)
    requires Inv(c, s) && TaskCtx(s) && s.run.value < |s.tasks|
    ensures Shaped(c, s) && var (r, out) := TaskStep(c, s, TerTsk(u), s.run.value);
      TaskDelta(c, s, TerTsk(u), out, r, s.run.value)
  {
    hide Core, Settle, Terminate, EndedTask, SettleShaped;
    SameShape(c, s);
    if u < |s.tasks| {
      TerminateDelta(c, s, u);
    }
  }

  lemma PlocMtxDelta(c: Config, s: Sys, m: nat)
    requires Inv(c, s) && TaskCtx(s) && s.run.value < |s.tasks|
    ensures Shaped(c, s) && var (r, out) := TaskStep(c, s, PlocMtx(m), s.run.value);
      TaskDelta(c, s, PlocMtx(m), out, r, s.run.value)
  {
    hide Core, Lock, LockDelta;
    SameShape(c, s);
    if IsMutex(c, m) {
      LockDeltas(c, s, s.run.value, m, Poll);
    }
  }

  lemma IniDelta(c: Config, s: Sys, o: nat)
    requires Inv(c, s) && TaskCtx(s) && s.run.value < |s.tasks|
    ensures Shaped(c, s)
    ensures var (r, out) := TaskStep(c, s, IniMtx(o), s.run.value); TaskDelta(c, s, IniMtx(o), out, r, s.run.value)
    ensures var (r, out) := TaskStep(c, s, IniObj(o), s.run.value); TaskDelta(c, s, IniObj(o), out, r, s.run.value)
  {
    hide Core, Settle, InitMutex, MutexReset, EndWaits, AllOut, SettleShaped, Within;
    SameShape(c, s);
    if IsMutex(c, o) {
      IniMtxDelta(c, s, o);
    } else if o < |c.objs| {
      IniObjDelta(c, s, o);
    }
  }

  lemma TaskDeltas(c: Config, s: Sys, call: TaskCall)
    requires Inv(c, s) && TaskCtx(s)
    ensures Shaped(c, s) && var t := s.run.value;
      t < |s.tasks| && var (r, out) := TaskStep(c, s, call, t); TaskDelta(c, s, call, out, r, t)
  {
    hide TaskStep, Core, ChgPriDelta, RequestDelta, SuspendDelta, ResumeDelta, UnlMtxDelta;
    SameShape(c, s);
    match call {
      case ChgPri(u, tskpri) => ChgPriDeltas(c, s, u, tskpri);
      case RasTer(u) => RasTerDelta(c, s, u);
      case TerTsk(u) => TerTskDelta(c, s, u);
      case SusTsk(u) => SusTskDelta(c, s, u);
      case RsmTsk(u) => RsmTskDelta(c, s, u);
      case PlocMtx(m) => PlocMtxDelta(c, s, m);
      case UnlMtx(m) => UnlMtxDeltas(c, s, m);
      case IniMtx(m) => IniDelta(c, s, m);
      case IniObj(o) => IniDelta(c, s, o);
    }
  }

  // ----- Calls of the running task about itself, interrupts and timeouts -----

  /** No task, lock or queue changes. */
  ghost predicate OnlyMode(s: Sys, r: Sys) { r.tasks == s.tasks && SameLocking(s, r) && SameQueues(s, r) }

  /** The running task t with a termination request pending ends as soon as it has
    termination enabled and dispatching is possible. */
  ghost predicate OwnDelta(c: Config, s: Sys, call: OwnCall, out: Outcome, r: Sys, t: nat)
    requires Shaped(c, s) && t < |s.tasks|
  {
    match call
    case ExtTsk => out == Ends && EndedTask(c, s, r, t)
    case DisTer => out == Done(E_OK) && OneChanged(s, r, t, s.tasks[t].(enater := false))
    case EnaTer =>
      if s.tasks[t].raster && s.enadsp && s.ipm == 0 then out == Ends && EndedTask(c, s, r, t)
      else out == Done(E_OK) && OneChanged(s, r, t, s.tasks[t].(enater := true))
    case DisDsp => out == Done(E_OK) && OnlyMode(s, r)
    case EnaDsp =>
      if s.tasks[t].raster && s.tasks[t].enater && s.ipm == 0 then out == Ends && EndedTask(c, s, r, t)
      else out == Done(E_OK) && OnlyMode(s, r)
    case ChgIpm(intpri) =>
      if s.tasks[t].raster && s.tasks[t].enater && s.enadsp && intpri == 0 then out == Ends && EndedTask(c, s, r, t)
      else out == Done(E_OK) && OnlyMode(s, r)
  }

  lemma EndTaskDelta(c: Config, s: Sys, s1: Sys, t: nat)
    requires Inv(c, s) && t < |s.tasks| && Shaped(c, s1)
    requires s1 == s.(enadsp := s1.enadsp, ipm := s1.ipm)
    ensures Shaped(c, s) && EndedTask(c, s, EndTask(c, s1, t), t)
  {
    hide Placed, TimersOk, TasksOk, MutexesOk, Terminate, Settle, EndedTask;
    ModeCore(c, s, s1);
    TerminateQueues(c, s1, t);
    var r1 := Terminate(c, s1, t);
    SettleOnly(c, r1);
    EndedSame(c, s1, s, r1, EndTask(c, s1, t), t);
  }

  lemma ResumeOutcome(c: Config, s: Sys, s1: Sys, t: nat)
    requires Inv(c, s) && t < |s.tasks| && Shaped(c, s1) && s1 == s.(enadsp := s1.enadsp, ipm := s1.ipm)
    ensures Shaped(c, s) && var (r, out) := Resume(c, s1, t);
      if s.tasks[t].raster && s.tasks[t].enater then out == Ends && EndedTask(c, s, r, t)
      else out == Done(E_OK) && OnlyMode(s, r)
  {
    hide Core, EndTask, EndedTask, Settle;
    EndTaskDelta(c, s, s1, t);
    SettleOnly(c, s1);
  }

  lemma OwnDeltas(c: Config, s: Sys, call: OwnCall)
    requires Inv(c, s) && TaskCtx(s)
    ensures Shaped(c, s) && var t := s.run.value;
      t < |s.tasks| && var (r, out) := OwnStep(c, s, call, t); OwnDelta(c, s, call, out, r, t)
  {
    hide Core, EndTask, EndedTask, Resume;
    SameShape(c, s);
    var t := s.run.value;
    match call {
      case ExtTsk => EndTaskDelta(c, s, s.(enadsp := true, ipm := 0), t);
      case EnaTer => EndTaskDelta(c, s, s, t);
      case EnaDsp => ResumeOutcome(c, s, s.(enadsp := true), t);
      case ChgIpm(intpri) => ResumeOutcome(c, s, s.(ipm := intpri), t);
      case DisTer =>
      case DisDsp =>
    }
  }

  /** What a call or interrupt event answers and does to tasks, locks and queues. */
  ghost predicate StepDelta(c: Config, s: Sys, call: Call, out: Outcome, r: Sys)
    requires Shaped(c, s)
  {
    var inTask := !s.inInt && s.run.Some?;
    match call
    case ByAnyone(sc) =>
      if s.inInt || s.run.Some? then SharedDelta(c, s, sc, out, r) else Refused(s, out, r, E_CTX)
    case Blocking(wc) =>
      if inTask && s.enadsp && s.ipm == 0 then WaitingDelta(c, s, wc, out, r, s.run.value)
      else Refused(s, out, r, E_CTX)
    case OnTasks(tc) =>
      if inTask then TaskDelta(c, s, tc, out, r, s.run.value) else Refused(s, out, r, E_CTX)
    case OnSelf(oc) =>
      if inTask then OwnDelta(c, s, oc, out, r, s.run.value) else Refused(s, out, r, E_CTX)
    case TimerExpired(t) =>
      if !s.inInt || t !in s.registered || t >= |s.tasks| then Refused(s, out, r, E_OBJ)
      else
        && out == Done(E_OK) && s.tasks[t].st.Waiting?
        && WaitOver(s, r, t, if s.tasks[t].st.w == Dly then E_OK else E_TMOUT)
    case IntEnter => out == Done(E_OK) && OnlyMode(s, r)
    case IntExit => out == Done(E_OK) && OnlyMode(s, r)
  }

  lemma TimerDelta(c: Config, s: Sys, t: nat)
    requires Inv(c, s)
    ensures Shaped(c, s) && var (r, out) := Step(c, s, TimerExpired(t)); StepDelta(c, s, TimerExpired(t), out, r)
  {
    hide Core, TimeOut, EndWait, WaitOver, SettleShaped;
    SameShape(c, s);
    if s.inInt && t in s.registered {
      TimeOutEndsWait(c, s, t);
      EndWaitDelta(c, s, t, if s.tasks[t].st.w == Dly then E_OK else E_TMOUT);
    }
  }

  lemma StepDeltas(c: Config, s: Sys, call: Call)
    requires Inv(c, s)
    ensures Shaped(c, s) && var (r, out) := Step(c, s, call); StepDelta(c, s, call, out, r)
  {
    hide Core, SharedStep, WaitingStep, TaskStep, OwnStep, SharedDelta, WaitingDelta, TaskDelta, OwnDelta, TimeOut;
    hide WaitOver, Settle;
    SameShape(c, s);
    match call {
      case ByAnyone(sc) => SharedDeltas(c, s, sc);
      case Blocking(wc) => if MayWait(s) { WaitingDeltas(c, s, wc); }
      case OnTasks(tc) => if TaskCtx(s) { TaskDeltas(c, s, tc); }
      case OnSelf(oc) => if TaskCtx(s) { OwnDeltas(c, s, oc); }
      case TimerExpired(t) => TimerDelta(c, s, t);
      case IntEnter =>
      case IntExit => SettleOnly(c, s.(inInt := false));
    }
  }
}
