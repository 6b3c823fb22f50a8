/** Every service call and interrupt event keeps the kernel invariant. */
module KernelSteps {
  import opened Options
  import opened Queues
  import opened KernelState
  import opened KernelCalls
  import opened KernelPlacement
  import opened KernelInvariant
  import opened KernelLocking

  /** A requested termination is never lost: the task is runnable, and either it
    has termination disabled or it is the running task while dispatching is
    not possible. */
  ghost predicate TerminationKept(s: Sys) {
    forall t :: 0 <= t < |s.tasks| && s.tasks[t].raster ==>
      s.tasks[t].st == Runnable && (!s.tasks[t].enater || (s.run == Some(t) && !Dsp(s)))
  }

  /** The running task is runnable, is there whenever dispatching is not
    possible, and outside interrupt context is the one to be scheduled. */
  ghost predicate RunningOk(s: Sys) {
    && (s.run.Some? ==> s.run.value < |s.tasks| && s.tasks[s.run.value].st == Runnable)
    && (!Dsp(s) ==> s.run.Some?)
    && (!s.inInt ==> s.run == Sched(s))
  }

  ghost predicate Inv(c: Config, s: Sys) {
    Core(c, s, {}, {}, {}) && TerminationKept(s) && RunningOk(s)
  }

  lemma {:induction false} TopRunnable(c: Config, s: Sys, p: nat)
    requires Shaped(c, s) && Placed(c, s, {})
    ensures TopFrom(s.ready, p).Some? ==>
      TopFrom(s.ready, p).value < |s.tasks| && s.tasks[TopFrom(s.ready, p).value].st == Runnable
    decreases |s.ready| - p
  {
    if p < |s.ready| {
      if s.ready[p] == [] {
        TopRunnable(c, s, p + 1);
      } else {
        assert ReadyQueue(s, {}, p, s.ready[p]) && s.ready[p][0] in s.ready[p];
      }
    }
  }

  lemma SettleInv(c: Config, s: Sys)
    requires Core(c, s, {}, {}, {}) && TerminationKept(s)
    requires !Dsp(s) || s.inInt ==> s.run.Some? || Dsp(s)
    requires (!Dsp(s) || s.inInt) && s.run.Some? ==> s.run.value < |s.tasks| && s.tasks[s.run.value].st == Runnable
    ensures Inv(c, SettleShaped(c, s))
  {
    TopRunnable(c, s, 0);
    var r := SettleShaped(c, s);
    SamePlaces(c, s, r, {});
    SameTimers(s, r, {});
    hide Placed, TimersOk;
    SameTasks(c, s, r);
  }

  lemma SameTasks(c: Config, s: Sys, r: Sys)
    requires Shaped(c, s) && Shaped(c, r) && TasksOk(c, s, {}) && MutexesOk(c, s, {})
    requires r.tasks == s.tasks && r.pri == s.pri && r.held == s.held
    ensures TasksOk(c, r, {}) && MutexesOk(c, r, {})
  {
    forall t | 0 <= t < |r.tasks| ensures TaskOk(c, r, t) {
      assert TaskOk(c, s, t);
    }
    SameLocks(c, s, r, {});
  }

  /** After a step that left every runnable task but t as it was, dispatching
    restores the invariant, unless t was the running task and cannot be left. */
  lemma SettleKept(c: Config, s: Sys, r: Sys, t: nat)
    requires Inv(c, s) && Core(c, r, {}, {}, {}) && Kept(s, r, t)
    requires t < |r.tasks| && r.tasks[t].raster ==> r.tasks[t].st == Runnable && !r.tasks[t].enater
    requires s.run == Some(t) ==> Dsp(s) && !s.inInt
    ensures Inv(c, SettleShaped(c, r))
  {
    hide Core;
    assert TerminationKept(r);
    SettleInv(c, r);
  }

  /** Changes of a task's flags that leave its state and priorities alone. */
  lemma FlagsInv(c: Config, s: Sys, t: nat, k: Task)
    requires Inv(c, s) && t < |s.tasks|
    requires k.st == s.tasks[t].st && k.bpri == s.tasks[t].bpri && k.tmevtb == s.tasks[t].tmevtb
    requires k.st == Dormant ==> !k.raster && k.enater && !k.wupque
    requires k.raster ==> k.st == Runnable && (!k.enater || (s.run == Some(t) && !Dsp(s)))
    ensures k.st.Waiting? && k.st.w.Obj? ==> k.st.w.o < |c.objs|
    ensures k.bpri < TNUM_TPRI && Inv(c, SetTask(c, s, t, k))
  {
    SameLink(c, s, {}, t, k);
    var r := SetTask(c, s, t, k);
    hide Placed;
    assert t in s.registered <==> ToTimer(s, {}, t);
    OneTimer(s, r, {}, {}, t);
    hide TimersOk;
    assert TaskOk(c, s, t);
    OneTask(c, s, r, {}, t);
    SameLocks(c, s, r, {});
  }

  // ----- Calls that end waits -----

  lemma EndWaitInv(c: Config, s: Sys, t: nat, er: Er)
    requires Inv(c, s) && t < |s.tasks| && s.tasks[t].st.Waiting?
    ensures Inv(c, SettleShaped(c, EndWait(c, s, t, er)))
  {
    EndWaitCore(c, s, {}, {}, {}, t, er);
    hide EndWait, Core, Settle;
    SettleKept(c, s, EndWait(c, s, t, er), |s.tasks|);
  }

  lemma WakeInv(c: Config, s: Sys, t: nat)
    requires Inv(c, s) && t < |s.tasks| && !Linked(s.tasks[t].st) && !s.tasks[t].st.Waiting?
    ensures Inv(c, SettleShaped(c, MakeRunnable(c, s, t)))
  {
    Loosen(c, s, {}, t);
    assert {} + {t} == {t};
    assert t in s.registered <==> ToTimer(s, {}, t);
    OneTimer(s, s, {}, {t}, t);
    hide Placed, TimersOk;
    RunnableCore(c, s, t);
    hide MakeRunnable, Core, Settle;
    SettleKept(c, s, MakeRunnable(c, s, t), |s.tasks|);
  }

  lemma RotateInv(c: Config, s: Sys, p: nat)
    requires Inv(c, s) && p < TNUM_TPRI
    ensures Inv(c, SettleShaped(c, Rotate(c, s, p)))
  {
    var r := Rotate(c, s, p);
    if s.ready[p] != [] {
      RotatePlaced(c, s, {}, p);
    }
    SameTimers(s, r, {});
    hide Placed, TimersOk;
    SameTasks(c, s, r);
    SettleKept(c, s, r, |s.tasks|);
  }

  lemma ActTskInv(c: Config, s: Sys, t: nat)
    requires Inv(c, s)
    ensures Inv(c, SharedStep(c, s, ActTsk(t)).0)
  {
    hide Placed, TasksOk, MutexesOk, Settle, MakeRunnable;
    if t < |s.tasks| {
      if s.tasks[t].st == Dormant {
        WakeInv(c, s, t);
      } else {
        FlagsInv(c, s, t, s.tasks[t].(actque := true));
      }
    }
  }

  lemma WupTskInv(c: Config, s: Sys, t: nat)
    requires Inv(c, s)
    ensures Inv(c, SharedStep(c, s, WupTsk(t)).0)
  {
    hide Placed, TasksOk, MutexesOk, Settle, EndWait;
    if t < |s.tasks| && s.tasks[t].st != Dormant {
      if s.tasks[t].st.Waiting? && s.tasks[t].st.w == Slp {
        EndWaitInv(c, s, t, E_OK);
      } else {
        FlagsInv(c, s, t, s.tasks[t].(wupque := true));
      }
    }
  }

  lemma RelWaiInv(c: Config, s: Sys, t: nat)
    requires Inv(c, s)
    ensures Inv(c, SharedStep(c, s, RelWai(t)).0)
  {
    hide Placed, TasksOk, MutexesOk, Settle, EndWait;
    if t < |s.tasks| && s.tasks[t].st.Waiting? {
      EndWaitInv(c, s, t, E_RLWAI);
    }
  }

  lemma RotRdqInv(c: Config, s: Sys, tskpri: Option<nat>)
    requires Inv(c, s)
    ensures Inv(c, SharedStep(c, s, RotRdq(tskpri)).0)
  {
    hide Placed, TasksOk, MutexesOk, Settle, Rotate;
    if tskpri.Some? && tskpri.value < TNUM_TPRI {
      RotateInv(c, s, tskpri.value);
    } else if tskpri.None? && s.run.Some? {
      RotateInv(c, s, s.tasks[s.run.value].bpri);
    }
  }

  lemma WakeObjInv(c: Config, s: Sys, o: nat)
    requires Inv(c, s)
    ensures Inv(c, SharedStep(c, s, WakeObj(o)).0)
  {
    hide Placed, TasksOk, MutexesOk, Settle, EndWait;
    if o < |c.objs| && s.wq[o] != [] {
      QueueWaits(c, s, {}, o);
      EndWaitInv(c, s, s.wq[o][0], E_OK);
    }
  }

  lemma SharedInv(c: Config, s: Sys, call: SharedCall)
    requires Inv(c, s)
    ensures Inv(c, SharedStep(c, s, call).0)
  {
    hide SharedStep, Inv;
    match call {
      case ActTsk(t) => ActTskInv(c, s, t);
      case WupTsk(t) => WupTskInv(c, s, t);
      case RelWai(t) => RelWaiInv(c, s, t);
      case RotRdq(tskpri) => RotRdqInv(c, s, tskpri);
      case WakeObj(o) => WakeObjInv(c, s, o);
    }
  }

  // ----- Calls that start to wait -----

  lemma BlockInv(c: Config, s: Sys, t: nat, w: Wait, tmo: Tmo)
    requires Inv(c, s) && MayWait(s) && s.run == Some(t) && !s.tasks[t].raster
    requires w.Obj? ==> w.o < |c.objs|
    requires w == Dly ==> tmo == Limited
    requires w.Obj? && IsMutex(c, w.o) ==>
      !AboveCeiling(c, w.o, s.tasks[t].bpri) && w.o !in s.held[t] && Locked(s, w.o)
    ensures Inv(c, BlockRun(c, s, t, w, tmo).0)
  {
    if tmo != Poll {
      BlockCore(c, s, t, w, tmo == Limited);
      BlockEffect(c, s, t, w, tmo == Limited);
      hide Block, Core, Settle;
      SettleKept(c, s, Block(c, s, t, w, tmo == Limited), t);
    }
  }

  lemma TopIsHead(ready: seq<seq<nat>>, from: nat)
    requires from < |ready| && TopFrom(ready, from).Some?
    ensures ready[from] == [] || TopFrom(ready, from).value in ready[from]
  {
  }

  /** The first task of the first non-empty queue stays first when it moves to
    the front of a queue of at least its priority. */
  lemma {:induction false} StaysTop(ready: seq<seq<nat>>, ready': seq<seq<nat>>, t: nat, p: nat, p': nat, from: nat)
    requires |ready'| == |ready| && from <= p' <= p < |ready|
    requires TopFrom(ready, from) == Some(t) && t in ready[p]
    requires forall k :: 0 <= k < |ready| && k != p ==> t !in ready[k]
    requires ready'[p'] != [] && ready'[p'][0] == t
    requires forall k :: 0 <= k < |ready| && k != p && k != p' ==> ready'[k] == ready[k]
    ensures TopFrom(ready', from) == Some(t)
    decreases |ready| - from
  {
    if from < p' {
      TopIsHead(ready, from);
      StaysTop(ready, ready', t, p, p', from + 1);
    }
  }

  /** Locking a mutex never calls for a dispatch: the assertion in loc_mtx. */
  lemma AcquireKeepsRunning(c: Config, s: Sys, t: nat, m: nat)
    requires Inv(c, s) && TaskCtx(s) && s.run == Some(t) && IsMutex(c, m)
    ensures var r := Reprio(c, SetHeld(c, s, t, s.held[t] + [m]), t); r.run == Sched(r)
  {
    var s1 := SetHeld(c, s, t, s.held[t] + [m]);
    var p := ClosedPri(c, s1, t);
    assert TaskOk(c, s, t);
    assert s1.held[t][..|s1.held[t]| - 1] == s.held[t];
    assert p <= s.pri[t];
    if Dsp(s) && p != s.pri[t] {
      BoostedBound(c, s1.held[t], s1.tasks[t].bpri);
      var r := ChangePriority(c, s1, t, p, true);
      var q := s.ready[s.pri[t]];
      forall k | 0 <= k < |s.ready| ensures t in s.ready[k] <==> k == s.pri[t] {
        assert ReadyQueue(s, {}, k, s.ready[k]);
      }
      assert r.ready[p] == [t] + s.ready[p];
      StaysTop(s.ready, r.ready, t, s.pri[t], p, 0);
    }
  }

  lemma LockInv(c: Config, s: Sys, t: nat, m: nat, tmo: Tmo)
    requires Inv(c, s) && TaskCtx(s) && s.run == Some(t) && IsMutex(c, m)
    requires tmo == Poll || (Dsp(s) && !s.tasks[t].raster)
    ensures Inv(c, Lock(c, s, t, m, tmo).0)
  {
    if !AboveCeiling(c, m, s.tasks[t].bpri) {
      match Owner(s, m) {
        case None =>
          AcquireCore(c, s, t, m);
          AcquireKeepsRunning(c, s, t, m);
        case Some(u) =>
          if u != t && tmo != Poll {
            assert Locked(s, m) && m !in s.held[t] by {
              assert m in s.held[u];
            }
            BlockInv(c, s, t, Obj(m), tmo);
          }
      }
    }
  }

  lemma WaitingInv(c: Config, s: Sys, call: WaitingCall)
    requires Inv(c, s) && MayWait(s)
    ensures Inv(c, WaitingStep(c, s, call, s.run.value).0)
  {
    var t := s.run.value;
    if !s.tasks[t].raster {
      match call {
        case SlpTsk(tmo) =>
          FlagsInv(c, s, t, s.tasks[t].(wupque := false));
          BlockInv(c, s, t, Slp, tmo);
        case DlyTsk =>
          BlockInv(c, s, t, Dly, Limited);
        case LocMtx(m, tmo) =>
          if IsMutex(c, m) {
            LockInv(c, s, t, m, tmo);
          }
        case WaitObj(o, tmo) =>
          if o < |c.objs| && !IsMutex(c, o) {
            BlockInv(c, s, t, Obj(o), tmo);
          }
      }
    }
  }

  // ----- Other calls of the running task -----

  /** With a ceiling among the locked mutexes and a base priority that none of
    them exceeds, the base priority does not matter. */
  lemma {:induction false} BaseDoesNotMatter(c: Config, ms: seq<nat>, b: nat, b': nat)
    requires forall m :: m in ms ==> m < |c.objs| && !AboveCeiling(c, m, b) && !AboveCeiling(c, m, b')
    ensures (exists m :: m in ms && c.objs[m].Ceiling?) ==> Boosted(c, ms, b) == Boosted(c, ms, b')
    ensures !(exists m :: m in ms && c.objs[m].Ceiling?) ==> Boosted(c, ms, b) == b && Boosted(c, ms, b') == b'
    ensures Boosted(c, ms, b) <= b && Boosted(c, ms, b') <= b'
    ensures forall m :: m in ms && c.objs[m].Ceiling? ==>
      Boosted(c, ms, b) <= c.objs[m].ceil && Boosted(c, ms, b') <= c.objs[m].ceil
    decreases |ms|
  {
    if ms != [] {
      var n := |ms| - 1;
      assert ms == ms[..n] + [ms[n]];
      assert forall m :: m in ms <==> m in ms[..n] || m == ms[n];
      BaseDoesNotMatter(c, ms[..n], b, b');
    }
  }

  /** The new base priority is recorded; the current one follows only if no
    ceiling overrides it. */
  lemma NewBase(c: Config, s: Sys, t: nat, b: nat)
    requires Core(c, s, {}, {}, {}) && t < |s.tasks| && b < TNUM_TPRI
    requires s.tasks[t].st != Dormant && SuitsCeilings(c, s, t, b)
    ensures var s1 := SetTask(c, s, t, s.tasks[t].(bpri := b));
      && Core(c, s1, {}, {t}, {})
      && TaskRest(c, s1.tasks[t], s1.held[t], c.ipri[t])
      && (if HoldsCeiling(c, s1, t) then s1.pri[t] == ClosedPri(c, s1, t) else ClosedPri(c, s1, t) == b)
  {
    var k := s.tasks[t].(bpri := b);
    var s1 := SetTask(c, s, t, k);
    hide Placed, NoDup, Within, Boosted;
    SameLink(c, s, {}, t, k);
    assert t in s.registered <==> ToTimer(s, {}, t);
    OneTimer(s, s1, {}, {}, t);
    hide TimersOk;
    assert TaskOk(c, s, t);
    assert forall m :: m in s.held[t] ==> IsMutex(c, m);
    BaseDoesNotMatter(c, s.held[t], s.tasks[t].bpri, b);
    OneTask(c, s, s1, {}, t);
    SameLocks(c, s, s1, {});
    assert {} + {t} == {t};
  }

  lemma ChangeBaseInv(c: Config, s: Sys, t: nat, b: nat)
    requires Inv(c, s) && t < |s.tasks| && b < TNUM_TPRI
    requires s.tasks[t].st != Dormant && SuitsCeilings(c, s, t, b)
    ensures Inv(c, ChangeBase(c, s, t, b))
  {
    NewBase(c, s, t, b);
    hide SuitsCeilings, Placed, TasksOk, MutexesOk, Settle;
    var s1 := SetTask(c, s, t, s.tasks[t].(bpri := b));
    if HoldsCeiling(c, s1, t) {
      assert {t} - {t} == {};
      OneTask(c, s1, s1, {t}, t);
    } else {
      MovedInv(c, s, s1, t, b);
    }
  }

  lemma MovedInv(c: Config, s: Sys, s1: Sys, t: nat, b: nat)
    requires Inv(c, s) && t < |s.tasks| && b < TNUM_TPRI && Kept(s, s1, |s.tasks|)
    requires Core(c, s1, {}, {t}, {}) && b == ClosedPri(c, s1, t) && TaskRest(c, s1.tasks[t], s1.held[t], c.ipri[t])
    ensures Inv(c, SettleShaped(c, ChangePriority(c, s1, t, b, false)))
  {
    var r := ChangePriority(c, s1, t, b, false);
    ChangePriorityCore(c, s1, {}, {t}, {}, t, b, false);
    assert {t} - {t} == {};
    KeptTrans(s, s1, r, |s.tasks|);
    hide Core, ChangePriority, Settle;
    SettleKept(c, s, r, |s.tasks|);
  }

  lemma InterruptedPlaced(c: Config, s: Sys, t: nat)
    requires Shaped(c, s) && Placed(c, s, {}) && t < |s.tasks| && s.tasks[t].st != Runnable
    ensures Placed(c, Interrupted(c, s, t), {t})
    ensures var r := Interrupted(c, s, t); var k := s.tasks[t];
      && r.pri == s.pri && r.held == s.held && SameMode(s, r)
      && r.tasks == s.tasks[t := if k.st.Waiting? then k.(raster := true, wercd := E_RASTER) else k.(raster := true)]
      && r.registered == if k.st.Waiting? then Unregistered(s, t) else s.registered
  {
    hide Placed, Unwait, Within;
    var k := s.tasks[t].(raster := true);
    var s1 := SetTask(c, s, t, k);
    SameLink(c, s, {}, t, k);
    DequeuePlaced(c, s1, {}, t);
    DequeueEffect(c, s1, t);
    assert {} + {t} == {t};
    ChangeLoose(c, DequeueWobj(c, s1, t), Interrupted(c, s, t), {t}, t);
  }

  lemma RunnableEffect(c: Config, s: Sys, t: nat)
    requires Shaped(c, s) && t < |s.tasks|
    ensures var r := MakeRunnable(c, s, t);
      && r.pri == s.pri && r.held == s.held && SameMode(s, r) && r.registered == s.registered
      && r.tasks == s.tasks[t := s.tasks[t].(st := Runnable)]
  {
  }

  /** ras_ter on a task that has termination disabled. */
  lemma RequestInv(c: Config, s: Sys, t: nat)
    requires Inv(c, s) && t < |s.tasks|
    requires s.tasks[t].st != Dormant && s.tasks[t].st != Runnable && !s.tasks[t].enater
    ensures Inv(c, SettleShaped(c, MakeRunnable(c, Interrupted(c, s, t), t)))
  {
    hide Placed, Interrupted, MakeRunnable, Settle, NoDup, Within, Linked;
    InterruptedPlaced(c, s, t);
    var s3 := Interrupted(c, s, t);
    assert {t} - {t} == {};
    RunnablePlaced(c, s3, {t}, t);
    RunnableEffect(c, s3, t);
    var r := MakeRunnable(c, s3, t);
    assert t in s.registered <==> ToTimer(s, {}, t);
    OneTimer(s, r, {}, {}, t);
    hide TimersOk;
    assert TaskOk(c, s, t);
    OneTask(c, s, r, {}, t);
    SameLocks(c, s, r, {});
    hide Core;
    SettleKept(c, s, r, t);
  }

  lemma SuspendPlaced(c: Config, s: Sys, t: nat)
    requires Shaped(c, s) && Placed(c, s, {}) && t < |s.tasks| && s.tasks[t].st == Runnable
    ensures var r := Unready(c, SetSt(c, s, t, Suspended), t);
      && Placed(c, r, {}) && r.tasks == s.tasks[t := s.tasks[t].(st := Suspended)]
      && r.pri == s.pri && r.held == s.held && r.registered == s.registered && SameMode(s, r)
  {
    UnreadyPlaced(c, s, {}, t);
    assert {} + {t} == {t} && {t} - {t} == {};
    var r := Unready(c, SetSt(c, s, t, Suspended), t);
    assert r == SetSt(c, Unready(c, s, t), t, Suspended);
    ChangeLoose(c, Unready(c, s, t), r, {t}, t);
    Settled(c, r, {t}, t);
  }

  lemma SuspendInv(c: Config, s: Sys, t: nat)
    requires Inv(c, s) && t < |s.tasks| && s.tasks[t].st == Runnable && !s.tasks[t].raster
    requires s.run == Some(t) ==> Dsp(s) && !s.inInt
    ensures Inv(c, SettleShaped(c, Unready(c, SetSt(c, s, t, Suspended), t)))
  {
    SuspendPlaced(c, s, t);
    var r := Unready(c, SetSt(c, s, t, Suspended), t);
    hide Placed, Unready, Settle;
    assert t in s.registered <==> ToTimer(s, {}, t);
    OneTimer(s, r, {}, {}, t);
    hide TimersOk;
    assert TaskOk(c, s, t);
    OneTask(c, s, r, {}, t);
    SameLocks(c, s, r, {});
    hide Core;
    SettleKept(c, s, r, t);
  }

  /** A waiting task becomes waiting-suspended, or back. */
  lemma SuspensionInv(c: Config, s: Sys, t: nat, sus: bool)
    requires Inv(c, s) && t < |s.tasks| && s.tasks[t].st.Waiting?
    ensures Inv(c, SetSt(c, s, t, s.tasks[t].st.(sus := sus)))
  {
    var k := s.tasks[t].(st := s.tasks[t].st.(sus := sus));
    SameLink(c, s, {}, t, k);
    var r := SetTask(c, s, t, k);
    hide Placed;
    assert t in s.registered <==> ToTimer(s, {}, t);
    OneTimer(s, r, {}, {}, t);
    hide TimersOk;
    assert TaskOk(c, s, t);
    OneTask(c, s, r, {}, t);
    SameLocks(c, s, r, {});
  }

  lemma TerminateInv(c: Config, s: Sys, t: nat)
    requires Inv(c, s) && t < |s.tasks| && s.run != Some(t)
    ensures Inv(c, SettleShaped(c, Terminate(c, s, t)))
  {
    TerminateCore(c, s, t);
    hide Terminate, Core, Settle;
    SettleKept(c, s, Terminate(c, s, t), t);
  }

  // ----- ini_mtx and ini_??? -----

  lemma {:induction false} EndWaitsTasks(c: Config, s: Sys, q: seq<nat>, er: Er)
    requires Shaped(c, s) && Within(q, |s.tasks|)
    ensures forall u :: 0 <= u < |s.tasks| && u !in q ==> EndWaits(c, s, q, er).tasks[u] == s.tasks[u]
    ensures forall u :: 0 <= u < |s.tasks| && u in q ==> !EndWaits(c, s, q, er).tasks[u].st.Waiting?
    decreases |q|
  {
    if q != [] {
      EndWaitEffect(c, s, q[0], er);
      var s1 := EndWait(c, s, q[0], er);
      assert q == [q[0]] + q[1..];
      assert Within(q[1..], |s.tasks|);
      hide EndWait;
      EndWaitsTasks(c, s1, q[1..], er);
      EndWaitsIdle(c, s1, q[1..], er, q[0]);
    }
  }

  /** A task that does not wait does not start to. */
  lemma {:induction false} EndWaitsIdle(c: Config, s: Sys, q: seq<nat>, er: Er, t: nat)
    requires Shaped(c, s) && Within(q, |s.tasks|) && t < |s.tasks| && !s.tasks[t].st.Waiting?
    ensures !EndWaits(c, s, q, er).tasks[t].st.Waiting?
    decreases |q|
  {
    if q != [] {
      EndWaitEffect(c, s, q[0], er);
      assert Within(q[1..], |s.tasks|);
      hide EndWait;
      EndWaitsIdle(c, EndWait(c, s, q[0], er), q[1..], er, t);
    }
  }

  lemma IniObjInv(c: Config, s: Sys, o: nat)
    requires Inv(c, s) && o < |c.objs|
    ensures Inv(c, SettleShaped(c, EndWaits(c, s, s.wq[o], E_DLT)))
  {
    QueueWaits(c, s, {}, o);
    EndWaitsCore(c, s, {}, {}, {}, s.wq[o], E_DLT);
    hide EndWaits, Core, Settle;
    SettleKept(c, s, EndWaits(c, s, s.wq[o], E_DLT), |s.tasks|);
  }

  lemma InitMutexInv(c: Config, s: Sys, m: nat)
    requires Inv(c, s) && IsMutex(c, m)
    ensures Inv(c, SettleShaped(c, InitMutex(c, s, m)))
  {
    var q := s.wq[m];
    QueueWaits(c, s, {}, m);
    EndWaitsCore(c, s, {}, {}, {}, q, E_DLT);
    EndWaitsTasks(c, s, q, E_DLT);
    var s1 := EndWaits(c, s, q, E_DLT);
    assert NobodyWaits(c, s1, m) by {
      assert WaitQueue(s, {}, m, q);
      forall u | 0 <= u < |s1.tasks| ensures !WaitsForMutex(c, s1.tasks[u].st, m) {
        assert u !in q ==> !ToWait(s, {}, m, u);
      }
    }
    hide EndWaits, Placed, TasksOk, MutexesOk, Settle;
    match Owner(s1, m) {
      case None =>
      case Some(u) =>
        RemovedCore(c, s1, u, m);
        KeptTrans(s, s1, InitMutex(c, s, m), |s.tasks|);
    }
    SettleKept(c, s, InitMutex(c, s, m), |s.tasks|);
  }

  ghost predicate NobodyWaits(c: Config, s: Sys, m: nat) {
    forall u :: 0 <= u < |s.tasks| ==> !WaitsForMutex(c, s.tasks[u].st, m)
  }

  /** Mutex m, which nobody waits for, is taken from its holder u. */
  lemma RemovedCore(c: Config, s: Sys, u: nat, m: nat)
    requires Core(c, s, {}, {}, {}) && NobodyWaits(c, s, m) && u < |s.tasks| && m in s.held[u]
    ensures forall x :: x in Remove(s.held[u], m) ==> IsMutex(c, x)
    ensures var r := Reprio(c, SetHeld(c, s, u, Remove(s.held[u], m)), u);
      Core(c, r, {}, {}, {}) && Kept(s, r, |s.tasks|)
  {
    HeldWithout(c, s, u, m);
    RemoveMembers(s.held[u], m);
    var ms := Remove(s.held[u], m);
    GiveUp(c, s, u, m, ms);
    var s1 := SetHeld(c, s, u, ms);
    assert MutexesOk(c, s1, {}) by {
      forall t | 0 <= t < |s1.tasks| ensures WaitOk(c, s1, {}, t) {
        assert WaitOk(c, s1, {m}, t);
        assert !WaitsForMutex(c, s.tasks[t].st, m);
      }
    }
    hide Placed, TasksOk, MutexesOk, Reprio, TaskRest;
    ReprioCore(c, s1, {}, {u}, {}, u);
    assert {u} - {u} == {};
    assert Kept(s, s1, |s.tasks|);
    KeptTrans(s, s1, Reprio(c, s1, u), |s.tasks|);
  }

  lemma ChgPriInv(c: Config, s: Sys, u: nat, tskpri: Option<nat>)
    requires Inv(c, s) && TaskCtx(s)
    ensures Inv(c, TaskStep(c, s, ChgPri(u, tskpri), s.run.value).0)
  {
    hide Placed, TasksOk, MutexesOk, Settle;
    if u < |s.tasks| && s.tasks[u].st != Dormant && (tskpri.Some? ==> tskpri.value < TNUM_TPRI) {
      var b := if tskpri.Some? then tskpri.value else c.ipri[u];
      if SuitsCeilings(c, s, u, b) {
        ChangeBaseInv(c, s, u, b);
      }
    }
  }

  lemma RasTerInv(c: Config, s: Sys, u: nat)
    requires Inv(c, s) && TaskCtx(s)
    ensures Inv(c, TaskStep(c, s, RasTer(u), s.run.value).0)
  {
    hide Placed, TasksOk, MutexesOk, Settle;
    if u < |s.tasks| && s.run != Some(u) && s.tasks[u].st != Dormant {
      if s.tasks[u].enater {
        TerminateInv(c, s, u);
      } else if s.tasks[u].st == Runnable {
        FlagsInv(c, s, u, s.tasks[u].(raster := true));
      } else {
        RequestInv(c, s, u);
      }
    }
  }

  lemma SusTskInv(c: Config, s: Sys, u: nat)
    requires Inv(c, s) && TaskCtx(s)
    ensures Inv(c, TaskStep(c, s, SusTsk(u), s.run.value).0)
  {
    hide Placed, TasksOk, MutexesOk, Settle;
    if u < |s.tasks| && !s.tasks[u].raster && (s.run == Some(u) ==> Dsp(s)) {
      match s.tasks[u].st {
        case Runnable => SuspendInv(c, s, u);
        case Waiting(_, _) => SuspensionInv(c, s, u, true);
        case _ =>
      }
    }
  }

  lemma RsmTskInv(c: Config, s: Sys, u: nat)
    requires Inv(c, s) && TaskCtx(s)
    ensures Inv(c, TaskStep(c, s, RsmTsk(u), s.run.value).0)
  {
    hide Placed, TasksOk, MutexesOk, Settle;
    if u < |s.tasks| {
      match s.tasks[u].st {
        case Suspended => WakeInv(c, s, u);
        case Waiting(_, _) => SuspensionInv(c, s, u, false);
        case _ =>
      }
    }
  }

  lemma TerTskInv(c: Config, s: Sys, u: nat)
    requires Inv(c, s) && TaskCtx(s)
    ensures Inv(c, TaskStep(c, s, TerTsk(u), s.run.value).0)
  {
    hide Placed, TasksOk, MutexesOk, Settle, Terminate;
    if u < |s.tasks| && s.run != Some(u) {
      TerminateInv(c, s, u);
    }
  }

  lemma PlocMtxInv(c: Config, s: Sys, m: nat)
    requires Inv(c, s) && TaskCtx(s)
    ensures Inv(c, TaskStep(c, s, PlocMtx(m), s.run.value).0)
  {
    hide Placed, TasksOk, MutexesOk, Settle, Lock;
    if IsMutex(c, m) {
      LockInv(c, s, s.run.value, m, Poll);
    }
  }

  lemma UnlMtxInv(c: Config, s: Sys, m: nat)
    requires Inv(c, s) && TaskCtx(s)
    ensures Inv(c, TaskStep(c, s, UnlMtx(m), s.run.value).0)
  {
    hide Placed, TasksOk, MutexesOk, Settle, HandOver, Reprio;
    var t := s.run.value;
    if IsMutex(c, m) && s.held[t] != [] && s.held[t][|s.held[t]| - 1] == m {
      UnlockInv(c, s, t);
    }
  }

  lemma IniInv(c: Config, s: Sys, o: nat)
    requires Inv(c, s) && TaskCtx(s)
    ensures Inv(c, TaskStep(c, s, IniMtx(o), s.run.value).0)
    ensures Inv(c, TaskStep(c, s, IniObj(o), s.run.value).0)
  {
    hide Placed, TasksOk, MutexesOk, Settle, InitMutex, EndWaits;
    if IsMutex(c, o) {
      InitMutexInv(c, s, o);
    } else if o < |c.objs| {
      IniObjInv(c, s, o);
    }
  }

  lemma TaskInv(c: Config, s: Sys, call: TaskCall)
    requires Inv(c, s) && TaskCtx(s)
    ensures Inv(c, TaskStep(c, s, call, s.run.value).0)
  {
    hide TaskStep, Inv, TaskCtx;
    match call {
      case ChgPri(u, tskpri) => ChgPriInv(c, s, u, tskpri);
      case RasTer(u) => RasTerInv(c, s, u);
      case TerTsk(u) => TerTskInv(c, s, u);
      case SusTsk(u) => SusTskInv(c, s, u);
      case RsmTsk(u) => RsmTskInv(c, s, u);
      case PlocMtx(m) => PlocMtxInv(c, s, m);
      case UnlMtx(m) => UnlMtxInv(c, s, m);
      case IniMtx(m) => IniInv(c, s, m);
      case IniObj(o) => IniInv(c, s, o);
    }
  }

  lemma UnlockInv(c: Config, s: Sys, t: nat)
    requires Inv(c, s) && t < |s.tasks| && s.held[t] != []
    ensures var n := |s.held[t]| - 1;
      Inv(c, SettleShaped(c, HandOver(c, Reprio(c, SetHeld(c, s, t, s.held[t][..n]), t), s.held[t][n])))
  {
    UnlockCore(c, s, t);
    var n := |s.held[t]| - 1;
    hide Reprio, HandOver, Settle, Core;
    SettleKept(c, s, HandOver(c, Reprio(c, SetHeld(c, s, t, s.held[t][..n]), t), s.held[t][n]), |s.tasks|);
  }

  // ----- The running task's own calls -----

  /** The running task ends, dispatching being possible. */
  lemma EndTaskInv(c: Config, s: Sys, t: nat)
    requires Core(c, s, {}, {}, {}) && t < |s.tasks| && Dsp(s) && !s.inInt
    requires forall u :: 0 <= u < |s.tasks| && u != t && s.tasks[u].raster ==>
      s.tasks[u].st == Runnable && !s.tasks[u].enater
    ensures Inv(c, EndTask(c, s, t))
  {
    hide Terminate, Placed, TasksOk, MutexesOk, Settle, TopFrom;
    TerminateCore(c, s, t);
    SettleInv(c, Terminate(c, s, t));
  }

  /** Only the mode changes. */
  lemma ModeCore(c: Config, s: Sys, r: Sys)
    requires Core(c, s, {}, {}, {}) && Shaped(c, r)
    requires r.tasks == s.tasks && r.pri == s.pri && r.held == s.held && r.ready == s.ready && r.wq == s.wq
    requires r.registered == s.registered
    ensures Core(c, r, {}, {}, {})
  {
    SamePlaces(c, s, r, {});
    SameTimers(s, r, {});
    hide Placed, TimersOk;
    SameTasks(c, s, r);
  }

  lemma ResumeInv(c: Config, s: Sys, t: nat)
    requires Core(c, s, {}, {}, {}) && Dsp(s) && !s.inInt && t < |s.tasks|
    requires forall u :: 0 <= u < |s.tasks| && s.tasks[u].raster ==>
      s.tasks[u].st == Runnable && (u == t || !s.tasks[u].enater)
    ensures Inv(c, Resume(c, s, t).0)
  {
    if s.tasks[t].raster && s.tasks[t].enater {
      EndTaskInv(c, s, t);
    } else {
      SettleInv(c, s);
    }
  }

  lemma OwnInv(c: Config, s: Sys, call: OwnCall)
    requires Inv(c, s) && TaskCtx(s)
    ensures Inv(c, OwnStep(c, s, call, s.run.value).0)
  {
    hide Placed, TasksOk, MutexesOk, Settle;
    var t := s.run.value;
    match call {
      case ExtTsk =>
        ModeCore(c, s, s.(enadsp := true, ipm := 0));
        EndTaskInv(c, s.(enadsp := true, ipm := 0), t);
      case DisTer =>
        FlagsInv(c, s, t, s.tasks[t].(enater := false));
      case EnaTer =>
        if s.tasks[t].raster && Dsp(s) {
          EndTaskInv(c, s, t);
        } else {
          FlagsInv(c, s, t, s.tasks[t].(enater := true));
        }
      case DisDsp =>
        ModeCore(c, s, s.(enadsp := false));
      case EnaDsp =>
        var s1 := s.(enadsp := true);
        ModeCore(c, s, s1);
        if Dsp(s1) {
          ResumeInv(c, s1, t);
        }
      case ChgIpm(intpri) =>
        var s1 := s.(ipm := intpri);
        ModeCore(c, s, s1);
        if Dsp(s1) {
          ResumeInv(c, s1, t);
        }
    }
  }

  // ----- Steps and runs -----

  /** The callback of a registered timeout, which the timer has taken out, ends
    the wait as any other call would: the task does wait, and there is nothing
    left to take out. */
  lemma TimeOutEndsWait(c: Config, s: Sys, t: nat)
    requires Inv(c, s) && t in s.registered
    ensures t < |s.tasks| && s.tasks[t].st.Waiting?
    ensures TimeOut(c, s, t) == EndWait(c, s, t, if s.tasks[t].st.w == Dly then E_OK else E_TMOUT)
  {
    hide Placed, TasksOk, MutexesOk, MakeNonWait, Remove, Within;
    assert ToTimer(s, {}, t);
  }

  lemma TimerInv(c: Config, s: Sys, t: nat)
    requires Inv(c, s)
    ensures Inv(c, Step(c, s, TimerExpired(t)).0)
  {
    hide Placed, TasksOk, MutexesOk, EndWait, TimeOut;
    if s.inInt && t in s.registered {
      TimeOutEndsWait(c, s, t);
      var er := if s.tasks[t].st.w == Dly then E_OK else E_TMOUT;
      EndWaitInv(c, s, t, er);
      EndWaitEffect(c, s, t, er);
    }
  }

  lemma InterruptInv(c: Config, s: Sys)
    requires Inv(c, s)
    ensures Inv(c, Step(c, s, IntEnter).0) && Inv(c, Step(c, s, IntExit).0)
  {
    hide Placed, TasksOk, MutexesOk, Settle;
    ModeCore(c, s, s.(inInt := true));
    ModeCore(c, s, s.(inInt := false));
    SettleInv(c, s.(inInt := false));
  }

  lemma StepInv(c: Config, s: Sys, call: Call)
    requires Inv(c, s)
    ensures Inv(c, Step(c, s, call).0)
  {
    hide SharedStep, WaitingStep, TaskStep, OwnStep, Inv;
    match call {
      case ByAnyone(sc) => SharedInv(c, s, sc);
      case Blocking(wc) => if MayWait(s) { WaitingInv(c, s, wc); }
      case OnTasks(tc) => if TaskCtx(s) { TaskInv(c, s, tc); }
      case OnSelf(oc) => if TaskCtx(s) { OwnInv(c, s, oc); }
      case TimerExpired(t) => TimerInv(c, s, t);
      case IntEnter => InterruptInv(c, s);
      case IntExit => InterruptInv(c, s);
    }
  }

  lemma BootInv(c: Config)
    requires ConfigValid(c)
    ensures Inv(c, Boot(c))
  {
  }

  /** The invariant holds throughout every run from the start of the kernel. */
  lemma {:induction false} RunInv(c: Config, s: Sys, calls: seq<Call>)
    requires Inv(c, s)
    ensures Inv(c, Run(c, s, calls))
    decreases |calls|
  {
    if calls != [] {
      StepInv(c, s, calls[0]);
      RunInv(c, Step(c, s, calls[0]).0, calls[1..]);
    }
  }

  /** In every reachable state the priority of a task is the smallest of its base
    priority and the ceilings of the mutexes it has locked, and its base
    priority is never above the ceiling of a mutex it has locked or waits for. */
  lemma CeilingRule(c: Config, calls: seq<Call>, t: nat)
    requires ConfigValid(c) && t < |c.ipri|
    ensures var s := Run(c, Boot(c), calls);
      && s.pri[t] <= s.tasks[t].bpri
      && (forall m :: m in s.held[t] ==> IsMutex(c, m))
      && (forall m :: m in s.held[t] && c.objs[m].Ceiling? ==> s.pri[t] <= c.objs[m].ceil <= s.tasks[t].bpri)
      && (s.pri[t] == s.tasks[t].bpri || exists m :: m in s.held[t] && c.objs[m].Ceiling? && c.objs[m].ceil == s.pri[t])
      && (forall m: nat :: WaitsForMutex(c, s.tasks[t].st, m) && c.objs[m].Ceiling? ==>
        c.objs[m].ceil <= s.tasks[t].bpri)
  {
    BootInv(c);
    RunInv(c, Boot(c), calls);
    var s := Run(c, Boot(c), calls);
    assert TaskOk(c, s, t);
    assert forall m :: m in s.held[t] ==> IsMutex(c, m);
    BoostedIsMinimum(c, s.held[t], s.tasks[t].bpri);
  }

  lemma {:induction false} BoostedIsMinimum(c: Config, ms: seq<nat>, b: nat)
    requires forall m :: m in ms ==> m < |c.objs|
    ensures var p := Boosted(c, ms, b);
      && p <= b && (forall m :: m in ms && c.objs[m].Ceiling? ==> p <= c.objs[m].ceil)
      && (p == b || exists m :: m in ms && c.objs[m].Ceiling? && c.objs[m].ceil == p)
    decreases |ms|
  {
    if ms != [] {
      var n := |ms| - 1;
      assert ms == ms[..n] + [ms[n]];
      assert forall m :: m in ms <==> m in ms[..n] || m == ms[n];
      BoostedIsMinimum(c, ms[..n], b);
    }
  }
}
