/** What calls and interrupts do to the dispatching state, the interrupt context
  and the choice of the running task. */
module KernelModes {
  import opened Options
  import opened Queues
  import opened KernelState
  import opened KernelCalls
  import opened KernelPlacement
  import opened KernelInvariant
  import opened KernelLocking
  import opened KernelSteps
  import opened KernelEffects

  /** The running task changes only outside interrupts and while dispatching is
    possible. */
  predicate Dispatched(s: Sys, r: Sys) { r.run != s.run ==> !r.inInt && r.enadsp && r.ipm == 0 }

  predicate ModeKept(s: Sys, r: Sys) {
    r.enadsp == s.enadsp && r.ipm == s.ipm && r.inInt == s.inInt && Dispatched(s, r)
  }

  lemma SettleMode(c: Config, s: Sys, r: Sys)
    requires Shaped(c, r) && SameMode(s, r)
    ensures ModeKept(s, SettleShaped(c, r))
  {
    hide Shaped, Top;
  }

  lemma RotRdqMode(c: Config, s: Sys, tskpri: Option<nat>)
    requires Shaped(c, s)
    ensures ModeKept(s, SharedStep(c, s, RotRdq(tskpri)).0)
  {
    hide Rotate, SettleShaped, Within;
    var p := if tskpri.Some? then tskpri.value else if s.run.Some? then s.tasks[s.run.value].bpri else 0;
    if p < TNUM_TPRI {
      RotateMode(c, s, p);
    }
  }

  lemma WakeObjMode(c: Config, s: Sys, o: nat)
    requires Shaped(c, s)
    ensures ModeKept(s, SharedStep(c, s, WakeObj(o)).0)
  {
    hide EndWait, SettleShaped;
    if o < |c.objs| && s.wq[o] != [] {
      EndWaitMode(c, s, s.wq[o][0], E_OK);
    }
  }

  lemma SharedMode(c: Config, s: Sys, call: SharedCall)
    requires Shaped(c, s)
    ensures ModeKept(s, SharedStep(c, s, call).0)
  {
    hide EndWait, MakeRunnable, SettleShaped, Within;
    match call {
      case ActTsk(t) =>
        if t < |s.tasks| {
          RunnableEffect(c, s, t);
          SettleMode(c, s, MakeRunnable(c, s, t));
        }
      case WupTsk(t) => if t < |s.tasks| { EndWaitMode(c, s, t, E_OK); }
      case RelWai(t) => if t < |s.tasks| { EndWaitMode(c, s, t, E_RLWAI); }
      case RotRdq(tskpri) => RotRdqMode(c, s, tskpri);
      case WakeObj(o) => WakeObjMode(c, s, o);
    }
  }

  lemma RotateMode(c: Config, s: Sys, p: nat)
    requires Shaped(c, s) && p < TNUM_TPRI
    ensures ModeKept(s, SettleShaped(c, Rotate(c, s, p)))
  {
    hide Settle, Within;
    SettleMode(c, s, Rotate(c, s, p));
  }

  lemma EndWaitMode(c: Config, s: Sys, t: nat, er: Er)
    requires Shaped(c, s) && t < |s.tasks|
    ensures ModeKept(s, SettleShaped(c, EndWait(c, s, t, er)))
  {
    hide EndWait, Settle;
    EndWaitEffect(c, s, t, er);
    SettleMode(c, s, EndWait(c, s, t, er));
  }

  lemma BlockMode(c: Config, s: Sys, t: nat, w: Wait, tmo: Tmo)
    requires Shaped(c, s) && t < |s.tasks| && (w.Obj? ==> w.o < |c.objs|)
    ensures ModeKept(s, BlockRun(c, s, t, w, tmo).0)
  {
    hide Block, Settle;
    BlockEffect(c, s, t, w, tmo == Limited);
    SettleMode(c, s, Block(c, s, t, w, tmo == Limited));
  }

  lemma LockMode(c: Config, s: Sys, t: nat, m: nat, tmo: Tmo)
    requires Shaped(c, s) && t < |s.tasks| && IsMutex(c, m)
    ensures ModeKept(s, Lock(c, s, t, m, tmo).0)
  {
    hide Reprio, BlockRun, Repositioned;
    BlockMode(c, s, t, Obj(m), tmo);
    if Owner(s, m).None? {
      assert forall x :: x in s.held[t] ==> IsMutex(c, x);
      ReprioDelta(c, SetHeld(c, s, t, s.held[t] + [m]), t);
    }
  }

  lemma WaitingMode(c: Config, s: Sys, call: WaitingCall)
    requires Inv(c, s) && MayWait(s)
    ensures ModeKept(s, WaitingStep(c, s, call, s.run.value).0)
  {
    hide Placed, TimersOk, TasksOk, MutexesOk, BlockRun, Lock;
    var t := s.run.value;
    match call {
      case SlpTsk(tmo) => BlockMode(c, s, t, Slp, tmo);
      case DlyTsk => BlockMode(c, s, t, Dly, Limited);
      case LocMtx(m, tmo) => if IsMutex(c, m) { LockMode(c, s, t, m, tmo); }
      case WaitObj(o, tmo) => if o < |c.objs| { BlockMode(c, s, t, Obj(o), tmo); }
    }
  }

  lemma TerminateMode(c: Config, s: Sys, u: nat)
    requires Core(c, s, {}, {}, {}) && u < |s.tasks|
    ensures ModeKept(s, SettleShaped(c, Terminate(c, s, u)))
  {
    TerminateCore(c, s, u);
    hide Core, Terminate, Settle;
    SettleMode(c, s, Terminate(c, s, u));
  }

  lemma ChgPriMode(c: Config, s: Sys, u: nat, b: nat)
    requires Shaped(c, s) && u < |s.tasks| && b < TNUM_TPRI
    ensures ModeKept(s, ChangeBase(c, s, u, b))
  {
    hide ChangePriority, HoldsCeiling, Settle;
    var s1 := SetTask(c, s, u, s.tasks[u].(bpri := b));
    ChangePriorityEffect(c, s1, u, b, false);
    SettleMode(c, s, ChangePriority(c, s1, u, b, false));
  }

  lemma SusTskMode(c: Config, s: Sys, u: nat)
    requires Inv(c, s) && TaskCtx(s) && u < |s.tasks|
    ensures ModeKept(s, TaskStep(c, s, SusTsk(u), s.run.value).0)
  {
    hide Placed, TimersOk, TasksOk, MutexesOk, Unready, Settle;
    if s.tasks[u].st == Runnable {
      SuspendPlaced(c, s, u);
      SettleMode(c, s, Unready(c, SetSt(c, s, u, Suspended), u));
    }
  }

  lemma RsmTskMode(c: Config, s: Sys, u: nat)
    requires Inv(c, s) && TaskCtx(s) && u < |s.tasks|
    ensures ModeKept(s, TaskStep(c, s, RsmTsk(u), s.run.value).0)
  {
    hide Placed, TimersOk, TasksOk, MutexesOk, MakeRunnable, Settle;
    RunnableEffect(c, s, u);
    SettleMode(c, s, MakeRunnable(c, s, u));
  }

  lemma RasTerMode(c: Config, s: Sys, u: nat)
    requires Inv(c, s) && TaskCtx(s) && u < |s.tasks|
    ensures ModeKept(s, TaskStep(c, s, RasTer(u), s.run.value).0)
  {
    hide Placed, TimersOk, TasksOk, MutexesOk, MakeRunnable, Interrupted, Terminate, Settle;
    TerminateMode(c, s, u);
    if s.tasks[u].st != Runnable {
      InterruptedPlaced(c, s, u);
      RunnableEffect(c, Interrupted(c, s, u), u);
      SettleMode(c, s, MakeRunnable(c, Interrupted(c, s, u), u));
    }
  }

  lemma UnlMtxMode(c: Config, s: Sys, m: nat)
    requires Inv(c, s) && TaskCtx(s)
    ensures ModeKept(s, TaskStep(c, s, UnlMtx(m), s.run.value).0)
  {
    hide Placed, TimersOk, TasksOk, MutexesOk, HandOver, Reprio, Settle;
    var t := s.run.value;
    if IsMutex(c, m) && s.held[t] != [] && s.held[t][|s.held[t]| - 1] == m {
      UnlockCore(c, s, t);
      SettleMode(c, s, HandOver(c, Reprio(c, SetHeld(c, s, t, s.held[t][..|s.held[t]| - 1]), t), m));
    }
  }

  lemma InitMode(c: Config, s: Sys, o: nat)
    requires Inv(c, s) && TaskCtx(s) && s.run.value < |s.tasks|
    ensures ModeKept(s, TaskStep(c, s, IniMtx(o), s.run.value).0)
    ensures ModeKept(s, TaskStep(c, s, IniObj(o), s.run.value).0)
  {
    hide Placed, TimersOk, TasksOk, MutexesOk, EndWaits, Reprio, InitMutex, Settle, Repositioned;
    if o < |c.objs| {
      QueueWaits(c, s, {}, o);
      EndWaitsCore(c, s, {}, {}, {}, s.wq[o], E_DLT);
      var s1 := EndWaits(c, s, s.wq[o], E_DLT);
      SettleMode(c, s, s1);
      if IsMutex(c, o) {
        InitMutexForm(c, s, o);
        if Owner(s1, o).Some? {
          var u := Owner(s1, o).value;
          ReprioDelta(c, SetHeld(c, s1, u, Remove(s1.held[u], o)), u);
        }
        SettleMode(c, s, InitMutex(c, s, o));
      }
    }
  }

  lemma TaskMode(c: Config, s: Sys, call: TaskCall)
    requires Inv(c, s) && TaskCtx(s)
    ensures ModeKept(s, TaskStep(c, s, call, s.run.value).0)
  {
    hide Placed, TimersOk, TasksOk, MutexesOk, Terminate, ChangeBase, SuitsCeilings, Settle, Lock;
    match call {
      case ChgPri(u, tskpri) =>
        if u < |s.tasks| && (tskpri.Some? ==> tskpri.value < TNUM_TPRI) {
          ChgPriMode(c, s, u, if tskpri.Some? then tskpri.value else c.ipri[u]);
        }
      case TerTsk(u) => if u < |s.tasks| { TerminateMode(c, s, u); }
      case RasTer(u) => if u < |s.tasks| { RasTerMode(c, s, u); }
      case SusTsk(u) => if u < |s.tasks| { SusTskMode(c, s, u); }
      case RsmTsk(u) => if u < |s.tasks| { RsmTskMode(c, s, u); }
      case PlocMtx(m) => if IsMutex(c, m) { LockMode(c, s, s.run.value, m, Poll); }
      case UnlMtx(m) => UnlMtxMode(c, s, m);
      case IniMtx(m) => InitMode(c, s, m);
      case IniObj(o) => InitMode(c, s, o);
    }
  }

  /** The dispatching state that a call of the running task leaves. */
  function EnadspBy(s: Sys, call: OwnCall): bool {
    if call.EnaDsp? || call.ExtTsk? then true else if call.DisDsp? then false else s.enadsp
  }

  function IpmBy(s: Sys, call: OwnCall): int {
    if call.ChgIpm? then call.intpri else if call.ExtTsk? then 0 else s.ipm
  }

  lemma OwnMode(c: Config, s: Sys, call: OwnCall)
    requires Inv(c, s) && TaskCtx(s)
    ensures var r := OwnStep(c, s, call, s.run.value).0;
      r.enadsp == EnadspBy(s, call) && r.ipm == IpmBy(s, call) && !r.inInt && Dispatched(s, r)
  {
    hide Placed, TimersOk, TasksOk, MutexesOk, Terminate, Settle;
    var t := s.run.value;
    var s1 := s.(enadsp := EnadspBy(s, call), ipm := IpmBy(s, call));
    ModeCore(c, s, s1);
    TerminateMode(c, s1, t);
    SettleMode(c, s1, s1);
    match call {
      case ExtTsk => assert s1 == s.(enadsp := true, ipm := 0);
      case EnaTer => assert s1 == s;
      case EnaDsp => assert s1 == s.(enadsp := true);
      case ChgIpm(intpri) => assert s1 == s.(ipm := intpri);
      case DisTer =>
      case DisDsp =>
    }
  }

  /** What a step does to the mode. */
  ghost predicate ModeDelta(s: Sys, call: Call, r: Sys) {
    && r.inInt == (if call.IntEnter? then true else if call.IntExit? then false else s.inInt)
    && (if call.OnSelf? && !s.inInt && s.run.Some? then
          r.enadsp == EnadspBy(s, call.oc) && r.ipm == IpmBy(s, call.oc)
        else r.enadsp == s.enadsp && r.ipm == s.ipm)
    && Dispatched(s, r)
  }

  lemma StepMode(c: Config, s: Sys, call: Call)
    requires Inv(c, s)
    ensures ModeDelta(s, call, Step(c, s, call).0)
  {
    hide Core, SharedStep, WaitingStep, TaskStep, OwnStep, TimeOut;
    SameShape(c, s);
    match call {
      case ByAnyone(sc) => SharedMode(c, s, sc);
      case Blocking(wc) => if MayWait(s) { WaitingMode(c, s, wc); }
      case OnTasks(tc) => if TaskCtx(s) { TaskMode(c, s, tc); }
      case OnSelf(oc) => if TaskCtx(s) { OwnMode(c, s, oc); }
      case TimerExpired(t) =>
        if s.inInt && t in s.registered {
          TimeOutEndsWait(c, s, t);
          EndWaitEffect(c, s, t, if s.tasks[t].st.w == Dly then E_OK else E_TMOUT);
        }
      case IntEnter =>
      case IntExit => SettleMode(c, s.(inInt := false), s.(inInt := false));
    }
  }
}
