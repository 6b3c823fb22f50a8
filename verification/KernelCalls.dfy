/** The service calls of the task kernel, each as one step of the abstract
  state: error checks in the order of the code, then the effect. */
module KernelCalls {
  import opened Options
  import opened Queues
  import opened KernelState

  datatype Tmo = Poll | Forever | Limited

  /** How a call ends for its caller: with a result, by starting to wait, or
    with the end of the calling task. */
  datatype Outcome = Done(er: Er) | Waits | Ends

  /** Calls that tasks and interrupt handlers may both make. */
  datatype SharedCall =
    | ActTsk(t: nat)
    | WupTsk(t: nat)
    | RelWai(t: nat)
    | RotRdq(tskpri: Option<nat>)           // None for TPRI_SELF
    | WakeObj(o: nat)                       // the branch of sig_sem, snd_dtq, ... that ends the first wait

  /** Calls in which the running task may start to wait. */
  datatype WaitingCall =
    | SlpTsk(tmo: Tmo)
    | DlyTsk
    | LocMtx(m: nat, tmo: Tmo)
    | WaitObj(o: nat, tmo: Tmo)             // the waiting branch of wai_sem, snd_dtq, rcv_dtq, get_mpf, ...

  /** Other calls of the running task. */
  datatype TaskCall =
    | ChgPri(t: nat, tskpri: Option<nat>)   // None for TPRI_INI
    | RasTer(t: nat)
    | TerTsk(t: nat)
    | SusTsk(t: nat)
    | RsmTsk(t: nat)
    | PlocMtx(m: nat)
    | UnlMtx(m: nat)
    | IniMtx(m: nat)
    | IniObj(o: nat)

  /** Calls in which the running task changes its own termination or the
    dispatching state. */
  datatype OwnCall =
    | ExtTsk
    | DisTer
    | EnaTer
    | DisDsp
    | EnaDsp
    | ChgIpm(intpri: int)

  datatype Call =
    | ByAnyone(sc: SharedCall)
    | Blocking(wc: WaitingCall)
    | OnTasks(tc: TaskCall)
    | OnSelf(oc: OwnCall)
    | TimerExpired(t: nat)                  // wait_tmout and wait_tmout_ok, called back by the timer
    | IntEnter
    | IntExit

  predicate TaskCtx(s: Sys) { !s.inInt && s.run.Some? }

  /** CHECK_DISPATCH passes: task context and dispatching possible. */
  predicate MayWait(s: Sys) { TaskCtx(s) && Dsp(s) }

  predicate WaitsFor(s: Sys, t: nat, o: nat)
    requires t < |s.tasks|
  {
    s.tasks[t].st.Waiting? && s.tasks[t].st.w == Obj(o)
  }

  predicate Suspension(st: Stat) { st == Suspended || (st.Waiting? && st.sus) }

  /** The task that has locked mutex m. */
  function OwnerFrom(held: seq<seq<nat>>, m: nat, t: nat): (owner: Option<nat>)
    ensures owner.Some? ==> t <= owner.value < |held| && m in held[owner.value]
    ensures owner.None? ==> forall u :: t <= u < |held| ==> m !in held[u]
    decreases |held| - t
  {
    if t >= |held| then None else if m in held[t] then Some(t) else OwnerFrom(held, m, t + 1)
  }

  function Owner(s: Sys, m: nat): (owner: Option<nat>)
    ensures owner.Some? ==> owner.value < |s.held| && m in s.held[owner.value]
    ensures owner.None? ==> forall u :: 0 <= u < |s.held| ==> m !in s.held[u]
  {
    OwnerFrom(s.held, m, 0)
  }

  /** A base priority is too high for mutex m. */
  predicate AboveCeiling(c: Config, m: nat, b: nat)
    requires m < |c.objs|
  {
    c.objs[m].Ceiling? && b < c.objs[m].ceil
  }

  /** mutex_check_ceilpri: base priority b suits all the mutexes t has locked
    or waits for. */
  predicate SuitsCeilings(c: Config, s: Sys, t: nat, b: nat)
    requires Shaped(c, s) && t < |s.tasks|
  {
    forall m | 0 <= m < |c.objs| :: m in s.held[t] || (IsMutex(c, m) && WaitsFor(s, t, m)) ==> !AboveCeiling(c, m, b)
  }

  /** mutex_scan_ceilmtx. */
  predicate HoldsCeiling(c: Config, s: Sys, t: nat)
    requires Shaped(c, s) && t < |s.tasks|
  {
    exists m | m in s.held[t] :: m < |c.objs| && c.objs[m].Ceiling?
  }

  /** Ends the running task t and dispatches. */
  function EndTask(c: Config, s: Sys, t: nat): (r: Sys)
    requires Shaped(c, s) && t < |s.tasks|
    ensures Shaped(c, r)
  {
    SettleShaped(c, Terminate(c, s, t))
  }

  lemma {:induction false} TopShaped(c: Config, s: Sys, p: nat)
    requires Shaped(c, s)
    ensures TopFrom(s.ready, p).Some? ==> TopFrom(s.ready, p).value < |s.tasks|
    decreases |s.ready| - p
  {
    if p < |s.ready| && s.ready[p] == [] {
      TopShaped(c, s, p + 1);
    } else if p < |s.ready| {
      assert Within(s.ready[p], |s.tasks|);
    }
  }

  function SettleShaped(c: Config, s: Sys): (r: Sys)
    requires Shaped(c, s)
    ensures Shaped(c, r) && r == Settle(s)
  {
    TopShaped(c, s, 0);
    Settle(s)
  }

  /** The end of ena_dsp and chg_ipm once dispatching is possible again: a
    pending termination of the running task is carried out. */
  function Resume(c: Config, s: Sys, t: nat): (r: (Sys, Outcome))
    requires Shaped(c, s) && t < |s.tasks|
    ensures Shaped(c, r.0)
  {
    if s.tasks[t].raster && s.tasks[t].enater then (EndTask(c, s, t), Ends)
    else (SettleShaped(c, s), Done(E_OK))
  }

  function BlockRun(c: Config, s: Sys, t: nat, w: Wait, tmo: Tmo): (r: (Sys, Outcome))
    requires Shaped(c, s) && t < |s.tasks| && (w.Obj? ==> w.o < |c.objs|)
    ensures Shaped(c, r.0)
  {
    if tmo == Poll then (s, Done(E_TMOUT))
    else (SettleShaped(c, Block(c, s, t, w, tmo == Limited)), Waits)
  }

  /** The part common to loc_mtx, tloc_mtx and ploc_mtx. */
  function Lock(c: Config, s: Sys, t: nat, m: nat, tmo: Tmo): (r: (Sys, Outcome))
    requires Shaped(c, s) && t < |s.tasks| && IsMutex(c, m)
    ensures Shaped(c, r.0)
  {
    if AboveCeiling(c, m, s.tasks[t].bpri) then (s, Done(E_ILUSE))
    else match Owner(s, m)
      case None => (Reprio(c, SetHeld(c, s, t, s.held[t] + [m]), t), Done(E_OK))
      case Some(u) => if u == t then (s, Done(E_OBJ)) else BlockRun(c, s, t, Obj(m), tmo)
  }

  function ChangeBase(c: Config, s: Sys, t: nat, b: nat): (r: Sys)
    requires Shaped(c, s) && t < |s.tasks| && b < TNUM_TPRI
    ensures Shaped(c, r)
  {
    var s1 := SetTask(c, s, t, s.tasks[t].(bpri := b));
    if HoldsCeiling(c, s1, t) then s1 else SettleShaped(c, ChangePriority(c, s1, t, b, false))
  }

  /** ini_mtx: the waits end, and the mutex is taken from its holder. */
  function InitMutex(c: Config, s: Sys, m: nat): (r: Sys)
    requires Shaped(c, s) && IsMutex(c, m)
    ensures Shaped(c, r)
  {
    var s1 := EndWaits(c, s, s.wq[m], E_DLT);
    match Owner(s1, m)
    case None => s1
    case Some(u) =>
      HeldWithout(c, s1, u, m);
      Reprio(c, SetHeld(c, s1, u, Remove(s1.held[u], m)), u)
  }

  lemma HeldWithout(c: Config, s: Sys, t: nat, m: nat)
    requires Shaped(c, s) && t < |s.tasks|
    ensures forall x :: x in Remove(s.held[t], m) ==> IsMutex(c, x)
  {
    var k := RemovePlace(s.held[t], m);
    var q := s.held[t];
    assert forall x :: x in Remove(q, m) ==> x in q;
  }

  /** The wait of a task is cut short by a termination request. */
  function Interrupted(c: Config, s: Sys, t: nat): (r: Sys)
    requires Shaped(c, s) && t < |s.tasks|
    ensures Shaped(c, r)
  {
    var s1 := SetTask(c, s, t, s.tasks[t].(raster := true));
    if s1.tasks[t].st.Waiting? then
      var s2 := DequeueTmevtb(c, DequeueWobj(c, s1, t), t);
      SetTask(c, s2, t, s2.tasks[t].(wercd := E_RASTER))
    else s1
  }

  function Rotate(c: Config, s: Sys, p: nat): (r: Sys)
    requires Shaped(c, s) && p < TNUM_TPRI
    ensures Shaped(c, r)
  {
    var q := s.ready[p];
    if q == [] then s else SetReady(c, s, p, q[1..] + [q[0]])
  }

  function SharedStep(c: Config, s: Sys, call: SharedCall): (r: (Sys, Outcome))
    requires Shaped(c, s)
    ensures Shaped(c, r.0)
  {
    match call
    case ActTsk(t) =>
      if t >= |s.tasks| then (s, Done(E_ID))
      else if s.tasks[t].st == Dormant then (SettleShaped(c, MakeRunnable(c, s, t)), Done(E_OK))
      else if c.noactque[t] || s.tasks[t].actque then (s, Done(E_QOVR))
      else (SetTask(c, s, t, s.tasks[t].(actque := true)), Done(E_OK))
    case WupTsk(t) =>
      if t >= |s.tasks| then (s, Done(E_ID))
      else if s.tasks[t].st == Dormant then (s, Done(E_OBJ))
      else if s.tasks[t].st.Waiting? && s.tasks[t].st.w == Slp then
        (SettleShaped(c, EndWait(c, s, t, E_OK)), Done(E_OK))
      else if !s.tasks[t].wupque then (SetTask(c, s, t, s.tasks[t].(wupque := true)), Done(E_OK))
      else (s, Done(E_QOVR))
    case RelWai(t) =>
      if t >= |s.tasks| then (s, Done(E_ID))
      else if !s.tasks[t].st.Waiting? then (s, Done(E_OBJ))
      else (SettleShaped(c, EndWait(c, s, t, E_RLWAI)), Done(E_OK))
    case RotRdq(tskpri) =>
      if tskpri.None? && (s.inInt || s.run.None?) then (s, Done(E_PAR))
      else
        var p := if tskpri.None? then s.tasks[s.run.value].bpri else tskpri.value;
        if p >= TNUM_TPRI then (s, Done(E_PAR)) else (SettleShaped(c, Rotate(c, s, p)), Done(E_OK))
    case WakeObj(o) =>
      if o >= |c.objs| || IsMutex(c, o) then (s, Done(E_ID))
      else if s.wq[o] == [] then (s, Done(E_OK))
      else (SettleShaped(c, EndWait(c, s, s.wq[o][0], E_OK)), Done(E_OK))
  }

  /** CHECK_DISPATCH has passed and t is running. */
  function WaitingStep(c: Config, s: Sys, call: WaitingCall, t: nat): (r: (Sys, Outcome))
    requires Shaped(c, s) && t < |s.tasks|
    ensures Shaped(c, r.0)
  {
    match call
    case SlpTsk(tmo) =>
      if s.tasks[t].raster then (s, Done(E_RASTER))
      else if s.tasks[t].wupque then (SetTask(c, s, t, s.tasks[t].(wupque := false)), Done(E_OK))
      else BlockRun(c, s, t, Slp, tmo)
    case DlyTsk =>
      if s.tasks[t].raster then (s, Done(E_RASTER)) else BlockRun(c, s, t, Dly, Limited)
    case LocMtx(m, tmo) =>
      if !IsMutex(c, m) then (s, Done(E_ID))
      else if s.tasks[t].raster then (s, Done(E_RASTER))
      else Lock(c, s, t, m, tmo)
    case WaitObj(o, tmo) =>
      if o >= |c.objs| || IsMutex(c, o) then (s, Done(E_ID))
      else if s.tasks[t].raster then (s, Done(E_RASTER))
      else BlockRun(c, s, t, Obj(o), tmo)
  }

  function TaskStep(c: Config, s: Sys, call: TaskCall, t: nat): (r: (Sys, Outcome))
    requires Shaped(c, s) && t < |s.tasks|
    ensures Shaped(c, r.0)
  {
    match call
    case ChgPri(u, tskpri) =>
      if u >= |s.tasks| then (s, Done(E_ID))
      else if tskpri.Some? && tskpri.value >= TNUM_TPRI then (s, Done(E_PAR))
      else
        var b := if tskpri.Some? then tskpri.value else c.ipri[u];
        if s.tasks[u].st == Dormant then (s, Done(E_OBJ))
        else if !SuitsCeilings(c, s, u, b) then (s, Done(E_ILUSE))
        else (ChangeBase(c, s, u, b), Done(E_OK))
    case RasTer(u) =>
      if u >= |s.tasks| then (s, Done(E_ID))
      else if u == t then (s, Done(E_ILUSE))
      else if s.tasks[u].st == Dormant then (s, Done(E_OBJ))
      else if s.tasks[u].enater then (SettleShaped(c, Terminate(c, s, u)), Done(E_OK))
      else
        if s.tasks[u].st == Runnable then (SetTask(c, s, u, s.tasks[u].(raster := true)), Done(E_OK))
        else (SettleShaped(c, MakeRunnable(c, Interrupted(c, s, u), u)), Done(E_OK))
    case TerTsk(u) =>
      if u >= |s.tasks| then (s, Done(E_ID))
      else if u == t then (s, Done(E_ILUSE))
      else if s.tasks[u].st == Dormant then (s, Done(E_OBJ))
      else (SettleShaped(c, Terminate(c, s, u)), Done(E_OK))
    case SusTsk(u) =>
      if u >= |s.tasks| then (s, Done(E_ID))
      else if u == t && !Dsp(s) then (s, Done(E_CTX))
      else if s.tasks[u].st == Dormant then (s, Done(E_OBJ))
      else if s.tasks[u].raster then (s, Done(E_RASTER))
      else if s.tasks[u].st == Runnable then (SettleShaped(c, Unready(c, SetSt(c, s, u, Suspended), u)), Done(E_OK))
      else if Suspension(s.tasks[u].st) then (s, Done(E_QOVR))
      else (SetSt(c, s, u, s.tasks[u].st.(sus := true)), Done(E_OK))
    case RsmTsk(u) =>
      if u >= |s.tasks| then (s, Done(E_ID))
      else if !Suspension(s.tasks[u].st) then (s, Done(E_OBJ))
      else if s.tasks[u].st == Suspended then (SettleShaped(c, MakeRunnable(c, s, u)), Done(E_OK))
      else (SetSt(c, s, u, s.tasks[u].st.(sus := false)), Done(E_OK))
    case PlocMtx(m) =>
      if !IsMutex(c, m) then (s, Done(E_ID)) else Lock(c, s, t, m, Poll)
    case UnlMtx(m) =>
      if !IsMutex(c, m) then (s, Done(E_ID))
      else if s.held[t] == [] || s.held[t][|s.held[t]| - 1] != m then (s, Done(E_OBJ))
      else (SettleShaped(c, HandOver(c, Reprio(c, SetHeld(c, s, t, s.held[t][..|s.held[t]| - 1]), t), m)), Done(E_OK))
    case IniMtx(m) =>
      if !IsMutex(c, m) then (s, Done(E_ID)) else (SettleShaped(c, InitMutex(c, s, m)), Done(E_OK))
    case IniObj(o) =>
      if o >= |c.objs| || IsMutex(c, o) then (s, Done(E_ID))
      else (SettleShaped(c, EndWaits(c, s, s.wq[o], E_DLT)), Done(E_OK))
  }

  function OwnStep(c: Config, s: Sys, call: OwnCall, t: nat): (r: (Sys, Outcome))
    requires Shaped(c, s) && t < |s.tasks|
    ensures Shaped(c, r.0)
  {
    match call
    case ExtTsk => (EndTask(c, s.(enadsp := true, ipm := 0), t), Ends)
    case DisTer => (SetTask(c, s, t, s.tasks[t].(enater := false)), Done(E_OK))
    case EnaTer =>
      if s.tasks[t].raster && Dsp(s) then (EndTask(c, s, t), Ends)
      else (SetTask(c, s, t, s.tasks[t].(enater := true)), Done(E_OK))
    case DisDsp => (s.(enadsp := false), Done(E_OK))
    case EnaDsp =>
      var s1 := s.(enadsp := true);
      if Dsp(s1) then Resume(c, s1, t) else (s1, Done(E_OK))
    case ChgIpm(intpri) =>
      var s1 := s.(ipm := intpri);
      if Dsp(s1) then Resume(c, s1, t) else (s1, Done(E_OK))
  }

  /** One service call or interrupt event. */
  function Step(c: Config, s: Sys, call: Call): (r: (Sys, Outcome))
    requires Shaped(c, s)
    ensures Shaped(c, r.0)
  {
    match call
    case ByAnyone(sc) => if s.inInt || s.run.Some? then SharedStep(c, s, sc) else (s, Done(E_CTX))
    case Blocking(wc) => if MayWait(s) then WaitingStep(c, s, wc, s.run.value) else (s, Done(E_CTX))
    case OnTasks(tc) => if TaskCtx(s) then TaskStep(c, s, tc, s.run.value) else (s, Done(E_CTX))
    case OnSelf(oc) => if TaskCtx(s) then OwnStep(c, s, oc, s.run.value) else (s, Done(E_CTX))
    case TimerExpired(t) =>
      if !s.inInt || t >= |s.tasks| || t !in s.registered then (s, Done(E_OBJ)) else (TimeOut(c, s, t), Done(E_OK))
    case IntEnter => (s.(inInt := true), Done(E_OK))
    case IntExit => (SettleShaped(c, s.(inInt := false)), Done(E_OK))
  }

  /** The kernel before start-up: every task dormant, no task running.  The
    tasks to be active from the start are then activated one by one, and the
    first dispatch is the end of an interrupt. */
  function Boot(c: Config): (s: Sys)
    requires ConfigValid(c)
    ensures Shaped(c, s)
  {
    var n := |c.ipri|;
    Sys(seq(n, (t: nat) requires t < n => Task(Dormant, c.ipri[t], false, false, false, true, false, E_OK)),
        c.ipri, seq(n, _ => []), seq(TNUM_TPRI, _ => []), seq(|c.objs|, _ => []), {}, true, 0, None, true)
  }

  /** A run: the calls and interrupt events one after the other. */
  function Run(c: Config, s: Sys, calls: seq<Call>): (r: Sys)
    requires Shaped(c, s)
    ensures Shaped(c, r)
    decreases |calls|
  {
    if calls == [] then s else Run(c, Step(c, s, calls[0]).0, calls[1..])
  }
}
