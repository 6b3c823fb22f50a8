/** What becomes of a task, its requests and its waits in runs of calls and
  interrupt events. */
module KernelLaws {
  import opened Options
  import opened Queues
  import opened KernelState
  import opened KernelCalls
  import opened KernelPlacement
  import opened KernelInvariant
  import opened KernelSteps
  import opened KernelDeltas
  import opened KernelEffects
  import opened KernelModes
  import opened KernelRuns

  // ----- One task in one step -----

  /** The call has ended task t. */
  predicate EndedBy(s: Sys, call: Call, out: Outcome, t: nat) {
    || (out == Ends && s.run == Some(t))
    || (out == Done(E_OK) && call == OnTasks(TerTsk(t)))
    || (out == Done(E_OK) && call == OnTasks(RasTer(t)) && t < |s.tasks| && s.tasks[t].enater)
  }

  /** The holder of mutex m has given it up. */
  predicate GivenUp(s: Sys, call: Call, out: Outcome, m: nat) {
    || (out == Done(E_OK) && call == OnTasks(UnlMtx(m)))
    || exists x | 0 <= x < |s.held| :: EndedBy(s, call, out, x) && m in s.held[x]
  }

  /** A mutex passes to task t. */
  predicate HandsTo(s: Sys, call: Call, out: Outcome, t: nat) {
    exists m | 0 <= m < |s.wq| :: GivenUp(s, call, out, m) && s.wq[m] != [] && s.wq[m][0] == t
  }

  /** The result with which the call ends the wait of task t. */
  function WaitResult(s: Sys, call: Call, out: Outcome, t: nat): Option<Er>
    requires t < |s.tasks|
  {
    if !s.tasks[t].st.Waiting? || out.Waits? || (out.Done? && out.er != E_OK) then None
    else match call
      case ByAnyone(WupTsk(u)) => if u == t && s.tasks[t].st.w == Slp then Some(E_OK) else None
      case ByAnyone(RelWai(u)) => if u == t then Some(E_RLWAI) else None
      case ByAnyone(WakeObj(o)) => if o < |s.wq| && s.wq[o] != [] && s.wq[o][0] == t then Some(E_OK) else None
      case TimerExpired(u) => if u == t then Some(if s.tasks[t].st.w == Dly then E_OK else E_TMOUT) else None
      case OnTasks(IniMtx(m)) => if s.tasks[t].st.w == Obj(m) then Some(E_DLT) else None
      case OnTasks(IniObj(o)) => if s.tasks[t].st.w == Obj(o) then Some(E_DLT) else None
      case _ =>
        if call == OnTasks(RasTer(t)) then Some(E_RASTER)
        else if HandsTo(s, call, out, t) then Some(E_OK) else None
  }

  /** What the running task waits for after a call that may wait. */
  function WaitOf(call: WaitingCall): Wait {
    match call
    case SlpTsk(_) => Slp
    case DlyTsk => Dly
    case LocMtx(m, _) => Obj(m)
    case WaitObj(o, _) => Obj(o)
  }

  function TmoOf(call: WaitingCall): Tmo { if call.DlyTsk? then Limited else call.tmo }

  /** Task t after a call that was answered E_OK and ended neither it nor its wait. */
  function Granted(c: Config, s: Sys, call: Call, t: nat): Task
    requires t < |s.tasks| && t < |c.ipri|
  {
    var k := s.tasks[t];
    match call
    case ByAnyone(ActTsk(u)) => if u != t then k else if k.st == Dormant then k.(st := Runnable) else k.(actque := true)
    case ByAnyone(WupTsk(u)) => if u == t then k.(wupque := true) else k
    case Blocking(SlpTsk(_)) => if s.run == Some(t) then k.(wupque := false) else k
    case OnTasks(ChgPri(u, tskpri)) =>
      if u == t then k.(bpri := if tskpri.Some? then tskpri.value else c.ipri[t]) else k
    case OnTasks(RasTer(u)) => if u == t then k.(raster := true, st := Runnable) else k
    case OnTasks(SusTsk(u)) =>
      if u == t then k.(st := if k.st.Waiting? then Waiting(k.st.w, true) else Suspended) else k
    case OnTasks(RsmTsk(u)) =>
      if u == t then k.(st := if k.st.Waiting? then Waiting(k.st.w, false) else Runnable) else k
    case OnSelf(DisTer) => if s.run == Some(t) then k.(enater := false) else k
    case OnSelf(EnaTer) => if s.run == Some(t) then k.(enater := true) else k
    case _ => k
  }

  /** Task t after a call that ended neither it nor its wait. */
  function Otherwise(c: Config, s: Sys, call: Call, out: Outcome, t: nat): Task
    requires t < |s.tasks| && t < |c.ipri|
  {
    var k := s.tasks[t];
    if out == Done(E_OK) then Granted(c, s, call, t)
    else if out == Waits && s.run == Some(t) && call.Blocking? then
      k.(st := Waiting(WaitOf(call.wc), false), tmevtb := TmoOf(call.wc) == Limited)
    else k
  }

  /** Task t after a call with the given answer, told from the state before. */
  function TaskAfter(c: Config, s: Sys, call: Call, out: Outcome, t: nat): Task
    requires t < |s.tasks| && t < |c.ipri|
  {
    var k := s.tasks[t];
    if EndedBy(s, call, out, t) then
      Task(if k.actque then Runnable else Dormant, c.ipri[t], false, false, false, true, k.tmevtb, k.wercd)
    else match WaitResult(s, call, out, t)
      case Some(er) =>
        if er == E_RASTER then k.(st := Runnable, raster := true, wercd := er)
        else k.(st := if k.st.sus then Suspended else Runnable, wercd := er)
      case None => Otherwise(c, s, call, out, t)
  }

  ghost predicate TasksAfter(c: Config, s: Sys, call: Call, out: Outcome, r: Sys) {
    |r.tasks| == |s.tasks| == |c.ipri| && forall t :: 0 <= t < |s.tasks| ==> r.tasks[t] == TaskAfter(c, s, call, out, t)
  }

  lemma RefusedAfter(c: Config, s: Sys, call: Call, er: Er)
    requires |s.tasks| == |c.ipri| && er != E_OK
    ensures TasksAfter(c, s, call, Done(er), s)
  {
  }

  lemma ReleasedOne(s: Sys, r: Sys, t: nat, er: Er, u: nat)
    requires Released(s, r, {}, {t}, er) && u < |s.tasks|
    ensures |r.tasks| == |s.tasks|
    ensures if u == t then Woken(s.tasks[u], r.tasks[u], er) else r.tasks[u] == s.tasks[u]
  {
  }

  /** Only unl_mtx and the end of a task hand mutexes over. */
  lemma NothingGivenUp(s: Sys, call: Call, out: Outcome)
    requires out != Ends
    requires call.OnTasks? && out == Done(E_OK) ==> !call.tc.UnlMtx? && !call.tc.TerTsk? && !call.tc.RasTer?
    ensures forall t: nat :: !HandsTo(s, call, out, t) && !EndedBy(s, call, out, t)
  {
  }

  lemma SharedAfter(c: Config, s: Sys, call: SharedCall, out: Outcome, r: Sys)
    requires Shaped(c, s) && SharedDelta(c, s, call, out, r)
    ensures TasksAfter(c, s, ByAnyone(call), out, r)
  {
    assert |s.tasks| == |c.ipri|;
    hide Shaped, HandsTo, EndedBy, Remove, Grown, Left;
    if out.Done? && out.er != E_OK {
      RefusedAfter(c, s, ByAnyone(call), out.er);
    } else {
      NothingGivenUp(s, ByAnyone(call), out);
    }
  }

  lemma WaitingAfter(c: Config, s: Sys, call: WaitingCall, out: Outcome, r: Sys)
    requires Shaped(c, s) && MayWait(s) && s.run.value < |s.tasks| && WaitingDelta(c, s, call, out, r, s.run.value)
    requires s.tasks[s.run.value].st == Runnable
    ensures TasksAfter(c, s, Blocking(call), out, r)
  {
    assert |s.tasks| == |c.ipri|;
    hide Shaped, HandsTo, EndedBy, Remove, Unreadied, QueuedAt, Replaced;
    if out.Done? && out.er != E_OK {
      RefusedAfter(c, s, Blocking(call), out.er);
    } else {
      NothingGivenUp(s, Blocking(call), out);
    }
  }

  /** Those to whom the mutexes of an ended task pass. */
  lemma HandsToHeads(s: Sys, call: Call, out: Outcome, x: nat)
    requires x < |s.held| && EndedBy(s, call, out, x) && (call.OnTasks? ==> !call.tc.UnlMtx?)
    requires forall y :: EndedBy(s, call, out, y) ==> y == x
    ensures forall t :: t in Heads(s, s.held[x]) <==> HandsTo(s, call, out, t)
  {
    forall t ensures t in Heads(s, s.held[x]) <==> HandsTo(s, call, out, t) {
      if m: nat :| m in s.held[x] && m < |s.wq| && s.wq[m] != [] && s.wq[m][0] == t {
        assert GivenUp(s, call, out, m);
      }
    }
  }

  lemma EndedAfter(c: Config, s: Sys, call: Call, out: Outcome, r: Sys, x: nat)
    requires Shaped(c, s) && x < |s.tasks| && EndedTask(c, s, r, x) && EndedBy(s, call, out, x)
    requires out == Ends ==> call.OnSelf?
    ensures TasksAfter(c, s, call, out, r)
  {
    assert forall y :: EndedBy(s, call, out, y) ==> y == x;
    HandsToHeads(s, call, out, x);
    hide Shaped, HandsTo, EndedBy, Heads, Remove;
    forall t | 0 <= t < |s.tasks| ensures r.tasks[t] == TaskAfter(c, s, call, out, t) {
    }
  }

  lemma OwnAfter(c: Config, s: Sys, call: OwnCall, out: Outcome, r: Sys)
    requires Shaped(c, s) && TaskCtx(s) && s.run.value < |s.tasks| && OwnDelta(c, s, call, out, r, s.run.value)
    requires s.tasks[s.run.value].st == Runnable
    ensures TasksAfter(c, s, OnSelf(call), out, r)
  {
    assert |s.tasks| == |c.ipri|;
    var t := s.run.value;
    if out == Ends {
      EndedAfter(c, s, OnSelf(call), out, r, t);
    } else {
      NothingGivenUp(s, OnSelf(call), out);
    }
    hide Shaped, HandsTo, EndedBy, EndedTask;
  }

  lemma EventAfter(c: Config, s: Sys, call: Call, out: Outcome, r: Sys)
    requires Shaped(c, s) && StepDelta(c, s, call, out, r) && (call.TimerExpired? || call.IntEnter? || call.IntExit?)
    ensures TasksAfter(c, s, call, out, r)
  {
    assert |s.tasks| == |c.ipri|;
    hide Shaped, HandsTo, EndedBy, Remove, Grown, Left;
    if out.Done? && out.er != E_OK {
      RefusedAfter(c, s, call, out.er);
    } else {
      NothingGivenUp(s, call, out);
    }
  }

  // ----- Calls on other tasks -----

  /** The one to whom the mutex passes that is unlocked. */
  lemma UnlockHeads(s: Sys, m: nat)
    ensures var call, out := OnTasks(UnlMtx(m)), Done(E_OK);
      && (forall t :: !EndedBy(s, call, out, t))
      && (forall t: nat :: t in Heads(s, [m]) <==> HandsTo(s, call, out, t))
  {
    var call, out := OnTasks(UnlMtx(m)), Done(E_OK);
    assert forall t :: !EndedBy(s, call, out, t);
    assert forall x: nat :: GivenUp(s, call, out, x) <==> x == m;
    hide EndedBy, GivenUp;
    forall t: nat ensures t in Heads(s, [m]) <==> HandsTo(s, call, out, t) {
      assert m in [m];
    }
  }

  lemma UnlMtxAfter(c: Config, s: Sys, m: nat, out: Outcome, r: Sys)
    requires Shaped(c, s) && TaskCtx(s) && s.run.value < |s.tasks|
    requires UnlMtxDelta(c, s, out, r, s.run.value, m)
    ensures TasksAfter(c, s, OnTasks(UnlMtx(m)), out, r)
  {
    var call := OnTasks(UnlMtx(m));
    assert |s.tasks| == |c.ipri|;
    if out == Done(E_OK) {
      hide EndedBy, Passed, UnlockedReady, HandsTo, Heads, Shaped;
      UnlockHeads(s, m);
    } else {
      RefusedAfter(c, s, call, out.er);
    }
  }

  /** The tasks in a wait queue are those that wait there. */
  lemma QueueMembers(c: Config, s: Sys, o: nat)
    requires Shaped(c, s) && Placed(c, s, {}) && o < |s.wq|
    ensures forall t: nat :: t in Members(s.wq[o]) <==>
      t < |s.tasks| && s.tasks[t].st.Waiting? && s.tasks[t].st.w == Obj(o)
  {
    assert WaitQueue(s, {}, o, s.wq[o]);
    forall t: nat
      ensures t in Members(s.wq[o]) <==> t < |s.tasks| && s.tasks[t].st.Waiting? && s.tasks[t].st.w == Obj(o)
    {
      assert t in s.wq[o] <==> ToWait(s, {}, o, t);
    }
  }

  lemma InitAfter(c: Config, s: Sys, call: TaskCall, o: nat, r: Sys)
    requires Shaped(c, s) && Placed(c, s, {}) && o < |s.wq| && (call == IniMtx(o) || call == IniObj(o))
    requires Released(s, r, {}, Members(s.wq[o]), E_DLT)
    ensures TasksAfter(c, s, OnTasks(call), Done(E_OK), r)
  {
    assert |s.tasks| == |c.ipri|;
    QueueMembers(c, s, o);
    NothingGivenUp(s, OnTasks(call), Done(E_OK));
    hide Shaped, Placed, HandsTo, EndedBy;
  }

  lemma ResetReleases(c: Config, s: Sys, r: Sys, m: nat)
    requires MutexReset(c, s, r, m)
    ensures m < |s.wq| && Released(s, r, {}, Members(s.wq[m]), E_DLT)
  {
    hide Repositioned, Remove, Members;
  }

  lemma PlainAfter(c: Config, s: Sys, call: TaskCall, out: Outcome, r: Sys)
    requires Shaped(c, s) && TaskCtx(s) && s.run.value < |s.tasks| && TaskDelta(c, s, call, out, r, s.run.value)
    requires call.SusTsk? || call.RsmTsk? || call.PlocMtx?
    ensures TasksAfter(c, s, OnTasks(call), out, r)
  {
    assert |s.tasks| == |c.ipri|;
    hide Shaped, HandsTo, EndedBy, Remove, Unreadied, Repositioned, Replaced;
    if out.Done? && out.er != E_OK {
      RefusedAfter(c, s, OnTasks(call), out.er);
    } else {
      NothingGivenUp(s, OnTasks(call), out);
    }
  }

  lemma ChgPriAfter(c: Config, s: Sys, u: nat, tskpri: Option<nat>, out: Outcome, r: Sys)
    requires Shaped(c, s) && TaskCtx(s) && ChgPriDelta(c, s, out, r, u, tskpri)
    ensures TasksAfter(c, s, OnTasks(ChgPri(u, tskpri)), out, r)
  {
    assert |s.tasks| == |c.ipri|;
    hide Shaped, HandsTo, EndedBy, Repositioned, CeilingOf;
    if out != Done(E_OK) {
      RefusedAfter(c, s, OnTasks(ChgPri(u, tskpri)), out.er);
    } else {
      NothingGivenUp(s, OnTasks(ChgPri(u, tskpri)), out);
    }
  }

  lemma RasTerAfter(c: Config, s: Sys, u: nat, out: Outcome, r: Sys)
    requires Shaped(c, s) && TaskCtx(s) && s.run.value < |s.tasks|
    requires RequestDelta(c, s, out, r, u, s.run.value)
    ensures TasksAfter(c, s, OnTasks(RasTer(u)), out, r)
  {
    var call := OnTasks(RasTer(u));
    assert |s.tasks| == |c.ipri|;
    if out != Done(E_OK) {
      RefusedAfter(c, s, call, out.er);
    } else if s.tasks[u].enater {
      EndedAfter(c, s, call, out, r, u);
    } else {
      assert forall t: nat :: !EndedBy(s, call, out, t) && !HandsTo(s, call, out, t);
      hide Shaped, HandsTo, EndedBy, Left;
    }
  }

  lemma TaskCallAfter(c: Config, s: Sys, call: TaskCall, out: Outcome, r: Sys)
    requires Shaped(c, s) && Placed(c, s, {}) && TaskCtx(s) && s.run.value < |s.tasks|
    requires TaskDelta(c, s, call, out, r, s.run.value)
    ensures TasksAfter(c, s, OnTasks(call), out, r)
  {
    assert |s.tasks| == |c.ipri|;
    hide Shaped, Placed, EndedTask, MutexReset, RequestDelta, UnlMtxDelta, ChgPriDelta, SuspendDelta, ResumeDelta;
    hide LockDelta, TasksAfter, Released;
    match call {
      case ChgPri(u, tskpri) => ChgPriAfter(c, s, u, tskpri, out, r);
      case RasTer(u) => RasTerAfter(c, s, u, out, r);
      case UnlMtx(m) => UnlMtxAfter(c, s, m, out, r);
      case TerTsk(u) =>
        if out == Done(E_OK) {
          EndedAfter(c, s, OnTasks(call), out, r, u);
        } else {
          RefusedAfter(c, s, OnTasks(call), out.er);
        }
      case IniMtx(m) =>
        if out == Done(E_OK) {
          ResetReleases(c, s, r, m);
          InitAfter(c, s, call, m, r);
        } else {
          RefusedAfter(c, s, OnTasks(call), out.er);
        }
      case IniObj(o) =>
        if out == Done(E_OK) {
          InitAfter(c, s, call, o, r);
        } else {
          RefusedAfter(c, s, OnTasks(call), out.er);
        }
      case _ => PlainAfter(c, s, call, out, r);
    }
  }

  lemma StepAfter(c: Config, s: Sys, call: Call)
    requires Inv(c, s)
    ensures var (r, out) := Step(c, s, call); TasksAfter(c, s, call, out, r)
  {
    StepDeltas(c, s, call);
    assert |s.tasks| == |c.ipri|;
    var (r, out) := Step(c, s, call);
    hide Step, SharedDelta, WaitingDelta, TaskDelta, OwnDelta, TasksAfter, Shaped, Placed, TasksOk, MutexesOk, TimersOk;
    match call {
      case ByAnyone(sc) =>
        if s.inInt || s.run.Some? { SharedAfter(c, s, sc, out, r); } else { RefusedAfter(c, s, call, E_CTX); }
      case Blocking(wc) =>
        if MayWait(s) { WaitingAfter(c, s, wc, out, r); } else { RefusedAfter(c, s, call, E_CTX); }
      case OnTasks(tc) =>
        if TaskCtx(s) { TaskCallAfter(c, s, tc, out, r); } else { RefusedAfter(c, s, call, E_CTX); }
      case OnSelf(oc) =>
        if TaskCtx(s) { OwnAfter(c, s, oc, out, r); } else { RefusedAfter(c, s, call, E_CTX); }
      case _ => EventAfter(c, s, call, out, r);
    }
  }

  // ----- Laws of reachable states -----

  /** What the call answers after a run. */
  function Answer(c: Config, calls: seq<Call>, call: Call): Outcome
    requires ConfigValid(c)
  {
    Step(c, After(c, calls), call).1
  }

  lemma NextStep(c: Config, calls: seq<Call>, call: Call)
    requires ConfigValid(c)
    ensures var s, r, out := After(c, calls), After(c, calls + [call]), Answer(c, calls, call);
      && Inv(c, s) && Inv(c, r) && |s.tasks| == |r.tasks| == |c.ipri|
      && StepDelta(c, s, call, out, r) && TasksAfter(c, s, call, out, r) && ModeDelta(s, call, r)
  {
    AfterInv(c, calls);
    AfterInv(c, calls + [call]);
    AfterOne(c, Boot(c), calls, call);
    var s := After(c, calls);
    StepDeltas(c, s, call);
    StepAfter(c, s, call);
    StepMode(c, s, call);
    hide Run, Step, Core, StepDelta, TasksAfter, ModeDelta;
  }

  /** In every reachable state, what each call and interrupt event answers and does to
    tasks, locks and queues, to the mode and to the choice of the running task. */
  lemma CallEffect(c: Config, calls: seq<Call>, call: Call)
    requires ConfigValid(c)
    ensures var s, r, out := After(c, calls), After(c, calls + [call]), Answer(c, calls, call);
      StepDelta(c, s, call, out, r) && ModeDelta(s, call, r)
  {
    hide After, Answer, StepDelta, ModeDelta;
    NextStep(c, calls, call);
  }

  /** ... and what becomes of each task: whether it has ended, its wait has ended and
    with what result, or which of its fields has changed. */
  lemma TaskEffect(c: Config, calls: seq<Call>, call: Call, t: nat)
    requires ConfigValid(c) && t < |c.ipri|
    ensures var s, r, out := After(c, calls), After(c, calls + [call]), Answer(c, calls, call);
      |s.tasks| == |r.tasks| == |c.ipri| && r.tasks[t] == TaskAfter(c, s, call, out, t)
  {
    hide After, Answer, StepDelta, ModeDelta, Inv, TaskAfter;
    NextStep(c, calls, call);
  }

  lemma RefusalDelta(c: Config, s: Sys, call: Call, out: Outcome, r: Sys)
    requires Shaped(c, s) && StepDelta(c, s, call, out, r) && out.Done? && out.er != E_OK
    requires s.run.Some? ==> s.run.value < |s.tasks|
    ensures r == s
  {
    hide Shaped, Heads, Released, Remove, Left, Grown, Unreadied, EndedTask, Replaced, MutexReset, WaitStarted;
  }

  /** A call that is refused, for whatever reason, changes nothing at all. */
  lemma RefusalChangesNothing(c: Config, calls: seq<Call>, call: Call)
    requires ConfigValid(c)
    ensures var out := Answer(c, calls, call);
      out.Done? && out.er != E_OK ==> After(c, calls + [call]) == After(c, calls)
  {
    hide After, Answer, StepDelta, ModeDelta, Core;
    NextStep(c, calls, call);
    var out := Answer(c, calls, call);
    if out.Done? && out.er != E_OK {
      RefusalDelta(c, After(c, calls), call, out, After(c, calls + [call]));
    }
  }

  // ----- Requests for a wake-up -----

  predicate Asleep(s: Sys, t: nat)
    requires t < |s.tasks|
  {
    s.tasks[t].st.Waiting? && s.tasks[t].st.w == Slp
  }

  /** In a queue is only who waits there. */
  lemma WaitsInQueue(c: Config, s: Sys, o: nat, t: nat)
    requires Inv(c, s) && o < |s.wq| && t in s.wq[o]
    ensures t < |s.tasks| && s.tasks[t].st.Waiting? && s.tasks[t].st.w == Obj(o)
  {
    assert WaitQueue(s, {}, o, s.wq[o]) && ToWait(s, {}, o, t);
  }

  /** A wait is ended by the hand-over of a mutex only if it is for that mutex. */
  lemma HandedItsMutex(c: Config, s: Sys, call: Call, out: Outcome, t: nat)
    requires Inv(c, s) && HandsTo(s, call, out, t)
    ensures t < |s.tasks| && s.tasks[t].st.Waiting? && s.tasks[t].st.w.Obj?
  {
    hide Inv;
    var m: nat :| m < |s.wq| && GivenUp(s, call, out, m) && s.wq[m] != [] && s.wq[m][0] == t;
    WaitsInQueue(c, s, m, t);
  }

  /** A task that sleeps is woken up by wup_tsk and by nothing else with that result. */
  lemma SleepEnds(c: Config, s: Sys, call: Call, out: Outcome, t: nat)
    requires Inv(c, s) && t < |s.tasks| && Asleep(s, t)
    ensures WaitResult(s, call, out, t) == Some(E_OK) <==>
      call == ByAnyone(WupTsk(t)) && out != Waits && !(out.Done? && out.er != E_OK)
  {
    if HandsTo(s, call, out, t) {
      HandedItsMutex(c, s, call, out, t);
    }
    hide HandsTo;
    match call {
      case ByAnyone(WakeObj(o)) =>
        if o < |s.wq| && s.wq[o] != [] && s.wq[o][0] == t {
          WaitsInQueue(c, s, o, t);
        }
      case _ =>
    }
    hide Inv;
  }

  /** No wake-up is ever lost: no task sleeps with a request pending. */
  lemma {:induction false} NoSleepWithRequest(c: Config, calls: seq<Call>, t: nat)
    requires ConfigValid(c) && t < |c.ipri|
    ensures var s := After(c, calls); |s.tasks| == |c.ipri| && (Asleep(s, t) ==> !s.tasks[t].wupque)
    decreases |calls|
  {
    if calls == [] {
      assert !Asleep(Boot(c), t);
    } else {
      var n := |calls| - 1;
      assert calls == calls[..n] + [calls[n]];
      NoSleepWithRequest(c, calls[..n], t);
      NextStep(c, calls[..n], calls[n]);
      hide After, Answer, ModeDelta;
      StaysAwake(c, After(c, calls[..n]), calls[n], Answer(c, calls[..n], calls[n]), After(c, calls), t);
    }
  }

  lemma GrantedRequests(c: Config, s: Sys, call: Call, t: nat)
    requires t < |s.tasks| && t < |c.ipri|
    ensures var k, k' := s.tasks[t], Granted(c, s, call, t);
      var used := s.run == Some(t) && call.Blocking? && call.wc.SlpTsk?;
      && k'.wupque == ((k.wupque && !used) || call == ByAnyone(WupTsk(t)))
      && k'.actque == (k.actque || (call == ByAnyone(ActTsk(t)) && k.st != Dormant))
  {
  }

  lemma GrantedWaits(c: Config, s: Sys, call: Call, t: nat)
    requires t < |s.tasks| && t < |c.ipri|
    ensures var k, k' := s.tasks[t], Granted(c, s, call, t);
      && (k'.st.Waiting? <==> k.st.Waiting? && call != OnTasks(RasTer(t)))
      && (k'.st.Waiting? ==> k'.st.w == k.st.w)
  {
  }

  /** The requests that a task has after a step. */
  lemma RequestsAfter(c: Config, s: Sys, call: Call, out: Outcome, t: nat)
    requires t < |s.tasks| && t < |c.ipri|
    ensures var k, k' := s.tasks[t], TaskAfter(c, s, call, out, t);
      var used := s.run == Some(t) && call.Blocking? && call.wc.SlpTsk? && out == Done(E_OK);
      if EndedBy(s, call, out, t) then !k'.wupque && !k'.actque
      else
        && (k.wupque ==> (k'.wupque <==> !used || WaitResult(s, call, out, t).Some?))
        && (k'.wupque && !k.wupque ==> call == ByAnyone(WupTsk(t)) && out == Done(E_OK))
        && (k.actque ==> k'.actque)
        && (k'.actque && !k.actque ==> call == ByAnyone(ActTsk(t)) && out == Done(E_OK) && k.st != Dormant)
  {
    hide EndedBy, WaitResult, Granted;
    GrantedRequests(c, s, call, t);
  }

  /** A task falls asleep in slp_tsk only. */
  lemma FallsAsleep(c: Config, s: Sys, call: Call, out: Outcome, t: nat)
    requires t < |s.tasks| && t < |c.ipri|
    ensures var k, k' := s.tasks[t], TaskAfter(c, s, call, out, t);
      k'.st.Waiting? && k'.st.w == Slp ==>
        || (k.st.Waiting? && k.st.w == Slp && (k'.wupque ==> k.wupque))
        || (out == Waits && s.run == Some(t) && call.Blocking? && call.wc.SlpTsk? && k'.wupque == k.wupque)
  {
    hide EndedBy, HandsTo, Granted;
    GrantedWaits(c, s, call, t);
    GrantedRequests(c, s, call, t);
  }

  lemma StaysAwake(c: Config, s: Sys, call: Call, out: Outcome, r: Sys, t: nat)
    requires Inv(c, s) && StepDelta(c, s, call, out, r) && TasksAfter(c, s, call, out, r) && t < |s.tasks|
    requires Asleep(s, t) ==> !s.tasks[t].wupque
    ensures t < |r.tasks| && (Asleep(r, t) ==> !r.tasks[t].wupque)
  {
    SleepAnswer(c, s, call, out, r);
    hide Core, StepDelta, HandsTo, TaskAfter, EndedBy;
    FallsAsleep(c, s, call, out, t);
    RequestsAfter(c, s, call, out, t);
    assert r.tasks[t] == TaskAfter(c, s, call, out, t);
  }

  /** slp_tsk waits only if there is no request; wup_tsk is refused only if there is one. */
  lemma SleepAnswer(c: Config, s: Sys, call: Call, out: Outcome, r: Sys)
    requires Inv(c, s) && StepDelta(c, s, call, out, r)
    ensures out == Waits ==> call.Blocking? && s.run.Some? && s.run.value < |s.tasks|
    ensures out == Waits && call.wc.SlpTsk? ==> !s.tasks[s.run.value].wupque && !s.tasks[s.run.value].raster
  {
    hide Core, Heads, Released, Remove, Left, Grown, Unreadied, EndedTask, Replaced, MutexReset, WaitStarted;
  }

  /** wup_tsk is answered E_OBJ for a dormant task, E_QOVR exactly if a request is
    pending already, and otherwise E_OK; then either the task slept and its sleep has
    ended with E_OK, or the request is pending. */
  lemma WakeUpRequest(c: Config, calls: seq<Call>, t: nat)
    requires ConfigValid(c) && t < |c.ipri|
    ensures var call := ByAnyone(WupTsk(t));
      var s, r, out := After(c, calls), After(c, calls + [call]), Answer(c, calls, call);
      && |s.tasks| == |r.tasks| == |c.ipri|
      && (s.inInt || s.run.Some? ==>
        && out == Done(if s.tasks[t].st == Dormant then E_OBJ else if s.tasks[t].wupque then E_QOVR else E_OK)
        && (out == Done(E_OK) ==>
          if Asleep(s, t) then
            !r.tasks[t].st.Waiting? && r.tasks[t].st != Dormant && r.tasks[t].wercd == E_OK && !r.tasks[t].wupque
          else r.tasks[t] == s.tasks[t].(wupque := true)))
  {
    hide After, Answer, ModeDelta, Core;
    var call := ByAnyone(WupTsk(t));
    NextStep(c, calls, call);
    NoSleepWithRequest(c, calls, t);
    hide Remove, Left, Grown;
  }

  /** slp_tsk with a request pending, and none for the task's end, is answered E_OK
    at once and uses the request up; with none pending the task sleeps. */
  lemma SleepUsesRequest(c: Config, calls: seq<Call>, tmo: Tmo)
    requires ConfigValid(c)
    ensures var call := Blocking(SlpTsk(tmo));
      var s, r, out := After(c, calls), After(c, calls + [call]), Answer(c, calls, call);
      && |s.tasks| == |r.tasks| == |c.ipri|
      && (!s.inInt && s.run.Some? && s.enadsp && s.ipm == 0 ==>
        var t := s.run.value;
        && t < |s.tasks|
        && (s.tasks[t].raster ==> out == Done(E_RASTER) && r == s)
        && (!s.tasks[t].raster && s.tasks[t].wupque ==>
          out == Done(E_OK) && r.tasks[t] == s.tasks[t].(wupque := false) && r.ready == s.ready)
        && (!s.tasks[t].raster && !s.tasks[t].wupque ==>
          if tmo == Poll then out == Done(E_TMOUT) && r == s else out == Waits && r.tasks[t].st == Waiting(Slp, false)))
  {
    hide After, Answer, ModeDelta, Core;
    NextStep(c, calls, Blocking(SlpTsk(tmo)));
    hide TasksAfter, Remove, Unreadied;
  }

  /** A pending request survives every call and event but two: a slp_tsk of its own
    task, which uses it up, and the end of the task.  Only wup_tsk makes one. */
  lemma RequestPending(c: Config, calls: seq<Call>, call: Call, t: nat)
    requires ConfigValid(c) && t < |c.ipri|
    ensures var s, r, out := After(c, calls), After(c, calls + [call]), Answer(c, calls, call);
      var used := s.run == Some(t) && call.Blocking? && call.wc.SlpTsk? && out == Done(E_OK);
      && |s.tasks| == |r.tasks| == |c.ipri|
      && (s.tasks[t].wupque ==> (r.tasks[t].wupque <==> !used && !EndedBy(s, call, out, t)))
      && (r.tasks[t].wupque && !s.tasks[t].wupque ==> call == ByAnyone(WupTsk(t)) && out == Done(E_OK))
  {
    hide After, Answer, ModeDelta, Inv, StepDelta, TaskAfter, EndedBy, HandsTo;
    NextStep(c, calls, call);
    var s, r, out := After(c, calls), After(c, calls + [call]), Answer(c, calls, call);
    assert r.tasks[t] == TaskAfter(c, s, call, out, t);
    RequestsAfter(c, s, call, out, t);
    if s.run == Some(t) {
      RunningWaitsNot(c, s, t);
    }
  }

  lemma RunningWaitsNot(c: Config, s: Sys, t: nat)
    requires Inv(c, s) && s.run == Some(t)
    ensures t < |s.tasks| && s.tasks[t].st == Runnable
  {
  }
}
