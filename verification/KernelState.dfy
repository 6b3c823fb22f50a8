/** The abstract state of the task kernel and the effect of its service calls.

  Where the kernel maintains a value step by step (the priority bitmap, the
  task to be scheduled, the current priority, the chain of locked mutexes),
  this state has the value's definition instead. */
module KernelState {
  import opened Options
  import opened Queues

  const TNUM_TPRI := 16

  datatype Er = E_OK | E_CTX | E_PAR | E_ID | E_ILUSE | E_OBJ | E_QOVR | E_TMOUT | E_RLWAI | E_RASTER | E_DLT | E_SYS

  /** What a task waits for: to be woken up, for time to pass, or in the wait
    queue of an object. */
  datatype Wait = Slp | Dly | Obj(o: nat)

  /** A runnable task is running or ready; a waiting task may be suspended too. */
  datatype Stat = Dormant | Runnable | Suspended | Waiting(w: Wait, sus: bool)

  /** A wait queue: of a plain object, of a mutex, or of a mutex with a ceiling.
    The queue of a ceiling mutex is in priority order (TA_CEILING has the
    TA_TPRI bit). */
  datatype Object = Plain(tpri: bool) | Mutex(tpri: bool) | Ceiling(ceil: nat)

  datatype Config = Config(ipri: seq<nat>, noactque: seq<bool>, objs: seq<Object>)

  datatype Task = Task(
    st: Stat,        // tstat
    bpri: nat,       // bpriority
    actque: bool,
    wupque: bool,
    raster: bool,    // a termination request is pending
    enater: bool,    // termination is enabled
    tmevtb: bool,    // p_winfo->p_tmevtb is set: the last wait has, or had, a timeout
    wercd: Er)       // result of the last wait

  datatype Sys = Sys(
    tasks: seq<Task>,
    pri: seq<nat>,           // current priorities
    held: seq<seq<nat>>,     // the mutexes each task has locked, oldest first
    ready: seq<seq<nat>>,    // the ready queues by priority
    wq: seq<seq<nat>>,       // the wait queues by object
    registered: set<nat>,    // the tasks whose timeout block is registered with the timer
    enadsp: bool,            // dispatching enabled
    ipm: int,                // interrupt priority mask, 0 when fully open
    run: Option<nat>,        // the running task
    inInt: bool)             // in interrupt context

  predicate IsMutex(c: Config, o: nat) { o < |c.objs| && !c.objs[o].Plain? }

  predicate InPriorityOrder(c: Config, o: nat)
    requires o < |c.objs|
  {
    match c.objs[o]
    case Plain(tpri) => tpri
    case Mutex(tpri) => tpri
    case Ceiling(_) => true
  }

  ghost predicate ConfigValid(c: Config) {
    && |c.noactque| == |c.ipri|
    && (forall t :: 0 <= t < |c.ipri| ==> c.ipri[t] < TNUM_TPRI)
    && (forall o :: 0 <= o < |c.objs| && c.objs[o].Ceiling? ==> c.objs[o].ceil < TNUM_TPRI)
  }

  /** All numbers in the state are in range. */
  ghost predicate Shaped(c: Config, s: Sys) {
    && ConfigValid(c)
    && |s.tasks| == |s.pri| == |s.held| == |c.ipri|
    && |s.ready| == TNUM_TPRI && |s.wq| == |c.objs|
    && (forall t :: 0 <= t < |s.pri| ==> s.pri[t] < TNUM_TPRI && s.tasks[t].bpri < TNUM_TPRI)
    && (forall t, m :: 0 <= t < |s.held| && m in s.held[t] ==> IsMutex(c, m))
    && (forall p :: 0 <= p < |s.ready| ==> Within(s.ready[p], |s.tasks|))
    && (forall o :: 0 <= o < |s.wq| ==> Within(s.wq[o], |s.tasks|))
    && (forall t :: 0 <= t < |s.tasks| && s.tasks[t].st.Waiting? && s.tasks[t].st.w.Obj? ==>
      s.tasks[t].st.w.o < |c.objs|)
    && (s.run.Some? ==> s.run.value < |s.tasks|)
  }

  // ----- Closed forms -----

  function Lower(c: Config, m: nat, p: nat): nat {
    if m < |c.objs| && c.objs[m].Ceiling? && c.objs[m].ceil < p then c.objs[m].ceil else p
  }

  /** The smallest of a base priority and the ceilings of some mutexes. */
  function Boosted(c: Config, ms: seq<nat>, b: nat): (p: nat)
  {
    if ms == [] then b else Lower(c, ms[|ms| - 1], Boosted(c, ms[..|ms| - 1], b))
  }

  /** The priority a task must have: its base priority or, if that is higher,
    the highest ceiling among the ceiling mutexes it has locked. */
  function ClosedPri(c: Config, s: Sys, t: nat): (p: nat)
    requires t < |s.tasks| == |s.held|
  {
    Boosted(c, s.held[t], s.tasks[t].bpri)
  }

  /** The head of the first non-empty ready queue from priority p on. */
  function TopFrom(ready: seq<seq<nat>>, p: nat): (top: Option<nat>)
    decreases |ready| - p
  {
    if p >= |ready| then None
    else if ready[p] != [] then Some(ready[p][0])
    else TopFrom(ready, p + 1)
  }

  function Top(ready: seq<seq<nat>>): Option<nat> { TopFrom(ready, 0) }

  /** Dispatching is possible: enabled and the mask fully open. */
  predicate Dsp(s: Sys) { s.enadsp && s.ipm == 0 }

  /** The task that should run. */
  function Sched(s: Sys): Option<nat> { if Dsp(s) then Top(s.ready) else s.run }

  /** The dispatch at the end of a service call, put off in interrupt context. */
  function Settle(s: Sys): Sys { if s.inInt then s else s.(run := Sched(s)) }

  // ----- Steps that calls are made of -----

  function SetTask(c: Config, s: Sys, t: nat, task: Task): (r: Sys)
    requires Shaped(c, s) && t < |s.tasks| && task.bpri < TNUM_TPRI
    requires task.st.Waiting? && task.st.w.Obj? ==> task.st.w.o < |c.objs|
    ensures Shaped(c, r)
  {
    s.(tasks := s.tasks[t := task])
  }

  function SetSt(c: Config, s: Sys, t: nat, st: Stat): (r: Sys)
    requires Shaped(c, s) && t < |s.tasks|
    requires st.Waiting? && st.w.Obj? ==> st.w.o < |c.objs|
    ensures Shaped(c, r)
  {
    SetTask(c, s, t, s.tasks[t].(st := st))
  }

  function SetPri(c: Config, s: Sys, t: nat, p: nat): (r: Sys)
    requires Shaped(c, s) && t < |s.tasks| && p < TNUM_TPRI
    ensures Shaped(c, r)
  {
    s.(pri := s.pri[t := p])
  }

  function SetHeld(c: Config, s: Sys, t: nat, ms: seq<nat>): (r: Sys)
    requires Shaped(c, s) && t < |s.tasks| && forall m :: m in ms ==> IsMutex(c, m)
    ensures Shaped(c, r)
  {
    s.(held := s.held[t := ms])
  }

  function SetReady(c: Config, s: Sys, p: nat, q: seq<nat>): (r: Sys)
    requires Shaped(c, s) && p < TNUM_TPRI && Within(q, |s.tasks|)
    ensures Shaped(c, r)
  {
    s.(ready := s.ready[p := q])
  }

  function SetWq(c: Config, s: Sys, o: nat, q: seq<nat>): (r: Sys)
    requires Shaped(c, s) && o < |s.wq| && Within(q, |s.tasks|)
    ensures Shaped(c, r)
  {
    s.(wq := s.wq[o := q])
  }

  /** Takes t out of the ready queue of its priority. */
  function Unready(c: Config, s: Sys, t: nat): (r: Sys)
    requires Shaped(c, s) && t < |s.tasks|
    ensures Shaped(c, r)
  {
    RemoveWithin(s.ready[s.pri[t]], t, |s.tasks|);
    SetReady(c, s, s.pri[t], Remove(s.ready[s.pri[t]], t))
  }

  /** Puts t into the ready queue of its priority. */
  function Enready(c: Config, s: Sys, t: nat, front: bool): (r: Sys)
    requires Shaped(c, s) && t < |s.tasks|
    ensures Shaped(c, r)
  {
    var q := s.ready[s.pri[t]];
    SetReady(c, s, s.pri[t], if front then [t] + q else q + [t])
  }

  function Unwait(c: Config, s: Sys, t: nat, o: nat): (r: Sys)
    requires Shaped(c, s) && o < |s.wq|
    ensures Shaped(c, r)
  {
    RemoveWithin(s.wq[o], t, |s.tasks|);
    SetWq(c, s, o, Remove(s.wq[o], t))
  }

  /** Puts t into the wait queue of object o, in priority or in arrival order. */
  function Enwait(c: Config, s: Sys, t: nat, o: nat): (r: Sys)
    requires Shaped(c, s) && t < |s.tasks| && o < |s.wq|
    ensures Shaped(c, r)
  {
    InsertTpriWithin(s.wq[o], t, s.pri);
    SetWq(c, s, o, if InPriorityOrder(c, o) then InsertTpri(s.wq[o], t, s.pri) else s.wq[o] + [t])
  }

  /** wait_dequeue_wobj. */
  function DequeueWobj(c: Config, s: Sys, t: nat): (r: Sys)
    requires Shaped(c, s) && t < |s.tasks|
    ensures Shaped(c, r)
  {
    match s.tasks[t].st
    case Waiting(Obj(o), _) => Unwait(c, s, t, o)
    case _ => s
  }

  /** wait_dequeue_tmevtb: the timeout block leaves the timer if there is one. */
  function DequeueTmevtb(c: Config, s: Sys, t: nat): (r: Sys)
    requires Shaped(c, s) && t < |s.tasks|
    ensures Shaped(c, r)
  {
    if s.tasks[t].tmevtb then s.(registered := s.registered - {t}) else s
  }

  /** make_runnable for a task that is in no queue. */
  function MakeRunnable(c: Config, s: Sys, t: nat): (r: Sys)
    requires Shaped(c, s) && t < |s.tasks|
    ensures Shaped(c, r)
  {
    Enready(c, SetSt(c, s, t, Runnable), t, false)
  }

  /** make_non_wait: the end of a wait, into the ready queue unless suspended. */
  function MakeNonWait(c: Config, s: Sys, t: nat): (r: Sys)
    requires Shaped(c, s) && t < |s.tasks|
    ensures Shaped(c, r)
  {
    match s.tasks[t].st
    case Waiting(_, true) => SetSt(c, s, t, Suspended)
    case _ => MakeRunnable(c, s, t)
  }

  /** Ends the wait of task t with the given result. */
  function EndWait(c: Config, s: Sys, t: nat, er: Er): (r: Sys)
    requires Shaped(c, s) && t < |s.tasks|
    ensures Shaped(c, r)
  {
    var s1 := DequeueTmevtb(c, DequeueWobj(c, s, t), t);
    MakeNonWait(c, SetTask(c, s1, t, s1.tasks[t].(wercd := er)), t)
  }

  /** init_wait_queue: ends the waits of the tasks in q, first to last. */
  function EndWaits(c: Config, s: Sys, q: seq<nat>, er: Er): (r: Sys)
    requires Shaped(c, s) && Within(q, |s.tasks|)
    ensures Shaped(c, r)
    decreases |q|
  {
    if q == [] then s else EndWaits(c, EndWait(c, s, q[0], er), q[1..], er)
  }

  /** The timer has taken the timeout block of task t out and calls back:
    wait_tmout or, for a delay, wait_tmout_ok. */
  function TimeOut(c: Config, s: Sys, t: nat): (r: Sys)
    requires Shaped(c, s) && t < |s.tasks|
    ensures Shaped(c, r)
  {
    var s1 := s.(registered := s.registered - {t});
    if s1.tasks[t].st.Waiting? && s1.tasks[t].st.w == Dly then
      MakeNonWait(c, SetTask(c, s1, t, s1.tasks[t].(wercd := E_OK)), t)
    else
      var s2 := DequeueWobj(c, s1, t);
      MakeNonWait(c, SetTask(c, s2, t, s2.tasks[t].(wercd := E_TMOUT)), t)
  }

  /** make_wait and make_wait_tmout. */
  function MakeWait(c: Config, s: Sys, t: nat, w: Wait, timed: bool): (r: Sys)
    requires Shaped(c, s) && t < |s.tasks| && (w.Obj? ==> w.o < |c.objs|)
    ensures Shaped(c, r)
  {
    var s1 := Unready(c, s, t);
    var s2 := SetTask(c, s1, t, s1.tasks[t].(st := Waiting(w, false), tmevtb := timed));
    if timed then s2.(registered := s2.registered + {t}) else s2
  }

  /** The running task t starts to wait. */
  function Block(c: Config, s: Sys, t: nat, w: Wait, timed: bool): (r: Sys)
    requires Shaped(c, s) && t < |s.tasks| && (w.Obj? ==> w.o < |c.objs|)
    ensures Shaped(c, r)
  {
    var s1 := MakeWait(c, s, t, w, timed);
    if w.Obj? then Enwait(c, s1, t, w.o) else s1
  }

  /** change_priority: the new priority and the new place in the ready queue or
    in a wait queue in priority order. */
  function ChangePriority(c: Config, s: Sys, t: nat, p: nat, front: bool): (r: Sys)
    requires Shaped(c, s) && t < |s.tasks| && p < TNUM_TPRI
    ensures Shaped(c, r)
  {
    match s.tasks[t].st
    case Runnable => Enready(c, SetPri(c, Unready(c, s, t), t, p), t, front)
    case Waiting(Obj(o), _) =>
      if InPriorityOrder(c, o) then Enwait(c, SetPri(c, Unwait(c, s, t, o), t, p), t, o) else SetPri(c, s, t, p)
    case _ => SetPri(c, s, t, p)
  }

  lemma {:induction false} BoostedBound(c: Config, ms: seq<nat>, b: nat)
    requires ConfigValid(c) && b < TNUM_TPRI
    ensures Boosted(c, ms, b) < TNUM_TPRI
  {
    if ms != [] {
      BoostedBound(c, ms[..|ms| - 1], b);
    }
  }

  /** Brings the priority of t to its closed form, ahead of its equals. */
  function Reprio(c: Config, s: Sys, t: nat): (r: Sys)
    requires Shaped(c, s) && t < |s.tasks|
    ensures Shaped(c, r)
  {
    BoostedBound(c, s.held[t], s.tasks[t].bpri);
    var p := ClosedPri(c, s, t);
    if p == s.pri[t] then s else ChangePriority(c, s, t, p, true)
  }

  /** mutex_release: mutex m, which nobody holds, goes to its first waiter. */
  function HandOver(c: Config, s: Sys, m: nat): (r: Sys)
    requires Shaped(c, s) && IsMutex(c, m)
    ensures Shaped(c, r)
  {
    if s.wq[m] == [] then s
    else
      var t := s.wq[m][0];
      var s1 := DequeueTmevtb(c, Unwait(c, s, t, m), t);
      var s2 := SetHeld(c, s1, t, s1.held[t] + [m]);
      var s3 := SetTask(c, s2, t, s2.tasks[t].(wercd := E_OK));
      BoostedBound(c, s3.held[t], s3.tasks[t].bpri);
      MakeNonWait(c, SetPri(c, s3, t, ClosedPri(c, s3, t)), t)
  }

  /** mutex_release_all: hands over the mutexes ms, last to first. */
  function HandOverAll(c: Config, s: Sys, ms: seq<nat>): (r: Sys)
    requires Shaped(c, s) && forall m :: m in ms ==> IsMutex(c, m)
    ensures Shaped(c, r)
    decreases |ms|
  {
    if ms == [] then s
    else HandOverAll(c, HandOver(c, s, ms[|ms| - 1]), ms[..|ms| - 1])
  }

  /** make_dormant. */
  function MakeDormant(c: Config, s: Sys, t: nat): (r: Sys)
    requires Shaped(c, s) && t < |s.tasks|
    ensures Shaped(c, r)
  {
    var k := s.tasks[t];
    SetPri(c, SetTask(c, s, t, Task(Dormant, c.ipri[t], k.actque, false, false, true, k.tmevtb, k.wercd)), t, c.ipri[t])
  }

  /** Unlinks a task that is about to become dormant from its queue. */
  function Unlink(c: Config, s: Sys, t: nat): (r: Sys)
    requires Shaped(c, s) && t < |s.tasks|
    ensures Shaped(c, r)
  {
    match s.tasks[t].st
    case Runnable => Unready(c, s, t)
    case Waiting(_, _) => DequeueTmevtb(c, DequeueWobj(c, s, t), t)
    case _ => s
  }

  /** task_terminate. */
  function Terminate(c: Config, s: Sys, t: nat): (r: Sys)
    requires Shaped(c, s) && t < |s.tasks|
    ensures Shaped(c, r)
  {
    var s1 := Unlink(c, s, t);
    var s2 := HandOverAll(c, SetHeld(c, s1, t, []), s1.held[t]);
    var s3 := MakeDormant(c, s2, t);
    if s3.tasks[t].actque then MakeRunnable(c, SetTask(c, s3, t, s3.tasks[t].(actque := false)), t) else s3
  }
}
