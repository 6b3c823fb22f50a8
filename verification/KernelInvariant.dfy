/** The invariant of the task kernel and the steps that keep it. */
module KernelInvariant {
  import opened Options
  import opened Queues
  import opened KernelState
  import opened KernelCalls
  import opened KernelPlacement

  predicate WaitsForMutex(c: Config, st: Stat, m: nat) {
    st.Waiting? && st.w == Obj(m) && IsMutex(c, m)
  }

  /** What holds of one task apart from its current priority: its base priority
    suits the ceilings of the mutexes it has locked or waits for, a delay has a
    timeout block, and nothing is left over in it when it is dormant. */
  ghost predicate TaskRest(c: Config, k: Task, held: seq<nat>, ipri: nat) {
    && (forall m: nat :: m in held || WaitsForMutex(c, k.st, m) ==> m < |c.objs| && !AboveCeiling(c, m, k.bpri))
    && (k.st.Waiting? && k.st.w == Dly ==> k.tmevtb)
    && (k.st == Dormant ==> held == [] && k.bpri == ipri && !k.raster && k.enater && !k.wupque)
  }

  /** ... and its current priority is the closed form. */
  ghost predicate TaskOk(c: Config, s: Sys, t: nat)
    requires Shaped(c, s) && t < |s.tasks|
  {
    s.pri[t] == ClosedPri(c, s, t) && TaskRest(c, s.tasks[t], s.held[t], c.ipri[t])
  }

  /** The tasks of `stale` are being changed. */
  ghost predicate TasksOk(c: Config, s: Sys, stale: set<nat>)
    requires Shaped(c, s)
  {
    forall t :: 0 <= t < |s.tasks| && t !in stale ==> TaskOk(c, s, t)
  }

  predicate Locked(s: Sys, m: nat) {
    exists t | 0 <= t < |s.held| :: m in s.held[t]
  }

  /** Task t waits only for a mutex that another task has locked. */
  ghost predicate WaitOk(c: Config, s: Sys, freed: set<nat>, t: nat)
    requires Shaped(c, s) && t < |s.tasks|
  {
    forall m: nat :: WaitsForMutex(c, s.tasks[t].st, m) ==> m !in s.held[t] && (m in freed || Locked(s, m))
  }

  /** A mutex is locked by one task at most, once; a task waits only for a
    mutex that another task has locked.  The mutexes of `freed` are being
    handed over and are locked by nobody. */
  ghost predicate MutexesOk(c: Config, s: Sys, freed: set<nat>)
    requires Shaped(c, s)
  {
    && (forall t :: 0 <= t < |s.held| ==> NoDup(s.held[t]))
    && (forall t, u, m :: 0 <= t < u < |s.held| && m in s.held[t] ==> m !in s.held[u])
    && (forall t, m :: 0 <= t < |s.held| && m in s.held[t] ==> m !in freed)
    && (forall t :: 0 <= t < |s.tasks| ==> WaitOk(c, s, freed, t))
  }

  /** The timeout block of task t belongs in the timer; those of the tasks of
    `loose` do not. */
  predicate ToTimer(s: Sys, loose: set<nat>, t: nat) {
    t < |s.tasks| && t !in loose && s.tasks[t].st.Waiting? && s.tasks[t].tmevtb
  }

  /** Exactly the timeout blocks of the tasks in a timed wait are registered. */
  ghost predicate TimersOk(s: Sys, loose: set<nat>) {
    forall t :: t in s.registered <==> ToTimer(s, loose, t)
  }

  ghost predicate Core(c: Config, s: Sys, loose: set<nat>, stale: set<nat>, freed: set<nat>) {
    Shaped(c, s) && Placed(c, s, loose) && TimersOk(s, loose) && TasksOk(c, s, stale) && MutexesOk(c, s, freed)
  }

  /** The timeout block of one task alone comes or goes. */
  lemma OneTimer(s: Sys, r: Sys, loose: set<nat>, loose': set<nat>, t: nat)
    requires TimersOk(s, loose) && |r.tasks| == |s.tasks|
    requires forall u :: 0 <= u < |s.tasks| && u != t ==>
      r.tasks[u] == s.tasks[u] && (u in r.registered <==> u in s.registered) && (u in loose' <==> u in loose)
    requires forall u :: u in r.registered && u != t ==> u in s.registered
    requires t in r.registered <==> ToTimer(r, loose', t)
    ensures TimersOk(r, loose')
  {
    forall u ensures u in r.registered <==> ToTimer(r, loose', u) {
      assert u in s.registered <==> ToTimer(s, loose, u);
    }
  }

  lemma SameTimers(s: Sys, r: Sys, loose: set<nat>)
    requires TimersOk(s, loose) && r.tasks == s.tasks && r.registered == s.registered
    ensures TimersOk(r, loose)
  {
    forall u ensures u in r.registered <==> ToTimer(r, loose, u) {
      assert u in s.registered <==> ToTimer(s, loose, u);
    }
  }

  /** The registered timeouts after wait_dequeue_tmevtb. */
  function Unregistered(s: Sys, t: nat): set<nat>
    requires t < |s.tasks|
  {
    if s.tasks[t].tmevtb then s.registered - {t} else s.registered
  }

  /** A task that does not wait any longer is not registered after that. */
  lemma TimerEnds(s: Sys, r: Sys, loose: set<nat>, loose': set<nat>, t: nat)
    requires TimersOk(s, loose) && |r.tasks| == |s.tasks| && t < |s.tasks| && r.registered == Unregistered(s, t)
    requires forall u :: 0 <= u < |s.tasks| && u != t ==> r.tasks[u] == s.tasks[u] && (u in loose' <==> u in loose)
    requires !ToTimer(r, loose', t)
    ensures TimersOk(r, loose')
  {
    assert t in s.registered <==> ToTimer(s, loose, t);
    OneTimer(s, r, loose, loose', t);
  }

  /** Nothing but tasks, priorities, locks, queues and timeouts changes, no
    termination flag does, and every runnable task but t stays as it is. */
  ghost predicate Kept(s: Sys, s': Sys, t: nat) {
    && SameMode(s, s') && |s'.tasks| == |s.tasks|
    && forall u :: 0 <= u < |s.tasks| && u != t ==>
         && s'.tasks[u].raster == s.tasks[u].raster && s'.tasks[u].enater == s.tasks[u].enater
         && (s.tasks[u].st == Runnable ==> s'.tasks[u].st == Runnable)
  }

  // ----- Ending a wait -----

  lemma DequeuePlaced(c: Config, s: Sys, loose: set<nat>, t: nat)
    requires Shaped(c, s) && Placed(c, s, loose)
    requires t < |s.tasks| && t !in loose && s.tasks[t].st != Runnable
    ensures Placed(c, DequeueWobj(c, s, t), loose + {t})
  {
    match s.tasks[t].st {
      case Waiting(Obj(o), _) => UnwaitPlaced(c, s, loose, t, o);
      case _ => Loosen(c, s, loose, t);
    }
  }

  /** A loose task made runnable gets its place. */
  lemma RunnablePlaced(c: Config, s: Sys, loose: set<nat>, t: nat)
    requires Shaped(c, s) && Placed(c, s, loose) && t < |s.tasks| && t in loose
    ensures Placed(c, MakeRunnable(c, s, t), loose - {t})
  {
    ChangeLoose(c, s, SetSt(c, s, t, Runnable), loose, t);
    EnreadyPlaced(c, SetSt(c, s, t, Runnable), loose, t, false);
  }

  lemma NonWaitPlaced(c: Config, s: Sys, loose: set<nat>, t: nat)
    requires Shaped(c, s) && Placed(c, s, loose) && t < |s.tasks| && t in loose
    ensures Placed(c, MakeNonWait(c, s, t), loose - {t})
  {
    match s.tasks[t].st {
      case Waiting(_, true) =>
        ChangeLoose(c, s, SetSt(c, s, t, Suspended), loose, t);
        Settled(c, SetSt(c, s, t, Suspended), loose, t);
      case _ =>
        RunnablePlaced(c, s, loose, t);
    }
  }

  lemma EndWaitPlaced(c: Config, s: Sys, loose: set<nat>, t: nat, er: Er)
    requires Shaped(c, s) && Placed(c, s, loose)
    requires t < |s.tasks| && t !in loose && s.tasks[t].st != Runnable
    ensures Placed(c, EndWait(c, s, t, er), loose)
  {
    DequeuePlaced(c, s, loose, t);
    var s1 := DequeueWobj(c, s, t);
    var s2 := DequeueTmevtb(c, s1, t);
    var s3 := SetTask(c, s2, t, s2.tasks[t].(wercd := er));
    ChangeLoose(c, s1, s3, loose + {t}, t);
    NonWaitPlaced(c, s3, loose + {t}, t);
    assert loose + {t} - {t} == loose;
  }

  /** The two states agree on everything but tasks, priorities, locks,
    queues and timeouts. */
  ghost predicate SameMode(s: Sys, r: Sys) {
    r.enadsp == s.enadsp && r.ipm == s.ipm && r.run == s.run && r.inInt == s.inInt
  }

  function AfterWait(st: Stat): Stat {
    if st.Waiting? && st.sus then Suspended else Runnable
  }

  lemma NonWaitEffect(c: Config, s: Sys, t: nat)
    requires Shaped(c, s) && t < |s.tasks|
    ensures var r := MakeNonWait(c, s, t);
      && r.pri == s.pri && r.held == s.held && r.wq == s.wq && r.registered == s.registered && SameMode(s, r)
      && r.tasks == s.tasks[t := s.tasks[t].(st := AfterWait(s.tasks[t].st))]
  {
  }

  lemma DequeueEffect(c: Config, s: Sys, t: nat)
    requires Shaped(c, s) && t < |s.tasks|
    ensures var r := DequeueWobj(c, s, t);
      && r.tasks == s.tasks && r.pri == s.pri && r.held == s.held && r.ready == s.ready
      && r.registered == s.registered && SameMode(s, r)
  {
  }

  /** EndWait changes nothing but its task, the queues and the timer. */
  lemma EndWaitEffect(c: Config, s: Sys, t: nat, er: Er)
    requires Shaped(c, s) && t < |s.tasks|
    ensures var r := EndWait(c, s, t, er);
      && r.pri == s.pri && r.held == s.held && SameMode(s, r) && r.registered == Unregistered(s, t)
      && r.tasks == s.tasks[t := s.tasks[t].(wercd := er, st := AfterWait(s.tasks[t].st))]
  {
    hide DequeueWobj, MakeNonWait, Within;
    var s1 := DequeueTmevtb(c, DequeueWobj(c, s, t), t);
    DequeueEffect(c, s, t);
    var k := s.tasks[t].(wercd := er);
    var s2 := SetTask(c, s1, t, k);
    NonWaitEffect(c, s2, t);
    hide Shaped;
    assert s.tasks[t := k][t := k.(st := AfterWait(k.st))] == s.tasks[t := k.(st := AfterWait(k.st))];
  }

  /** The locks are as before and nobody waits for another mutex. */
  lemma SameLocks(c: Config, s: Sys, r: Sys, freed: set<nat>)
    requires Shaped(c, s) && Shaped(c, r) && MutexesOk(c, s, freed)
    requires r.held == s.held
    requires forall t, m :: 0 <= t < |s.tasks| && WaitsForMutex(c, r.tasks[t].st, m) ==>
      WaitsForMutex(c, s.tasks[t].st, m)
    ensures MutexesOk(c, r, freed)
  {
    forall t | 0 <= t < |r.tasks| ensures WaitOk(c, r, freed, t) {
      assert WaitOk(c, s, freed, t);
      forall m: nat | WaitsForMutex(c, r.tasks[t].st, m) ensures m !in r.held[t] && (m in freed || Locked(r, m)) {
        assert WaitsForMutex(c, s.tasks[t].st, m);
        assert Locked(s, m) ==> Locked(r, m);
      }
    }
  }

  /** Only task t changes, and it is still as it should be. */
  lemma OneTask(c: Config, s: Sys, r: Sys, stale: set<nat>, t: nat)
    requires Shaped(c, s) && Shaped(c, r) && TasksOk(c, s, stale) && t < |s.tasks|
    requires forall u :: 0 <= u < |s.tasks| && u != t ==>
      r.tasks[u] == s.tasks[u] && r.pri[u] == s.pri[u] && r.held[u] == s.held[u]
    ensures TasksOk(c, r, stale + {t})
    ensures t in stale || TaskOk(c, r, t) ==> TasksOk(c, r, stale)
    ensures TaskOk(c, r, t) ==> TasksOk(c, r, stale - {t})
  {
    forall u | 0 <= u < |r.tasks| && u !in stale && u != t ensures TaskOk(c, r, u) {
      assert TaskOk(c, s, u);
    }
  }

  /** A state r that differs from s by the end of the wait of task t. */
  lemma WaitEnded(c: Config, s: Sys, r: Sys, loose: set<nat>, stale: set<nat>, freed: set<nat>, t: nat, er: Er)
    requires Core(c, s, loose, stale, freed) && Shaped(c, r) && Placed(c, r, loose)
    requires t < |s.tasks| && t !in loose && s.tasks[t].st.Waiting?
    requires r.pri == s.pri && r.held == s.held && SameMode(s, r) && r.registered == Unregistered(s, t)
    requires r.tasks == s.tasks[t := s.tasks[t].(wercd := er, st := AfterWait(s.tasks[t].st))]
    ensures Core(c, r, loose, stale, freed) && Kept(s, r, |s.tasks|)
  {
    hide Placed, NoDup, Within, Boosted;
    TimerEnds(s, r, loose, loose, t);
    hide TimersOk;
    if t !in stale {
      assert TaskOk(c, s, t);
    }
    OneTask(c, s, r, stale, t);
    SameLocks(c, s, r, freed);
  }

  lemma EndWaitCore(c: Config, s: Sys, loose: set<nat>, stale: set<nat>, freed: set<nat>, t: nat, er: Er)
    requires Core(c, s, loose, stale, freed)
    requires t < |s.tasks| && t !in loose && s.tasks[t].st.Waiting?
    ensures Core(c, EndWait(c, s, t, er), loose, stale, freed)
    ensures Kept(s, EndWait(c, s, t, er), |s.tasks|)
  {
    hide EndWait, Placed, TimersOk, TasksOk, MutexesOk;
    EndWaitPlaced(c, s, loose, t, er);
    EndWaitEffect(c, s, t, er);
    hide Shaped;
    WaitEnded(c, s, EndWait(c, s, t, er), loose, stale, freed, t, er);
  }

  ghost predicate AllWaiting(s: Sys, loose: set<nat>, q: seq<nat>) {
    NoDup(q) && forall i :: 0 <= i < |q| ==> q[i] < |s.tasks| && q[i] !in loose && s.tasks[q[i]].st.Waiting?
  }

  lemma KeptTrans(s: Sys, s1: Sys, s2: Sys, t: nat)
    requires Kept(s, s1, t) && Kept(s1, s2, t)
    ensures Kept(s, s2, t)
  {
  }

  lemma {:induction false} EndWaitsCore(c: Config, s: Sys, loose: set<nat>, stale: set<nat>, freed: set<nat>,
      q: seq<nat>, er: Er)
    requires Core(c, s, loose, stale, freed)
    requires AllWaiting(s, loose, q) && Within(q, |s.tasks|)
    ensures Core(c, EndWaits(c, s, q, er), loose, stale, freed)
    ensures Kept(s, EndWaits(c, s, q, er), |s.tasks|)
    ensures EndWaits(c, s, q, er).held == s.held
    decreases |q|
  {
    if q != [] {
      EndWaitCore(c, s, loose, stale, freed, q[0], er);
      EndWaitEffect(c, s, q[0], er);
      hide EndWait, Core;
      var s1 := EndWait(c, s, q[0], er);
      assert AllWaiting(s1, loose, q[1..]);
      assert Within(q[1..], |s1.tasks|);
      EndWaitsCore(c, s1, loose, stale, freed, q[1..], er);
      KeptTrans(s, s1, EndWaits(c, s1, q[1..], er), |s.tasks|);
    }
  }

  /** The tasks in a wait queue can be waited out one after the other. */
  lemma QueueWaits(c: Config, s: Sys, loose: set<nat>, o: nat)
    requires Shaped(c, s) && Placed(c, s, loose) && o < |s.wq|
    ensures AllWaiting(s, loose, s.wq[o])
    ensures forall i :: 0 <= i < |s.wq[o]| ==> s.tasks[s.wq[o][i]].st.w == Obj(o)
  {
    assert WaitQueue(s, loose, o, s.wq[o]);
    assert forall i :: 0 <= i < |s.wq[o]| ==> s.wq[o][i] in s.wq[o];
  }

  // ----- Starting a wait -----

  lemma BlockEffect(c: Config, s: Sys, t: nat, w: Wait, timed: bool)
    requires Shaped(c, s) && t < |s.tasks| && (w.Obj? ==> w.o < |c.objs|)
    ensures var r := Block(c, s, t, w, timed);
      && r.pri == s.pri && r.held == s.held && SameMode(s, r)
      && r.registered == s.registered + (if timed then {t} else {})
      && r.tasks == s.tasks[t := s.tasks[t].(st := Waiting(w, false), tmevtb := timed)]
  {
  }

  lemma BlockPlaced(c: Config, s: Sys, loose: set<nat>, t: nat, w: Wait, timed: bool)
    requires Shaped(c, s) && Placed(c, s, loose) && t < |s.tasks| && t !in loose
    requires s.tasks[t].st == Runnable && (w.Obj? ==> w.o < |c.objs|)
    ensures Placed(c, Block(c, s, t, w, timed), loose)
  {
    UnreadyPlaced(c, s, loose, t);
    var s1 := MakeWait(c, s, t, w, timed);
    ChangeLoose(c, Unready(c, s, t), s1, loose + {t}, t);
    if w.Obj? {
      EnwaitPlaced(c, s1, loose + {t}, t, w.o);
    } else {
      Settled(c, s1, loose + {t}, t);
    }
    assert loose + {t} - {t} == loose;
  }

  lemma BlockCore(c: Config, s: Sys, t: nat, w: Wait, timed: bool)
    requires Core(c, s, {}, {}, {}) && t < |s.tasks| && s.tasks[t].st == Runnable
    requires w.Obj? ==> w.o < |c.objs|
    requires w == Dly ==> timed
    requires w.Obj? && IsMutex(c, w.o) ==>
      !AboveCeiling(c, w.o, s.tasks[t].bpri) && w.o !in s.held[t] && Locked(s, w.o)
    ensures Core(c, Block(c, s, t, w, timed), {}, {}, {})
    ensures Kept(s, Block(c, s, t, w, timed), t)
  {
    hide Placed, Block, NoDup, Within, Boosted;
    BlockPlaced(c, s, {}, t, w, timed);
    BlockEffect(c, s, t, w, timed);
    var r := Block(c, s, t, w, timed);
    assert t in s.registered <==> ToTimer(s, {}, t);
    OneTimer(s, r, {}, {}, t);
    hide TimersOk;
    assert TaskOk(c, s, t);
    OneTask(c, s, r, {}, t);
    forall u | 0 <= u < |r.tasks| ensures WaitOk(c, r, {}, u) {
      assert WaitOk(c, s, {}, u);
      forall m: nat | WaitsForMutex(c, r.tasks[u].st, m) ensures m !in r.held[u] && Locked(r, m) {
        assert u != t ==> WaitsForMutex(c, s.tasks[u].st, m);
        assert Locked(s, m) ==> Locked(r, m);
      }
    }
  }

  // ----- Changing a priority -----

  lemma ChangePriorityEffect(c: Config, s: Sys, t: nat, p: nat, front: bool)
    requires Shaped(c, s) && t < |s.tasks| && p < TNUM_TPRI
    ensures var r := ChangePriority(c, s, t, p, front);
      && r.tasks == s.tasks && r.pri == s.pri[t := p] && r.held == s.held && SameMode(s, r)
      && r.registered == s.registered
  {
    var r := ChangePriority(c, s, t, p, front);
    match s.tasks[t].st {
      case Runnable =>
        var s2 := SetPri(c, Unready(c, s, t), t, p);
        assert r == Enready(c, s2, t, front);
      case Waiting(Obj(o), _) =>
        if InPriorityOrder(c, o) {
          var s2 := SetPri(c, Unwait(c, s, t, o), t, p);
          assert r == Enwait(c, s2, t, o);
        }
      case _ =>
    }
  }

  lemma ChangePriorityPlaced(c: Config, s: Sys, loose: set<nat>, t: nat, p: nat, front: bool)
    requires Shaped(c, s) && Placed(c, s, loose) && t < |s.tasks| && t !in loose && p < TNUM_TPRI
    ensures Placed(c, ChangePriority(c, s, t, p, front), loose)
  {
    hide Placed, Remove, InsertTpri, Within, Linked;
    assert loose + {t} - {t} == loose;
    match s.tasks[t].st {
      case Runnable =>
        UnreadyPlaced(c, s, loose, t);
        var s1 := Unready(c, s, t);
        ChangeLoose(c, s1, SetPri(c, s1, t, p), loose + {t}, t);
        EnreadyPlaced(c, SetPri(c, s1, t, p), loose + {t}, t, front);
      case Waiting(Obj(o), _) =>
        if InPriorityOrder(c, o) {
          UnwaitPlaced(c, s, loose, t, o);
          var s1 := Unwait(c, s, t, o);
          ChangeLoose(c, s1, SetPri(c, s1, t, p), loose + {t}, t);
          EnwaitPlaced(c, SetPri(c, s1, t, p), loose + {t}, t, o);
        } else {
          OnlyInItsQueue(c, s, loose, t);
          SetPriPlaced(c, s, loose, t, p);
        }
      case _ =>
        OnlyInItsQueue(c, s, loose, t);
        SetPriPlaced(c, s, loose, t, p);
    }
  }

  lemma OnlyInItsQueue(c: Config, s: Sys, loose: set<nat>, t: nat)
    requires Shaped(c, s) && Placed(c, s, loose) && t < |s.tasks|
    ensures forall o :: 0 <= o < |s.wq| && t in s.wq[o] ==> s.tasks[t].st.Waiting? && s.tasks[t].st.w == Obj(o)
  {
    forall o | 0 <= o < |s.wq| && t in s.wq[o] ensures s.tasks[t].st.Waiting? && s.tasks[t].st.w == Obj(o) {
      assert WaitQueue(s, loose, o, s.wq[o]);
    }
  }

  lemma ChangePriorityCore(c: Config, s: Sys, loose: set<nat>, stale: set<nat>, freed: set<nat>, t: nat, p: nat,
      front: bool)
    requires Core(c, s, loose, stale, freed) && t < |s.tasks| && t !in loose && p < TNUM_TPRI
    requires p == ClosedPri(c, s, t) && TaskRest(c, s.tasks[t], s.held[t], c.ipri[t])
    ensures Core(c, ChangePriority(c, s, t, p, front), loose, stale - {t}, freed)
    ensures Kept(s, ChangePriority(c, s, t, p, front), |s.tasks|)
  {
    ChangePriorityPlaced(c, s, loose, t, p, front);
    ChangePriorityEffect(c, s, t, p, front);
    var r := ChangePriority(c, s, t, p, front);
    SameTimers(s, r, loose);
    hide Placed, ChangePriority, TimersOk;
    OneTask(c, s, r, stale, t);
    SameLocks(c, s, r, freed);
  }

  lemma ReprioCore(c: Config, s: Sys, loose: set<nat>, stale: set<nat>, freed: set<nat>, t: nat)
    requires Core(c, s, loose, stale, freed) && t < |s.tasks| && t !in loose
    requires TaskRest(c, s.tasks[t], s.held[t], c.ipri[t])
    ensures Core(c, Reprio(c, s, t), loose, stale - {t}, freed)
    ensures Kept(s, Reprio(c, s, t), |s.tasks|)
    ensures Reprio(c, s, t).tasks == s.tasks && Reprio(c, s, t).held == s.held
    ensures Reprio(c, s, t).registered == s.registered
  {
    BoostedBound(c, s.held[t], s.tasks[t].bpri);
    var p := ClosedPri(c, s, t);
    if p == s.pri[t] {
      OneTask(c, s, s, stale, t);
    } else {
      ChangePriorityCore(c, s, loose, stale, freed, t, p, true);
      ChangePriorityEffect(c, s, t, p, true);
    }
  }
}
