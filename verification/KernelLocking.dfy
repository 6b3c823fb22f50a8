/** Locking, handing over and releasing mutexes, and the end of a task, keep the
  kernel invariant. */
module KernelLocking {
  import opened Options
  import opened Queues
  import opened KernelState
  import opened KernelCalls
  import opened KernelPlacement
  import opened KernelInvariant

  // ----- Handing a mutex over -----

  lemma LastOff(ms: seq<nat>)
    requires NoDup(ms) && ms != []
    ensures NoDup(ms[..|ms| - 1])
    ensures forall x :: x in ms[..|ms| - 1] <==> x in ms && x != ms[|ms| - 1]
  {
    assert ms == ms[..|ms| - 1] + [ms[|ms| - 1]];
  }

  /** The state in which the new holder w of mutex m has it and its wait is about
    to end. */
  function HandedTo(c: Config, s: Sys, m: nat, w: nat): Sys
    requires |s.tasks| == |s.held| == |s.pri| && w < |s.tasks| && m < |s.wq|
  {
    s.(wq := s.wq[m := Remove(s.wq[m], w)], held := s.held[w := s.held[w] + [m]],
       registered := Unregistered(s, w), tasks := s.tasks[w := s.tasks[w].(wercd := E_OK)],
       pri := s.pri[w := Boosted(c, s.held[w] + [m], s.tasks[w].bpri)])
  }

  lemma TmevtbEffect(c: Config, s: Sys, t: nat)
    requires Shaped(c, s) && t < |s.tasks|
    ensures DequeueTmevtb(c, s, t) == s.(registered := Unregistered(s, t))
  {
  }

  lemma HandOverForm(c: Config, s: Sys, m: nat)
    requires Shaped(c, s) && IsMutex(c, m) && s.wq[m] != []
    ensures var w := s.wq[m][0];
      w < |s.tasks| && Shaped(c, HandedTo(c, s, m, w)) && HandOver(c, s, m) == MakeNonWait(c, HandedTo(c, s, m, w), w)
  {
    hide MakeNonWait, Boosted, Remove, DequeueTmevtb;
    var t := s.wq[m][0];
    assert t < |s.tasks| by { assert Within(s.wq[m], |s.tasks|); }
    TmevtbEffect(c, Unwait(c, s, t, m), t);
    var s1 := DequeueTmevtb(c, Unwait(c, s, t, m), t);
    var s2 := SetHeld(c, s1, t, s1.held[t] + [m]);
    var s3 := SetTask(c, s2, t, s2.tasks[t].(wercd := E_OK));
    BoostedBound(c, s3.held[t], s3.tasks[t].bpri);
    hide Shaped, Within;
  }

  /** The effect of HandOver on its new holder w. */
  lemma HandOverEffect(c: Config, s: Sys, m: nat)
    requires Shaped(c, s) && IsMutex(c, m) && s.wq[m] != []
    ensures var r, w := HandOver(c, s, m), s.wq[m][0];
      && w < |s.tasks| && SameMode(s, r) && r.registered == Unregistered(s, w)
      && r.held == s.held[w := s.held[w] + [m]]
      && r.tasks == s.tasks[w := s.tasks[w].(wercd := E_OK, st := AfterWait(s.tasks[w].st))]
      && r.pri == s.pri[w := Boosted(c, s.held[w] + [m], s.tasks[w].bpri)]
  {
    hide MakeNonWait, Boosted, Remove, Unregistered, HandOver;
    HandOverForm(c, s, m);
    var w := s.wq[m][0];
    var k := s.tasks[w].(wercd := E_OK);
    NonWaitEffect(c, HandedTo(c, s, m, w), w);
    assert s.tasks[w := k][w := k.(st := AfterWait(k.st))] == s.tasks[w := k.(st := AfterWait(k.st))];
  }

  lemma HandOverPlaced(c: Config, s: Sys, loose: set<nat>, m: nat)
    requires Shaped(c, s) && IsMutex(c, m) && Placed(c, s, loose)
    ensures Placed(c, HandOver(c, s, m), loose)
  {
    if s.wq[m] != [] {
      var w := s.wq[m][0];
      QueueWaits(c, s, loose, m);
      UnwaitPlaced(c, s, loose, w, m);
      var s1 := DequeueTmevtb(c, Unwait(c, s, w, m), w);
      var s2 := SetHeld(c, s1, w, s1.held[w] + [m]);
      var s3 := SetTask(c, s2, w, s2.tasks[w].(wercd := E_OK));
      BoostedBound(c, s3.held[w], s3.tasks[w].bpri);
      var s4 := SetPri(c, s3, w, ClosedPri(c, s3, w));
      ChangeLoose(c, Unwait(c, s, w, m), s4, loose + {w}, w);
      NonWaitPlaced(c, s4, loose + {w}, w);
      assert loose + {w} - {w} == loose;
    }
  }

  /** Mutex m, free before, is locked by w, which waited for it, afterwards. */
  lemma HandOverLocks(c: Config, s: Sys, r: Sys, freed: set<nat>, m: nat, w: nat)
    requires Shaped(c, s) && Shaped(c, r) && MutexesOk(c, s, freed) && m in freed
    requires w < |s.tasks| && s.tasks[w].st.Waiting? && s.tasks[w].st.w == Obj(m) && IsMutex(c, m)
    requires r.held == s.held[w := s.held[w] + [m]]
    requires !r.tasks[w].st.Waiting? && forall u :: 0 <= u < |s.tasks| && u != w ==> r.tasks[u] == s.tasks[u]
    ensures MutexesOk(c, r, freed - {m})
  {
    assert m !in s.held[w] by { assert WaitOk(c, s, freed, w); }
    assert NoDup(r.held[w]);
    forall u | 0 <= u < |r.tasks| ensures WaitOk(c, r, freed - {m}, u) {
      assert WaitOk(c, s, freed, u);
      forall x: nat | WaitsForMutex(c, r.tasks[u].st, x)
        ensures x !in r.held[u] && (x in freed - {m} || Locked(r, x))
      {
        assert m in r.held[w];
        if x != m && Locked(s, x) {
          var v :| 0 <= v < |s.held| && x in s.held[v];
          assert x in r.held[v];
        }
      }
    }
  }

  /** Nobody waits for a mutex whose queue is empty. */
  lemma NoWaiter(c: Config, s: Sys, stale: set<nat>, freed: set<nat>, loose: set<nat>, m: nat)
    requires Core(c, s, loose, stale, freed) && IsMutex(c, m) && s.wq[m] == []
    requires forall t :: t in loose && t < |s.tasks| ==> !WaitsForMutex(c, s.tasks[t].st, m)
    ensures MutexesOk(c, s, freed - {m})
  {
    assert WaitQueue(s, loose, m, s.wq[m]);
    forall t | 0 <= t < |s.tasks| ensures WaitOk(c, s, freed - {m}, t) {
      assert WaitOk(c, s, freed, t);
      assert !ToWait(s, loose, m, t);
    }
  }

  /** A task that gets the mutex it waited for is still as it should be. */
  lemma NewHolderOk(c: Config, k: Task, k': Task, held: seq<nat>, m: nat, ipri: nat)
    requires TaskRest(c, k, held, ipri) && WaitsForMutex(c, k.st, m)
    requires k' == k.(wercd := E_OK, st := AfterWait(k.st))
    ensures TaskRest(c, k', held + [m], ipri)
  {
  }

  /** A task being ended does not wait for the mutexes it had locked. */
  ghost predicate LooseWaits(c: Config, s: Sys, loose: set<nat>, freed: set<nat>) {
    forall t, m: nat :: t in loose && t < |s.tasks| && m in freed ==> !WaitsForMutex(c, s.tasks[t].st, m)
  }

  /** Tasks that are being ended are left alone. */
  ghost predicate LooseAlone(s: Sys, r: Sys, loose: set<nat>) {
    |r.tasks| == |s.tasks| && |r.held| == |s.held| == |s.tasks| &&
    forall t :: t in loose && t < |s.tasks| ==> r.tasks[t] == s.tasks[t] && r.held[t] == s.held[t]
  }

  lemma HandOverTo(c: Config, s: Sys, loose: set<nat>, freed: set<nat>, m: nat, w: nat, r: Sys)
    requires Core(c, s, loose, loose, freed) && IsMutex(c, m) && m in freed
    requires w < |s.tasks| && w !in loose && s.tasks[w].st.Waiting? && s.tasks[w].st.w == Obj(m)
    requires Shaped(c, r) && Placed(c, r, loose) && SameMode(s, r) && r.registered == Unregistered(s, w)
    requires r.held == s.held[w := s.held[w] + [m]]
    requires r.tasks == s.tasks[w := s.tasks[w].(wercd := E_OK, st := AfterWait(s.tasks[w].st))]
    requires r.pri == s.pri[w := Boosted(c, s.held[w] + [m], s.tasks[w].bpri)]
    ensures Core(c, r, loose, loose, freed - {m})
    ensures Kept(s, r, |s.tasks|) && LooseAlone(s, r, loose)
  {
    TimerEnds(s, r, loose, loose, w);
    hide Placed, NoDup, Within, Boosted, TimersOk;
    assert TaskOk(c, s, w);
    NewHolderOk(c, s.tasks[w], r.tasks[w], s.held[w], m, c.ipri[w]);
    OneTask(c, s, r, loose, w);
    HandOverLocks(c, s, r, freed, m, w);
  }

  lemma HandOverCore(c: Config, s: Sys, loose: set<nat>, freed: set<nat>, m: nat)
    requires Core(c, s, loose, loose, freed) && IsMutex(c, m) && m in freed
    requires LooseWaits(c, s, loose, freed)
    ensures Core(c, HandOver(c, s, m), loose, loose, freed - {m})
    ensures Kept(s, HandOver(c, s, m), |s.tasks|) && LooseAlone(s, HandOver(c, s, m), loose)
  {
    HandOverPlaced(c, s, loose, m);
    if s.wq[m] == [] {
      NoWaiter(c, s, loose, freed, loose, m);
    } else {
      HandOverEffect(c, s, m);
      QueueWaits(c, s, loose, m);
      hide HandOver, Placed, TasksOk, MutexesOk;
      HandOverTo(c, s, loose, freed, m, s.wq[m][0], HandOver(c, s, m));
    }
  }

  lemma {:induction false} HandOverAllCore(c: Config, s: Sys, loose: set<nat>, freed: set<nat>, ms: seq<nat>)
    requires Core(c, s, loose, loose, freed) && NoDup(ms)
    requires forall m :: m in ms ==> IsMutex(c, m)
    requires forall m :: m in freed <==> m in ms
    requires LooseWaits(c, s, loose, freed)
    ensures Core(c, HandOverAll(c, s, ms), loose, loose, {})
    ensures Kept(s, HandOverAll(c, s, ms), |s.tasks|) && LooseAlone(s, HandOverAll(c, s, ms), loose)
    decreases |ms|
  {
    if ms == [] {
      assert freed == {};
    } else {
      var n := |ms| - 1;
      LastOff(ms);
      HandOverCore(c, s, loose, freed, ms[n]);
      var s1 := HandOver(c, s, ms[n]);
      hide Core, HandOver, NoDup, Shaped;
      assert LooseWaits(c, s1, loose, freed - {ms[n]});
      HandOverAllCore(c, s1, loose, freed - {ms[n]}, ms[..n]);
      KeptTrans(s, s1, HandOverAll(c, s1, ms[..n]), |s.tasks|);
    }
  }

  // ----- Ending a task -----

  lemma SamePlaces(c: Config, s: Sys, r: Sys, loose: set<nat>)
    requires Shaped(c, s) && Shaped(c, r) && Placed(c, s, loose)
    requires r.tasks == s.tasks && r.pri == s.pri && r.ready == s.ready && r.wq == s.wq
    ensures Placed(c, r, loose)
  {
    forall p | 0 <= p < |r.ready| ensures ReadyQueue(r, loose, p, r.ready[p]) {
      assert ReadyQueue(s, loose, p, s.ready[p]);
    }
    forall o | 0 <= o < |r.wq| ensures WaitQueue(r, loose, o, r.wq[o]) {
      assert WaitQueue(s, loose, o, s.wq[o]);
    }
  }

  lemma UnlinkEffect(c: Config, s: Sys, t: nat)
    requires Shaped(c, s) && t < |s.tasks|
    ensures var r := Unlink(c, s, t);
      && r.tasks == s.tasks && r.pri == s.pri && r.held == s.held && SameMode(s, r)
      && r.registered == if s.tasks[t].st.Waiting? then Unregistered(s, t) else s.registered
  {
    DequeueEffect(c, s, t);
  }

  lemma UnlinkPlaced(c: Config, s: Sys, t: nat)
    requires Shaped(c, s) && Placed(c, s, {}) && t < |s.tasks|
    ensures Placed(c, Unlink(c, s, t), {t})
  {
    assert {} + {t} == {t};
    if s.tasks[t].st == Runnable {
      UnreadyPlaced(c, s, {}, t);
    } else {
      DequeuePlaced(c, s, {}, t);
      DequeueEffect(c, s, t);
      ChangeLoose(c, DequeueWobj(c, s, t), Unlink(c, s, t), {t}, t);
    }
  }

  lemma UnlinkCore(c: Config, s: Sys, t: nat)
    requires Core(c, s, {}, {}, {}) && t < |s.tasks|
    ensures Core(c, Unlink(c, s, t), {t}, {t}, {})
  {
    UnlinkPlaced(c, s, t);
    UnlinkEffect(c, s, t);
    assert t in s.registered <==> ToTimer(s, {}, t);
    OneTimer(s, Unlink(c, s, t), {}, {t}, t);
    hide Placed, Unlink, TimersOk;
    assert {} + {t} == {t};
    OneTask(c, s, Unlink(c, s, t), {}, t);
    SameLocks(c, s, Unlink(c, s, t), {});
  }

  /** All the mutexes of t become free. */
  lemma DropAllLocks(c: Config, s: Sys, t: nat, freed: set<nat>)
    requires Core(c, s, {t}, {t}, {}) && t < |s.tasks|
    requires forall m :: m in freed <==> m in s.held[t]
    ensures Core(c, SetHeld(c, s, t, []), {t}, {t}, freed)
    ensures LooseWaits(c, SetHeld(c, s, t, []), {t}, freed)
  {
    var r := SetHeld(c, s, t, []);
    SamePlaces(c, s, r, {t});
    SameTimers(s, r, {t});
    hide Placed, TimersOk;
    assert TasksOk(c, r, {t} + {t}) by { OneTask(c, s, r, {t}, t); }
    forall u | 0 <= u < |r.tasks| ensures WaitOk(c, r, freed, u) {
      assert WaitOk(c, s, {}, u);
      forall m: nat | WaitsForMutex(c, r.tasks[u].st, m) && m !in freed ensures Locked(r, m) {
        var v :| 0 <= v < |s.held| && m in s.held[v];
        assert m in r.held[v];
      }
    }
    assert WaitOk(c, s, {}, t);
    assert {t} + {t} == {t};
  }

  /** The first half of task_terminate. */
  function Release(c: Config, s: Sys, t: nat): (r: Sys)
    requires Shaped(c, s) && t < |s.tasks|
    ensures Shaped(c, r)
  {
    var s1 := Unlink(c, s, t);
    HandOverAll(c, SetHeld(c, s1, t, []), s1.held[t])
  }

  /** A task is taken out of its queue and its mutexes become free. */
  lemma UnlockedCore(c: Config, s: Sys, t: nat, freed: set<nat>)
    requires Core(c, s, {}, {}, {}) && t < |s.tasks|
    requires forall m :: m in freed <==> m in s.held[t]
    ensures var s1 := SetHeld(c, Unlink(c, s, t), t, []);
      && Core(c, s1, {t}, {t}, freed) && LooseWaits(c, s1, {t}, freed)
      && s1.held[t] == [] && Kept(s, s1, t)
    ensures Unlink(c, s, t).held[t] == s.held[t]
  {
    UnlinkCore(c, s, t);
    UnlinkEffect(c, s, t);
    hide Unlink, Placed, TasksOk, MutexesOk;
    DropAllLocks(c, Unlink(c, s, t), t, freed);
  }

  lemma HeldOnce(c: Config, s: Sys, t: nat)
    requires Core(c, s, {}, {}, {}) && t < |s.tasks|
    ensures Shaped(c, s) && NoDup(s.held[t]) && forall m :: m in s.held[t] ==> IsMutex(c, m)
  {
  }

  lemma ReleaseCore(c: Config, s: Sys, t: nat)
    requires Core(c, s, {}, {}, {}) && t < |s.tasks|
    ensures Core(c, Release(c, s, t), {t}, {t}, {}) && Kept(s, Release(c, s, t), t)
    ensures Release(c, s, t).held[t] == []
  {
    hide Placed, TimersOk, TasksOk, MutexesOk, NoDup, Within, Unlink, HandOverAll;
    HeldOnce(c, s, t);
    var ms := s.held[t];
    var freed := set m | m in ms;
    UnlockedCore(c, s, t, freed);
    var s1 := SetHeld(c, Unlink(c, s, t), t, []);
    hide Shaped;
    HandOverAllCore(c, s1, {t}, freed, ms);
    KeptTrans(s, s1, HandOverAll(c, s1, ms), t);
  }

  lemma DormantCore(c: Config, s: Sys, t: nat)
    requires Core(c, s, {t}, {t}, {}) && t < |s.tasks| && s.held[t] == []
    ensures Core(c, MakeDormant(c, s, t), {t}, {}, {})
    ensures MakeDormant(c, s, t).tasks ==
      s.tasks[t := Task(Dormant, c.ipri[t], s.tasks[t].actque, false, false, true, s.tasks[t].tmevtb, s.tasks[t].wercd)]
    ensures Kept(s, MakeDormant(c, s, t), t)
  {
    var r := MakeDormant(c, s, t);
    ChangeLoose(c, s, r, {t}, t);
    OneTimer(s, r, {t}, {t}, t);
    hide Placed, TimersOk;
    assert TaskOk(c, r, t);
    OneTask(c, s, r, {t}, t);
    assert {t} - {t} == {};
    SameLocks(c, s, r, {});
  }

  /** A loose task that is otherwise in order is made runnable. */
  lemma RunnableCore(c: Config, s: Sys, t: nat)
    requires Core(c, s, {t}, {}, {}) && t < |s.tasks| && !s.tasks[t].st.Waiting?
    ensures Core(c, MakeRunnable(c, s, t), {}, {}, {})
    ensures MakeRunnable(c, s, t).tasks == s.tasks[t := s.tasks[t].(st := Runnable)]
    ensures Kept(s, MakeRunnable(c, s, t), |s.tasks|)
  {
    RunnablePlaced(c, s, {t}, t);
    assert {t} - {t} == {};
    var r := MakeRunnable(c, s, t);
    OneTimer(s, r, {t}, {}, t);
    hide Placed, TimersOk;
    assert TaskOk(c, s, t);
    assert r.held == s.held && r.pri == s.pri;
    OneTask(c, s, r, {}, t);
    SameLocks(c, s, r, {});
  }

  /** The second half of task_terminate. */
  function Restart(c: Config, s: Sys, t: nat): (r: Sys)
    requires Shaped(c, s) && t < |s.tasks|
    ensures Shaped(c, r)
  {
    if s.tasks[t].actque then MakeRunnable(c, SetTask(c, s, t, s.tasks[t].(actque := false)), t) else s
  }

  lemma RestartCore(c: Config, s: Sys, t: nat)
    requires Core(c, s, {t}, {}, {}) && t < |s.tasks| && s.tasks[t].st == Dormant
    ensures Core(c, Restart(c, s, t), {}, {}, {}) && Kept(s, Restart(c, s, t), t)
    ensures !Restart(c, s, t).tasks[t].raster
  {
    assert {t} - {t} == {};
    assert TaskOk(c, s, t);
    if s.tasks[t].actque {
      var s1 := SetTask(c, s, t, s.tasks[t].(actque := false));
      ChangeLoose(c, s, s1, {t}, t);
      OneTimer(s, s1, {t}, {t}, t);
      hide Placed, TimersOk;
      OneTask(c, s, s1, {}, t);
      SameLocks(c, s, s1, {});
      RunnableCore(c, s1, t);
    } else {
      Settled(c, s, {t}, t);
      OneTimer(s, s, {t}, {}, t);
    }
  }

  lemma TerminateCore(c: Config, s: Sys, t: nat)
    requires Core(c, s, {}, {}, {}) && t < |s.tasks|
    ensures Core(c, Terminate(c, s, t), {}, {}, {})
    ensures Kept(s, Terminate(c, s, t), t)
    ensures !Terminate(c, s, t).tasks[t].raster
  {
    var s2 := Release(c, s, t);
    ReleaseCore(c, s, t);
    DormantCore(c, s2, t);
    var s3 := MakeDormant(c, s2, t);
    RestartCore(c, s3, t);
    assert Terminate(c, s, t) == Restart(c, s3, t);
    hide Release, Restart, MakeDormant, Core, Terminate;
    KeptTrans(s, s2, s3, t);
    KeptTrans(s, s3, Restart(c, s3, t), t);
  }

  // ----- Locking and unlocking -----

  /** The running task t locks mutex m, which nobody holds. */
  lemma AcquireCore(c: Config, s: Sys, t: nat, m: nat)
    requires Core(c, s, {}, {}, {}) && t < |s.tasks| && s.tasks[t].st == Runnable
    requires IsMutex(c, m) && !Locked(s, m) && !AboveCeiling(c, m, s.tasks[t].bpri)
    ensures var r := Reprio(c, SetHeld(c, s, t, s.held[t] + [m]), t);
      Core(c, r, {}, {}, {}) && Kept(s, r, |s.tasks|) && r.tasks == s.tasks
  {
    var s1 := SetHeld(c, s, t, s.held[t] + [m]);
    Take(c, s, t, m);
    assert {t} - {t} == {};
    hide Core;
    ReprioCore(c, s1, {}, {t}, {}, t);
    assert Kept(s, s1, |s.tasks|);
  }

  lemma Take(c: Config, s: Sys, t: nat, m: nat)
    requires Core(c, s, {}, {}, {}) && t < |s.tasks| && s.tasks[t].st == Runnable
    requires IsMutex(c, m) && !Locked(s, m) && !AboveCeiling(c, m, s.tasks[t].bpri)
    ensures Core(c, SetHeld(c, s, t, s.held[t] + [m]), {}, {t}, {})
    ensures TaskRest(c, s.tasks[t], s.held[t] + [m], c.ipri[t])
  {
    var s1 := SetHeld(c, s, t, s.held[t] + [m]);
    SamePlaces(c, s, s1, {});
    SameTimers(s, s1, {});
    hide Placed, TimersOk;
    assert TaskOk(c, s, t);
    assert {} + {t} == {t};
    OneTask(c, s, s1, {}, t);
    assert m !in s.held[t] && NoDup(s1.held[t]);
    forall u | 0 <= u < |s1.tasks| ensures WaitOk(c, s1, {}, u) {
      assert WaitOk(c, s, {}, u);
      forall x: nat | WaitsForMutex(c, s1.tasks[u].st, x) ensures x !in s1.held[u] && Locked(s1, x) {
        var v :| 0 <= v < |s.held| && x in s.held[v];
        assert x in s1.held[v];
      }
    }
  }

  /** Task t gives up mutex m, wherever it is in the chain. */
  lemma GiveUp(c: Config, s: Sys, t: nat, m: nat, ms: seq<nat>)
    requires Core(c, s, {}, {}, {}) && t < |s.tasks| && m in s.held[t]
    requires NoDup(ms) && (forall x :: x in ms <==> x in s.held[t] && x != m)
    ensures Core(c, SetHeld(c, s, t, ms), {}, {t}, {m})
    ensures TaskRest(c, s.tasks[t], ms, c.ipri[t])
  {
    var r := SetHeld(c, s, t, ms);
    SamePlaces(c, s, r, {});
    SameTimers(s, r, {});
    hide Placed, TimersOk;
    assert {} + {t} == {t};
    OneTask(c, s, r, {}, t);
    forall u | 0 <= u < |r.tasks| ensures WaitOk(c, r, {m}, u) {
      assert WaitOk(c, s, {}, u);
      forall x: nat | WaitsForMutex(c, r.tasks[u].st, x) && x != m ensures Locked(r, x) {
        var v :| 0 <= v < |s.held| && x in s.held[v];
        assert x in r.held[v];
      }
    }
    assert TaskOk(c, s, t);
    assert s.held[t] != [];
  }

  lemma PopCore(c: Config, s: Sys, t: nat)
    requires Core(c, s, {}, {}, {}) && t < |s.tasks| && s.held[t] != []
    ensures var n := |s.held[t]| - 1;
      var r := Reprio(c, SetHeld(c, s, t, s.held[t][..n]), t);
      Core(c, r, {}, {}, {s.held[t][n]}) && Kept(s, r, |s.tasks|)
  {
    var n := |s.held[t]| - 1;
    var m := s.held[t][n];
    LastOff(s.held[t]);
    GiveUp(c, s, t, m, s.held[t][..n]);
    var s1 := SetHeld(c, s, t, s.held[t][..n]);
    hide Placed, TasksOk, MutexesOk, Reprio, TaskRest;
    ReprioCore(c, s1, {}, {t}, {m}, t);
    assert {t} - {t} == {};
    assert Kept(s, s1, |s.tasks|);
    KeptTrans(s, s1, Reprio(c, s1, t), |s.tasks|);
  }

  lemma UnlockCore(c: Config, s: Sys, t: nat)
    requires Core(c, s, {}, {}, {}) && t < |s.tasks| && s.held[t] != []
    ensures var n := |s.held[t]| - 1;
      var r := HandOver(c, Reprio(c, SetHeld(c, s, t, s.held[t][..n]), t), s.held[t][n]);
      Core(c, r, {}, {}, {}) && Kept(s, r, |s.tasks|)
  {
    var n := |s.held[t]| - 1;
    var m := s.held[t][n];
    PopCore(c, s, t);
    assert IsMutex(c, m);
    var s2 := Reprio(c, SetHeld(c, s, t, s.held[t][..n]), t);
    hide Placed, TasksOk, MutexesOk, Reprio, HandOver;
    HandOverCore(c, s2, {}, {m}, m);
    assert {m} - {m} == {};
    KeptTrans(s, s2, HandOver(c, s2, m), |s.tasks|);
  }
}
