/** What holds in every state that a run of calls and interrupts can reach. */
module KernelRuns {
  import opened Options
  import opened Queues
  import opened KernelState
  import opened KernelCalls
  import opened KernelPlacement
  import opened KernelInvariant
  import opened KernelLocking
  import opened KernelSteps
  import opened KernelDeltas
  import opened KernelEffects
  import opened KernelModes
  import opened ReadyTop
  import opened MutexChain

  /** The state after the calls and interrupt events of a run. */
  function After(c: Config, calls: seq<Call>): (s: Sys)
    requires ConfigValid(c)
    ensures Shaped(c, s)
  {
    Run(c, Boot(c), calls)
  }

  lemma AfterInv(c: Config, calls: seq<Call>)
    requires ConfigValid(c)
    ensures Inv(c, After(c, calls)) && |After(c, calls).tasks| == |c.ipri|
  {
    BootInv(c);
    RunInv(c, Boot(c), calls);
  }

  /** How often a task occurs in a queue. */
  function Count(q: seq<nat>, t: nat): nat { multiset(q)[t] }

  lemma {:induction false} OnceIn(q: seq<nat>, t: nat)
    requires NoDup(q)
    ensures Count(q, t) == if t in q then 1 else 0
    decreases |q|
  {
    if q != [] {
      assert q == [q[0]] + q[1..];
      OnceIn(q[1..], t);
      assert t == q[0] ==> t !in q[1..];
    }
  }

  lemma ReadyOnce(c: Config, s: Sys, p: nat, t: nat)
    requires Shaped(c, s) && Placed(c, s, {}) && p < |s.ready| && t < |s.tasks|
    ensures |s.pri| == |s.tasks|
    ensures Count(s.ready[p], t) == if s.tasks[t].st == Runnable && s.pri[t] == p then 1 else 0
  {
    assert ReadyQueue(s, {}, p, s.ready[p]);
    OnceIn(s.ready[p], t);
  }

  lemma WaitingOnce(c: Config, s: Sys, o: nat, t: nat)
    requires Shaped(c, s) && Placed(c, s, {}) && o < |s.wq| && t < |s.tasks|
    ensures Count(s.wq[o], t) == if s.tasks[t].st.Waiting? && s.tasks[t].st.w == Obj(o) then 1 else 0
  {
    assert WaitQueue(s, {}, o, s.wq[o]);
    OnceIn(s.wq[o], t);
  }

  lemma TimedOnly(s: Sys)
    requires TimersOk(s, {})
    ensures forall t: nat :: t in s.registered <==> t < |s.tasks| && s.tasks[t].st.Waiting? && s.tasks[t].tmevtb
  {
    forall t: nat ensures t in s.registered <==> t < |s.tasks| && s.tasks[t].st.Waiting? && s.tasks[t].tmevtb {
      assert t in s.registered <==> ToTimer(s, {}, t);
    }
  }

  /** A runnable task is once in the ready queue of its current priority, a task
    waiting for an object once in that object's queue, and no task is anywhere
    else; queues in priority order are sorted.  A timeout block is registered
    with the timer exactly while its task is in a timed wait. */
  lemma PlacementRule(c: Config, calls: seq<Call>)
    requires ConfigValid(c)
    ensures var s := After(c, calls);
      && |s.ready| == TNUM_TPRI && |s.wq| == |c.objs| && |s.tasks| == |s.pri| == |c.ipri|
      && (forall t, p :: 0 <= t < |c.ipri| && 0 <= p < TNUM_TPRI ==>
        Count(s.ready[p], t) == if s.tasks[t].st == Runnable && s.pri[t] == p then 1 else 0)
      && (forall t, o :: 0 <= t < |c.ipri| && 0 <= o < |c.objs| ==>
        Count(s.wq[o], t) == if s.tasks[t].st.Waiting? && s.tasks[t].st.w == Obj(o) then 1 else 0)
      && (forall o :: 0 <= o < |c.objs| && (c.objs[o].Ceiling? || c.objs[o].tpri) ==> ByPriority(s.wq[o], s.pri))
      && (forall t: nat :: t in s.registered <==> t < |c.ipri| && s.tasks[t].st.Waiting? && s.tasks[t].tmevtb)
  {
    AfterInv(c, calls);
    var s := After(c, calls);
    hide After, TimersOk, TasksOk, MutexesOk, Count;
    TimedOnly(s);
    forall t, p | 0 <= t < |c.ipri| && 0 <= p < TNUM_TPRI
      ensures Count(s.ready[p], t) == if s.tasks[t].st == Runnable && s.pri[t] == p then 1 else 0
    {
      ReadyOnce(c, s, p, t);
    }
    forall t, o | 0 <= t < |c.ipri| && 0 <= o < |c.objs|
      ensures Count(s.wq[o], t) == if s.tasks[t].st.Waiting? && s.tasks[t].st.w == Obj(o) then 1 else 0
    {
      WaitingOnce(c, s, o, t);
    }
  }

  /** A mutex is on one chain at most and once; if tasks wait for it, another
    task has locked it, and it does not wait for it. */
  lemma LockRule(c: Config, calls: seq<Call>, m: nat)
    requires ConfigValid(c) && IsMutex(c, m)
    ensures var s := After(c, calls);
      && |s.wq| == |c.objs| && |s.held| == |c.ipri|
      && (forall t :: 0 <= t < |s.held| ==> Count(s.held[t], m) <= 1)
      && (forall t, u :: 0 <= t < |s.held| && 0 <= u < |s.held| && m in s.held[t] && m in s.held[u] ==> t == u)
      && (s.wq[m] != [] ==> exists t :: 0 <= t < |s.held| && m in s.held[t] && t !in s.wq[m])
  {
    AfterInv(c, calls);
    var s := After(c, calls);
    forall t | 0 <= t < |s.held| ensures Count(s.held[t], m) <= 1 {
      OnceIn(s.held[t], m);
    }
    if s.wq[m] != [] {
      QueueWaits(c, s, {}, m);
      assert WaitOk(c, s, {}, s.wq[m][0]) && WaitsForMutex(c, s.tasks[s.wq[m][0]].st, m);
      var t :| 0 <= t < |s.held| && m in s.held[t];
      assert WaitOk(c, s, {}, t);
      assert WaitQueue(s, {}, m, s.wq[m]);
    }
  }

  /** A termination request is never lost: its task is runnable, and has
    termination disabled unless it is running while dispatching is not possible. */
  lemma TerminationRule(c: Config, calls: seq<Call>, t: nat)
    requires ConfigValid(c) && t < |c.ipri|
    ensures var s := After(c, calls);
      |s.tasks| == |c.ipri| && (s.tasks[t].raster ==>
        s.tasks[t].st == Runnable && (s.tasks[t].enater ==> s.run == Some(t) && !(s.enadsp && s.ipm == 0)))
  {
    AfterInv(c, calls);
  }

  function EnaterBy(s: Sys, t: nat, call: OwnCall): bool
    requires t < |s.tasks|
  {
    if call.EnaTer? then true else if call.DisTer? then false else s.tasks[t].enater
  }

  /** A running task with a termination request ends in exactly that call which
    leaves it with termination enabled and dispatching possible, or in ext_tsk;
    otherwise the request stays. */
  lemma RequestTakesEffect(c: Config, calls: seq<Call>, call: OwnCall)
    requires ConfigValid(c)
    ensures var s := After(c, calls);
      TaskCtx(s) && s.run.value < |s.tasks| && s.tasks[s.run.value].raster ==>
        var t := s.run.value; var (s', out) := OwnStep(c, s, call, t);
        && (out == Ends <==> call == ExtTsk || (EnaterBy(s, t, call) && EnadspBy(s, call) && IpmBy(s, call) == 0))
        && t < |s'.tasks| && s'.tasks[t].raster == (out != Ends)
  {
    AfterInv(c, calls);
    hide After, Run, Inv;
    var s := After(c, calls);
    if TaskCtx(s) && s.run.value < |s.tasks| && s.tasks[s.run.value].raster {
      OwnDeltas(c, s, call);
      hide OwnStep, Shaped, Heads, Remove;
    }
  }

  // ----- A termination request stays until the task ends -----

  /** The calls and events that do away with a termination request of task t: it
    makes a call that lets it end, or another task ends it. */
  predicate LetsEnd(s: Sys, call: Call, t: nat)
    requires t < |s.tasks|
  {
    TaskCtx(s) && match call
      case OnSelf(oc) =>
        s.run == Some(t) && (oc == ExtTsk || (EnaterBy(s, t, oc) && EnadspBy(s, oc) && IpmBy(s, oc) == 0))
      case OnTasks(TerTsk(u)) => u == t && s.run != Some(t)
      case _ => false
  }

  /** In every reachable state, every call and interrupt event keeps a pending
    termination request except for exactly those that end its task. */
  lemma RequestStays(c: Config, calls: seq<Call>, call: Call, t: nat)
    requires ConfigValid(c) && t < |c.ipri|
    ensures var s, s' := After(c, calls), After(c, calls + [call]);
      |s.tasks| == |s'.tasks| == |c.ipri| && (s.tasks[t].raster ==> (s'.tasks[t].raster <==> !LetsEnd(s, call, t)))
  {
    AfterInv(c, calls);
    AfterInv(c, calls + [call]);
    var s := After(c, calls);
    AfterOne(c, Boot(c), calls, call);
    if s.tasks[t].raster {
      hide After, Run;
      RequestInStep(c, s, call, t);
    }
  }

  lemma {:induction false} AfterOne(c: Config, s: Sys, calls: seq<Call>, call: Call)
    requires Shaped(c, s)
    ensures Run(c, s, calls + [call]) == Step(c, Run(c, s, calls), call).0
    decreases |calls|
  {
    if calls == [] {
      assert (calls + [call])[1..] == [];
    } else {
      hide Step;
      AfterOne(c, Step(c, s, calls[0]).0, calls[1..], call);
      assert (calls + [call])[1..] == calls[1..] + [call];
    }
  }

  lemma ReleasedRequests(s: Sys, r: Sys, others: set<nat>, woken: set<nat>, er: Er, t: nat)
    requires Released(s, r, others, woken, er) && t < |s.tasks| && t !in others && s.tasks[t].st == Runnable
    ensures t < |r.tasks| && r.tasks[t] == s.tasks[t]
  {
  }

  lemma RequestInTaskCall(c: Config, s: Sys, call: TaskCall, out: Outcome, r: Sys, x: nat, t: nat)
    requires Shaped(c, s) && x < |s.tasks| && TaskDelta(c, s, call, out, r, x) && t < |s.tasks|
    requires s.tasks[t].raster && s.tasks[t].st == Runnable && (s.tasks[t].enater ==> x == t)
    ensures t < |r.tasks| && (r.tasks[t].raster <==> !(call == TerTsk(t) && x != t))
  {
    hide Shaped, Remove, Heads, Passed, Grown, Unreadied, Left, UnlockedReady, Repositioned;
    match call {
      case IniMtx(m) =>
        if IsMutex(c, m) {
          var s1: Sys :| AllOut(s, s1, m) &&
            if Locked(s, m) then exists u: nat :: TakenFrom(c, s1, r, u, m)
            else r.tasks == s1.tasks && SameLocking(s1, r) && r.ready == s1.ready && r.wq == s1.wq;
          assert r.tasks == s1.tasks;
        }
      case _ =>
    }
  }

  lemma RequestInSharedCall(c: Config, s: Sys, call: SharedCall, out: Outcome, r: Sys, t: nat)
    requires Shaped(c, s) && SharedDelta(c, s, call, out, r)
    requires t < |s.tasks| && s.tasks[t].raster && s.tasks[t].st == Runnable
    ensures t < |r.tasks| && r.tasks[t].raster
  {
    hide Shaped, Remove, Grown, Left;
  }

  lemma RequestInWaitingCall(c: Config, s: Sys, call: WaitingCall, out: Outcome, r: Sys, x: nat, t: nat)
    requires Shaped(c, s) && x < |s.tasks| && WaitingDelta(c, s, call, out, r, x)
    requires t < |s.tasks| && s.tasks[t].raster
    ensures t < |r.tasks| && r.tasks[t].raster
  {
    hide Shaped, Remove, Unreadied, QueuedAt, Replaced;
  }

  lemma RequestInOwnCall(c: Config, s: Sys, call: OwnCall, out: Outcome, r: Sys, x: nat, t: nat)
    requires Shaped(c, s) && x < |s.tasks| && OwnDelta(c, s, call, out, r, x)
    requires t < |s.tasks| && s.tasks[t].raster && s.tasks[t].st == Runnable
    ensures t < |r.tasks|
    ensures var ends := call == ExtTsk || (EnaterBy(s, t, call) && EnadspBy(s, call) && IpmBy(s, call) == 0);
      r.tasks[t].raster <==> !(x == t && ends)
  {
    hide Shaped, Remove, Heads;
  }

  lemma RequestInStep(c: Config, s: Sys, call: Call, t: nat)
    requires Inv(c, s) && t < |s.tasks| && s.tasks[t].raster
    ensures var s' := Step(c, s, call).0; t < |s'.tasks| && (s'.tasks[t].raster <==> !LetsEnd(s, call, t))
  {
    StepDeltas(c, s, call);
    hide Core, Step, SharedDelta, WaitingDelta, TaskDelta, OwnDelta, Shaped, Grown, Left;
    var (r, out) := Step(c, s, call);
    match call {
      case ByAnyone(sc) => if s.inInt || s.run.Some? { RequestInSharedCall(c, s, sc, out, r, t); }
      case Blocking(wc) => if MayWait(s) { RequestInWaitingCall(c, s, wc, out, r, s.run.value, t); }
      case OnTasks(tc) => if TaskCtx(s) { RequestInTaskCall(c, s, tc, out, r, s.run.value, t); }
      case OnSelf(oc) => if TaskCtx(s) { RequestInOwnCall(c, s, oc, out, r, s.run.value, t); }
      case _ =>
    }
  }

  /** In task context with dispatching possible, the running task is runnable and
    of the highest priority among the runnable tasks; it is missing only if there
    are none. */
  lemma DispatchRule(c: Config, calls: seq<Call>, t: nat)
    requires ConfigValid(c) && t < |c.ipri|
    ensures var s := After(c, calls);
      && |s.tasks| == |s.pri| == |c.ipri|
      && (s.run.Some? ==> s.run.value < |c.ipri| && s.tasks[s.run.value].st == Runnable)
      && (!s.inInt && s.enadsp && s.ipm == 0 && s.tasks[t].st == Runnable ==>
        s.run.Some? && s.pri[s.run.value] <= s.pri[t])
      && (!s.inInt && !(s.enadsp && s.ipm == 0) ==> s.run.Some?)
  {
    AfterInv(c, calls);
    var s := After(c, calls);
    if s.tasks[t].st == Runnable {
      assert ReadyQueue(s, {}, s.pri[t], s.ready[s.pri[t]]) && ToReady(s, {}, s.pri[t], t);
      assert s.ready[s.pri[t]] != [];
      var f := FirstOf(s.ready);
      assert f <= s.pri[t];
      assert ReadyQueue(s, {}, f, s.ready[f]) && s.ready[f][0] in s.ready[f];
    }
  }

  // ----- Locking and unlocking -----

  lemma PopPush(ms: seq<nat>, m: nat)
    ensures (ms + [m])[..|ms + [m]| - 1] == ms
  {
  }

  lemma RemoveHead(q: seq<nat>, t: nat)
    ensures Remove([t] + q, t) == q
  {
    assert ([t] + q)[1..] == q;
  }

  /** A priority change of a runnable task, written out. */
  lemma RunnableMoves(c: Config, s: Sys, t: nat, p: nat)
    requires Shaped(c, s) && t < |s.tasks| && p < TNUM_TPRI && s.tasks[t].st == Runnable
    ensures |s.tasks| == |s.pri| && |s.ready| == TNUM_TPRI && s.pri[t] < TNUM_TPRI
    ensures ChangePriority(c, s, t, p, true) == s.(pri := s.pri[t := p], ready := Moved(s.ready, s.pri, t, p, true))
  {
    hide Remove, Within;
  }

  /** Moving t to the front of another queue and back moves it to the front of
    its own. */
  lemma MovedBack(ready: seq<seq<nat>>, pri: seq<nat>, t: nat, p: nat)
    requires t < |pri| && pri[t] < |ready| && p < |ready| && p != pri[t]
    ensures Moved(Moved(ready, pri, t, p, true), pri[t := p], t, pri[t], true)
      == ready[pri[t] := [t] + Remove(ready[pri[t]], t)]
  {
    var q := pri[t];
    RemoveHead(ready[p], t);
    hide Remove;
    var r1 := ready[q := Remove(ready[q], t)][p := [t] + ready[p]];
    assert Moved(ready, pri, t, p, true) == r1;
    var r2 := r1[p := ready[p]];
    assert Moved(r1, pri[t := p], t, q, true) == r2[q := [t] + r2[q]];
    assert r2[q := [t] + r2[q]] == ready[q := [t] + Remove(ready[q], t)];
  }

  /** The state in which t is first in its ready queue. */
  function InFront(s: Sys, t: nat): Sys
    requires t < |s.pri| && s.pri[t] < |s.ready|
  {
    s.(ready := s.ready[s.pri[t] := [t] + Remove(s.ready[s.pri[t]], t)])
  }

  /** A runnable task locks a free mutex and gives it up again. */
  lemma LockedAndBack(c: Config, s: Sys, t: nat, m: nat)
    requires Shaped(c, s) && t < |s.tasks| && IsMutex(c, m) && s.tasks[t].st == Runnable &&
      s.pri[t] == ClosedPri(c, s, t)
    ensures forall x :: x in s.held[t] + [m] ==> IsMutex(c, x)
    ensures var s1 := Reprio(c, SetHeld(c, s, t, s.held[t] + [m]), t);
      && s1.held[t] == s.held[t] + [m] && s1.tasks == s.tasks && SameMode(s, s1) && s1.wq == s.wq
      && s.pri[t] < |s.ready|
      && Reprio(c, SetHeld(c, s1, t, s.held[t]), t)
        == if c.objs[m].Ceiling? && c.objs[m].ceil < s.pri[t] then InFront(s, t) else s
  {
    AcquirePri(c, s, t, m);
    var s0 := SetHeld(c, s, t, s.held[t] + [m]);
    hide Boosted, ChangePriority, Within;
    assert s0.held[t := s.held[t]] == s.held;
    if c.objs[m].Ceiling? && c.objs[m].ceil < s.pri[t] {
      RaisedAndBack(c, s, t, m, c.objs[m].ceil);
    }
  }

  lemma RaisedAndBack(c: Config, s: Sys, t: nat, m: nat, p: nat)
    requires Shaped(c, s) && t < |s.tasks| && IsMutex(c, m) && s.tasks[t].st == Runnable &&
      s.pri[t] == ClosedPri(c, s, t)
    requires p < s.pri[t] && forall x :: x in s.held[t] + [m] ==> IsMutex(c, x)
    ensures var s1 := ChangePriority(c, SetHeld(c, s, t, s.held[t] + [m]), t, p, true);
      && s1.held[t] == s.held[t] + [m] && s1.tasks == s.tasks && SameMode(s, s1) && s1.wq == s.wq
      && s.pri[t] < |s.ready| && Reprio(c, SetHeld(c, s1, t, s.held[t]), t) == InFront(s, t)
  {
    hide ChangePriority, Boosted, Moved, Within;
    var s0 := SetHeld(c, s, t, s.held[t] + [m]);
    RunnableMoves(c, s0, t, p);
    var s2 := SetHeld(c, ChangePriority(c, s0, t, p, true), t, s.held[t]);
    assert s2.held == s.held;
    RunnableMoves(c, s2, t, s.pri[t]);
    MovedBack(s.ready, s.pri, t, p);
    assert s.pri[t := p][t := s.pri[t]] == s.pri;
  }

  /** Locking a free mutex and unlocking it again leaves everything as it was,
    except that a task whose priority was raised in between comes to the front of
    its ready queue.  While dispatching is possible it is there anyway. */
  lemma LockUnlock(c: Config, s: Sys, m: nat)
    requires Inv(c, s) && TaskCtx(s) && IsMutex(c, m) && TaskStep(c, s, PlocMtx(m), s.run.value).1 == Done(E_OK)
    ensures var t := s.run.value;
      var (s1, _) := TaskStep(c, s, PlocMtx(m), t);
      && t < |s1.tasks| && s.pri[t] < |s.ready| && SameMode(s, s1)
      && TaskStep(c, s1, UnlMtx(m), t) ==
        (if !Dsp(s) && c.objs[m].Ceiling? && c.objs[m].ceil < s.pri[t] then InFront(s, t) else s, Done(E_OK))
  {
    hide Core, Reprio, Boosted, Remove, Shaped, Inv, Top;
    RunFacts(c, s);
    var t := s.run.value;
    LockOutcome(c, s, m);
    NobodyInQueue(c, s, m);
    LockedAndBack(c, s, t, m);
    FrontAlready(c, s);
    AlreadyRunning(c, s);
    var s1 := Reprio(c, SetHeld(c, s, t, s.held[t] + [m]), t);
    PopPush(s.held[t], m);
  }

  lemma RunFacts(c: Config, s: Sys)
    requires Inv(c, s) && TaskCtx(s)
    ensures Shaped(c, s)
    ensures var t := s.run.value;
      && t < |s.tasks| == |s.held| == |s.pri| && s.tasks[t].st == Runnable && s.pri[t] == ClosedPri(c, s, t)
  {
    assert TaskOk(c, s, s.run.value);
  }

  /** ploc_mtx succeeds only on a free mutex, and then locks it. */
  lemma LockOutcome(c: Config, s: Sys, m: nat)
    requires Inv(c, s) && TaskCtx(s) && IsMutex(c, m) && TaskStep(c, s, PlocMtx(m), s.run.value).1 == Done(E_OK)
    ensures var t := s.run.value; var ms := s.held[t] + [m];
      && Owner(s, m).None? && (forall x :: x in ms ==> IsMutex(c, x))
      && TaskStep(c, s, PlocMtx(m), t).0 == Reprio(c, SetHeld(c, s, t, ms), t)
  {
    hide Placed, TasksOk, MutexesOk, Reprio, Boosted;
    HeldMutex(c, s, s.run.value);
  }

  lemma HeldMutex(c: Config, s: Sys, t: nat)
    requires Shaped(c, s) && t < |s.held|
    ensures forall x :: x in s.held[t] ==> IsMutex(c, x)
  {
  }

  /** In task context the state is settled. */
  lemma AlreadyRunning(c: Config, s: Sys)
    requires Inv(c, s) && TaskCtx(s)
    ensures SettleShaped(c, s) == s
    ensures forall t :: t == s.run.value && !Dsp(s) && t < |s.pri| && s.pri[t] < |s.ready| ==>
      Settle(InFront(s, t)) == InFront(s, t)
  {
    hide Placed, TasksOk, MutexesOk;
  }

  /** Nobody waits for a mutex that nobody has locked. */
  lemma NobodyInQueue(c: Config, s: Sys, m: nat)
    requires Inv(c, s) && IsMutex(c, m) && Owner(s, m).None?
    ensures m < |s.wq| && s.wq[m] == []
  {
    if s.wq[m] != [] {
      QueueWaits(c, s, {}, m);
      assert WaitOk(c, s, {}, s.wq[m][0]) && WaitsForMutex(c, s.tasks[s.wq[m][0]].st, m);
    }
  }

  lemma FrontAlready(c: Config, s: Sys)
    requires Inv(c, s) && TaskCtx(s)
    ensures var t := s.run.value;
      t < |s.tasks| == |s.pri| && s.pri[t] < |s.ready| && (Dsp(s) ==> InFront(s, t) == s && Top(s.ready) == Some(t))
  {
    var t := s.run.value;
    assert ReadyQueue(s, {}, s.pri[t], s.ready[s.pri[t]]);
    if Dsp(s) {
      var f := FirstOf(s.ready);
      assert ReadyQueue(s, {}, f, s.ready[f]) && t in s.ready[f];
      var q := s.ready[f];
      assert [t] + q[1..] == q;
    }
  }

  // ----- Locking and unlocking in a given state -----

  /** Two tasks of priority 1 and a mutex with the ceiling 0. */
  function TwoTasks(): Config { Config([1, 1], [false, false], [Ceiling(0)]) }

  /** Both tasks are active; task 0 disables dispatching and rotates its queue. */
  function Rotated(): seq<Call> {
    [ByAnyone(ActTsk(0)), ByAnyone(ActTsk(1)), IntExit, OnSelf(DisDsp), ByAnyone(RotRdq(Some(1)))]
  }

  lemma ActivateStep(c: Config, s: Sys, t: nat)
    requires Shaped(c, s) && s.inInt && t < |s.tasks| && s.tasks[t].st == Dormant
    ensures s.pri[t] < |s.ready| && |s.pri| == |s.tasks|
    ensures Step(c, s, ByAnyone(ActTsk(t))).0 == s.(tasks := s.tasks[t := s.tasks[t].(st := Runnable)],
      ready := s.ready[s.pri[t] := s.ready[s.pri[t]] + [t]])
  {
  }

  lemma RunCons(c: Config, s: Sys, call: Call, calls: seq<Call>)
    requires Shaped(c, s)
    ensures Run(c, s, [call] + calls) == Run(c, Step(c, s, call).0, calls)
  {
    assert ([call] + calls)[1..] == calls;
  }

  lemma FirstDispatch(c: Config, s: Sys)
    requires Shaped(c, s) && Dsp(s) && |s.ready| == TNUM_TPRI && s.ready[0] == [] && s.ready[1] == [0, 1]
    ensures Step(c, s, IntExit).0 == s.(inInt := false, run := Some(0))
  {
    assert TopFrom(s.ready, 1) == Some(0);
    hide Shaped;
  }

  /** Both tasks are activated and the interrupt ends: task 0 runs. */
  lemma BothActive() returns (s: Sys)
    ensures var c := TwoTasks();
      && Shaped(c, s) && Run(c, Boot(c), Rotated()) == Run(c, s, [OnSelf(DisDsp), ByAnyone(RotRdq(Some(1)))])
      && |s.tasks| == 2 && s.tasks[0].bpri == 1 && s.pri == [1, 1] && s.held == [[], []]
      && |s.ready| == TNUM_TPRI && s.ready[0] == [] && s.ready[1] == [0, 1] && s.run == Some(0) && !s.inInt
  {
    hide Step, Shaped, Run, SharedStep;
    var c := TwoTasks();
    var s0 := Boot(c);
    hide Boot;
    ActivateStep(c, s0, 0);
    var s1 := Step(c, s0, ByAnyone(ActTsk(0))).0;
    ActivateStep(c, s1, 1);
    var s2 := Step(c, s1, ByAnyone(ActTsk(1))).0;
    FirstDispatch(c, s2);
    s := Step(c, s2, IntExit).0;
    var rest := [OnSelf(DisDsp), ByAnyone(RotRdq(Some(1)))];
    RunCons(c, s0, ByAnyone(ActTsk(0)), [ByAnyone(ActTsk(1)), IntExit] + rest);
    RunCons(c, s1, ByAnyone(ActTsk(1)), [IntExit] + rest);
    RunCons(c, s2, IntExit, rest);
    assert Rotated() == [ByAnyone(ActTsk(0))] + ([ByAnyone(ActTsk(1)), IntExit] + rest);
    assert [ByAnyone(ActTsk(1)), IntExit] + rest == [ByAnyone(ActTsk(1))] + ([IntExit] + rest);
  }

  lemma RunNothing(c: Config, s: Sys)
    requires Shaped(c, s)
    ensures Run(c, s, []) == s
  {
  }

  lemma RotateUndispatched(c: Config, s: Sys)
    requires Shaped(c, s) && TaskCtx(s) && s.ready[1] == [0, 1]
    ensures Step(c, s, OnSelf(DisDsp)).0 == s.(enadsp := false)
    ensures Step(c, s.(enadsp := false), ByAnyone(RotRdq(Some(1)))).0
      == s.(enadsp := false, ready := s.ready[1 := [1, 0]])
  {
    assert s.ready[1][1..] + [s.ready[1][0]] == [1, 0];
    hide Shaped, Top;
  }

  lemma AfterRotated()
    ensures var c := TwoTasks(); var s := After(c, Rotated());
      && |s.tasks| == 2 && s.tasks[0].bpri == 1 && s.pri == [1, 1] && s.held == [[], []]
      && |s.ready| == TNUM_TPRI && s.ready[1] == [1, 0] && s.run == Some(0) && TaskCtx(s) && !Dsp(s)
  {
    hide Step, Boot, Run;
    var c := TwoTasks();
    var s := BothActive();
    RotateUndispatched(c, s);
    var s1 := s.(enadsp := false);
    assert [OnSelf(DisDsp), ByAnyone(RotRdq(Some(1)))] == [OnSelf(DisDsp)] + [ByAnyone(RotRdq(Some(1)))];
    assert [ByAnyone(RotRdq(Some(1)))] + [] == [ByAnyone(RotRdq(Some(1)))];
    RunCons(c, s, OnSelf(DisDsp), [ByAnyone(RotRdq(Some(1)))]);
    RunCons(c, s1, ByAnyone(RotRdq(Some(1))), []);
    RunNothing(c, Step(c, s1, ByAnyone(RotRdq(Some(1)))).0);
  }

  lemma LockThenUnlock(c: Config, s: Sys)
    requires c == TwoTasks() && Inv(c, s) && TaskCtx(s) && !Dsp(s) && s.run == Some(0) && s.held == [[], []]
    requires |s.tasks| == 2 && s.tasks[0].bpri == 1 && s.pri == [1, 1] && |s.ready| == TNUM_TPRI && s.ready[1] == [1, 0]
    ensures var r := Step(c, Step(c, s, OnTasks(PlocMtx(0))).0, OnTasks(UnlMtx(0))).0;
      |r.ready| == TNUM_TPRI && r.ready[1] == [0, 1]
  {
    LocksFree(c, s);
    LockUnlock(c, s, 0);
    assert Remove([1, 0], 0) == [1];
    hide Inv, TaskStep, Dsp, Remove;
  }

  lemma LocksFree(c: Config, s: Sys)
    requires c == TwoTasks() && Inv(c, s) && TaskCtx(s) && s.run == Some(0) && s.held == [[], []]
    requires |s.tasks| == 2 && s.tasks[0].bpri == 1
    ensures IsMutex(c, 0) && TaskStep(c, s, PlocMtx(0), 0).1 == Done(E_OK)
  {
    hide Reprio;
    assert Owner(s, 0).None?;
  }

  /** Locking and unlocking the mutex moves the running task to the front of its
    ready queue: the other task loses the place that the rotation gave it. */
  lemma LockUnlockReorders()
    ensures var c := TwoTasks(); var s := After(c, Rotated());
      var r := After(c, Rotated() + [OnTasks(PlocMtx(0)), OnTasks(UnlMtx(0))]);
      |s.ready| == |r.ready| == TNUM_TPRI && s.ready[1] == [1, 0] && r.ready[1] == [0, 1]
  {
    hide Run, Inv, Dsp, TaskCtx, Step, Boot;
    var c, calls := TwoTasks(), Rotated();
    var lock, unlock := OnTasks(PlocMtx(0)), OnTasks(UnlMtx(0));
    AfterRotated();
    AfterInv(c, calls);
    AfterOne(c, Boot(c), calls, lock);
    AfterOne(c, Boot(c), calls + [lock], unlock);
    assert calls + [lock, unlock] == calls + [lock] + [unlock];
    LockThenUnlock(c, After(c, calls));
  }
}
