/** The order in which tasks wait, are served and become ready. */
module KernelOrder {
  import opened Options
  import opened Queues
  import opened KernelState
  import opened KernelCalls
  import opened KernelPlacement
  import opened KernelInvariant
  import opened KernelSteps
  import opened KernelDeltas
  import opened KernelEffects
  import opened KernelModes
  import opened KernelRuns
  import opened KernelLaws

  // ----- Starting to wait -----

  lemma WaiterQueued(c: Config, s: Sys, wc: WaitingCall, out: Outcome, r: Sys)
    requires Shaped(c, s) && StepDelta(c, s, Blocking(wc), out, r) && out == Waits
    ensures s.run.Some? && s.run.value < |s.tasks|
    ensures WaitStarted(c, s, r, s.run.value, WaitOf(wc), TmoOf(wc) == Limited)
  {
    hide WaitStarted, Replaced;
  }

  lemma SortedBehind(c: Config, s: Sys, o: nat, q': seq<nat>, t: nat, k: nat)
    requires Inv(c, s) && o < |s.wq| == |c.objs| && QueuedAt(s.wq[o], q', t, s.pri, InPriorityOrder(c, o), k)
    ensures var q := s.wq[o];
      && Within(q, |s.pri|)
      && if InPriorityOrder(c, o) then
           && (forall i :: 0 <= i < k ==> s.pri[q[i]] <= s.pri[t])
           && (forall i :: k <= i < |q| ==> s.pri[t] < s.pri[q[i]])
         else k == |q|
  {
    assert InPriorityOrder(c, o) ==> ByPriority(s.wq[o], s.pri);
  }

  /** When a call ends with its caller waiting for an object, those who waited there
    before keep their order; the caller comes behind all of them or, in a queue in
    priority order, behind all of its priority or higher and before all the others. */
  lemma WaiterPlaced(c: Config, calls: seq<Call>, wc: WaitingCall)
    requires ConfigValid(c)
    ensures var s, r := After(c, calls), After(c, calls + [Blocking(wc)]);
      Answer(c, calls, Blocking(wc)) == Waits ==>
        && s.run.Some? && s.run.value < |s.tasks| == |r.tasks| == |s.pri| && |s.wq| == |r.wq| == |c.objs|
        && (forall o :: 0 <= o < |c.objs| ==> Within(s.wq[o], |s.pri|))
        && var t, w := s.run.value, WaitOf(wc);
          && r.tasks[t].st == Waiting(w, false)
          && (forall o: nat :: o < |c.objs| && w != Obj(o) ==> r.wq[o] == s.wq[o])
          && (w.Obj? ==> w.o < |c.objs| && var q := s.wq[w.o];
               exists k :: 0 <= k <= |q| && r.wq[w.o] == q[..k] + [t] + q[k..]
                 && if c.objs[w.o].Ceiling? || c.objs[w.o].tpri then
                      && (forall i :: 0 <= i < k ==> s.pri[q[i]] <= s.pri[t])
                      && (forall i :: k <= i < |q| ==> s.pri[t] < s.pri[q[i]])
                    else k == |q|)
  {
    hide After, Answer, TasksAfter, ModeDelta, StepDelta, Inv;
    NextStep(c, calls, Blocking(wc));
    var s, r, w := After(c, calls), After(c, calls + [Blocking(wc)]), WaitOf(wc);
    SameShape(c, s);
    if Answer(c, calls, Blocking(wc)) == Waits {
      WaiterQueued(c, s, wc, Waits, r);
      hide Unreadied, QueuedAt;
      if w.Obj? {
        var k :| QueuedAt(s.wq[w.o], r.wq[w.o], s.run.value, s.pri, InPriorityOrder(c, w.o), k);
        SortedBehind(c, s, w.o, r.wq[w.o], s.run.value, k);
        QueuedForm(s.wq[w.o], r.wq[w.o], s.run.value, s.pri, InPriorityOrder(c, w.o), k);
      }
    }
  }

  lemma QueuedForm(q: seq<nat>, q': seq<nat>, t: nat, pri: seq<nat>, tpri: bool, k: nat)
    requires QueuedAt(q, q', t, pri, tpri, k)
    ensures k <= |q| && q' == q[..k] + [t] + q[k..]
  {
  }

  // ----- How wait queues change -----

  /** At most one task, or everybody, has left the queue. */
  ghost predicate Thinned(q: seq<nat>, q': seq<nat>) { q' == [] || exists x: nat :: q' == Remove(q, x) }

  lemma ThinnedSame(q: seq<nat>, n: nat)
    requires Within(q, n)
    ensures Thinned(q, q)
  {
    assert n !in q;
    RemoveAbsent(q, n);
  }

  lemma ThinnedFirst(q: seq<nat>)
    requires q != []
    ensures Thinned(q, q[1..])
  {
    RemoveFirst(q);
  }

  lemma ThinnedOrder(q: seq<nat>, q': seq<nat>, i: nat, j: nat) returns (i': nat, j': nat)
    requires Thinned(q, q') && i < j < |q'|
    ensures i' < j' < |q| && q[i'] == q'[i] && q[j'] == q'[j]
  {
    var x: nat :| q' == Remove(q, x);
    var k := RemovePlace(q, x);
    i' := if i < k then i else i + 1;
    j' := if j < k then j else j + 1;
  }

  /** In a queue in order of arrival, tasks leave and new ones come last. */
  ghost predicate ArrivalQueue(s: Sys, call: Call, out: Outcome, r: Sys, o: nat) {
    && o < |s.wq| == |r.wq|
    && if out == Waits && call.Blocking? && s.run.Some? && WaitOf(call.wc) == Obj(o) then
         r.wq[o] == s.wq[o] + [s.run.value]
       else Thinned(s.wq[o], r.wq[o])
  }

  lemma SameQueue(c: Config, s: Sys, call: Call, out: Outcome, r: Sys, o: nat)
    requires Shaped(c, s) && o < |c.objs| && out != Waits && |r.wq| == |s.wq| && r.wq[o] == s.wq[o]
    ensures ArrivalQueue(s, call, out, r, o)
  {
    assert Within(s.wq[o], |s.tasks|);
    ThinnedSame(s.wq[o], |s.tasks|);
  }

  lemma LeftQueue(c: Config, s: Sys, call: Call, out: Outcome, r: Sys, t: nat, o: nat)
    requires Shaped(c, s) && o < |c.objs| && out != Waits && Left(s, r, t)
    ensures ArrivalQueue(s, call, out, r, o)
  {
    assert r.wq[o] == Remove(s.wq[o], t);
  }

  lemma SharedQueue(c: Config, s: Sys, call: SharedCall, out: Outcome, r: Sys, o: nat)
    requires Shaped(c, s) && SharedDelta(c, s, call, out, r) && o < |c.objs|
    ensures ArrivalQueue(s, ByAnyone(call), out, r, o)
  {
    hide Released, Grown, Left, Remove, ArrivalQueue, Within;
    match call {
      case WupTsk(t) =>
        if Left(s, r, t) {
          LeftQueue(c, s, ByAnyone(call), out, r, t, o);
        } else {
          SameQueue(c, s, ByAnyone(call), out, r, o);
        }
      case RelWai(t) =>
        if Left(s, r, t) {
          LeftQueue(c, s, ByAnyone(call), out, r, t, o);
        } else {
          SameQueue(c, s, ByAnyone(call), out, r, o);
        }
      case WakeObj(p) =>
        if out == Done(E_OK) && p < |s.wq| && s.wq[p] != [] {
          LeftQueue(c, s, ByAnyone(call), out, r, s.wq[p][0], o);
        } else {
          SameQueue(c, s, ByAnyone(call), out, r, o);
        }
      case _ => SameQueue(c, s, ByAnyone(call), out, r, o);
    }
  }

  lemma WaitingQueue(c: Config, s: Sys, wc: WaitingCall, out: Outcome, r: Sys, o: nat)
    requires Shaped(c, s) && StepDelta(c, s, Blocking(wc), out, r) && o < |c.objs| && !InPriorityOrder(c, o)
    ensures ArrivalQueue(s, Blocking(wc), out, r, o)
  {
    assert |s.wq| == |c.objs|;
    if out == Waits {
      WaiterQueued(c, s, wc, out, r);
      hide StepDelta, Unreadied;
      if WaitOf(wc) != Obj(o) {
        assert r.wq[o] == s.wq[o];
        assert Within(s.wq[o], |s.tasks|);
        ThinnedSame(s.wq[o], |s.tasks|);
      }
    } else {
      hide Replaced, WaitStarted, Shaped;
      SameQueue(c, s, Blocking(wc), out, r, o);
    }
  }

  lemma EndedQueue(c: Config, s: Sys, call: Call, out: Outcome, r: Sys, t: nat, o: nat)
    requires Shaped(c, s) && t < |s.tasks| && EndedTask(c, s, r, t) && o < |c.objs| && out != Waits
    ensures ArrivalQueue(s, call, out, r, o)
  {
    hide Heads, Released, Remove;
    if s.wq[o] != [] {
      ThinnedFirst(s.wq[o]);
    }
  }

  lemma RepositionedQueue(c: Config, s: Sys, r: Sys, u: nat, front: bool, o: nat)
    requires Repositioned(c, s, r, u, front) && o < |s.wq| == |c.objs| && !InPriorityOrder(c, o)
    ensures |r.wq| == |s.wq| && r.wq[o] == s.wq[o]
  {
    hide Replaced, QueuedAt, Remove;
  }

  lemma ResetQueue(c: Config, s: Sys, r: Sys, m: nat, o: nat)
    requires MutexReset(c, s, r, m) && o < |s.wq| == |c.objs| && !InPriorityOrder(c, o)
    ensures |r.wq| == |s.wq| && r.wq[o] == if o == m then [] else s.wq[o]
  {
    hide Released, Grown, Members, Remove, Repositioned;
    var s1: Sys :| AllOut(s, s1, m) &&
      if Locked(s, m) then exists u: nat :: TakenFrom(c, s1, r, u, m)
      else r.tasks == s1.tasks && SameLocking(s1, r) && r.ready == s1.ready && r.wq == s1.wq;
    if Locked(s, m) {
      var u: nat :| TakenFrom(c, s1, r, u, m);
      if Repositioned(c, s1, r, u, true) {
        RepositionedQueue(c, s1, r, u, true, o);
      }
    }
  }

  lemma TaskQueue(c: Config, s: Sys, call: TaskCall, out: Outcome, r: Sys, x: nat, o: nat)
    requires Shaped(c, s) && x < |s.tasks| && TaskDelta(c, s, call, out, r, x) && o < |c.objs| && !InPriorityOrder(c, o)
    ensures ArrivalQueue(s, OnTasks(call), out, r, o)
  {
    assert |s.wq| == |c.objs|;
    hide Shaped, Released, Grown, Left, Remove, ArrivalQueue, EndedTask, Repositioned, Replaced, MutexReset, Passed;
    hide Unreadied, UnlockedReady, Heads, Members;
    var cl := OnTasks(call);
    if out != Done(E_OK) {
      SameQueue(c, s, cl, out, r, o);
    } else {
      match call {
        case ChgPri(u, _) =>
          if Repositioned(c, s, r, u, false) { RepositionedQueue(c, s, r, u, false, o); }
          SameQueue(c, s, cl, out, r, o);
        case RasTer(u) =>
          if EndedTask(c, s, r, u) { EndedQueue(c, s, cl, out, r, u, o); }
          else if Left(s, r, u) { LeftQueue(c, s, cl, out, r, u, o); }
          else { SameQueue(c, s, cl, out, r, o); }
        case TerTsk(u) => EndedQueue(c, s, cl, out, r, u, o);
        case UnlMtx(m) => PassedQueue(c, s, cl, out, r, x, m, o);
        case IniMtx(m) =>
          ResetQueue(c, s, r, m, o);
          if o == m { EmptyQueue(s, cl, out, r, o); } else { SameQueue(c, s, cl, out, r, o); }
        case IniObj(p) =>
          if o == p { EmptyQueue(s, cl, out, r, o); } else { SameQueue(c, s, cl, out, r, o); }
        case _ => SameQueue(c, s, cl, out, r, o);
      }
    }
  }

  lemma EmptyQueue(s: Sys, call: Call, out: Outcome, r: Sys, o: nat)
    requires out != Waits && o < |s.wq| == |r.wq| && r.wq[o] == []
    ensures ArrivalQueue(s, call, out, r, o)
  {
  }

  lemma PassedQueue(c: Config, s: Sys, call: Call, out: Outcome, r: Sys, x: nat, m: nat, o: nat)
    requires Shaped(c, s) && o < |c.objs| && out != Waits && x < |s.held| && s.held[x] != []
    requires Passed(s.(held := s.held[x := s.held[x][..|s.held[x]| - 1]]), r, [m])
    ensures ArrivalQueue(s, call, out, r, o)
  {
    if r.wq[o] == s.wq[o] {
      SameQueue(c, s, call, out, r, o);
    } else {
      ThinnedFirst(s.wq[o]);
    }
  }

  lemma OwnQueue(c: Config, s: Sys, call: Call, out: Outcome, r: Sys, o: nat)
    requires Shaped(c, s) && (s.run.Some? ==> s.run.value < |s.tasks|) && StepDelta(c, s, call, out, r) && o < |c.objs|
    requires call.OnSelf? || call.TimerExpired? || call.IntEnter? || call.IntExit?
    ensures ArrivalQueue(s, call, out, r, o)
  {
    assert |s.wq| == |c.objs|;
    hide Shaped, Released, Grown, Left, Remove, ArrivalQueue, EndedTask;
    if call.OnSelf? && out == Ends {
      EndedQueue(c, s, call, out, r, s.run.value, o);
    } else if call.TimerExpired? && Left(s, r, call.t) {
      LeftQueue(c, s, call, out, r, call.t, o);
    } else {
      SameQueue(c, s, call, out, r, o);
    }
  }

  lemma QueueStep(c: Config, s: Sys, call: Call, out: Outcome, r: Sys, o: nat)
    requires Inv(c, s) && StepDelta(c, s, call, out, r) && o < |c.objs| && !InPriorityOrder(c, o)
    ensures ArrivalQueue(s, call, out, r, o)
  {
    hide Placed, TimersOk, TasksOk, MutexesOk, SharedDelta, TaskDelta, OwnDelta, ArrivalQueue, WaitingDelta;
    match call {
      case ByAnyone(sc) =>
        if s.inInt || s.run.Some? { SharedQueue(c, s, sc, out, r, o); } else { SameQueue(c, s, call, out, r, o); }
      case Blocking(wc) => WaitingQueue(c, s, wc, out, r, o);
      case OnTasks(tc) =>
        if TaskCtx(s) { TaskQueue(c, s, tc, out, r, s.run.value, o); } else { SameQueue(c, s, call, out, r, o); }
      case _ => OwnQueue(c, s, call, out, r, o);
    }
  }

  // ----- First come, first served -----

  /** How long the run was when the present wait of task t had just begun. */
  ghost function Since(c: Config, calls: seq<Call>, t: nat): (n: nat)
    requires ConfigValid(c) && t < |c.ipri|
    ensures n <= |calls|
    decreases |calls|
  {
    if calls == [] then 0
    else
      var before := calls[..|calls| - 1];
      AfterInv(c, before);
      AfterInv(c, calls);
      if After(c, before).tasks[t].st.Waiting? && After(c, calls).tasks[t].st.Waiting? then Since(c, before, t)
      else |calls|
  }

  ghost predicate ByArrival(c: Config, calls: seq<Call>, q: seq<nat>)
    requires ConfigValid(c)
  {
    Within(q, |c.ipri|) && forall i, j :: 0 <= i < j < |q| ==> Since(c, calls, q[i]) < Since(c, calls, q[j])
  }

  lemma SinceNext(c: Config, before: seq<Call>, last: Call, t: nat)
    requires ConfigValid(c) && t < |c.ipri|
    ensures var s, r := After(c, before), After(c, before + [last]);
      && |s.tasks| == |r.tasks| == |c.ipri|
      && Since(c, before + [last], t) ==
        if s.tasks[t].st.Waiting? && r.tasks[t].st.Waiting? then Since(c, before, t) else |before| + 1
  {
    AfterInv(c, before);
    AfterInv(c, before + [last]);
    var calls := before + [last];
    assert calls[..|calls| - 1] == before;
    hide After, Inv;
  }

  /** In every reachable state a queue in order of arrival is in the order in which
    the waits of its tasks began. */
  lemma {:induction false} QueueByArrival(c: Config, calls: seq<Call>, o: nat)
    requires ConfigValid(c) && o < |c.objs| && !(c.objs[o].Ceiling? || c.objs[o].tpri)
    ensures var s := After(c, calls); |s.wq| == |c.objs| && ByArrival(c, calls, s.wq[o])
    decreases |calls|
  {
    if calls != [] {
      hide After, Answer, StepDelta, ModeDelta, TasksAfter, Core, ByArrival, ArrivalQueue;
      var before, last := calls[..|calls| - 1], calls[|calls| - 1];
      assert calls == before + [last];
      QueueByArrival(c, before, o);
      NextStep(c, before, last);
      QueueStep(c, After(c, before), last, Answer(c, before, last), After(c, calls), o);
      ArrivalNext(c, before, last, o);
    }
  }

  lemma ArrivalNext(c: Config, before: seq<Call>, last: Call, o: nat)
    requires ConfigValid(c) && o < |c.objs|
    requires var s, r := After(c, before), After(c, before + [last]);
      && |s.wq| == |c.objs| && Inv(c, s) && Inv(c, r) && ByArrival(c, before, s.wq[o])
      && ArrivalQueue(s, last, Answer(c, before, last), r, o)
    ensures var r := After(c, before + [last]); |r.wq| == |c.objs| && ByArrival(c, before + [last], r.wq[o])
  {
    var s, r, calls := After(c, before), After(c, before + [last]), before + [last];
    AfterInv(c, before);
    AfterInv(c, calls);
    hide After, Answer, Since;
    assert Within(r.wq[o], |c.ipri|);
    forall i, j | 0 <= i < j < |r.wq[o]| ensures Since(c, calls, r.wq[o][i]) < Since(c, calls, r.wq[o][j]) {
      var t, u := r.wq[o][i], r.wq[o][j];
      WaitsInQueue(c, r, o, t);
      WaitsInQueue(c, r, o, u);
      SinceNext(c, before, last, t);
      SinceNext(c, before, last, u);
      hide Inv;
      EarlierBefore(c, before, s, last, Answer(c, before, last), r, o, i, j);
    }
  }

  lemma EarlierBefore(c: Config, before: seq<Call>, s: Sys, call: Call, out: Outcome, r: Sys, o: nat, i: nat, j: nat)
    requires ConfigValid(c) && Inv(c, s) && |s.tasks| == |c.ipri|
    requires ArrivalQueue(s, call, out, r, o) && ByArrival(c, before, s.wq[o]) && i < j < |r.wq[o]|
    ensures r.wq[o][i] < |c.ipri| && s.tasks[r.wq[o][i]].st.Waiting?
    ensures r.wq[o][j] < |c.ipri|
    ensures s.tasks[r.wq[o][j]].st.Waiting? ==> Since(c, before, r.wq[o][i]) < Since(c, before, r.wq[o][j])
  {
    hide Placed, TimersOk, TasksOk, MutexesOk, Since;
    if Thinned(s.wq[o], r.wq[o]) {
      var i', j' := ThinnedOrder(s.wq[o], r.wq[o], i, j);
      assert s.wq[o][i'] in s.wq[o];
      WaitsInQueue(c, s, o, s.wq[o][i']);
    } else {
      var x := s.run.value;
      assert r.wq[o][i] == s.wq[o][i] && s.wq[o][i] in s.wq[o];
      WaitsInQueue(c, s, o, s.wq[o][i]);
    }
  }

  /** The wait of task t for object o has ended with E_OK: it has been served. */
  predicate Served(s: Sys, call: Call, out: Outcome, r: Sys, t: nat, o: nat)
    requires t < |s.tasks| == |r.tasks|
  {
    && s.tasks[t].st.Waiting? && s.tasks[t].st.w == Obj(o)
    && !r.tasks[t].st.Waiting? && r.tasks[t].wercd == E_OK && !EndedBy(s, call, out, t)
  }

  lemma ServedIsFirst(c: Config, s: Sys, call: Call, out: Outcome, r: Sys, t: nat, o: nat)
    requires Inv(c, s) && TasksAfter(c, s, call, out, r) && t < |s.tasks| && Served(s, call, out, r, t, o)
    ensures o < |s.wq| && s.wq[o] != [] && s.wq[o][0] == t
  {
    assert r.tasks[t] == TaskAfter(c, s, call, out, t);
    if s.run == Some(t) {
      RunningWaitsNot(c, s, t);
    }
    GrantedWaits(c, s, call, t);
    if HandsTo(s, call, out, t) {
      var m: nat :| m < |s.wq| && GivenUp(s, call, out, m) && s.wq[m] != [] && s.wq[m][0] == t;
      WaitsInQueue(c, s, m, t);
    }
    match call {
      case ByAnyone(WakeObj(p)) =>
        if p < |s.wq| && s.wq[p] != [] && s.wq[p][0] == t {
          WaitsInQueue(c, s, p, t);
        }
      case _ =>
    }
    hide Inv, TasksAfter, HandsTo, Granted, EndedBy;
  }

  /** Whoever is served has waited longer than everybody else in the queue, if that is in
    order of arrival, and else has the highest priority of all who wait there. */
  lemma FirstServed(c: Config, calls: seq<Call>, call: Call, o: nat, t: nat, u: nat)
    requires ConfigValid(c) && t < |c.ipri| && u < |c.ipri| && u != t && o < |c.objs|
    ensures var s, r, out := After(c, calls), After(c, calls + [call]), Answer(c, calls, call);
      && |s.tasks| == |r.tasks| == |c.ipri| == |s.pri|
      && (Served(s, call, out, r, t, o) && s.tasks[u].st.Waiting? && s.tasks[u].st.w == Obj(o) ==>
        if c.objs[o].Ceiling? || c.objs[o].tpri then s.pri[t] <= s.pri[u]
        else Since(c, calls, t) < Since(c, calls, u))
  {
    hide After, Answer, StepDelta, ModeDelta, Since, TasksAfter, EndedBy, TimersOk, TasksOk, MutexesOk, Boosted;
    NextStep(c, calls, call);
    var s, r, out := After(c, calls), After(c, calls + [call]), Answer(c, calls, call);
    if Served(s, call, out, r, t, o) && s.tasks[u].st.Waiting? && s.tasks[u].st.w == Obj(o) {
      ServedIsFirst(c, s, call, out, r, t, o);
      assert WaitQueue(s, {}, o, s.wq[o]) && ToWait(s, {}, o, u);
      var j: nat :| j < |s.wq[o]| && s.wq[o][j] == u;
      if InPriorityOrder(c, o) {
        assert ByPriority(s.wq[o], s.pri);
      } else {
        QueueByArrival(c, calls, o);
      }
    }
  }

  /** If anybody waits for the object, the call that wakes serves somebody. */
  lemma SomebodyServed(c: Config, calls: seq<Call>, o: nat, u: nat)
    requires ConfigValid(c) && u < |c.ipri| && o < |c.objs| && c.objs[o].Plain?
    ensures var call := ByAnyone(WakeObj(o));
      var s, r, out := After(c, calls), After(c, calls + [call]), Answer(c, calls, call);
      && |s.tasks| == |r.tasks| == |c.ipri|
      && ((s.inInt || s.run.Some?) && s.tasks[u].st.Waiting? && s.tasks[u].st.w == Obj(o) ==>
        out == Done(E_OK) && exists t: nat :: t < |c.ipri| && Served(s, call, out, r, t, o))
  {
    var call := ByAnyone(WakeObj(o));
    hide After, Answer, ModeDelta, TasksAfter, TimersOk, TasksOk, MutexesOk, Boosted, Left, Grown;
    NextStep(c, calls, call);
    var s, r, out := After(c, calls), After(c, calls + [call]), Answer(c, calls, call);
    if (s.inInt || s.run.Some?) && s.tasks[u].st.Waiting? && s.tasks[u].st.w == Obj(o) {
      assert WaitQueue(s, {}, o, s.wq[o]) && ToWait(s, {}, o, u);
      assert s.wq[o] != [];
      WaitsInQueue(c, s, o, s.wq[o][0]);
      assert Served(s, call, out, r, s.wq[o][0], o);
    }
  }

  /** The holder that gives mutex m up has it no longer. */
  lemma PoppedGone(c: Config, s: Sys, x: nat, m: nat)
    requires Inv(c, s) && x < |s.held| && s.held[x] != [] && s.held[x][|s.held[x]| - 1] == m
    ensures forall v :: 0 <= v < |s.held| && v != x ==> m !in s.held[v]
    ensures m !in s.held[x][..|s.held[x]| - 1]
  {
    var n := |s.held[x]| - 1;
    assert NoDup(s.held[x]) && m in s.held[x];
    forall i | 0 <= i < n ensures s.held[x][i] != m {
      assert s.held[x][i] != s.held[x][n];
    }
  }

  /** After unl_mtx exactly the task that was served holds the mutex, and somebody was
    if anybody waited for it. */
  lemma MutexPasses(c: Config, calls: seq<Call>, m: nat, u: nat)
    requires ConfigValid(c) && u < |c.ipri|
    ensures var call := OnTasks(UnlMtx(m));
      var s, r, out := After(c, calls), After(c, calls + [call]), Answer(c, calls, call);
      && |s.tasks| == |r.tasks| == |r.held| == |c.ipri|
      && (out == Done(E_OK) ==>
        && (m in r.held[u] <==> Served(s, call, out, r, u, m))
        && (s.tasks[u].st.Waiting? && s.tasks[u].st.w == Obj(m) ==>
          exists t: nat :: t < |c.ipri| && Served(s, call, out, r, t, m)))
  {
    var call := OnTasks(UnlMtx(m));
    hide After, Answer, ModeDelta, TasksAfter, Core, StepDelta;
    NextStep(c, calls, call);
    var s, r, out := After(c, calls), After(c, calls + [call]), Answer(c, calls, call);
    SameShape(c, s);
    SameShape(c, r);
    if out == Done(E_OK) {
      UnlockServes(c, s, m, r);
      UnlockedTo(c, s, m, r, u);
      if s.tasks[u].st.Waiting? && s.tasks[u].st.w == Obj(m) {
        InItsQueue(c, s, u, m);
        UnlockedTo(c, s, m, r, s.wq[m][0]);
      }
    }
  }

  lemma InItsQueue(c: Config, s: Sys, u: nat, o: nat)
    requires Inv(c, s) && u < |s.tasks| && s.tasks[u].st.Waiting? && s.tasks[u].st.w == Obj(o)
    ensures o < |s.wq| && u in s.wq[o] && s.wq[o] != [] && s.wq[o][0] < |s.tasks|
  {
    assert WaitQueue(s, {}, o, s.wq[o]) && ToWait(s, {}, o, u);
    assert Within(s.wq[o], |s.tasks|);
  }

  lemma UnlockServes(c: Config, s: Sys, m: nat, r: Sys)
    requires Inv(c, s) && StepDelta(c, s, OnTasks(UnlMtx(m)), Done(E_OK), r)
    ensures s.run.Some? && s.run.value < |s.held| && m < |s.wq| && |r.held| == |s.held|
    ensures Released(s, r, {}, Heads(s, [m]), E_OK)
    ensures forall v :: 0 <= v < |s.held| ==> (m in r.held[v] <==> s.wq[m] != [] && s.wq[m][0] == v)
  {
    var x := s.run.value;
    assert IsMutex(c, m) && x < |s.held|;
    PoppedGone(c, s, x, m);
    hide Core, Released, UnlockedReady;
    forall v: nat | v < |s.held| ensures m in r.held[v] <==> s.wq[m] != [] && s.wq[m][0] == v {
      var s1 := s.(held := s.held[x := s.held[x][..|s.held[x]| - 1]]);
      assert m in r.held[v] <==> m in s1.held[v] || FirstFor(s1, [m], m, v);
      assert m in [m];
    }
  }

  lemma UnlockedTo(c: Config, s: Sys, m: nat, r: Sys, u: nat)
    requires Inv(c, s) && StepDelta(c, s, OnTasks(UnlMtx(m)), Done(E_OK), r) && u < |s.tasks|
    requires TasksAfter(c, s, OnTasks(UnlMtx(m)), Done(E_OK), r)
    requires m < |s.wq| && Released(s, r, {}, Heads(s, [m]), E_OK)
    ensures |r.tasks| == |s.tasks|
    ensures Served(s, OnTasks(UnlMtx(m)), Done(E_OK), r, u, m) <==> s.wq[m] != [] && s.wq[m][0] == u
  {
    hide Core, StepDelta;
    if Served(s, OnTasks(UnlMtx(m)), Done(E_OK), r, u, m) {
      ServedIsFirst(c, s, OnTasks(UnlMtx(m)), Done(E_OK), r, u, m);
    }
    if s.wq[m] != [] && s.wq[m][0] == u {
      WaitsInQueue(c, s, m, u);
      assert m in [m] && u in Heads(s, [m]);
    }
    hide TasksAfter;
  }

  // ----- Ready queues -----

  /** A call that may put a task ahead of others in a ready queue. */
  predicate Reorders(call: Call) {
    match call
    case ByAnyone(RotRdq(_)) => true
    case Blocking(LocMtx(_, _)) => true
    case OnTasks(tc) => tc.ChgPri? || tc.PlocMtx? || tc.UnlMtx? || tc.IniMtx?
    case _ => false
  }

  /** At most one task has left the ready queue; the others keep their order, and those
    who are new come behind them. */
  ghost predicate Behind(q: seq<nat>, q': seq<nat>) { exists x: nat :: Remove(q, x) <= q' }

  lemma BehindAll(c: Config, s: Sys, r: Sys, p: nat)
    requires Shaped(c, s) && p < |s.ready| == |r.ready| && s.ready[p] <= r.ready[p]
    ensures Behind(s.ready[p], r.ready[p])
  {
    assert Within(s.ready[p], |s.tasks|) && |s.tasks| !in s.ready[p];
    RemoveAbsent(s.ready[p], |s.tasks|);
  }

  lemma BehindOthers(q: seq<nat>, q': seq<nat>, x: nat)
    requires Remove(q, x) <= q'
    ensures Behind(q, q')
  {
  }

  lemma SharedReady(c: Config, s: Sys, call: SharedCall, out: Outcome, r: Sys, p: nat)
    requires Shaped(c, s) && SharedDelta(c, s, call, out, r) && !call.RotRdq? && p < |s.ready|
    ensures |r.ready| == |s.ready| && s.ready[p] <= r.ready[p]
  {
    hide Shaped, Released, Left, Remove;
  }

  lemma OthersReady(c: Config, s: Sys, call: Call, out: Outcome, r: Sys, p: nat)
    requires Shaped(c, s) && StepDelta(c, s, call, out, r) && !call.ByAnyone? && !call.OnTasks? && !Reorders(call)
    requires p < |s.ready| && (s.run.Some? ==> s.run.value < |s.tasks|)
    ensures |r.ready| == |s.ready|
    ensures s.ready[p] <= r.ready[p] || (s.run.Some? && Remove(s.ready[p], s.run.value) <= r.ready[p])
  {
    hide Shaped, Released, Left, Remove, Heads, QueuedAt;
  }

  lemma TaskReady(c: Config, s: Sys, call: TaskCall, out: Outcome, r: Sys, x: nat, p: nat)
    requires Shaped(c, s) && x < |s.tasks| && TaskDelta(c, s, call, out, r, x) && !Reorders(OnTasks(call))
    requires p < |s.ready|
    ensures |r.ready| == |s.ready|
    ensures s.ready[p] <= r.ready[p] || (!call.IniObj? && Remove(s.ready[p], call.t) <= r.ready[p])
  {
    hide Shaped, Released, Left, Remove, Heads;
  }

  /** But for changes of priority and rotation nobody overtakes anybody: whoever becomes
    ready, or is activated again, comes behind all who are in that ready queue. */
  lemma NobodyOvertakes(c: Config, calls: seq<Call>, call: Call, p: nat)
    requires ConfigValid(c) && p < 16 && !Reorders(call)
    ensures var s, r := After(c, calls), After(c, calls + [call]);
      |s.ready| == |r.ready| == 16 && Behind(s.ready[p], r.ready[p])
  {
    hide After, Answer, ModeDelta, TasksAfter, Core, StepDelta, SharedDelta, TaskDelta, Reorders, Behind;
    NextStep(c, calls, call);
    var s, r, out := After(c, calls), After(c, calls + [call]), Answer(c, calls, call);
    SameShape(c, s);
    ReadyStep(c, s, call, out, r, p);
  }

  lemma ReadyStep(c: Config, s: Sys, call: Call, out: Outcome, r: Sys, p: nat)
    requires Inv(c, s) && StepDelta(c, s, call, out, r) && !Reorders(call) && p < |s.ready|
    ensures |r.ready| == |s.ready| && Behind(s.ready[p], r.ready[p])
  {
    hide Placed, TimersOk, TasksOk, MutexesOk, SharedDelta, TaskDelta, OwnDelta, WaitingDelta, Behind, Remove, Within;
    match call {
      case ByAnyone(sc) => if s.inInt || s.run.Some? { SharedReady(c, s, sc, out, r, p); }
      case OnTasks(tc) =>
        if TaskCtx(s) {
          TaskReady(c, s, tc, out, r, s.run.value, p);
          if !tc.IniObj? && Remove(s.ready[p], tc.t) <= r.ready[p] {
            BehindOthers(s.ready[p], r.ready[p], tc.t);
          }
        }
      case _ =>
        OthersReady(c, s, call, out, r, p);
        if s.run.Some? && Remove(s.ready[p], s.run.value) <= r.ready[p] {
          BehindOthers(s.ready[p], r.ready[p], s.run.value);
        }
    }
    if s.ready[p] <= r.ready[p] {
      BehindAll(c, s, r, p);
    }
  }

  /** A task whose base priority is changed, and that no ceiling mutex holds up, comes
    last among the ready tasks of its new priority, be it the old one. */
  lemma NewPriorityLast(c: Config, calls: seq<Call>, u: nat, b: nat)
    requires ConfigValid(c) && u < |c.ipri| && b < 16
    ensures var call := OnTasks(ChgPri(u, Some(b)));
      var s, r := After(c, calls), After(c, calls + [call]);
      && |s.tasks| == |s.held| == |r.pri| == |c.ipri| && |s.ready| == |r.ready| == 16
      && (Answer(c, calls, call) == Done(E_OK) && s.tasks[u].st == Runnable
          && (forall m :: m in s.held[u] ==> m < |c.objs| && !c.objs[m].Ceiling?) ==>
        r.pri[u] == b && forall p :: 0 <= p < 16 ==> r.ready[p] == Remove(s.ready[p], u) + if p == b then [u] else [])
  {
    var call := OnTasks(ChgPri(u, Some(b)));
    hide After, Answer, ModeDelta, TasksAfter, Core;
    NextStep(c, calls, call);
    var s, r, out := After(c, calls), After(c, calls + [call]), Answer(c, calls, call);
    SameShape(c, s);
    SameShape(c, r);
    if out == Done(E_OK) && s.tasks[u].st == Runnable
      && (forall m :: m in s.held[u] ==> m < |c.objs| && !c.objs[m].Ceiling?)
    {
      assert Replaced(s, r.ready, u, b, false);
      hide StepDelta, Remove;
      ReplacedAt(c, s, r.ready, u, b, false);
    }
  }

  lemma ReplacedAt(c: Config, s: Sys, ready: seq<seq<nat>>, u: nat, b: nat, front: bool)
    requires Inv(c, s) && u < |s.tasks| && Replaced(s, ready, u, b, front) && s.tasks[u].st == Runnable
    ensures |ready| == |s.ready|
    ensures forall p :: 0 <= p < |ready| ==>
      ready[p] == if p != b then Remove(s.ready[p], u) else if front then [u] + Remove(s.ready[p], u)
        else Remove(s.ready[p], u) + [u]
  {
    forall p | 0 <= p < |s.ready| && p != s.pri[u] ensures Remove(s.ready[p], u) == s.ready[p] {
      InNoOtherReady(c, s, {}, u, p);
    }
    hide Core, Remove;
  }

  /** A task that gets a mutex whose ceiling raises its priority comes first among the
    ready tasks of the new one; the ready queues are else as they were. */
  lemma RaisedFirst(c: Config, calls: seq<Call>, m: nat, tmo: Tmo)
    requires ConfigValid(c)
    ensures var call := Blocking(LocMtx(m, tmo));
      var s, r := After(c, calls), After(c, calls + [call]);
      && |s.tasks| == |s.held| == |r.held| == |r.pri| == |s.pri| == |c.ipri| && |s.ready| == |r.ready| == 16
      && (Answer(c, calls, call) == Done(E_OK) ==>
        && s.run.Some? && s.run.value < |s.tasks|
        && var t := s.run.value;
          && r.held == s.held[t := s.held[t] + [m]] && r.tasks == s.tasks && r.wq == s.wq
          && (r.pri[t] == s.pri[t] ==> r.ready == s.ready)
          && (r.pri[t] != s.pri[t] ==> forall p :: 0 <= p < 16 ==>
            r.ready[p] == (if p == r.pri[t] then [t] else []) + Remove(s.ready[p], t)))
  {
    var call := Blocking(LocMtx(m, tmo));
    hide After, Answer, ModeDelta, TasksAfter, Core, StepDelta;
    NextStep(c, calls, call);
    var s, r, out := After(c, calls), After(c, calls + [call]), Answer(c, calls, call);
    SameShape(c, s);
    SameShape(c, r);
    if out == Done(E_OK) {
      LockOnly(c, s, m, tmo, r);
      var t := s.run.value;
      hide Remove;
      if r.pri[t] != s.pri[t] {
        ReplacedAt(c, s, r.ready, t, r.pri[t], true);
      }
    }
  }

  lemma LockOnly(c: Config, s: Sys, m: nat, tmo: Tmo, r: Sys)
    requires Shaped(c, s) && StepDelta(c, s, Blocking(LocMtx(m, tmo)), Done(E_OK), r)
    ensures s.run.Some? && s.run.value < |s.tasks| && LockedBy(c, s, r, s.run.value, m)
  {
    hide Replaced, WaitStarted;
  }

  // ----- Rotation -----

  /** rot_rdq made n times. */
  function Rotations(p: nat, n: nat): seq<Call> {
    if n == 0 then [] else Rotations(p, n - 1) + [ByAnyone(RotRdq(Some(p)))]
  }

  lemma OneRotation(c: Config, calls: seq<Call>, p: nat)
    requires ConfigValid(c) && p < 16
    ensures var s, r := After(c, calls), After(c, calls + [ByAnyone(RotRdq(Some(p)))]);
      && |s.ready| == |r.ready| == 16
      && (s.inInt || s.run.Some? ==>
        && r.tasks == s.tasks && r.pri == s.pri && r.held == s.held && r.wq == s.wq
        && r.ready == (if s.ready[p] == [] then s.ready else s.ready[p := s.ready[p][1..] + [s.ready[p][0]]])
        && (r.inInt || r.run.Some?))
  {
    hide After, Answer, TasksAfter, Core, Within;
    var call := ByAnyone(RotRdq(Some(p)));
    NextStep(c, calls, call);
    var s, r := After(c, calls), After(c, calls + [call]);
    SameShape(c, s);
    if s.run.Some? {
      RunningWaitsNot(c, s, s.run.value);
      DispatchRule(c, calls + [call], s.run.value);
    }
  }

  /** Rotating n times, whatever the length of the queue, moves its first n tasks behind
    the others; a full circle restores it. */
  lemma {:induction false} ManyRotations(c: Config, calls: seq<Call>, p: nat, n: nat)
    requires ConfigValid(c) && p < 16
    ensures var s, r := After(c, calls), After(c, calls + Rotations(p, n));
      && |s.ready| == |r.ready| == 16
      && ((s.inInt || s.run.Some?) && n <= |s.ready[p]| ==>
        && r.tasks == s.tasks && r.pri == s.pri && r.held == s.held && r.wq == s.wq && (r.inInt || r.run.Some?)
        && r.ready == s.ready[p := s.ready[p][n..] + s.ready[p][..n]]
        && (n == |s.ready[p]| ==> r.ready == s.ready))
    decreases n
  {
    hide After;
    var s := After(c, calls);
    OneRotation(c, calls, p);
    if n == 0 {
      assert calls + [] == calls && s.ready[p][0..] + s.ready[p][..0] == s.ready[p];
    } else {
      ManyRotations(c, calls, p, n - 1);
      var before := calls + Rotations(p, n - 1);
      assert calls + Rotations(p, n) == before + [ByAnyone(RotRdq(Some(p)))];
      OneRotation(c, before, p);
      if n <= |s.ready[p]| {
        TurnOnce(s.ready[p], n);
      }
    }
  }

  lemma TurnOnce(q: seq<nat>, n: nat)
    requires 0 < n <= |q|
    ensures var x := q[n - 1..] + q[..n - 1]; x != [] && x[1..] + [x[0]] == q[n..] + q[..n]
    ensures n == |q| ==> q[n..] + q[..n] == q
  {
    var x := q[n - 1..] + q[..n - 1];
    assert x[1..] == q[n..] + q[..n - 1];
    assert q[..n] == q[..n - 1] + [x[0]];
  }

  // ----- Suspension -----

  /** A task that is suspended and resumed is as it was, waiting or not; if it was
    ready it comes last in its ready queue. */
  lemma SuspendAndResume(c: Config, calls: seq<Call>, u: nat)
    requires ConfigValid(c) && u < |c.ipri|
    ensures var sus, rsm := OnTasks(SusTsk(u)), OnTasks(RsmTsk(u));
      var s, r := After(c, calls), After(c, calls + [sus] + [rsm]);
      && |s.tasks| == |s.pri| == |c.ipri| && |s.ready| == |r.ready| == 16
      && (Answer(c, calls, sus) == Done(E_OK) && Answer(c, calls + [sus], rsm) == Done(E_OK) ==>
        && r.tasks == s.tasks && r.pri == s.pri && r.held == s.held && r.wq == s.wq
        && forall p :: 0 <= p < 16 ==>
          r.ready[p] == if s.tasks[u].st != Runnable then s.ready[p]
            else Remove(s.ready[p], u) + if p == s.pri[u] then [u] else [])
  {
    var sus, rsm := OnTasks(SusTsk(u)), OnTasks(RsmTsk(u));
    hide After, Answer, ModeDelta, TasksAfter, Core, StepDelta;
    NextStep(c, calls, sus);
    NextStep(c, calls + [sus], rsm);
    var s, s1, r := After(c, calls), After(c, calls + [sus]), After(c, calls + [sus] + [rsm]);
    SameShape(c, s);
    SameShape(c, r);
    if Answer(c, calls, sus) == Done(E_OK) && Answer(c, calls + [sus], rsm) == Done(E_OK) {
      SuspendedThen(c, s, s1, r, u);
      if s.tasks[u].st != Runnable {
        forall p | 0 <= p < 16 ensures Remove(s.ready[p], u) == s.ready[p] {
          StillThere(c, s, u, p);
        }
      }
    }
  }

  lemma StillThere(c: Config, s: Sys, u: nat, p: nat)
    requires Inv(c, s) && u < |s.tasks| && s.tasks[u].st != Runnable && p < |s.ready|
    ensures Remove(s.ready[p], u) == s.ready[p]
  {
    InNoOtherReady(c, s, {}, u, p);
  }

  lemma SuspendedThen(c: Config, s: Sys, s1: Sys, r: Sys, u: nat)
    requires Shaped(c, s) && StepDelta(c, s, OnTasks(SusTsk(u)), Done(E_OK), s1) && u < |s.tasks|
    requires Shaped(c, s1) && StepDelta(c, s1, OnTasks(RsmTsk(u)), Done(E_OK), r)
    ensures r.tasks == s.tasks && r.pri == s.pri && r.held == s.held && r.wq == s.wq && |r.ready| == |s.ready| == 16
    ensures forall p :: 0 <= p < 16 ==>
      r.ready[p] == Remove(s.ready[p], u) + if s.tasks[u].st == Runnable && p == s.pri[u] then [u] else []
  {
    hide Remove;
    match s.tasks[u].st {
      case Runnable => assert s1.tasks[u].st == Suspended;
      case Waiting(w, sus) => assert s1.tasks[u].st == Waiting(w, true);
      case _ =>
    }
    assert r.tasks == s.tasks;
  }
}
