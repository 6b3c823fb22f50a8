/** What the steps of the kernel are made of does to tasks, locks and queues, in
  terms of the state alone. */
module KernelDeltas {
  import opened Options
  import opened Queues
  import opened KernelState
  import opened KernelCalls
  import opened KernelPlacement
  import opened KernelInvariant
  import opened KernelLocking
  import opened KernelSteps

  /** The wait of a task has ended with the given result. */
  predicate Woken(k: Task, k': Task, er: Er) {
    k.st.Waiting? && k' == k.(st := if k.st.sus then Suspended else Runnable, wercd := er)
  }

  /** Exactly the waits of the tasks of `woken` have ended; nothing is said about
    the tasks of `others`. */
  ghost predicate Released(s: Sys, r: Sys, others: set<nat>, woken: set<nat>, er: Er) {
    |r.tasks| == |s.tasks| && forall u :: 0 <= u < |s.tasks| && u !in others ==>
      if u in woken then Woken(s.tasks[u], r.tasks[u], er) else r.tasks[u] == s.tasks[u]
  }

  /** Tasks only join the ready queues, at the end. */
  ghost predicate Grown(s: Sys, r: Sys) {
    |r.ready| == |s.ready| && forall p :: 0 <= p < |s.ready| ==> s.ready[p] <= r.ready[p]
  }

  /** Task t has left the wait queue it was in, if any. */
  ghost predicate Left(s: Sys, r: Sys, t: nat) {
    |r.wq| == |s.wq| && forall o :: 0 <= o < |s.wq| ==> r.wq[o] == Remove(s.wq[o], t)
  }

  lemma GrownTrans(s: Sys, s1: Sys, s2: Sys)
    requires Grown(s, s1) && Grown(s1, s2)
    ensures Grown(s, s2)
  {
    forall p | 0 <= p < |s.ready| ensures s.ready[p] <= s2.ready[p] {
      assert s.ready[p] <= s1.ready[p] <= s2.ready[p];
    }
  }

  lemma RemoveAbsent(q: seq<nat>, t: nat)
    requires t !in q
    ensures Remove(q, t) == q
  {
    var k := RemovePlace(q, t);
  }

  lemma RemoveFirst(q: seq<nat>)
    requires q != []
    ensures Remove(q, q[0]) == q[1..]
  {
  }

  lemma NonWaitGrows(c: Config, s: Sys, t: nat)
    requires Shaped(c, s) && t < |s.tasks|
    ensures Grown(s, MakeNonWait(c, s, t))
  {
    hide Within;
  }

  /** A task is in no wait queue but that of the object it waits for. */
  lemma InNoOther(c: Config, s: Sys, loose: set<nat>, t: nat, o: nat)
    requires Shaped(c, s) && Placed(c, s, loose) && t < |s.tasks| && o < |s.wq|
    requires !(s.tasks[t].st.Waiting? && s.tasks[t].st.w == Obj(o))
    ensures Remove(s.wq[o], t) == s.wq[o]
  {
    OnlyInItsQueue(c, s, loose, t);
    RemoveAbsent(s.wq[o], t);
  }

  lemma DequeueLeft(c: Config, s: Sys, loose: set<nat>, t: nat)
    requires Shaped(c, s) && Placed(c, s, loose) && t < |s.tasks|
    ensures Left(s, DequeueWobj(c, s, t), t)
  {
    var r := DequeueWobj(c, s, t);
    forall o | 0 <= o < |s.wq| ensures r.wq[o] == Remove(s.wq[o], t) {
      if !(s.tasks[t].st.Waiting? && s.tasks[t].st.w == Obj(o)) {
        InNoOther(c, s, loose, t, o);
      }
    }
  }

  /** EndWait on the queues. */
  lemma EndWaitQueues(c: Config, s: Sys, loose: set<nat>, t: nat, er: Er)
    requires Shaped(c, s) && Placed(c, s, loose) && t < |s.tasks| && s.tasks[t].st.Waiting?
    ensures var r := EndWait(c, s, t, er);
      Left(s, r, t) && Grown(s, r) && Released(s, r, {}, {t}, er) && r.held == s.held && r.pri == s.pri
  {
    hide DequeueWobj, MakeNonWait, Placed, Within;
    DequeueLeft(c, s, loose, t);
    DequeueEffect(c, s, t);
    EndWaitEffect(c, s, t, er);
    var s1 := DequeueTmevtb(c, DequeueWobj(c, s, t), t);
    var s2 := SetTask(c, s1, t, s1.tasks[t].(wercd := er));
    NonWaitEffect(c, s2, t);
    NonWaitGrows(c, s2, t);
    hide Shaped;
  }

  /** The first task in the queue of object o is waited out. */
  lemma FirstOut(c: Config, s: Sys, o: nat, er: Er)
    requires Core(c, s, {}, {}, {}) && o < |s.wq| && s.wq[o] != []
    ensures Shaped(c, s) && NoDup(s.wq[o]) && s.wq[o][0] < |s.tasks| && Within(s.wq[o], |s.tasks|)
    ensures Within(s.wq[o][1..], |s.tasks|)
    ensures var r := EndWait(c, s, s.wq[o][0], er);
      && Core(c, r, {}, {}, {}) && r.wq == s.wq[o := s.wq[o][1..]] && Grown(s, r) && SameMode(s, r)
      && r.held == s.held && r.pri == s.pri && Released(s, r, {}, {s.wq[o][0]}, er)
  {
    hide EndWait, Placed, TimersOk, TasksOk, MutexesOk, Remove;
    var t := s.wq[o][0];
    QueueWaits(c, s, {}, o);
    EndWaitCore(c, s, {}, {}, {}, t, er);
    EndWaitQueues(c, s, {}, t, er);
    OneLeft(c, s, EndWait(c, s, t, er), t, o);
  }

  /** All the tasks in the queue of object o are waited out. */
  lemma {:induction false} EndWaitsQueues(c: Config, s: Sys, o: nat, er: Er)
    requires Core(c, s, {}, {}, {}) && Shaped(c, s) && o < |s.wq|
    ensures Within(s.wq[o], |s.tasks|)
    ensures var r := EndWaits(c, s, s.wq[o], er);
      && r.wq == s.wq[o := []] && Grown(s, r) && r.held == s.held && r.pri == s.pri && SameMode(s, r)
      && Released(s, r, {}, Members(s.wq[o]), er)
    decreases |s.wq[o]|
  {
    hide Core, EndWait, Shaped, Within, NoDup, Members, Released;
    var q := s.wq[o];
    if q == [] {
      NobodyOut(c, s, o, er);
    } else {
      FirstOut(c, s, o, er);
      var s1 := EndWait(c, s, q[0], er);
      EndWaitsQueues(c, s1, o, er);
      var r := EndWaits(c, s1, q[1..], er);
      assert s1.wq[o] == q[1..] && s.wq[o := q[1..]][o := []] == s.wq[o := []];
      GrownTrans(s, s1, r);
      ReleasedMore(s, s1, r, q, er);
    }
  }

  // ----- In which order tasks become ready -----

  predicate IsReady(tasks: seq<Task>, pri: seq<nat>, t: nat, p: nat) {
    t < |tasks| == |pri| && tasks[t].st == Runnable && pri[t] == p
  }

  /** The tasks of q, in that order, that are ready with priority p. */
  ghost function Ready(tasks: seq<Task>, pri: seq<nat>, q: seq<nat>, p: nat): seq<nat> {
    if q == [] then []
    else (if IsReady(tasks, pri, q[0], p) then [q[0]] else []) + Ready(tasks, pri, q[1..], p)
  }

  /** The tasks of q have joined the ready queues in that order, but for suspended ones. */
  ghost predicate JoinInOrder(s: Sys, r: Sys, q: seq<nat>) {
    |r.ready| == |s.ready| && forall p :: 0 <= p < |s.ready| ==>
      r.ready[p] == s.ready[p] + Ready(r.tasks, r.pri, q, p)
  }

  lemma ReadyOne(tasks: seq<Task>, pri: seq<nat>, t: nat, p: nat)
    ensures Ready(tasks, pri, [t], p) == if IsReady(tasks, pri, t, p) then [t] else []
  {
  }

  lemma ReadyFirst(tasks: seq<Task>, pri: seq<nat>, t: nat, q: seq<nat>, p: nat)
    ensures Ready(tasks, pri, [t] + q, p) == (if IsReady(tasks, pri, t, p) then [t] else []) + Ready(tasks, pri, q, p)
  {
    assert ([t] + q)[1..] == q;
  }

  lemma NonWaitJoins(c: Config, s: Sys, t: nat)
    requires Shaped(c, s) && t < |s.tasks|
    ensures JoinInOrder(s, MakeNonWait(c, s, t), [t])
  {
    hide Within, Ready;
    var r := MakeNonWait(c, s, t);
    forall p | 0 <= p < |s.ready| ensures r.ready[p] == s.ready[p] + Ready(r.tasks, r.pri, [t], p) {
      ReadyOne(r.tasks, r.pri, t, p);
    }
  }

  lemma EndWaitJoins(c: Config, s: Sys, t: nat, er: Er)
    requires Shaped(c, s) && t < |s.tasks|
    ensures JoinInOrder(s, EndWait(c, s, t, er), [t])
  {
    hide DequeueWobj, MakeNonWait, Within, Ready;
    DequeueEffect(c, s, t);
    var s1 := DequeueTmevtb(c, DequeueWobj(c, s, t), t);
    NonWaitJoins(c, SetTask(c, s1, t, s1.tasks[t].(wercd := er)), t);
  }

  lemma JoinMore(s: Sys, s1: Sys, r: Sys, t: nat, q: seq<nat>)
    requires JoinInOrder(s, s1, [t]) && JoinInOrder(s1, r, q)
    requires t < |s1.tasks| == |r.tasks| == |s1.pri| == |r.pri| && r.tasks[t] == s1.tasks[t] && r.pri[t] == s1.pri[t]
    ensures JoinInOrder(s, r, [t] + q)
  {
    hide Ready;
    forall p | 0 <= p < |s.ready| ensures r.ready[p] == s.ready[p] + Ready(r.tasks, r.pri, [t] + q, p) {
      ReadyOne(s1.tasks, s1.pri, t, p);
      ReadyFirst(r.tasks, r.pri, t, q, p);
      assert s1.ready[p] == s.ready[p] + Ready(s1.tasks, s1.pri, [t], p);
    }
  }

  lemma {:induction false} EndWaitsOrder(c: Config, s: Sys, o: nat, er: Er)
    requires Core(c, s, {}, {}, {}) && Shaped(c, s) && o < |s.wq|
    ensures Within(s.wq[o], |s.tasks|) && JoinInOrder(s, EndWaits(c, s, s.wq[o], er), s.wq[o])
    decreases |s.wq[o]|
  {
    hide Core, EndWait, Within, NoDup, Grown, Ready, JoinInOrder;
    var q := s.wq[o];
    if q == [] {
      NobodyOut(c, s, o, er);
      NobodyJoins(s);
    } else {
      FirstOut(c, s, o, er);
      var s1 := EndWait(c, s, q[0], er);
      EndWaitJoins(c, s, q[0], er);
      EndWaitsQueues(c, s1, o, er);
      EndWaitsOrder(c, s1, o, er);
      var r := EndWaits(c, s1, q[1..], er);
      assert q == [q[0]] + q[1..];
      assert q[0] !in Members(q[1..]) by { FirstOnce(q); }
      JoinMore(s, s1, r, q[0], q[1..]);
    }
  }

  lemma FirstOnce(q: seq<nat>)
    requires q != [] && NoDup(q)
    ensures q[0] !in q[1..]
  {
  }

  lemma NobodyJoins(s: Sys)
    ensures JoinInOrder(s, s, [])
  {
    forall p | 0 <= p < |s.ready| ensures s.ready[p] == s.ready[p] + Ready(s.tasks, s.pri, [], p) {
    }
  }

  lemma NobodyOut(c: Config, s: Sys, o: nat, er: Er)
    requires Shaped(c, s) && o < |s.wq| && s.wq[o] == []
    ensures Within(s.wq[o], |s.tasks|) && EndWaits(c, s, [], er) == s && s.wq[o := []] == s.wq
    ensures Grown(s, s) && Released(s, s, {}, Members([]), er)
  {
  }

  /** The first task has left the queue of o, and no other queue changed. */
  lemma OneLeft(c: Config, s: Sys, r: Sys, t: nat, o: nat)
    requires Shaped(c, s) && Placed(c, s, {}) && o < |s.wq| && s.wq[o] != [] && t == s.wq[o][0] && Left(s, r, t)
    ensures r.wq == s.wq[o := s.wq[o][1..]]
  {
    RemoveFirst(s.wq[o]);
    assert t < |s.tasks| by { assert Within(s.wq[o], |s.tasks|); }
    QueueWaits(c, s, {}, o);
    forall x | 0 <= x < |s.wq| && x != o ensures r.wq[x] == s.wq[x] {
      InNoOther(c, s, {}, t, x);
    }
  }

  lemma ReleasedMore(s: Sys, s1: Sys, r: Sys, q: seq<nat>, er: Er)
    requires q != [] && NoDup(q) && Released(s, s1, {}, {q[0]}, er) && Released(s1, r, {}, Members(q[1..]), er)
    ensures Released(s, r, {}, Members(q), er)
  {
    assert q == [q[0]] + q[1..];
    forall u | 0 <= u < |s.tasks|
      ensures if u in Members(q) then Woken(s.tasks[u], r.tasks[u], er) else r.tasks[u] == s.tasks[u]
    {
      assert u in q <==> u == q[0] || u in q[1..];
      assert u == q[0] ==> u !in q[1..];
    }
  }

  // ----- Handing mutexes over -----

  /** The first waiters for the mutexes ms. */
  ghost function Heads(s: Sys, ms: seq<nat>): set<nat> {
    set m | m in ms && m < |s.wq| && s.wq[m] != [] :: s.wq[m][0]
  }

  lemma HandOverQueues(c: Config, s: Sys, m: nat)
    requires Shaped(c, s) && IsMutex(c, m) && s.wq[m] != []
    requires s.wq[m][0] < |s.tasks| && s.tasks[s.wq[m][0]].st.Waiting?
    ensures var r, w := HandOver(c, s, m), s.wq[m][0];
      && r.wq == s.wq[m := s.wq[m][1..]] && Grown(s, r) && Released(s, r, {}, {w}, E_OK)
      && r.held == s.held[w := s.held[w] + [m]]
  {
    hide MakeNonWait, Boosted, Remove, HandOver, Within;
    var w := s.wq[m][0];
    HandOverForm(c, s, m);
    HandOverEffect(c, s, m);
    RemoveFirst(s.wq[m]);
    NonWaitEffect(c, HandedTo(c, s, m, w), w);
    NonWaitGrows(c, HandedTo(c, s, m, w), w);
  }

  /** Mutex m is one of ms, and u its first waiter. */
  predicate FirstFor(s: Sys, ms: seq<nat>, m: nat, u: nat) {
    m in ms && m < |s.wq| && s.wq[m] != [] && s.wq[m][0] == u
  }

  /** Every mutex of ms that is waited for has passed to its first waiter. */
  ghost predicate Passed(s: Sys, r: Sys, ms: seq<nat>) {
    && |r.wq| == |s.wq| && |r.held| == |s.held|
    && (forall o :: 0 <= o < |s.wq| ==> r.wq[o] == if o in ms && s.wq[o] != [] then s.wq[o][1..] else s.wq[o])
    && (forall u: nat, m: nat :: 0 <= u < |s.held| ==>
      (m in r.held[u] <==> m in s.held[u] || FirstFor(s, ms, m, u)))
    && (forall u :: 0 <= u < |s.held| ==> s.held[u] <= r.held[u])
  }

  lemma PassedOne(s: Sys, r: Sys, m: nat)
    requires m < |s.wq| && s.wq[m] != [] && s.wq[m][0] < |s.held|
    requires r.wq == s.wq[m := s.wq[m][1..]] && r.held == s.held[s.wq[m][0] := s.held[s.wq[m][0]] + [m]]
    ensures Passed(s, r, [m])
  {
  }

  lemma PassedMore(s: Sys, s1: Sys, r: Sys, ms: seq<nat>)
    requires ms != [] && NoDup(ms) && Passed(s, s1, [ms[|ms| - 1]]) && Passed(s1, r, ms[..|ms| - 1])
    ensures Passed(s, r, ms)
  {
    var n := |ms| - 1;
    LastOff(ms);
    forall u | 0 <= u < |s.held| ensures s.held[u] <= r.held[u] {
      assert s.held[u] <= s1.held[u] <= r.held[u];
    }
    forall u: nat, m: nat | 0 <= u < |s.held|
      ensures m in r.held[u] <==> m in s.held[u] || FirstFor(s, ms, m, u)
    {
      assert m in s1.held[u] <==> m in s.held[u] || FirstFor(s, [ms[n]], m, u);
      assert m in r.held[u] <==> m in s1.held[u] || FirstFor(s1, ms[..n], m, u);
      assert m in ms[..n] && m < |s.wq| ==> s1.wq[m] == s.wq[m];
    }
  }

  lemma {:induction false} HandOverAllQueues(c: Config, s: Sys, loose: set<nat>, freed: set<nat>, ms: seq<nat>)
    requires Core(c, s, loose, loose, freed) && NoDup(ms)
    requires forall m :: m in ms ==> IsMutex(c, m)
    requires forall m :: m in freed <==> m in ms
    requires LooseWaits(c, s, loose, freed)
    ensures var r := HandOverAll(c, s, ms);
      Passed(s, r, ms) && Grown(s, r) && Released(s, r, {}, Heads(s, ms), E_OK)
    decreases |ms|
  {
    if ms != [] {
      var n := |ms| - 1;
      LastOff(ms);
      hide Placed, TimersOk, TasksOk, MutexesOk, HandOver, NoDup, Within;
      HandOverCore(c, s, loose, freed, ms[n]);
      var s1 := HandOver(c, s, ms[n]);
      OneHandedOver(c, s, loose, freed, ms[n]);
      hide Core, Shaped;
      assert LooseWaits(c, s1, loose, freed - {ms[n]});
      HandOverAllQueues(c, s1, loose, freed - {ms[n]}, ms[..n]);
      var r := HandOverAll(c, s1, ms[..n]);
      GrownTrans(s, s1, r);
      PassedMore(s, s1, r, ms);
      HeadsMore(s, s1, r, ms);
    }
  }

  lemma OneHandedOver(c: Config, s: Sys, loose: set<nat>, freed: set<nat>, m: nat)
    requires Core(c, s, loose, loose, freed) && IsMutex(c, m)
    ensures var r := HandOver(c, s, m); Passed(s, r, [m]) && Grown(s, r) && Released(s, r, {}, Heads(s, [m]), E_OK)
  {
    hide Placed, TimersOk, TasksOk, MutexesOk, HandOver;
    if s.wq[m] != [] {
      QueueWaits(c, s, loose, m);
      HandOverQueues(c, s, m);
      PassedOne(s, HandOver(c, s, m), m);
      assert Heads(s, [m]) == {s.wq[m][0]};
    } else {
      NothingHandedOver(c, s, m);
    }
  }

  lemma NothingHandedOver(c: Config, s: Sys, m: nat)
    requires Shaped(c, s) && IsMutex(c, m) && s.wq[m] == []
    ensures HandOver(c, s, m) == s && Passed(s, s, [m]) && Grown(s, s) && Released(s, s, {}, Heads(s, [m]), E_OK)
  {
    assert Heads(s, [m]) == {};
  }

  /** The first waiters for the mutexes ms, the newest mutex first. */
  ghost function Passing(s: Sys, ms: seq<nat>): seq<nat> {
    if ms == [] then []
    else
      var m := ms[|ms| - 1];
      (if m < |s.wq| && s.wq[m] != [] then [s.wq[m][0]] else []) + Passing(s, ms[..|ms| - 1])
  }

  lemma {:induction false} PassingSame(s: Sys, s1: Sys, ms: seq<nat>)
    requires |s1.wq| == |s.wq| && forall m :: m in ms && m < |s.wq| ==> s1.wq[m] == s.wq[m]
    ensures Passing(s1, ms) == Passing(s, ms)
    decreases |ms|
  {
    if ms != [] {
      assert ms[|ms| - 1] in ms;
      PassingSame(s, s1, ms[..|ms| - 1]);
    }
  }

  lemma PassingRest(s: Sys, s1: Sys, ms: seq<nat>)
    requires ms != [] && NoDup(ms) && Passed(s, s1, [ms[|ms| - 1]])
    ensures Passing(s1, ms[..|ms| - 1]) == Passing(s, ms[..|ms| - 1])
  {
    LastOff(ms);
    PassingSame(s, s1, ms[..|ms| - 1]);
  }

  lemma HandOverJoins(c: Config, s: Sys, m: nat)
    requires Shaped(c, s) && IsMutex(c, m) && s.wq[m] != []
    requires s.wq[m][0] < |s.tasks| && s.tasks[s.wq[m][0]].st.Waiting?
    ensures var r, w := HandOver(c, s, m), s.wq[m][0];
      JoinInOrder(s, r, [w]) && |r.pri| == |s.pri| == |s.tasks| == |r.tasks|
      && forall u :: 0 <= u < |s.pri| && u != w ==> r.pri[u] == s.pri[u] && r.tasks[u] == s.tasks[u]
  {
    hide MakeNonWait, Boosted, Remove, HandOver, Within, Ready;
    var w := s.wq[m][0];
    HandOverForm(c, s, m);
    NonWaitEffect(c, HandedTo(c, s, m, w), w);
    NonWaitJoins(c, HandedTo(c, s, m, w), w);
  }

  lemma PassingFirst(s: Sys, ms: seq<nat>)
    requires ms != [] && ms[|ms| - 1] < |s.wq|
    ensures var m, rest := ms[|ms| - 1], Passing(s, ms[..|ms| - 1]);
      Passing(s, ms) == if s.wq[m] == [] then rest else [s.wq[m][0]] + rest
  {
  }

  /** Tasks that do not wait, and their priorities, stay. */
  ghost predicate IdleKept(s: Sys, r: Sys) {
    && |r.tasks| == |r.pri| == |s.pri| == |s.tasks|
    && forall u :: 0 <= u < |s.tasks| && !s.tasks[u].st.Waiting? ==> r.tasks[u] == s.tasks[u] && r.pri[u] == s.pri[u]
  }

  /** What is handed over one after the other, the newest mutex first. */
  ghost predicate CanPass(c: Config, s: Sys, loose: set<nat>, freed: set<nat>, ms: seq<nat>) {
    && Core(c, s, loose, loose, freed) && Shaped(c, s) && NoDup(ms) && (forall m :: m in ms ==> IsMutex(c, m))
    && (forall m :: m in freed <==> m in ms) && LooseWaits(c, s, loose, freed)
  }

  lemma OnePassed(c: Config, s: Sys, loose: set<nat>, freed: set<nat>, ms: seq<nat>)
    requires CanPass(c, s, loose, freed, ms) && ms != []
    ensures CanPass(c, HandOver(c, s, ms[|ms| - 1]), loose, freed - {ms[|ms| - 1]}, ms[..|ms| - 1])
    ensures Passing(HandOver(c, s, ms[|ms| - 1]), ms[..|ms| - 1]) == Passing(s, ms[..|ms| - 1])
  {
    hide Placed, TimersOk, TasksOk, MutexesOk, HandOver, Within, Passed, Released, Grown, Heads, Passing;
    var n := |ms| - 1;
    LastOff(ms);
    HandOverCore(c, s, loose, freed, ms[n]);
    OneHandedOver(c, s, loose, freed, ms[n]);
    PassingRest(s, HandOver(c, s, ms[n]), ms);
    hide NoDup;
  }

  lemma {:induction false} HandOverAllOrder(c: Config, s: Sys, loose: set<nat>, freed: set<nat>, ms: seq<nat>)
    requires CanPass(c, s, loose, freed, ms)
    ensures var r := HandOverAll(c, s, ms); JoinInOrder(s, r, Passing(s, ms)) && IdleKept(s, r)
    decreases |ms|
  {
    if ms == [] {
      NobodyJoins(s);
    } else {
      var n := |ms| - 1;
      assert ms[n] in ms;
      hide Core, Shaped, HandOver, NoDup, Ready, JoinInOrder, Passing, IdleKept, LooseWaits;
      OnePassed(c, s, loose, freed, ms);
      var s1 := HandOver(c, s, ms[n]);
      OneJoins(c, s, loose, freed, ms[n]);
      PassingFirst(s, ms);
      hide CanPass;
      HandOverAllOrder(c, s1, loose, freed - {ms[n]}, ms[..n]);
      var first := if s.wq[ms[n]] == [] then [] else [s.wq[ms[n]][0]];
      IdleTrans(s, s1, HandOverAll(c, s1, ms[..n]), first, Passing(s, ms[..n]));
    }
  }

  lemma IdleTrans(s: Sys, s1: Sys, r: Sys, first: seq<nat>, rest: seq<nat>)
    requires IdleKept(s, s1) && IdleKept(s1, r) && JoinInOrder(s1, r, rest)
    requires |first| <= 1 && if first == [] then s1 == s else JoinInOrder(s, s1, first)
    requires first != [] ==> first[0] < |s1.tasks| && !s1.tasks[first[0]].st.Waiting?
    ensures IdleKept(s, r) && JoinInOrder(s, r, first + rest) && (first == [] ==> first + rest == rest)
  {
    if first == [] {
      assert first + rest == rest;
    } else {
      assert first == [first[0]];
      JoinMore(s, s1, r, first[0], rest);
    }
  }

  lemma OneJoins(c: Config, s: Sys, loose: set<nat>, freed: set<nat>, m: nat)
    requires Core(c, s, loose, loose, freed) && IsMutex(c, m)
    ensures var r := HandOver(c, s, m);
      && m < |s.wq| && IdleKept(s, r)
      && (s.wq[m] == [] ==> r == s)
      && (s.wq[m] != [] ==> JoinInOrder(s, r, [s.wq[m][0]]))
      && (s.wq[m] != [] ==> s.wq[m][0] < |s.tasks| == |r.tasks| && !r.tasks[s.wq[m][0]].st.Waiting?)
  {
    hide Placed, TimersOk, TasksOk, MutexesOk, HandOver, JoinInOrder;
    if s.wq[m] != [] {
      QueueWaits(c, s, loose, m);
      HandOverQueues(c, s, m);
      HandOverJoins(c, s, m);
    } else {
      NothingHandedOver(c, s, m);
    }
  }

  lemma HeadsMore(s: Sys, s1: Sys, r: Sys, ms: seq<nat>)
    requires ms != [] && NoDup(ms) && Passed(s, s1, [ms[|ms| - 1]])
    requires Released(s, s1, {}, Heads(s, [ms[|ms| - 1]]), E_OK) && Released(s1, r, {}, Heads(s1, ms[..|ms| - 1]), E_OK)
    ensures Released(s, r, {}, Heads(s, ms), E_OK)
  {
    var n := |ms| - 1;
    LastOff(ms);
    forall m | m in ms[..n] && m < |s.wq| ensures s1.wq[m] == s.wq[m] {
    }
    var a, b := Heads(s, [ms[n]]), Heads(s1, ms[..n]);
    forall u ensures u in Heads(s, ms) <==> u in a || u in b {
      if u in Heads(s, ms) {
        var m :| m in ms && m < |s.wq| && s.wq[m] != [] && s.wq[m][0] == u;
        assert m == ms[n] || (m in ms[..n] && s1.wq[m] == s.wq[m]);
      }
      if u in b {
        var m :| m in ms[..n] && m < |s1.wq| && s1.wq[m] != [] && s1.wq[m][0] == u;
        assert s1.wq[m] == s.wq[m];
      }
    }
    forall u | 0 <= u < |s.tasks|
      ensures if u in Heads(s, ms) then Woken(s.tasks[u], r.tasks[u], E_OK) else r.tasks[u] == s.tasks[u]
    {
      assert u in a ==> Woken(s.tasks[u], s1.tasks[u], E_OK);
      assert u in b ==> Woken(s1.tasks[u], r.tasks[u], E_OK);
    }
  }

  // ----- Ending a task -----

  /** Task t has left its ready queue, if it was in one. */
  ghost predicate Unreadied(s: Sys, r: Sys, t: nat) {
    |r.ready| == |s.ready| && forall p :: 0 <= p < |s.ready| ==> r.ready[p] == Remove(s.ready[p], t)
  }

  lemma InNoOtherReady(c: Config, s: Sys, loose: set<nat>, t: nat, p: nat)
    requires Shaped(c, s) && Placed(c, s, loose) && t < |s.tasks| && p < |s.ready|
    requires s.tasks[t].st != Runnable || s.pri[t] != p
    ensures Remove(s.ready[p], t) == s.ready[p]
  {
    assert ReadyQueue(s, loose, p, s.ready[p]);
    RemoveAbsent(s.ready[p], t);
  }

  lemma UnreadyQueues(c: Config, s: Sys, t: nat)
    requires Shaped(c, s) && Placed(c, s, {}) && t < |s.tasks| && s.tasks[t].st == Runnable
    ensures Unreadied(s, Unready(c, s, t), t) && Unready(c, s, t).wq == s.wq && Left(s, s, t)
  {
    var r := Unready(c, s, t);
    forall p | 0 <= p < |s.ready| ensures r.ready[p] == Remove(s.ready[p], t) {
      if p != s.pri[t] {
        InNoOtherReady(c, s, {}, t, p);
      }
    }
    forall o | 0 <= o < |s.wq| ensures s.wq[o] == Remove(s.wq[o], t) {
      InNoOther(c, s, {}, t, o);
    }
  }

  lemma UnlinkQueues(c: Config, s: Sys, t: nat)
    requires Shaped(c, s) && Placed(c, s, {}) && t < |s.tasks|
    ensures var r := Unlink(c, s, t); Unreadied(s, r, t) && Left(s, r, t)
  {
    var r := Unlink(c, s, t);
    if s.tasks[t].st == Runnable {
      UnreadyQueues(c, s, t);
    } else {
      DequeueLeft(c, s, {}, t);
      DequeueEffect(c, s, t);
      hide Placed, DequeueWobj;
      forall p | 0 <= p < |s.ready| ensures r.ready[p] == Remove(s.ready[p], t) {
        InNoOtherReady(c, s, {}, t, p);
      }
      assert r.wq == (if s.tasks[t].st.Waiting? then DequeueWobj(c, s, t).wq else s.wq);
      NotWaitingLeft(c, s, t);
    }
  }

  lemma NotWaitingLeft(c: Config, s: Sys, t: nat)
    requires Shaped(c, s) && Placed(c, s, {}) && t < |s.tasks|
    ensures !s.tasks[t].st.Waiting? ==> Left(s, s, t)
  {
    if !s.tasks[t].st.Waiting? {
      forall o | 0 <= o < |s.wq| ensures s.wq[o] == Remove(s.wq[o], t) {
        InNoOther(c, s, {}, t, o);
      }
    }
  }

  /** A task that ends with an activation queued is ready again. */
  function Again(c: Config, s: Sys, t: nat, p: nat): seq<nat>
    requires t < |s.tasks| && t < |c.ipri|
  {
    if s.tasks[t].actque && p == c.ipri[t] then [t] else []
  }

  /** A task that has ended is as at the start, or is active again. */
  function Ended(c: Config, k: Task, t: nat): Task
    requires t < |c.ipri|
  {
    Task(if k.actque then Runnable else Dormant, c.ipri[t], false, false, false, true, k.tmevtb, k.wercd)
  }

  ghost function ReadyAtEnd(c: Config, s: Sys, r: Sys, t: nat, p: nat): seq<nat>
    requires t < |s.tasks| && t < |s.held| && t < |c.ipri| && p < |s.ready|
  {
    Remove(s.ready[p], t) + Ready(r.tasks, r.pri, Passing(s, s.held[t]), p) + Again(c, s, t, p)
  }

  /** The mutexes of task t have passed to their first waiters, and it has left the wait
    queue it was in. */
  ghost predicate LocksPassed(s: Sys, r: Sys, t: nat)
    requires t < |s.held|
  {
    && |r.held| == |s.held| && r.held[t] == []
    && (forall u: nat, m: nat :: 0 <= u < |s.held| && u != t ==>
      (m in r.held[u] <==> m in s.held[u] || FirstFor(s, s.held[t], m, u)))
    && (forall u :: 0 <= u < |s.held| && u != t ==> s.held[u] <= r.held[u])
    && |r.wq| == |s.wq|
    && (forall o :: 0 <= o < |s.wq| ==>
      r.wq[o] == if o in s.held[t] && s.wq[o] != [] then s.wq[o][1..] else Remove(s.wq[o], t))
  }

  /** What the end of task t does: it is dormant as at the start, or active again if
    an activation was queued; its mutexes have passed to their first waiters, who become
    ready in that order, the newest mutex first, and then t if it starts again. */
  ghost predicate EndedTask(c: Config, s: Sys, r: Sys, t: nat)
    requires t < |s.tasks| && t < |s.held| && t < |c.ipri|
  {
    && Released(s, r, {t}, Heads(s, s.held[t]), E_OK) && t !in Heads(s, s.held[t])
    && r.tasks[t] == Ended(c, s.tasks[t], t) && LocksPassed(s, r, t)
    && |r.ready| == |s.ready| && (forall p :: 0 <= p < |s.ready| ==> r.ready[p] == ReadyAtEnd(c, s, r, t, p))
  }

  /** Nobody waits in the queue of a mutex that it has locked. */
  lemma NotInOwnQueue(c: Config, s: Sys, t: nat, o: nat)
    requires Core(c, s, {}, {}, {}) && t < |s.tasks| && o in s.held[t]
    ensures o < |s.wq| && t !in s.wq[o] && Remove(s.wq[o], t) == s.wq[o]
  {
    assert IsMutex(c, o);
    assert WaitQueue(s, {}, o, s.wq[o]) && WaitOk(c, s, {}, t);
    RemoveAbsent(s.wq[o], t);
  }

  lemma RestartQueues(c: Config, s: Sys, t: nat)
    requires Shaped(c, s) && t < |s.tasks|
    ensures var r := Restart(c, MakeDormant(c, s, t), t); var k := s.tasks[t];
      && r.tasks == s.tasks[t := Ended(c, k, t)]
      && r.held == s.held && r.wq == s.wq && |r.ready| == |s.ready| && t < |s.pri| && r.pri == s.pri[t := c.ipri[t]]
      && forall p :: 0 <= p < |s.ready| ==> r.ready[p] == s.ready[p] + Again(c, s, t, p)
  {
    hide Within;
    var s1 := MakeDormant(c, s, t);
    assert s1.tasks[t].st == Dormant;
    if !s.tasks[t].actque {
      assert s1.tasks[t] == s1.tasks[t].(actque := false);
    }
  }

  lemma TerminateForm(c: Config, s: Sys, t: nat)
    requires Shaped(c, s) && t < |s.tasks|
    ensures Terminate(c, s, t)
      == Restart(c, MakeDormant(c, HandOverAll(c, SetHeld(c, Unlink(c, s, t), t, []), Unlink(c, s, t).held[t]), t), t)
  {
    hide Unlink, HandOverAll, MakeDormant;
  }

  lemma TerminateQueues(c: Config, s: Sys, t: nat)
    requires Core(c, s, {}, {}, {}) && t < |s.tasks|
    ensures t < |s.held| && t < |c.ipri| && EndedTask(c, s, Terminate(c, s, t), t)
  {
    hide Placed, TimersOk, TasksOk, MutexesOk, NoDup, Within, Unlink, HandOverAll, Remove, MakeDormant, Restart;
    hide Passing, JoinInOrder, Ready;
    HeldOnce(c, s, t);
    var ms := s.held[t];
    UnlockedCore(c, s, t, Members(ms));
    UnlinkQueues(c, s, t);
    UnlinkEffect(c, s, t);
    var s1 := SetHeld(c, Unlink(c, s, t), t, []);
    HandOverAllQueues(c, s1, {t}, Members(ms), ms);
    HandOverAllOrder(c, s1, {t}, Members(ms), ms);
    var s2 := HandOverAll(c, s1, ms);
    RestartQueues(c, s2, t);
    hide Terminate;
    TerminateForm(c, s, t);
    EndPieces(c, s, s1, s2, Terminate(c, s, t), t);
  }

  lemma HasMember(q: seq<nat>)
    ensures q == [] || exists m :: m in q
  {
    assert q == [] || q[0] in q;
  }

  /** What t had locked has passed on, and t got nothing. */
  lemma EndHeld(s: Sys, s1: Sys, s2: Sys, t: nat)
    requires t < |s.held| && s1.held == s.held[t := []] && |s1.wq| == |s.wq| && Passed(s1, s2, s.held[t])
    requires forall o :: o in s.held[t] ==> o < |s.wq| && t !in s.wq[o] && s1.wq[o] == s.wq[o]
    ensures t !in Heads(s, s.held[t]) && Heads(s1, s.held[t]) == Heads(s, s.held[t])
    ensures |s2.held| == |s.held| && s2.held[t] == []
    ensures forall u: nat, m: nat :: 0 <= u < |s.held| && u != t ==>
      (m in s2.held[u] <==> m in s.held[u] || FirstFor(s, s.held[t], m, u))
    ensures forall u :: 0 <= u < |s.held| && u != t ==> s.held[u] <= s2.held[u]
  {
    forall m | m in s.held[t] && s.wq[m] != [] ensures s.wq[m][0] != t {
      assert s.wq[m][0] in s.wq[m];
    }
    forall m: nat ensures m !in s2.held[t] {
      assert m in s2.held[t] <==>
        m in s1.held[t] || FirstFor(s1, s.held[t], m, t);
    }
    HasMember(s2.held[t]);
    forall u: nat, m: nat | 0 <= u < |s.held| && u != t
      ensures m in s2.held[u] <==> m in s.held[u] || FirstFor(s, s.held[t], m, u)
    {
      assert m in s2.held[u] <==>
        m in s1.held[u] || FirstFor(s1, s.held[t], m, u);
    }
    assert Heads(s1, s.held[t]) == Heads(s, s.held[t]) by {
      forall u ensures u in Heads(s1, s.held[t]) <==> u in Heads(s, s.held[t]) {
        if u in Heads(s, s.held[t]) {
          var m :| m in s.held[t] && m < |s.wq| && s.wq[m] != [] && s.wq[m][0] == u;
          assert s1.wq[m] == s.wq[m];
        }
      }
    }
  }

  lemma EndQueues(s: Sys, s1: Sys, s2: Sys, r: Sys, t: nat, ms: seq<nat>)
    requires Left(s, s1, t) && Passed(s1, s2, ms) && r.wq == s2.wq
    requires forall o :: o in ms ==> o < |s.wq| && s1.wq[o] == s.wq[o]
    ensures |r.wq| == |s.wq|
    ensures forall o :: 0 <= o < |s.wq| ==>
      r.wq[o] == if o in ms && s.wq[o] != [] then s.wq[o][1..] else Remove(s.wq[o], t)
  {
    hide Remove;
  }

  lemma {:induction false} PassingHeads(s: Sys, ms: seq<nat>, u: nat)
    ensures u in Passing(s, ms) <==> u in Heads(s, ms)
    decreases |ms|
  {
    if ms != [] {
      var n := |ms| - 1;
      PassingHeads(s, ms[..n], u);
      assert ms == ms[..n] + [ms[n]];
      assert u in Heads(s, ms) <==> u in Heads(s, ms[..n]) || FirstFor(s, ms, ms[n], u) by {
        if u in Heads(s, ms) {
          var m :| m in ms && m < |s.wq| && s.wq[m] != [] && s.wq[m][0] == u;
        }
      }
    }
  }

  lemma {:induction false} ReadySame(k: seq<Task>, pri: seq<nat>, k': seq<Task>, pri': seq<nat>, q: seq<nat>, t: nat,
      p: nat)
    requires t !in q && |k'| == |k| && |pri'| == |pri|
    requires forall u :: 0 <= u < |k| && u != t ==> k'[u] == k[u]
    requires forall u :: 0 <= u < |pri| && u != t ==> pri'[u] == pri[u]
    ensures Ready(k', pri', q, p) == Ready(k, pri, q, p)
    decreases |q|
  {
    if q != [] {
      ReadySame(k, pri, k', pri', q[1..], t, p);
    }
  }

  lemma EndReady(c: Config, s: Sys, s1: Sys, s2: Sys, r: Sys, t: nat)
    requires t < |s.tasks| == |s2.tasks| && t < |c.ipri| && t < |s2.pri| && t < |s.held|
    requires t !in Passing(s1, s.held[t]) && Passing(s1, s.held[t]) == Passing(s, s.held[t])
    requires Unreadied(s, s1, t) && JoinInOrder(s1, s2, Passing(s1, s.held[t])) && |r.ready| == |s2.ready|
    requires r.tasks == s2.tasks[t := Ended(c, s2.tasks[t], t)] && s2.tasks[t] == s.tasks[t]
    requires r.pri == s2.pri[t := c.ipri[t]]
    requires forall p :: 0 <= p < |s2.ready| ==> r.ready[p] == s2.ready[p] + Again(c, s2, t, p)
    ensures |r.ready| == |s.ready| && forall p :: 0 <= p < |s.ready| ==> r.ready[p] == ReadyAtEnd(c, s, r, t, p)
  {
    hide Remove, Ready, Passing, Ended;
    forall p | 0 <= p < |s.ready| ensures r.ready[p] == ReadyAtEnd(c, s, r, t, p) {
      ReadySame(s2.tasks, s2.pri, r.tasks, r.pri, Passing(s, s.held[t]), t, p);
    }
  }

  lemma EndReleased(c: Config, s: Sys, s1: Sys, s2: Sys, r: Sys, t: nat, woken: set<nat>)
    requires s1.tasks == s.tasks && t < |s.tasks| && t < |c.ipri| && Released(s1, s2, {}, woken, E_OK) && t !in woken
    requires |s2.tasks| == |s.tasks| && r.tasks == s2.tasks[t := Ended(c, s2.tasks[t], t)]
    ensures Released(s, r, {t}, woken, E_OK) && s2.tasks[t] == s.tasks[t] && r.tasks[t] == Ended(c, s.tasks[t], t)
  {
  }

  lemma OwnQueues(c: Config, s: Sys, s1: Sys, t: nat)
    requires Core(c, s, {}, {}, {}) && t < |s.tasks| && t < |s.held| && Left(s, s1, t)
    ensures forall o :: o in s.held[t] ==> o < |s.wq| && t !in s.wq[o] && s1.wq[o] == s.wq[o]
  {
    forall o | o in s.held[t] ensures o < |s.wq| && t !in s.wq[o] && s1.wq[o] == s.wq[o] {
      NotInOwnQueue(c, s, t, o);
    }
  }

  lemma EndLocks(s: Sys, s1: Sys, s2: Sys, r: Sys, t: nat)
    requires t < |s.held| && s1.held == s.held[t := []] && |s1.wq| == |s.wq| && Passed(s1, s2, s.held[t])
    requires forall o :: o in s.held[t] ==> o < |s.wq| && t !in s.wq[o] && s1.wq[o] == s.wq[o]
    requires Left(s, s1, t) && r.held == s2.held && r.wq == s2.wq
    ensures t !in Heads(s, s.held[t]) && Heads(s1, s.held[t]) == Heads(s, s.held[t]) && LocksPassed(s, r, t)
  {
    hide Heads, Remove;
    EndHeld(s, s1, s2, t);
    EndQueues(s, s1, s2, r, t, s.held[t]);
    hide Left, Passed;
  }

  lemma EndPieces(c: Config, s: Sys, s1: Sys, s2: Sys, r: Sys, t: nat)
    requires Core(c, s, {}, {}, {}) && t < |s.tasks| && t < |s.held| && t < |c.ipri| && |s.held| == |s.tasks|
    requires s1.tasks == s.tasks && s1.held == s.held[t := []] && Unreadied(s, s1, t) && Left(s, s1, t)
    requires Passed(s1, s2, s.held[t]) && Released(s1, s2, {}, Heads(s1, s.held[t]), E_OK)
    requires JoinInOrder(s1, s2, Passing(s1, s.held[t])) && t < |s2.pri| && t < |s2.tasks|
    requires r.tasks == s2.tasks[t := Ended(c, s2.tasks[t], t)]
    requires r.held == s2.held && r.wq == s2.wq && r.pri == s2.pri[t := c.ipri[t]] && |r.ready| == |s2.ready|
    requires forall p :: 0 <= p < |s2.ready| ==> r.ready[p] == s2.ready[p] + Again(c, s2, t, p)
    ensures EndedTask(c, s, r, t)
  {
    OwnQueues(c, s, s1, t);
    assert |s1.wq| == |s.wq| && |s2.tasks| == |s.tasks|;
    hide Core, Heads, Passing, JoinInOrder, ReadyAtEnd, Ended, Released, Left, Unreadied, Passed, LocksPassed;
    EndLocks(s, s1, s2, r, t);
    PassingSame(s, s1, s.held[t]);
    PassingHeads(s, s.held[t], t);
    EndReleased(c, s, s1, s2, r, t, Heads(s, s.held[t]));
    hide Again;
    EndReady(c, s, s1, s2, r, t);
  }
}
