/** The task kernel as the code keeps it: control blocks, ready queues with a
  priority bitmap, the task to be scheduled, chains of locked mutexes.  Every
  operation is proved to have exactly the effect its step has on the abstract
  state, and to keep what the code maintains incrementally equal to its
  definition. */
module Kernel {
  import opened Options
  import opened Queues
  import opened KernelState
  import opened KernelCalls
  import opened KernelPlacement
  import opened KernelInvariant
  import opened KernelLocking
  import opened KernelSteps
  import opened Primap
  import opened ReadyTop
  import opened MutexChain

  /** The bit of every non-empty queue is set, and no other. */
  ghost predicate Indexed(ready: seq<seq<nat>>, primap: bv16) {
    |ready| == TNUM_TPRI && forall p :: 0 <= p < TNUM_TPRI ==> (Has(primap, p) <==> ready[p] != [])
  }

  lemma IndexedPut(ready: seq<seq<nat>>, primap: bv16, p: nat, q: seq<nat>)
    requires Indexed(ready, primap) && p < TNUM_TPRI && q != []
    ensures Indexed(ready[p := q], PrimapSet(primap, p))
  {
    hide Has, PrimapSet, PrimapClear;
    var primap' := PrimapSet(primap, p);
    forall k | 0 <= k < TNUM_TPRI ensures Has(primap', k) <==> k == p || Has(primap, k) {
      SetBit(primap, p, k);
    }
  }

  lemma IndexedTake(ready: seq<seq<nat>>, primap: bv16, p: nat, q: seq<nat>)
    requires Indexed(ready, primap) && p < TNUM_TPRI && ready[p] != []
    ensures q == [] ==> Indexed(ready[p := q], PrimapClear(primap, p))
    ensures q != [] ==> Indexed(ready[p := q], primap)
  {
    hide Has, PrimapSet, PrimapClear;
    var primap' := PrimapClear(primap, p);
    forall k | 0 <= k < TNUM_TPRI ensures Has(primap', k) <==> k != p && Has(primap, k) {
      ClearBit(primap, p, k);
    }
  }

  /** A runnable task is in the ready queue of its priority, any other and any
    that is being moved in none. */
  lemma LinkedIn(c: Config, s: Sys, loose: set<nat>, t: nat)
    requires Shaped(c, s) && Placed(c, s, loose) && t < |s.tasks|
    ensures t !in loose && s.tasks[t].st == Runnable ==> t in s.ready[s.pri[t]]
    ensures t in loose || s.tasks[t].st != Runnable ==> forall p :: 0 <= p < |s.ready| ==> t !in s.ready[p]
  {
    forall p | 0 <= p < |s.ready| ensures t in s.ready[p] <==> ToReady(s, loose, p, t) {
      assert ReadyQueue(s, loose, p, s.ready[p]);
    }
  }

  lemma HeldMutexes(c: Config, s: Sys, t: nat)
    requires Shaped(c, s) && t < |s.tasks|
    ensures forall i :: 0 <= i < |s.held[t]| ==> IsMutex(c, s.held[t][i])
  {
    forall i | 0 <= i < |s.held[t]| ensures IsMutex(c, s.held[t][i]) {
      assert s.held[t][i] in s.held[t];
    }
  }

  /** The first waiter for mutex m is in order and in no ready queue. */
  ghost predicate HeadOk(c: Config, s: Sys, m: nat)
    requires Shaped(c, s) && m < |s.wq|
  {
    s.wq[m] != [] ==>
      var w := s.wq[m][0];
      && w < |s.tasks| && s.tasks[w].st.Waiting? && s.pri[w] == ClosedPri(c, s, w)
      && (s.tasks[w].tmevtb ==> w in s.registered)
      && forall p :: 0 <= p < |s.ready| ==> w !in s.ready[p]
  }

  /** Handing a mutex over, before the end of the new holder's wait. */
  function Handed(c: Config, s: Sys, m: nat): (r: Sys)
    requires Shaped(c, s) && IsMutex(c, m) && s.wq[m] != [] && s.wq[m][0] < |s.tasks|
  {
    var w := s.wq[m][0];
    s.(wq := s.wq[m := s.wq[m][1..]], held := s.held[w := s.held[w] + [m]],
       registered := Unregistered(s, w), tasks := s.tasks[w := s.tasks[w].(wercd := E_OK)],
       pri := s.pri[w := Lower(c, m, s.pri[w])])
  }

  lemma HandOverParts(c: Config, s: Sys, m: nat)
    requires Shaped(c, s) && IsMutex(c, m) && s.wq[m] != [] && HeadOk(c, s, m)
    ensures Shaped(c, Handed(c, s, m))
    ensures HandOver(c, s, m) == KernelState.MakeNonWait(c, Handed(c, s, m), s.wq[m][0])
  {
    var t := s.wq[m][0];
    HandOverForm(c, s, m);
    BoostedShift(c, s.held[t], m, s.tasks[t].bpri);
    hide Boosted, KernelState.MakeNonWait, Within, HandOver;
    assert HandedTo(c, s, m, t) == Handed(c, s, m);
  }

  /** The state without the mutexes that t still has on its chain. */
  function Bare(c: Config, s: Sys, t: nat): (r: Sys)
    requires Shaped(c, s) && t < |s.tasks|
    ensures Shaped(c, r)
  {
    SetHeld(c, s, t, [])
  }

  /** Task t, which is in no queue, is giving up the mutexes on its chain. */
  ghost predicate Releasing(c: Config, s: Sys, t: nat) {
    && Shaped(c, s) && t < |s.tasks| && NoDup(s.held[t])
    && Core(c, Bare(c, s, t), {t}, {t}, Members(s.held[t]))
    && LooseWaits(c, Bare(c, s, t), {t}, Members(s.held[t]))
  }

  lemma NonWaitBare(c: Config, s: Sys, t: nat, w: nat)
    requires Shaped(c, s) && t < |s.tasks| && w < |s.tasks|
    ensures Bare(c, KernelState.MakeNonWait(c, s, w), t) == KernelState.MakeNonWait(c, Bare(c, s, t), w)
  {
    assert w < |s.pri| && s.pri[w] < |s.ready| && Shaped(c, Bare(c, s, t));
    hide Shaped;
    match s.tasks[w].st {
      case Waiting(_, true) =>
      case _ =>
    }
  }

  lemma HandedBare(c: Config, s: Sys, t: nat, m: nat, w: nat)
    requires Shaped(c, s) && t < |s.tasks| && w < |s.tasks| && w != t && m < |s.wq|
    ensures HandedTo(c, Bare(c, s, t), m, w) == HandedTo(c, s, m, w).(held := HandedTo(c, s, m, w).held[t := []])
  {
    hide Boosted, Remove, Within;
    assert s.held[t := []][w := s.held[w] + [m]] == s.held[w := s.held[w] + [m]][t := []];
  }

  /** HandOver neither uses nor changes the locks of a task that does not wait
    for the mutex. */
  lemma HandOverBare(c: Config, s: Sys, t: nat, m: nat)
    requires Shaped(c, s) && t < |s.tasks| && IsMutex(c, m) && m < |s.wq| && (s.wq[m] != [] ==> s.wq[m][0] != t)
    ensures Bare(c, HandOver(c, s, m), t) == HandOver(c, Bare(c, s, t), m)
  {
    if s.wq[m] == [] {
      hide Shaped;
    } else {
      var w := s.wq[m][0];
      HandOverForm(c, s, m);
      HandOverForm(c, Bare(c, s, t), m);
      HandedBare(c, s, t, m, w);
      BareWhole(c, s, t, m, w);
    }
  }

  lemma BareWhole(c: Config, s: Sys, t: nat, m: nat, w: nat)
    requires Shaped(c, s) && t < |s.tasks| && w < |s.tasks| && w != t && m < |s.wq|
    requires Shaped(c, HandedTo(c, s, m, w)) && Shaped(c, HandedTo(c, Bare(c, s, t), m, w))
    ensures Bare(c, KernelState.MakeNonWait(c, HandedTo(c, s, m, w), w), t)
      == KernelState.MakeNonWait(c, HandedTo(c, Bare(c, s, t), m, w), w)
  {
    HandedBare(c, s, t, m, w);
    NonWaitBare(c, HandedTo(c, s, m, w), t, w);
    hide KernelState.MakeNonWait, HandedTo, Shaped;
  }

  /** One round of mutex_release_all: the newest mutex m on t's chain is popped
    and handed over. */
  lemma ReleaseRound(c: Config, s: Sys, t: nat)
    requires Releasing(c, s, t) && s.held[t] != []
    ensures var n := |s.held[t]| - 1; var m := s.held[t][n];
      IsMutex(c, m) && (forall x :: x in s.held[t][..n] ==> IsMutex(c, x)) &&
      var s1 := SetHeld(c, s, t, s.held[t][..n]);
      && HeadOk(c, s1, m)
      && Releasing(c, HandOver(c, s1, m), t)
      && HandOver(c, s1, m).held[t] == s.held[t][..n]
      && Bare(c, HandOver(c, s1, m), t) == HandOver(c, Bare(c, s, t), m)
  {
    hide Core, HandOver, NoDup, HeadOk, Members, LooseWaits, Shaped, InPriorityOrder;
    RoundMutexes(c, s, t);
    var n := |s.held[t]| - 1;
    var m := s.held[t][n];
    FirstWaiter(c, s, t, m, s.held[t][..n]);
    NewestGone(c, Bare(c, s, t), t, s.held[t]);
    var s1 := SetHeld(c, s, t, s.held[t][..n]);
    assert Bare(c, s1, t) == Bare(c, s, t);
    HandOverBare(c, s1, t, m);
    HandOverKeepsChain(c, s1, t, m);
  }

  lemma RoundMutexes(c: Config, s: Sys, t: nat)
    requires Releasing(c, s, t) && s.held[t] != []
    ensures var ms := s.held[t]; var n := |ms| - 1;
      && ms[n] in ms && IsMutex(c, ms[n]) && (forall x :: x in ms[..n] ==> IsMutex(c, x))
      && ms[n] < |s.wq| && NoDup(ms[..n]) && |s.held| == |s.tasks|
  {
    LastOff(s.held[t]);
    assert s.held[t][|s.held[t]| - 1] in s.held[t];
  }

  /** Handing over the newest of the mutexes ms that t is giving up. */
  lemma NewestGone(c: Config, s: Sys, t: nat, ms: seq<nat>)
    requires Core(c, s, {t}, {t}, Members(ms)) && LooseWaits(c, s, {t}, Members(ms))
    requires NoDup(ms) && ms != [] && IsMutex(c, ms[|ms| - 1])
    ensures var n := |ms| - 1; var r := HandOver(c, s, ms[n]);
      Core(c, r, {t}, {t}, Members(ms[..n])) && LooseWaits(c, r, {t}, Members(ms[..n]))
  {
    var n := |ms| - 1;
    LastOff(ms);
    assert ms[n] in Members(ms) && Members(ms) - {ms[n]} == Members(ms[..n]);
    HandOverCore(c, s, {t}, Members(ms), ms[n]);
    hide Core, HandOver, NoDup, Shaped, Members;
    assert LooseWaits(c, HandOver(c, s, ms[n]), {t}, Members(ms) - {ms[n]});
  }

  lemma HandOverKeepsChain(c: Config, s: Sys, t: nat, m: nat)
    requires Shaped(c, s) && t < |s.tasks| && IsMutex(c, m) && m < |s.wq| && (s.wq[m] != [] ==> s.wq[m][0] != t)
    ensures HandOver(c, s, m).held[t] == s.held[t] && |HandOver(c, s, m).tasks| == |s.tasks|
  {
    if s.wq[m] != [] {
      HandOverEffect(c, s, m);
      hide HandOver;
    }
  }

  /** The first waiter for a mutex that t is giving up is another task, in order
    and linked only there. */
  lemma FirstWaiter(c: Config, s: Sys, t: nat, m: nat, ms: seq<nat>)
    requires Releasing(c, s, t) && m in s.held[t] && IsMutex(c, m)
    requires forall x :: x in ms ==> IsMutex(c, x)
    ensures s.wq[m] != [] ==> s.wq[m][0] != t
    ensures HeadOk(c, SetHeld(c, s, t, ms), m)
  {
    var bare := Bare(c, s, t);
    if s.wq[m] != [] {
      var w := s.wq[m][0];
      QueueWaits(c, bare, {t}, m);
      LinkedIn(c, bare, {t}, w);
      assert ToTimer(bare, {t}, w) ==> w in bare.registered;
      assert TaskOk(c, bare, w);
    }
  }

  /** Once t is unlinked it can give up its mutexes. */
  lemma ReadyToRelease(c: Config, s: Sys, t: nat)
    requires Core(c, s, {}, {}, {}) && t < |s.tasks|
    ensures Releasing(c, Unlink(c, s, t), t) && NoDup(s.held[t])
    ensures Unlink(c, s, t).held == s.held
    ensures Core(c, Release(c, s, t), {t}, {t}, {}) && Release(c, s, t).held[t] == []
  {
    UnlockedCore(c, s, t, Members(s.held[t]));
    UnlinkEffect(c, s, t);
    ReleaseCore(c, s, t);
    hide Core, Unlink, LooseWaits, Release;
  }

  /** After that t is linked nowhere. */
  lemma Released(c: Config, s: Sys, t: nat)
    requires Core(c, s, {}, {}, {}) && t < |s.tasks|
    ensures var r := Release(c, s, t);
      |r.tasks| == |s.tasks| && forall p :: 0 <= p < |r.ready| ==> t !in r.ready[p]
  {
    var ms := s.held[t];
    UnlockedCore(c, s, t, Members(ms));
    UnlinkEffect(c, s, t);
    assert NoDup(ms);
    ReleaseCore(c, s, t);
    var s1 := SetHeld(c, Unlink(c, s, t), t, []);
    hide Unlink, HandOverAll;
    HandOverAllCore(c, s1, {t}, Members(ms), ms);
    LinkedIn(c, Release(c, s, t), {t}, t);
  }

  /** What ending a task relies on: it is linked where it belongs, and a timeout
    that is to be taken out is registered. */
  lemma UnlinkForm(c: Config, s: Sys, t: nat)
    requires Core(c, s, {}, {}, {}) && t < |s.tasks|
    ensures s.tasks[t].st.Waiting? && s.tasks[t].tmevtb ==> t in s.registered
    ensures |s.pri| == |s.tasks| && s.pri[t] < TNUM_TPRI == |s.ready|
    ensures s.tasks[t].st == Runnable ==> t in s.ready[s.pri[t]]
  {
    assert ToTimer(s, {}, t) ==> t in s.registered;
    LinkedIn(c, s, {}, t);
  }

  lemma InvShaped(c: Config, s: Sys)
    requires Inv(c, s)
    ensures Core(c, s, {}, {}, {}) && Shaped(c, s) && |s.wq| == |c.objs|
    ensures s.run.Some? ==> s.run.value < |s.tasks|
  {
  }

  /** What the invariant says about one task. */
  lemma TaskFacts(c: Config, s: Sys, t: nat)
    requires Inv(c, s) && t < |s.tasks|
    ensures |s.tasks| == |s.pri| == |s.held| == |c.ipri| == |c.noactque| && |s.wq| == |c.objs| && |s.ready| == TNUM_TPRI
    ensures s.pri[t] < TNUM_TPRI && s.tasks[t].bpri < TNUM_TPRI
    ensures s.tasks[t].st == Runnable ==> t in s.ready[s.pri[t]]
    ensures s.tasks[t].st != Runnable ==> forall p :: 0 <= p < |s.ready| ==> t !in s.ready[p]
    ensures s.tasks[t].st.Waiting? && s.tasks[t].st.w.Obj? ==> s.tasks[t].st.w.o < |s.wq|
    ensures s.pri[t] == ClosedPri(c, s, t)
    ensures s.run == Some(t) ==> s.tasks[t].st == Runnable
    ensures t in s.registered <==> s.tasks[t].st.Waiting? && s.tasks[t].tmevtb
  {
    assert t in s.registered <==> ToTimer(s, {}, t);
    LinkedIn(c, s, {}, t);
    assert TaskOk(c, s, t);
  }

  /** The three cases of change_priority. */
  lemma ChangePriorityForm(c: Config, s: Sys, t: nat, p: nat, front: bool)
    requires Shaped(c, s) && t < |s.tasks| && p < TNUM_TPRI
    ensures |s.pri| == |s.tasks| && |s.wq| == |c.objs| && |s.ready| == TNUM_TPRI && s.pri[t] < TNUM_TPRI
    ensures var r, st, pri := KernelState.ChangePriority(c, s, t, p, front), s.tasks[t].st, s.pri[t := p];
      if st == Runnable then r == s.(pri := pri, ready := Moved(s.ready, s.pri, t, p, front))
      else if st.Waiting? && st.w.Obj? then
        st.w.o < |s.wq| && Within(s.wq[st.w.o], |pri|) && Within(Remove(s.wq[st.w.o], t), |pri|) &&
        r == s.(pri := pri, wq := if InPriorityOrder(c, st.w.o)
          then s.wq[st.w.o := InsertTpri(Remove(s.wq[st.w.o], t), t, pri)] else s.wq)
      else r == s.(pri := pri)
  {
    hide InsertTpri, Remove;
    match s.tasks[t].st {
      case Waiting(Obj(o), _) =>
        RemoveWithin(s.wq[o], t, |s.tasks|);
      case _ =>
    }
  }

  lemma MakeWaitForm(c: Config, s: Sys, t: nat, w: Wait, timed: bool)
    requires Shaped(c, s) && t < |s.tasks| && (w.Obj? ==> w.o < |c.objs|)
    ensures |s.pri| == |s.tasks| && |s.ready| == TNUM_TPRI && s.pri[t] < TNUM_TPRI
    ensures KernelState.MakeWait(c, s, t, w, timed) == s.(
      tasks := s.tasks[t := s.tasks[t].(st := Waiting(w, false), tmevtb := timed)],
      ready := s.ready[s.pri[t] := Remove(s.ready[s.pri[t]], t)],
      registered := if timed then s.registered + {t} else s.registered)
  {
    hide Remove;
  }

  /** A task that has locked no mutex and waits for none need not be checked. */
  lemma NoMutexes(c: Config, s: Sys, t: nat, b: nat)
    requires Shaped(c, s) && t < |s.tasks| && t < |s.held|
    ensures s.held[t] == [] ==> !HoldsCeiling(c, s, t)
    ensures var st := s.tasks[t].st;
      s.held[t] == [] && !(st.Waiting? && st.w.Obj? && IsMutex(c, st.w.o)) ==> SuitsCeilings(c, s, t, b)
  {
  }

  class Kernel {
    const c: Config
    var tasks: seq<Task>                 // tcb_table, but for the next two
    var pri: seq<nat>                    // priority
    var lastmtx: seq<Option<nat>>        // p_lastmtx
    var loctsk: seq<Option<nat>>         // p_loctsk, by object
    var prevmtx: seq<Option<nat>>        // p_prevmtx, by object
    var wq: seq<seq<nat>>                // wait_queue, by object
    var registered: set<nat>             // the tasks whose timeout block is in the timer's heap
    var ready: seq<seq<nat>>             // ready_queue
    var primap: bv16                     // ready_primap
    var runtsk: Option<nat>              // p_runtsk
    var schedtsk: Option<nat>            // p_schedtsk
    var enadsp: bool
    var dspflg: bool
    var ipm: int
    var sensectx: bool                   // in interrupt context
    ghost var held: seq<seq<nat>>        // the mutexes on each task's chain

    /** The abstract state. */
    ghost function Abs(): Sys
      reads this
    {
      Sys(tasks, pri, held, ready, wq, registered, enadsp, ipm, runtsk, sensectx)
    }

    /** The scheduling variables are what they are defined to be. */
    ghost predicate SchedOk()
      reads `ready, `pri, `primap, `enadsp, `dspflg, `ipm, `runtsk, `schedtsk
    {
      && |ready| == TNUM_TPRI && Indexed(ready, primap) && ByPri(ready, pri)
      && dspflg == (enadsp && ipm == 0)
      && schedtsk == if dspflg then Top(ready) else runtsk
    }

    /** The mutex links are the chains; `freed` are being handed over. */
    ghost predicate ChainsOk(freed: set<nat>)
      reads `lastmtx, `loctsk, `prevmtx, `held
    {
      && |loctsk| == |prevmtx| == |c.objs|
      && AllChained(prevmtx, lastmtx, held) && Owned(loctsk, held, freed)
    }

    ghost predicate Ok(freed: set<nat>)
      reads this
    {
      Shaped(c, Abs()) && SchedOk() && ChainsOk(freed)
    }

    /** initialize_task: no task is active yet and none is running. */
    constructor (config: Config)
      requires ConfigValid(config)
      ensures c == config && Ok({}) && Abs() == Boot(config)
    {
      var n, m := |config.ipri|, |config.objs|;
      c := config;
      tasks := seq(n, (t: nat) requires t < n => Task(Dormant, config.ipri[t], false, false, false, true, false, E_OK));
      pri := config.ipri;
      lastmtx, held := seq(n, _ => None), seq(n, _ => []);
      loctsk, prevmtx := seq(m, _ => None), seq(m, _ => None);
      wq, ready := seq(m, _ => []), seq(TNUM_TPRI, _ => []);
      registered, primap := {}, 0;
      runtsk, schedtsk := None, None;
      enadsp, dspflg, ipm, sensectx := true, true, 0, true;
      new;
      BootEmpty(ready, pri);
    }

    // ----- Scheduling: task.c -----

    /** search_schedtsk. */
    method SearchSchedtsk() returns (t: nat)
      requires Indexed(ready, primap) && Top(ready).Some?
      ensures Top(ready) == Some(t)
    {
      ghost var f := FirstOf(ready);
      assert Has(primap, f);
      assert primap != 0 by { SomeBit(primap); }
      hide Has;
      var p := BitmapSearch(primap);
      t := ready[p][0];
      TopIs(ready, p);
    }

    static lemma SearchEmpty(ready: seq<seq<nat>>, primap: bv16)
      requires Indexed(ready, primap)
      ensures primap == 0 <==> Top(ready) == None
    {
      SomeBit(primap);
      hide Has;
      var f := FirstOf(ready);
      if f < |ready| {
        assert Has(primap, f);
      }
    }

    method SearchIfAny() returns (top: Option<nat>)
      requires Indexed(ready, primap)
      ensures top == Top(ready)
    {
      hide Indexed, Top;
      SearchEmpty(ready, primap);
      if primap == 0 {
        top := None;
      } else {
        var u := SearchSchedtsk();
        top := Some(u);
      }
    }

    /** make_runnable. */
    method MakeRunnable(t: nat)
      requires t < |pri| && pri[t] < TNUM_TPRI && SchedOk() && t !in ready[pri[t]]
      modifies `ready, `primap, `schedtsk
      ensures SchedOk() && ready == old(ready)[pri[t] := old(ready)[pri[t]] + [t]]
    {
      hide Has, PrimapSet, PrimapClear, ByPri, Top, Indexed;
      var p := pri[t];
      SchedPut(ready, pri, t);
      IndexedPut(ready, primap, p, ready[p] + [t]);
      ready := ready[p := ready[p] + [t]];
      primap := PrimapSet(primap, p);
      if dspflg {
        if schedtsk.None? || p < pri[schedtsk.value] {
          schedtsk := Some(t);
        }
      }
    }

    /** make_non_runnable.  Its assertions hold: the task to be scheduled leaves
      its queue only while dispatching is possible. */
    method MakeNonRunnable(t: nat)
      requires t < |pri| && pri[t] < TNUM_TPRI && SchedOk() && t in ready[pri[t]]
      requires runtsk == Some(t) ==> dspflg
      modifies `ready, `primap, `schedtsk
      ensures SchedOk() && ready == old(ready)[pri[t] := Remove(old(ready)[pri[t]], t)]
    {
      hide Has, PrimapSet, PrimapClear, Test, ByPri, Top, TopFrom, Indexed, Remove, NoDup;
      hide AllAt, IsFirst, TopAt, Shaped;
      var p := pri[t];
      SchedTake(ready, pri, t);
      IndexedTake(ready, primap, p, Remove(ready[p], t));
      ready := ready[p := Remove(ready[p], t)];
      if ready[p] == [] {
        primap := PrimapClear(primap, p);
        if schedtsk == Some(t) {
          assert dspflg;
          schedtsk := SearchIfAny();
        }
      } else {
        if schedtsk == Some(t) {
          assert dspflg;
          schedtsk := Some(ready[p][0]);
        }
      }
    }

    /** queue_insert_tpri on the wait queue of object o. */
    method QueueInsertTpri(o: nat, t: nat)
      requires o < |wq| && t < |pri| && Within(wq[o], |pri|)
      modifies `wq
      ensures wq == old(wq)[o := InsertTpri(old(wq)[o], t, pri)]
    {
      var q, k := wq[o], 0;
      while k < |q|
        invariant 0 <= k <= |q|
        invariant InsertTpri(q, t, pri) == q[..k] + InsertTpri(q[k..], t, pri)
      {
        if pri[t] < pri[q[k]] {
          break;
        }
        assert q[..k] + [q[k]] == q[..k + 1] && q[k..][1..] == q[k + 1..];
        k := k + 1;
      }
      assert InsertTpri(q[k..], t, pri) == [t] + q[k..];
      assert q[..k] + [t] + q[k..] == q[..k] + ([t] + q[k..]);
      wq := wq[o := q[..k] + [t] + q[k..]];
    }

    /** wobj_change_priority. */
    method WobjChangePriority(o: nat, t: nat)
      requires o < |wq| == |c.objs| && t < |pri| && Within(wq[o], |pri|)
      modifies `wq
      ensures Within(Remove(old(wq)[o], t), |pri|)
      ensures wq == if InPriorityOrder(c, o) then old(wq)[o := InsertTpri(Remove(old(wq)[o], t), t, pri)] else old(wq)
    {
      RemoveWithin(wq[o], t, |pri|);
      if InPriorityOrder(c, o) {
        wq := wq[o := Remove(wq[o], t)];
        QueueInsertTpri(o, t);
      }
    }

    /** The part of change_priority that moves t to another ready queue. */
    method Relink(t: nat, oldpri: nat, newpri: nat, mtxmode: bool)
      requires oldpri < TNUM_TPRI && newpri < TNUM_TPRI
      requires |ready| == TNUM_TPRI && Indexed(ready, primap) && t in ready[oldpri]
      modifies `ready, `primap
      ensures |ready| == TNUM_TPRI && Indexed(ready, primap)
      ensures var ready1 := old(ready)[oldpri := Remove(old(ready)[oldpri], t)];
        ready == ready1[newpri := if mtxmode then [t] + ready1[newpri] else ready1[newpri] + [t]]
    {
      hide Has, PrimapSet, PrimapClear, Indexed, Remove, Test;
      IndexedTake(ready, primap, oldpri, Remove(ready[oldpri], t));
      ready := ready[oldpri := Remove(ready[oldpri], t)];
      if ready[oldpri] == [] {
        primap := PrimapClear(primap, oldpri);
      }
      assert Indexed(ready, primap);
      var q := ready[newpri];
      IndexedPut(ready, primap, newpri, if mtxmode then [t] + q else q + [t]);
      ready := ready[newpri := if mtxmode then [t] + q else q + [t]];
      primap := PrimapSet(primap, newpri);
    }

    /** change_priority in the ready queues, after the priority is set. */
    method MoveReady(t: nat, oldpri: nat, newpri: nat, mtxmode: bool, ghost pri0: seq<nat>)
      requires |pri0| == |pri| && t < |pri| && oldpri == pri0[t] < TNUM_TPRI && newpri < TNUM_TPRI
      requires pri == pri0[t := newpri]
      requires |ready| == TNUM_TPRI && Indexed(ready, primap) && ByPri(ready, pri0) && t in ready[oldpri]
      requires dspflg == (enadsp && ipm == 0) && schedtsk == if dspflg then Top(ready) else runtsk
      modifies `ready, `primap, `schedtsk
      ensures SchedOk() && ready == Moved(old(ready), pri0, t, newpri, mtxmode)
    {
      hide Has, PrimapSet, PrimapClear, Test, ByPri, Top, TopFrom, Indexed, Remove, NoDup;
      hide AllAt, IsFirst, TopAt, Shaped;
      SchedMove(ready, pri0, t, newpri, mtxmode);
      MovedByPri(ready, pri0, t, newpri, mtxmode);
      Relink(t, oldpri, newpri, mtxmode);
      if dspflg {
        if schedtsk == Some(t) {
          if newpri >= oldpri {
            var u := SearchSchedtsk();
            schedtsk := Some(u);
          }
        } else {
          if (if mtxmode then newpri <= pri[schedtsk.value] else newpri < pri[schedtsk.value]) {
            schedtsk := Some(t);
          }
        }
      }
    }

    /** Task t is linked in the ready queue of its priority if it is runnable, and
      in no ready queue otherwise. */
    ghost predicate WellLinked(t: nat)
      requires t < |tasks| == |pri|
      reads `tasks, `ready, `pri
    {
      if tasks[t].st == Runnable then pri[t] < |ready| && t in ready[pri[t]]
      else forall p :: 0 <= p < |ready| ==> t !in ready[p]
    }

    /** change_priority. */
    method ChangePriority(t: nat, newpri: nat, mtxmode: bool)
      requires Shaped(c, Abs()) && SchedOk() && t < |tasks| && newpri < TNUM_TPRI && WellLinked(t)
      modifies `pri, `wq, `ready, `primap, `schedtsk
      ensures SchedOk() && Abs() == KernelState.ChangePriority(c, old(Abs()), t, newpri, mtxmode)
    {
      hide Has, ByPri, Top, TopFrom, Indexed, Remove, NoDup, InsertTpri, Within, Moved;
      hide KernelState.ChangePriority;
      ChangePriorityForm(c, Abs(), t, newpri, mtxmode);
      hide Shaped;
      var oldpri := pri[t];
      ghost var pri0 := pri;
      if tasks[t].st == Runnable {
        pri := pri[t := newpri];
        MoveReady(t, oldpri, newpri, mtxmode, pri0);
      } else {
        ByPriOther(ready, pri, t, newpri);
        pri := pri[t := newpri];
        if tasks[t].st.Waiting? && tasks[t].st.w.Obj? {
          WobjChangePriority(tasks[t].st.w.o, t);
        }
      }
    }

    /** rotate_ready_queue on the queue of priority p. */
    method RotateReadyQueue(p: nat)
      requires Shaped(c, Abs()) && SchedOk() && p < TNUM_TPRI
      modifies `ready, `schedtsk
      ensures SchedOk() && Abs() == Rotate(c, old(Abs()), p)
    {
      hide Has, ByPri, Top, TopFrom, NoDup;
      var q := ready[p];
      if q != [] && q[1..] != [] {
        TopAfterRotate(ready, pri, p);
        ByPriRotate(ready, pri, p);
        ready := ready[p := q[1..] + [q[0]]];
        if dspflg {
          if schedtsk == Some(q[0]) {
            schedtsk := Some(ready[p][0]);
          }
        }
      } else if q != [] {
        assert q[1..] + [q[0]] == q;
        assert ready[p := q] == ready;
      }
    }

    // ----- Waiting: wait.h, wait.c -----

    /** wait_dequeue_wobj. */
    method WaitDequeueWobj(t: nat)
      requires Shaped(c, Abs()) && t < |tasks|
      modifies `wq
      ensures Abs() == DequeueWobj(c, old(Abs()), t)
    {
      if tasks[t].st.Waiting? && tasks[t].st.w.Obj? {
        wq := wq[tasks[t].st.w.o := Remove(wq[tasks[t].st.w.o], t)];
      }
    }

    /** tmevtb_enqueue, which must not be called for a block that is registered. */
    method TmevtbEnqueue(t: nat)
      requires t !in registered
      modifies `registered
      ensures registered == old(registered) + {t}
    {
      registered := registered + {t};
    }

    /** tmevtb_dequeue, which must be called for a registered block only. */
    method TmevtbDequeue(t: nat)
      requires t in registered
      modifies `registered
      ensures registered == old(registered) - {t}
    {
      registered := registered - {t};
    }

    /** wait_dequeue_tmevtb. */
    method WaitDequeueTmevtb(t: nat)
      requires t < |tasks| && (tasks[t].tmevtb ==> t in registered)
      modifies `registered
      ensures registered == if tasks[t].tmevtb then old(registered) - {t} else old(registered)
    {
      if tasks[t].tmevtb {
        TmevtbDequeue(t);
      }
    }

    /** make_non_wait. */
    method MakeNonWait(t: nat)
      requires Shaped(c, Abs()) && SchedOk() && t < |tasks| && tasks[t].st.Waiting? && t !in ready[pri[t]]
      modifies `tasks, `ready, `primap, `schedtsk
      ensures SchedOk() && Abs() == KernelState.MakeNonWait(c, old(Abs()), t)
    {
      hide Indexed, ByPri, Top;
      if !tasks[t].st.sus {
        tasks := tasks[t := tasks[t].(st := Runnable)];
        MakeRunnable(t);
      } else {
        tasks := tasks[t := tasks[t].(st := Suspended)];
      }
    }

    /** Removes the timeout, records the result and ends the wait; with E_OK this
      is wait_complete. */
    method WaitEnd(t: nat, er: Er)
      requires Shaped(c, Abs()) && SchedOk() && t < |tasks| && tasks[t].st.Waiting? && t !in ready[pri[t]]
      requires tasks[t].tmevtb ==> t in registered
      modifies `tasks, `ready, `primap, `schedtsk, `registered
      ensures SchedOk()
      ensures Abs() == KernelState.MakeNonWait(c,
        SetTask(c, DequeueTmevtb(c, old(Abs()), t), t, old(tasks)[t].(wercd := er)), t)
    {
      hide Indexed, ByPri, Top, KernelState.MakeNonWait;
      TmevtbEffect(c, Abs(), t);
      ghost var s1 := SetTask(c, DequeueTmevtb(c, Abs(), t), t, tasks[t].(wercd := er));
      hide DequeueTmevtb;
      WaitDequeueTmevtb(t);
      tasks := tasks[t := tasks[t].(wercd := er)];
      assert Abs() == s1;
      MakeNonWait(t);
    }

    /** The end of a wait that is in no object's queue: wait_complete with E_OK. */
    method WaitComplete(t: nat, er: Er)
      requires Shaped(c, Abs()) && SchedOk() && t < |tasks| && tasks[t].st.Waiting? && !tasks[t].st.w.Obj?
      requires t !in ready[pri[t]] && (tasks[t].tmevtb ==> t in registered)
      modifies `tasks, `ready, `primap, `schedtsk, `registered
      ensures SchedOk() && Shaped(c, Abs()) && Abs() == EndWait(c, old(Abs()), t, er)
    {
      assert Shaped(c, EndWait(c, Abs(), t, er));
      hide Indexed, ByPri, Top, KernelState.MakeNonWait;
      WaitEnd(t, er);
    }

    /** The end of any wait: wait_dequeue_wobj comes first. */
    method WaitRelease(t: nat, er: Er)
      requires Shaped(c, Abs()) && SchedOk() && t < |tasks| && tasks[t].st.Waiting? && t !in ready[pri[t]]
      requires tasks[t].tmevtb ==> t in registered
      modifies `tasks, `wq, `ready, `primap, `schedtsk, `registered
      ensures SchedOk() && Shaped(c, Abs()) && Abs() == EndWait(c, old(Abs()), t, er)
    {
      assert Shaped(c, EndWait(c, Abs(), t, er));
      hide Indexed, ByPri, Top, KernelState.MakeNonWait, DequeueWobj;
      DequeueEffect(c, Abs(), t);
      WaitDequeueWobj(t);
      WaitEnd(t, er);
    }

    /** queue_delete_next on the wait queue of object o and the end of that wait. */
    method HeadComplete(o: nat, er: Er)
      requires Core(c, Abs(), {}, {}, {}) && SchedOk() && o < |wq| && wq[o] != []
      modifies `tasks, `wq, `ready, `primap, `schedtsk, `registered
      ensures SchedOk() && Core(c, Abs(), {}, {}, {}) && wq == old(wq)[o := old(wq)[o][1..]]
      ensures old(wq)[o][0] < |old(tasks)| && Abs() == EndWait(c, old(Abs()), old(wq)[o][0], er)
    {
      hide Indexed, ByPri, Top, EndWait, Placed, TimersOk, TasksOk, MutexesOk, Within;
      hide KernelState.MakeNonWait, DequeueTmevtb;
      HeadEnds(c, Abs(), o, er);
      HeadForm(c, Abs(), o, er);
      var t := wq[o][0];
      ghost var s1 := SetWq(c, Abs(), o, wq[o][1..]);
      hide Shaped;
      wq := wq[o := wq[o][1..]];
      assert Abs() == s1;
      WaitEnd(t, er);
    }

    /** init_wait_queue. */
    method InitWaitQueue(o: nat)
      requires Core(c, Abs(), {}, {}, {}) && SchedOk() && o < |wq|
      modifies `tasks, `wq, `ready, `primap, `schedtsk, `registered
      ensures SchedOk() && Abs() == EndWaits(c, old(Abs()), old(wq)[o], E_DLT)
    {
      hide Indexed, ByPri, Top, EndWait, Placed, TasksOk, MutexesOk;
      while wq[o] != []
        invariant Core(c, Abs(), {}, {}, {}) && SchedOk() && |wq| == |old(wq)|
        invariant EndWaits(c, Abs(), wq[o], E_DLT) == EndWaits(c, old(Abs()), old(wq)[o], E_DLT)
        decreases |wq[o]|
      {
        HeadComplete(o, E_DLT);
      }
    }

    /** make_wait and, with a timeout, make_wait_tmout. */
    method MakeWait(t: nat, w: Wait, timed: bool)
      requires Shaped(c, Abs()) && SchedOk() && t < |tasks| && t in ready[pri[t]] && (w.Obj? ==> w.o < |c.objs|)
      requires (runtsk == Some(t) ==> dspflg) && (timed ==> t !in registered)
      modifies `tasks, `ready, `primap, `schedtsk, `registered
      ensures SchedOk() && Abs() == KernelState.MakeWait(c, old(Abs()), t, w, timed)
    {
      hide Indexed, ByPri, Top, Remove, KernelState.MakeWait, Shaped;
      MakeWaitForm(c, Abs(), t, w, timed);
      tasks := tasks[t := tasks[t].(st := Waiting(w, false))];
      MakeNonRunnable(t);
      tasks := tasks[t := tasks[t].(tmevtb := timed)];
      if timed {
        TmevtbEnqueue(t);
      }
      assert tasks == old(tasks)[t := old(tasks)[t].(st := Waiting(w, false), tmevtb := timed)];
    }

    /** wobj_queue_insert. */
    method WobjQueueInsert(o: nat, t: nat)
      requires Shaped(c, Abs()) && t < |tasks| && o < |wq|
      modifies `wq
      ensures Abs() == Enwait(c, old(Abs()), t, o)
    {
      hide InsertTpri;
      if InPriorityOrder(c, o) {
        QueueInsertTpri(o, t);
      } else {
        wq := wq[o := wq[o] + [t]];
      }
    }

    /** The running task starts to wait: wobj_make_wait and wobj_make_wait_tmout
      or, if it waits for no object, make_wait and make_wait_tmout. */
    method StartWait(t: nat, w: Wait, timed: bool)
      requires Shaped(c, Abs()) && SchedOk() && t < |tasks| && t in ready[pri[t]] && (w.Obj? ==> w.o < |wq|)
      requires (runtsk == Some(t) ==> dspflg) && (timed ==> t !in registered)
      modifies `tasks, `wq, `ready, `primap, `schedtsk, `registered
      ensures SchedOk() && Abs() == Block(c, old(Abs()), t, w, timed)
    {
      hide Indexed, ByPri, Top, Enwait, KernelState.MakeWait, Within;
      assert Shaped(c, KernelState.MakeWait(c, Abs(), t, w, timed));
      MakeWait(t, w, timed);
      if w.Obj? {
        WobjQueueInsert(w.o, t);
      }
    }

    // ----- Mutexes: mutex.c -----

    /** mutex_calc_priority. */
    method MutexCalcPriority(t: nat) returns (priority: nat)
      requires Shaped(c, Abs()) && t < |tasks| && |lastmtx| == |held| && Chained(prevmtx, lastmtx[t], held[t])
      ensures priority == ClosedPri(c, Abs(), t)
    {
      HeldMutexes(c, Abs(), t);
      ghost var ms, k := held[t], |held[t]|;
      priority := tasks[t].bpri;
      var mtx := lastmtx[t];
      assert ms[..k] == ms;
      hide Lower, NoDup;
      while mtx.Some?
        invariant 0 <= k <= |ms| && mtx == At(ms, k)
        invariant Boosted(c, ms[..k], priority) == ClosedPri(c, Abs(), t)
        decreases k
      {
        var m := mtx.value;
        assert IsMutex(c, ms[k - 1]) && Leads(prevmtx, ms, k - 1);
        BoostedDown(c, ms, k, priority);
        priority := Lowered(m, priority);
        mtx := prevmtx[m];
        k := k - 1;
      }
    }

    /** The comparison with a ceiling priority. */
    method Lowered(m: nat, p: nat) returns (r: nat)
      requires m < |c.objs|
      ensures r == Lower(c, m, p)
    {
      r := p;
      if c.objs[m].Ceiling? && c.objs[m].ceil < p {
        r := c.objs[m].ceil;
      }
    }

    /** mutex_check_ceilpri. */
    method MutexCheckCeilpri(t: nat, bpriority: nat) returns (ok: bool)
      requires Shaped(c, Abs()) && t < |tasks| && |lastmtx| == |held| && Chained(prevmtx, lastmtx[t], held[t])
      ensures ok == SuitsCeilings(c, Abs(), t, bpriority)
    {
      HeldMutexes(c, Abs(), t);
      ghost var ms, k := held[t], |held[t]|;
      var mtx := lastmtx[t];
      while mtx.Some?
        invariant 0 <= k <= |ms| && mtx == At(ms, k)
        invariant forall i :: k <= i < |ms| ==> !AboveCeiling(c, ms[i], bpriority)
        decreases k
      {
        var m := mtx.value;
        assert IsMutex(c, ms[k - 1]) && Leads(prevmtx, ms, k - 1);
        if c.objs[m].Ceiling? && bpriority < c.objs[m].ceil {
          return false;
        }
        mtx := prevmtx[m];
        k := k - 1;
      }
      if tasks[t].st.Waiting? && tasks[t].st.w.Obj? && IsMutex(c, tasks[t].st.w.o) {
        var m := tasks[t].st.w.o;
        if c.objs[m].Ceiling? && bpriority < c.objs[m].ceil {
          return false;
        }
      }
      return true;
    }

    /** mutex_scan_ceilmtx. */
    method MutexScanCeilmtx(t: nat) returns (found: bool)
      requires Shaped(c, Abs()) && t < |tasks| && |lastmtx| == |held| && Chained(prevmtx, lastmtx[t], held[t])
      ensures found == HoldsCeiling(c, Abs(), t)
    {
      HeldMutexes(c, Abs(), t);
      ghost var ms, k := held[t], |held[t]|;
      var mtx := lastmtx[t];
      while mtx.Some?
        invariant 0 <= k <= |ms| && mtx == At(ms, k)
        invariant forall i :: k <= i < |ms| ==> !c.objs[ms[i]].Ceiling?
        decreases k
      {
        var m := mtx.value;
        assert IsMutex(c, ms[k - 1]) && Leads(prevmtx, ms, k - 1);
        if c.objs[m].Ceiling? {
          return true;
        }
        mtx := prevmtx[m];
        k := k - 1;
      }
      return false;
    }

    /** mutex_drop_priority: task t no longer has mutex m, and its priority is
      what it was with m. */
    method MutexDropPriority(t: nat, m: nat)
      requires Shaped(c, Abs()) && SchedOk() && t < |tasks| && WellLinked(t)
      requires |lastmtx| == |held| && Chained(prevmtx, lastmtx[t], held[t])
      requires m < |c.objs| && pri[t] == Lower(c, m, ClosedPri(c, Abs(), t))
      modifies `pri, `wq, `ready, `primap, `schedtsk
      ensures SchedOk() && Abs() == Reprio(c, old(Abs()), t)
    {
      hide Indexed, ByPri, Top, KernelState.ChangePriority, Boosted;
      DropOnlyAtCeiling(c, m, pri[t], ClosedPri(c, Abs(), t));
      BoostedBound(c, held[t], tasks[t].bpri);
      if c.objs[m].Ceiling? && c.objs[m].ceil == pri[t] {
        var newpri := MutexCalcPriority(t);
        if newpri != pri[t] {
          ChangePriority(t, newpri, true);
        }
      }
    }

    /** Mutex m becomes the newest of task t: the part common to mutex_acquire
      and mutex_release. */
    method PushMutex(t: nat, m: nat, ghost freed: set<nat>)
      requires ChainsOk(freed) && t < |held| && m < |c.objs|
      requires forall u :: 0 <= u < |held| ==> m !in held[u]
      modifies `loctsk, `prevmtx, `lastmtx, `held
      ensures ChainsOk(freed - {m}) && held == old(held)[t := old(held)[t] + [m]]
    {
      hide NoDup, Within, Shaped, Indexed, ByPri;
      TakeLinks(t, m, freed);
      hide Owned, Chained;
      loctsk := loctsk[m := Some(t)];
      prevmtx := prevmtx[m := lastmtx[t]];
      lastmtx := lastmtx[t := Some(m)];
      held := held[t := held[t] + [m]];
    }

    /** mutex_acquire. */
    method MutexAcquire(t: nat, m: nat)
      requires Ok({}) && t < |tasks| && WellLinked(t)
      requires IsMutex(c, m) && loctsk[m].None? && pri[t] == ClosedPri(c, Abs(), t)
      modifies `loctsk, `prevmtx, `lastmtx, `held, `pri, `wq, `ready, `primap, `schedtsk
      ensures Ok({}) && Abs() == Reprio(c, SetHeld(c, old(Abs()), t, old(held)[t] + [m]), t)
    {
      hide Indexed, ByPri, Top, KernelState.ChangePriority, Boosted, Reprio, AllChained;
      AcquirePri(c, Abs(), t, m);
      assert forall u :: 0 <= u < |held| ==> m !in held[u];
      hide Owned;
      PushMutex(t, m, {});
      assert {} - {m} == {};
      assert Abs() == SetHeld(c, old(Abs()), t, old(held)[t] + [m]);
      if c.objs[m].Ceiling? && c.objs[m].ceil < pri[t] {
        ChangePriority(t, c.objs[m].ceil, true);
      }
    }

    /** Mutex m becomes the newest of task t. */
    lemma TakeLinks(t: nat, m: nat, freed: set<nat>)
      requires ChainsOk(freed) && t < |held| && m < |c.objs|
      requires forall u :: 0 <= u < |held| ==> m !in held[u]
      ensures AllChained(prevmtx[m := lastmtx[t]], lastmtx[t := Some(m)], held[t := held[t] + [m]])
      ensures Owned(loctsk[m := Some(t)], held[t := held[t] + [m]], freed - {m})
    {
      var held', prev' := held[t := held[t] + [m]], prevmtx[m := lastmtx[t]];
      forall u | 0 <= u < |held| ensures Chained(prev', lastmtx[t := Some(m)][u], held'[u]) {
        assert Chained(prevmtx, lastmtx[u], held[u]);
        if u == t {
          ChainPush(prevmtx, lastmtx[t], held[t], m);
        } else {
          ChainOther(prevmtx, lastmtx[u], held[u], m, lastmtx[t]);
        }
      }
    }

    /** The first waiter for mutex m leaves the queue, its wait being over. */
    method TakeHead(m: nat) returns (t: nat)
      requires m < |wq| && wq[m] != [] && wq[m][0] < |tasks|
      requires tasks[wq[m][0]].tmevtb ==> wq[m][0] in registered
      modifies `wq, `tasks, `registered
      ensures t == old(wq)[m][0] && wq == old(wq)[m := old(wq)[m][1..]]
      ensures tasks == old(tasks)[t := old(tasks)[t].(wercd := E_OK)]
      ensures registered == if old(tasks)[t].tmevtb then old(registered) - {t} else old(registered)
    {
      t := wq[m][0];
      wq := wq[m := wq[m][1..]];
      WaitDequeueTmevtb(t);
      tasks := tasks[t := tasks[t].(wercd := E_OK)];
    }

    /** A task that is in no ready queue is raised to the ceiling of mutex m. */
    method RaiseTo(t: nat, m: nat)
      requires SchedOk() && t < |pri| && m < |c.objs| && forall p :: 0 <= p < |ready| ==> t !in ready[p]
      modifies `pri
      ensures SchedOk() && pri == old(pri)[t := Lower(c, m, old(pri)[t])]
    {
      hide Indexed, Top, ByPri;
      ByPriOther(ready, pri, t, Lower(c, m, pri[t]));
      assert pri[t := pri[t]] == pri;
      if c.objs[m].Ceiling? {
        if c.objs[m].ceil < pri[t] {
          pri := pri[t := c.objs[m].ceil];
        }
      }
    }

    /** The first waiter for mutex m gets it, before the end of its wait. */
    method MutexTakeOver(m: nat)
      requires Ok({m}) && IsMutex(c, m) && m < |wq| && wq[m] != [] && HeadOk(c, Abs(), m)
      requires forall u :: 0 <= u < |held| ==> m !in held[u]
      modifies `loctsk, `prevmtx, `lastmtx, `held, `pri, `wq, `tasks, `registered
      ensures SchedOk() && ChainsOk({}) && Abs() == Handed(c, old(Abs()), m)
    {
      hide Boosted, NoDup, Within, Shaped, Lower, ClosedPri, SchedOk, ChainsOk;
      ChainMutexes(c, Abs(), wq[m][0]);
      var t := TakeHead(m);
      PushMutex(t, m, {m});
      assert {m} - {m} == {};
      RaiseTo(t, m);
    }

    /** mutex_release. */
    method MutexRelease(m: nat)
      requires Ok({m}) && IsMutex(c, m) && HeadOk(c, Abs(), m)
      requires forall u :: 0 <= u < |held| ==> m !in held[u]
      modifies `loctsk, `prevmtx, `lastmtx, `held, `pri, `wq, `tasks, `ready, `primap, `schedtsk, `registered
      ensures Ok({}) && Abs() == HandOver(c, old(Abs()), m)
    {
      hide Indexed, ByPri, Top, KernelState.MakeNonWait, Boosted, AllChained, NoDup, Within, Owned;
      if wq[m] == [] {
        OwnedByNone(loctsk, held, m);
        loctsk := loctsk[m := None];
      } else {
        HandOverParts(c, Abs(), m);
        hide HandOver;
        var t := wq[m][0];
        MutexTakeOver(m);
        MakeNonWait(t);
      }
    }

    /** The newest mutex on t's chain is taken off it. */
    method PopMutex(t: nat)
      requires ChainsOk({}) && t < |held| && held[t] != [] && NoDup(held[t])
      requires held[t][|held[t]| - 1] < |c.objs|
      modifies `lastmtx, `held
      ensures var n := |old(held)[t]| - 1; var m := old(held)[t][n];
        && ChainsOk({m}) && held == old(held)[t := old(held)[t][..n]]
        && forall u :: 0 <= u < |held| ==> m !in held[u]
    {
      ghost var n := |held[t]| - 1;
      ghost var m := held[t][n];
      LastOff(held[t]);
      ChainPop(prevmtx, lastmtx[t], held[t]);
      forall u | 0 <= u < |held| && u != t ensures m !in held[u] {
        assert m in held[t] && loctsk[m] == Some(t);
      }
      hide NoDup, Chained;
      lastmtx := lastmtx[t := prevmtx[lastmtx[t].value]];
      held := held[t := held[t][..n]];
    }

    /** mutex_release_all.  It ends although every mutex handed over changes the
      chains. */
    method MutexReleaseAll(t: nat)
      requires Ok({}) && t < |tasks| && Releasing(c, Abs(), t)
      modifies `loctsk, `prevmtx, `lastmtx, `held, `pri, `wq, `tasks, `ready, `primap, `schedtsk, `registered
      ensures Ok({}) && (forall m :: m in old(held)[t] ==> IsMutex(c, m))
      ensures Abs() == HandOverAll(c, Bare(c, old(Abs()), t), old(held)[t])
    {
      hide Indexed, ByPri, Top, HandOver, Core, LooseWaits, NoDup, Owned, HeadOk, Shaped;
      ChainMutexes(c, Abs(), t);
      while lastmtx[t].Some?
        invariant t < |tasks| == |held| == |lastmtx| && Ok({}) && Releasing(c, Abs(), t)
        invariant forall m :: m in held[t] ==> IsMutex(c, m)
        invariant HandOverAll(c, Bare(c, Abs(), t), held[t]) == HandOverAll(c, Bare(c, old(Abs()), t), old(held)[t])
        decreases |held[t]|
      {
        assert Chained(prevmtx, lastmtx[t], held[t]);
        ReleaseRound(c, Abs(), t);
        var m := lastmtx[t].value;
        ghost var s := Abs();
        PopMutex(t);
        assert Abs() == SetHeld(c, s, t, s.held[t][..|s.held[t]| - 1]);
        MutexRelease(m);
        ChainMutexes(c, Abs(), t);
      }
      assert Chained(prevmtx, lastmtx[t], held[t]);
      assert Bare(c, Abs(), t) == Abs();
    }

    // ----- Ending a task: task.c -----

    lemma NothingHeld(t: nat)
      requires Ok({}) && t < |tasks|
      ensures t < |lastmtx| && t < |held|
      ensures lastmtx[t].None? ==> forall m :: m in held[t] ==> IsMutex(c, m)
      ensures lastmtx[t].None? ==> HandOverAll(c, Bare(c, Abs(), t), held[t]) == Abs()
    {
      assert Chained(prevmtx, lastmtx[t], held[t]);
    }

    /** The first part of task_terminate: out of the queue it is in. */
    method TaskUnlink(t: nat)
      requires Ok({}) && Core(c, Abs(), {}, {}, {}) && t < |tasks| && (runtsk == Some(t) ==> dspflg)
      modifies `tasks, `wq, `ready, `primap, `schedtsk, `registered
      ensures Ok({}) && Abs() == Unlink(c, old(Abs()), t)
    {
      hide Indexed, ByPri, Top, Core, Remove, ChainsOk, Shaped;
      UnlinkForm(c, Abs(), t);
      assert Shaped(c, Unlink(c, Abs(), t));
      if tasks[t].st == Runnable {
        MakeNonRunnable(t);
      } else if tasks[t].st.Waiting? {
        WaitDequeueWobj(t);
        WaitDequeueTmevtb(t);
      }
      assert Abs() == Unlink(c, old(Abs()), t);
    }

    /** make_dormant. */
    method TaskMakeDormant(t: nat)
      requires Ok({}) && t < |tasks| && forall p :: 0 <= p < |ready| ==> t !in ready[p]
      modifies `tasks, `pri
      ensures Ok({}) && Abs() == MakeDormant(c, old(Abs()), t) && t < |tasks|
    {
      assert Shaped(c, MakeDormant(c, Abs(), t));
      ByPriOther(ready, pri, t, c.ipri[t]);
      hide Indexed, ByPri, Top, Core, Remove, Shaped, ChainsOk;
      tasks := tasks[t := tasks[t].(st := Dormant, bpri := c.ipri[t], wupque := false, raster := false,
        enater := true)];
      pri := pri[t := c.ipri[t]];
    }

    /** The end of task_terminate: an activation that was queued takes effect. */
    method TaskRestart(t: nat)
      requires Ok({}) && t < |tasks| && forall p :: 0 <= p < |ready| ==> t !in ready[p]
      modifies `tasks, `ready, `primap, `schedtsk
      ensures Ok({}) && Abs() == Restart(c, old(Abs()), t)
    {
      assert Shaped(c, Restart(c, Abs(), t));
      hide Indexed, ByPri, Top, ChainsOk, Within;
      if tasks[t].actque {
        tasks := tasks[t := tasks[t].(actque := false)];
        MakeActive(t);
        assert tasks ==
          old(tasks)[t := old(tasks)[t].(actque := false)][t := old(tasks)[t].(actque := false, st := Runnable)];
      }
    }

    /** make_active; the same two steps resume a suspended task. */
    method MakeActive(t: nat)
      requires t < |pri| == |tasks| && pri[t] < TNUM_TPRI && SchedOk() && t !in ready[pri[t]]
      modifies `tasks, `ready, `primap, `schedtsk
      ensures SchedOk() && tasks == old(tasks)[t := old(tasks)[t].(st := Runnable)]
      ensures ready == old(ready)[pri[t] := old(ready)[pri[t]] + [t]]
    {
      hide Indexed, ByPri, Top;
      tasks := tasks[t := tasks[t].(st := Runnable)];
      MakeRunnable(t);
    }

    /** task_terminate. */
    method TaskTerminate(t: nat)
      requires Ok({}) && Core(c, Abs(), {}, {}, {}) && t < |tasks| && (runtsk == Some(t) ==> dspflg)
      modifies `loctsk, `prevmtx, `lastmtx, `held, `pri, `wq, `tasks, `ready, `primap, `schedtsk, `registered
      ensures Ok({}) && Abs() == Terminate(c, old(Abs()), t)
    {
      hide Indexed, ByPri, Top, Core, Unlink, MakeDormant, ChainsOk, LooseWaits, HandOverAll, Shaped;
      ghost var s := Abs();
      ReadyToRelease(c, s, t);
      TaskUnlink(t);
      NothingHeld(t);
      if lastmtx[t].Some? {
        MutexReleaseAll(t);
      }
      assert Abs() == Release(c, s, t);
      Released(c, s, t);
      TaskMakeDormant(t);
      TaskRestart(t);
    }

    // ----- Service calls of tasks and interrupt handlers -----

    /** The end of a service call: dispatch(), or in interrupt context
      request_dispatch(), which leaves the dispatch to the interrupt's end. */
    method Dispatch()
      requires Ok({})
      modifies `runtsk
      ensures Ok({}) && Abs() == SettleShaped(c, old(Abs()))
    {
      assert Shaped(c, SettleShaped(c, Abs()));
      hide Indexed, ByPri, Top, ChainsOk, Shaped;
      if runtsk != schedtsk {
        if !sensectx {
          runtsk := schedtsk;
        }
      }
      assert Abs() == SettleShaped(c, old(Abs()));
    }

    /** act_tsk. */
    method ActTsk(t: nat) returns (out: Outcome)
      requires Ok({}) && Inv(c, Abs())
      modifies `tasks, `ready, `primap, `schedtsk, `runtsk
      ensures Ok({}) && (Abs(), out) == SharedStep(c, old(Abs()), SharedCall.ActTsk(t))
    {
      hide Indexed, ByPri, Top, ChainsOk, Core, Settle, Shaped;
      if t >= |tasks| {
        return Done(E_ID);
      }
      TaskFacts(c, Abs(), t);
      assert Shaped(c, SharedStep(c, Abs(), SharedCall.ActTsk(t)).0) &&
        Shaped(c, KernelState.MakeRunnable(c, Abs(), t));
      if tasks[t].st == Dormant {
        MakeActive(t);
        assert Abs() == KernelState.MakeRunnable(c, old(Abs()), t);
        Dispatch();
        return Done(E_OK);
      } else if c.noactque[t] || tasks[t].actque {
        return Done(E_QOVR);
      } else {
        tasks := tasks[t := tasks[t].(actque := true)];
        return Done(E_OK);
      }
    }

    /** wup_tsk. */
    method WupTsk(t: nat) returns (out: Outcome)
      requires Ok({}) && Inv(c, Abs())
      modifies `tasks, `ready, `primap, `schedtsk, `runtsk, `registered
      ensures Ok({}) && (Abs(), out) == SharedStep(c, old(Abs()), SharedCall.WupTsk(t))
    {
      hide Indexed, ByPri, Top, ChainsOk, Core, Settle, EndWait, Shaped;
      if t >= |tasks| {
        return Done(E_ID);
      }
      TaskFacts(c, Abs(), t);
      assert Shaped(c, SharedStep(c, Abs(), SharedCall.WupTsk(t)).0);
      if tasks[t].st == Dormant {
        return Done(E_OBJ);
      } else if tasks[t].st.Waiting? && tasks[t].st.w == Slp {
        WaitComplete(t, E_OK);
        Dispatch();
        return Done(E_OK);
      } else if !tasks[t].wupque {
        tasks := tasks[t := tasks[t].(wupque := true)];
        return Done(E_OK);
      } else {
        return Done(E_QOVR);
      }
    }

    /** rel_wai. */
    method RelWai(t: nat) returns (out: Outcome)
      requires Ok({}) && Inv(c, Abs())
      modifies `tasks, `wq, `ready, `primap, `schedtsk, `runtsk, `registered
      ensures Ok({}) && (Abs(), out) == SharedStep(c, old(Abs()), SharedCall.RelWai(t))
    {
      hide Indexed, ByPri, Top, ChainsOk, Core, Settle, EndWait, Shaped;
      if t >= |tasks| {
        return Done(E_ID);
      }
      TaskFacts(c, Abs(), t);
      if !tasks[t].st.Waiting? {
        return Done(E_OBJ);
      } else {
        WaitRelease(t, E_RLWAI);
        Dispatch();
        return Done(E_OK);
      }
    }

    /** rot_rdq. */
    method RotRdq(tskpri: Option<nat>) returns (out: Outcome)
      requires Ok({}) && Inv(c, Abs())
      modifies `ready, `schedtsk, `runtsk
      ensures Ok({}) && (Abs(), out) == SharedStep(c, old(Abs()), SharedCall.RotRdq(tskpri))
    {
      hide Indexed, ByPri, Top, ChainsOk, Inv, Settle, Rotate, Shaped, Boosted;
      InvShaped(c, Abs());
      var p;
      if tskpri.None? && !sensectx && runtsk.Some? {
        TaskFacts(c, Abs(), runtsk.value);
        p := tasks[runtsk.value].bpri;
      } else {
        if tskpri.None? || tskpri.value >= TNUM_TPRI {
          return Done(E_PAR);
        }
        p := tskpri.value;
      }
      RotateReadyQueue(p);
      Dispatch();
      return Done(E_OK);
    }

    /** The branch of sig_sem, snd_dtq, rcv_dtq, rel_mpf and set_flg that ends the
      wait of the first task in an object's queue. */
    method WakeObj(o: nat) returns (out: Outcome)
      requires Ok({}) && Inv(c, Abs())
      modifies `tasks, `wq, `ready, `primap, `schedtsk, `runtsk, `registered
      ensures Ok({}) && (Abs(), out) == SharedStep(c, old(Abs()), SharedCall.WakeObj(o))
    {
      hide Indexed, ByPri, Top, ChainsOk, Core, TerminationKept, RunningOk, Settle, EndWait, Shaped;
      InvShaped(c, Abs());
      if o >= |c.objs| || IsMutex(c, o) {
        return Done(E_ID);
      }
      if wq[o] == [] {
        return Done(E_OK);
      }
      HeadComplete(o, E_OK);
      Dispatch();
      return Done(E_OK);
    }

    // ----- Calls in which the running task may wait -----

    /** The running task t starts to wait unless it only polls. */
    method WaitFor(t: nat, w: Wait, tmo: Tmo) returns (out: Outcome)
      requires Ok({}) && Inv(c, Abs()) && t < |tasks| && (w.Obj? ==> w.o < |wq|)
      requires MayWait(Abs()) && runtsk == Some(t)
      modifies `tasks, `wq, `ready, `primap, `schedtsk, `runtsk, `registered
      ensures Ok({}) && (Abs(), out) == BlockRun(c, old(Abs()), t, w, tmo)
    {
      hide Indexed, ByPri, Top, ChainsOk, Inv, Settle, Block, Shaped, Boosted;
      if tmo == Poll {
        return Done(E_TMOUT);
      }
      TaskFacts(c, Abs(), t);
      StartWait(t, w, tmo == Limited);
      Dispatch();
      return Waits;
    }

    /** slp_tsk and tslp_tsk. */
    method SlpTsk(tmo: Tmo) returns (out: Outcome)
      requires Ok({}) && Inv(c, Abs()) && MayWait(Abs())
      modifies `tasks, `wq, `ready, `primap, `schedtsk, `runtsk, `registered
      ensures Ok({}) && (Abs(), out) == WaitingStep(c, old(Abs()), WaitingCall.SlpTsk(tmo), old(runtsk).value)
    {
      var t := runtsk.value;
      TaskFacts(c, Abs(), t);
      assert Shaped(c, SetTask(c, Abs(), t, tasks[t].(wupque := false)));
      hide Indexed, ByPri, Top, ChainsOk, Core, Settle, Block, BlockRun, Shaped;
      if tasks[t].raster {
        return Done(E_RASTER);
      } else if tasks[t].wupque {
        tasks := tasks[t := tasks[t].(wupque := false)];
        return Done(E_OK);
      } else {
        out := WaitFor(t, Slp, tmo);
      }
    }

    /** dly_tsk. */
    method DlyTsk() returns (out: Outcome)
      requires Ok({}) && Inv(c, Abs()) && MayWait(Abs())
      modifies `tasks, `wq, `ready, `primap, `schedtsk, `runtsk, `registered
      ensures Ok({}) && (Abs(), out) == WaitingStep(c, old(Abs()), WaitingCall.DlyTsk, old(runtsk).value)
    {
      hide Indexed, ByPri, Top, ChainsOk, Core, Settle, Block, BlockRun;
      var t := runtsk.value;
      if tasks[t].raster {
        return Done(E_RASTER);
      } else {
        out := WaitFor(t, Dly, Limited);
      }
    }

    /** The waiting branch of wai_sem, wai_flg, snd_dtq, rcv_dtq, get_mpf and their
      variants with a timeout. */
    method WaitObj(o: nat, tmo: Tmo) returns (out: Outcome)
      requires Ok({}) && Inv(c, Abs()) && MayWait(Abs())
      modifies `tasks, `wq, `ready, `primap, `schedtsk, `runtsk, `registered
      ensures Ok({}) && (Abs(), out) == WaitingStep(c, old(Abs()), WaitingCall.WaitObj(o, tmo), old(runtsk).value)
    {
      hide Indexed, ByPri, Top, ChainsOk, Core, Settle, Block, BlockRun;
      var t := runtsk.value;
      if o >= |c.objs| || IsMutex(c, o) {
        return Done(E_ID);
      } else if tasks[t].raster {
        return Done(E_RASTER);
      } else {
        out := WaitFor(t, Obj(o), tmo);
      }
    }

    /** p_loctsk names the task that has locked the mutex. */
    lemma LoctskIsOwner(m: nat)
      requires ChainsOk({}) && m < |loctsk|
      ensures loctsk[m] == Owner(Abs(), m)
    {
      var owner := Owner(Abs(), m);
      if loctsk[m].Some? {
        assert m in held[loctsk[m].value];
      }
    }

    /** The part common to loc_mtx, tloc_mtx and ploc_mtx, with the assertion made
      there that locking a mutex calls for no dispatch. */
    method Lock(t: nat, m: nat, tmo: Tmo) returns (out: Outcome)
      requires Ok({}) && Inv(c, Abs()) && TaskCtx(Abs()) && runtsk == Some(t) && t < |tasks| && IsMutex(c, m)
      requires tmo == Poll || MayWait(Abs())
      modifies `loctsk, `prevmtx, `lastmtx, `held, `pri, `tasks, `wq, `ready, `primap, `schedtsk, `runtsk, `registered
      ensures Ok({}) && (Abs(), out) == KernelCalls.Lock(c, old(Abs()), t, m, tmo)
    {
      TaskFacts(c, Abs(), t);
      LoctskIsOwner(m);
      AcquireKeepsRunning(c, Abs(), t, m);
      hide Indexed, ByPri, Top, Owned, AllChained, Core, Settle, Block, Reprio, Boosted, Shaped;
      if c.objs[m].Ceiling? && tasks[t].bpri < c.objs[m].ceil {
        return Done(E_ILUSE);
      } else if loctsk[m].None? {
        MutexAcquire(t, m);
        assert runtsk == schedtsk;
        return Done(E_OK);
      } else if loctsk[m] == Some(t) {
        return Done(E_OBJ);
      } else if tmo == Poll {
        return Done(E_TMOUT);
      } else {
        out := WaitFor(t, Obj(m), tmo);
      }
    }

    /** loc_mtx and tloc_mtx. */
    method LocMtx(m: nat, tmo: Tmo) returns (out: Outcome)
      requires Ok({}) && Inv(c, Abs()) && MayWait(Abs())
      modifies `loctsk, `prevmtx, `lastmtx, `held, `pri, `tasks, `wq, `ready, `primap, `schedtsk, `runtsk, `registered
      ensures Ok({}) && (Abs(), out) == WaitingStep(c, old(Abs()), WaitingCall.LocMtx(m, tmo), old(runtsk).value)
    {
      hide Indexed, ByPri, Top, ChainsOk, Core, Settle, KernelCalls.Lock;
      var t := runtsk.value;
      if !IsMutex(c, m) {
        return Done(E_ID);
      } else if tasks[t].raster {
        return Done(E_RASTER);
      } else {
        out := Lock(t, m, tmo);
      }
    }

    // ----- Other calls of the running task -----

    /** ploc_mtx. */
    method PlocMtx(m: nat) returns (out: Outcome)
      requires Ok({}) && Inv(c, Abs()) && TaskCtx(Abs())
      modifies `loctsk, `prevmtx, `lastmtx, `held, `pri, `tasks, `wq, `ready, `primap, `schedtsk, `runtsk, `registered
      ensures Ok({}) && (Abs(), out) == TaskStep(c, old(Abs()), TaskCall.PlocMtx(m), old(runtsk).value)
    {
      hide Indexed, ByPri, Top, ChainsOk, Core, Settle, KernelCalls.Lock;
      if !IsMutex(c, m) {
        return Done(E_ID);
      } else {
        out := Lock(runtsk.value, m, Poll);
      }
    }

    /** chg_pri once the checks of its arguments have passed. */
    method ChangeBase(t: nat, newbpri: nat)
      requires Ok({}) && Inv(c, Abs()) && t < |tasks| && newbpri < TNUM_TPRI
      modifies `pri, `tasks, `wq, `ready, `primap, `schedtsk, `runtsk
      ensures Ok({}) && Abs() == KernelCalls.ChangeBase(c, old(Abs()), t, newbpri)
    {
      hide Indexed, ByPri, Top, Core, Owned, AllChained, Settle, HoldsCeiling, KernelState.ChangePriority, Shaped,
        Boosted;
      TaskFacts(c, Abs(), t);
      ghost var s1 := SetTask(c, Abs(), t, tasks[t].(bpri := newbpri));
      ChainOf(t);
      tasks := tasks[t := tasks[t].(bpri := newbpri)];
      assert Abs() == s1;
      NoMutexes(c, s1, t, newbpri);
      LastLink(prevmtx, lastmtx[t], held[t]);
      var ceiling := false;
      if lastmtx[t].Some? {
        ceiling := MutexScanCeilmtx(t);
      }
      if !ceiling {
        ChangePriority(t, newbpri, false);
        Dispatch();
      }
    }

    /** chg_pri. */
    method ChgPri(t: nat, tskpri: Option<nat>) returns (out: Outcome)
      requires Ok({}) && Inv(c, Abs()) && TaskCtx(Abs())
      modifies `pri, `tasks, `wq, `ready, `primap, `schedtsk, `runtsk
      ensures Ok({}) && (Abs(), out) == TaskStep(c, old(Abs()), TaskCall.ChgPri(t, tskpri), old(runtsk).value)
    {
      if t >= |tasks| {
        return Done(E_ID);
      }
      TaskFacts(c, Abs(), t);
      if tskpri.Some? && tskpri.value >= TNUM_TPRI {
        return Done(E_PAR);
      }
      var newbpri := if tskpri.Some? then tskpri.value else c.ipri[t];
      assert newbpri < TNUM_TPRI;
      hide Indexed, ByPri, Top, Core, Owned, Chained, Settle, SuitsCeilings, KernelCalls.ChangeBase, Shaped;
      if tasks[t].st == Dormant {
        return Done(E_OBJ);
      }
      assert Chained(prevmtx, lastmtx[t], held[t]);
      NoMutexes(c, Abs(), t, newbpri);
      LastLink(prevmtx, lastmtx[t], held[t]);
      if lastmtx[t].Some? || (tasks[t].st.Waiting? && tasks[t].st.w.Obj? && IsMutex(c, tasks[t].st.w.o)) {
        var suits := MutexCheckCeilpri(t, newbpri);
        if !suits {
          return Done(E_ILUSE);
        }
      }
      ChangeBase(t, newbpri);
      return Done(E_OK);
    }

    /** ter_tsk. */
    method TerTsk(t: nat) returns (out: Outcome)
      requires Ok({}) && Inv(c, Abs()) && TaskCtx(Abs())
      modifies `loctsk, `prevmtx, `lastmtx, `held, `pri, `tasks, `wq, `ready, `primap, `schedtsk, `runtsk, `registered
      ensures Ok({}) && (Abs(), out) == TaskStep(c, old(Abs()), TaskCall.TerTsk(t), old(runtsk).value)
    {
      hide Indexed, ByPri, Top, ChainsOk, Placed, TasksOk, MutexesOk, Settle, Terminate;
      if t >= |tasks| {
        return Done(E_ID);
      } else if runtsk == Some(t) {
        return Done(E_ILUSE);
      } else if tasks[t].st == Dormant {
        return Done(E_OBJ);
      } else {
        TaskTerminate(t);
        Dispatch();
        return Done(E_OK);
      }
    }

    /** ras_ter. */
    method RasTer(t: nat) returns (out: Outcome)
      requires Ok({}) && Inv(c, Abs()) && TaskCtx(Abs())
      modifies `loctsk, `prevmtx, `lastmtx, `held, `pri, `tasks, `wq, `ready, `primap, `schedtsk, `runtsk, `registered
      ensures Ok({}) && (Abs(), out) == TaskStep(c, old(Abs()), TaskCall.RasTer(t), old(runtsk).value)
    {
      if t >= |tasks| {
        return Done(E_ID);
      }
      TaskFacts(c, Abs(), t);
      assert Shaped(c, SetTask(c, Abs(), t, tasks[t].(raster := true)));
      hide Indexed, ByPri, Top, ChainsOk, Placed, TasksOk, MutexesOk, Settle, Terminate, Interrupted,
        KernelState.MakeRunnable;
      hide Shaped;
      if runtsk == Some(t) {
        return Done(E_ILUSE);
      } else if tasks[t].st == Dormant {
        return Done(E_OBJ);
      } else if tasks[t].enater {
        TaskTerminate(t);
        Dispatch();
        return Done(E_OK);
      } else if tasks[t].st == Runnable {
        tasks := tasks[t := tasks[t].(raster := true)];
        return Done(E_OK);
      } else {
        InterruptWait(t);
        Dispatch();
        return Done(E_OK);
      }
    }

    /** The part of ras_ter for a task that is not runnable. */
    method InterruptWait(t: nat)
      requires Ok({}) && t < |tasks| && (tasks[t].st.Waiting? && tasks[t].tmevtb ==> t in registered)
      requires tasks[t].st != Runnable && forall p :: 0 <= p < |ready| ==> t !in ready[p]
      modifies `tasks, `wq, `ready, `primap, `schedtsk, `registered
      ensures Ok({}) && Abs() == KernelState.MakeRunnable(c, Interrupted(c, old(Abs()), t), t)
    {
      hide Indexed, ByPri, Top, ChainsOk, Interrupted, Shaped;
      CutShort(t);
      assert Shaped(c, KernelState.MakeRunnable(c, Abs(), t));
      MakeActive(t);
    }

    method CutShort(t: nat)
      requires Shaped(c, Abs()) && t < |tasks| && (tasks[t].st.Waiting? && tasks[t].tmevtb ==> t in registered)
      modifies `tasks, `wq, `registered
      ensures Shaped(c, Abs()) && Abs() == Interrupted(c, old(Abs()), t) && |tasks| == |old(tasks)|
      ensures pri[t] < TNUM_TPRI && |pri| == |tasks|
    {
      hide DequeueWobj, Shaped, Within, Interrupted;
      ghost var s := Abs();
      InterruptedForm(c, s, t);
      tasks := tasks[t := tasks[t].(raster := true)];
      assert Abs() == SetTask(c, s, t, s.tasks[t].(raster := true));
      if tasks[t].st.Waiting? {
        WaitDequeueWobj(t);
        WaitDequeueTmevtb(t);
        tasks := tasks[t := tasks[t].(wercd := E_RASTER)];
      }
    }

    /** A runnable task is suspended. */
    method Suspend(t: nat)
      requires Ok({}) && t < |tasks| && t in ready[pri[t]] && (runtsk == Some(t) ==> dspflg)
      modifies `tasks, `ready, `primap, `schedtsk
      ensures Ok({}) && Abs() == Unready(c, SetSt(c, old(Abs()), t, Suspended), t)
    {
      SuspendShaped(c, Abs(), t);
      hide Indexed, ByPri, Top, ChainsOk, Remove, Shaped;
      tasks := tasks[t := tasks[t].(st := Suspended)];
      MakeNonRunnable(t);
      assert Abs() == Unready(c, SetSt(c, old(Abs()), t, Suspended), t);
    }

    /** A task that is in no ready queue becomes runnable. */
    method Resume(t: nat)
      requires Ok({}) && t < |tasks| && t !in ready[pri[t]]
      modifies `tasks, `ready, `primap, `schedtsk
      ensures Ok({}) && Abs() == KernelState.MakeRunnable(c, old(Abs()), t)
    {
      SuspendShaped(c, Abs(), t);
      hide Indexed, ByPri, Top, ChainsOk, Remove, Shaped;
      MakeActive(t);
      assert Abs() == KernelState.MakeRunnable(c, old(Abs()), t);
    }

    /** The suspension of a waiting task is set or cleared. */
    method SetSuspension(t: nat, sus: bool)
      requires Ok({}) && t < |tasks| && tasks[t].st.Waiting?
      modifies `tasks
      ensures Ok({}) && Abs() == SetSt(c, old(Abs()), t, old(tasks)[t].st.(sus := sus))
    {
      SuspendShaped(c, Abs(), t);
      hide Indexed, ByPri, Top, ChainsOk, Shaped;
      tasks := tasks[t := tasks[t].(st := tasks[t].st.(sus := sus))];
    }

    /** sus_tsk. */
    method SusTsk(t: nat) returns (out: Outcome)
      requires Ok({}) && Inv(c, Abs()) && TaskCtx(Abs())
      modifies `tasks, `ready, `primap, `schedtsk, `runtsk
      ensures Ok({}) && (Abs(), out) == TaskStep(c, old(Abs()), TaskCall.SusTsk(t), old(runtsk).value)
    {
      hide Indexed, ByPri, Top, ChainsOk, Inv, Settle, Remove, Shaped, Unready, SetSt, KernelState.MakeRunnable,
        Boosted;
      if t >= |tasks| {
        return Done(E_ID);
      }
      TaskFacts(c, Abs(), t);
      if runtsk == Some(t) && !dspflg {
        return Done(E_CTX);
      } else if tasks[t].st == Dormant {
        return Done(E_OBJ);
      } else if tasks[t].raster {
        return Done(E_RASTER);
      } else if tasks[t].st == Runnable {
        Suspend(t);
        Dispatch();
        return Done(E_OK);
      } else if Suspension(tasks[t].st) {
        return Done(E_QOVR);
      } else {
        SetSuspension(t, true);
        return Done(E_OK);
      }
    }

    /** rsm_tsk. */
    method RsmTsk(t: nat) returns (out: Outcome)
      requires Ok({}) && Inv(c, Abs()) && TaskCtx(Abs())
      modifies `tasks, `ready, `primap, `schedtsk, `runtsk
      ensures Ok({}) && (Abs(), out) == TaskStep(c, old(Abs()), TaskCall.RsmTsk(t), old(runtsk).value)
    {
      hide Indexed, ByPri, Top, ChainsOk, Inv, Settle, Remove, Shaped, Unready, SetSt, KernelState.MakeRunnable,
        Boosted;
      if t >= |tasks| {
        return Done(E_ID);
      }
      TaskFacts(c, Abs(), t);
      if !Suspension(tasks[t].st) {
        return Done(E_OBJ);
      } else if tasks[t].st == Suspended {
        Resume(t);
        Dispatch();
        return Done(E_OK);
      } else {
        SetSuspension(t, false);
        return Done(E_OK);
      }
    }

    /** The effect of unl_mtx: task t gives up its newest mutex. */
    method Unlock(t: nat)
      requires Ok({}) && Inv(c, Abs()) && t < |tasks| && t < |held| && held[t] != []
      modifies `loctsk, `prevmtx, `lastmtx, `held, `pri, `tasks, `wq, `ready, `primap, `schedtsk, `registered
      ensures Ok({}) && IsMutex(c, old(held)[t][|old(held)[t]| - 1])
      ensures (forall x :: x in old(held)[t][..|old(held)[t]| - 1] ==> IsMutex(c, x)) &&
        Abs() == HandOver(c, Reprio(c, SetHeld(c, old(Abs()), t, old(held)[t][..|old(held)[t]| - 1]), t),
          old(held)[t][|old(held)[t]| - 1])
    {
      hide Indexed, ByPri, Top, Owned, Chained, Core, HandOver, Reprio, NoDup, HeadOk, Shaped, Boosted, Lower;
      ghost var s := Abs();
      TaskFacts(c, s, t);
      UnlockFacts(c, s, t);
      assert Chained(prevmtx, lastmtx[t], held[t]);
      LastLink(prevmtx, lastmtx[t], held[t]);
      var m := lastmtx[t].value;
      PopMutex(t);
      assert Abs() == SetHeld(c, s, t, s.held[t][..|s.held[t]| - 1]);
      assert Chained(prevmtx, lastmtx[t], held[t]);
      MutexDropPriority(t, m);
      MutexRelease(m);
    }

    /** unl_mtx. */
    method UnlMtx(m: nat) returns (out: Outcome)
      requires Ok({}) && Inv(c, Abs()) && TaskCtx(Abs())
      modifies `loctsk, `prevmtx, `lastmtx, `held, `pri, `tasks, `wq, `ready, `primap, `schedtsk, `runtsk, `registered
      ensures Ok({}) && (Abs(), out) == TaskStep(c, old(Abs()), TaskCall.UnlMtx(m), old(runtsk).value)
    {
      var t := runtsk.value;
      assert Chained(prevmtx, lastmtx[t], held[t]);
      hide Indexed, ByPri, Top, AllChained, Owned, Chained, Placed, TasksOk, MutexesOk, Settle, HandOver, Reprio;
      if !IsMutex(c, m) {
        return Done(E_ID);
      } else if lastmtx[t] != Some(m) {
        return Done(E_OBJ);
      } else {
        Unlock(t);
        Dispatch();
        return Done(E_OK);
      }
    }

    /** What is stored at a place of the chain of task u. */
    function LinkAt(u: nat, pp: Place): Option<nat>
      requires u < |lastmtx| && (pp.InMutex? ==> pp.m < |prevmtx|)
      reads `lastmtx, `prevmtx
    {
      if pp.InTask? then lastmtx[u] else prevmtx[pp.m]
    }

    /** The search for the place of the link to mutex m on the chain of task u, and
      its redirection past m: the loop of ini_mtx and del_mtx. */
    method CutMutex(u: nat, m: nat)
      requires |prevmtx| == |c.objs| && AllChained(prevmtx, lastmtx, held)
      requires u < |held| && m in held[u] && NoDup(held[u]) && Apart(held, u)
      requires forall x :: x in held[u] ==> x < |c.objs|
      modifies `prevmtx, `lastmtx, `held
      ensures |prevmtx| == |old(prevmtx)| && AllChained(prevmtx, lastmtx, held)
      ensures held == old(held)[u := Remove(old(held)[u], m)]
    {
      hide NoDup, Apart, Chained, AllChained, Remove;
      ghost var ms, k := held[u], |held[u]|;
      var pp := InTask;
      Walk(u, ms, k);
      while LinkAt(u, pp).Some?
        invariant 0 <= k <= |ms| && pp == PlaceOf(ms, k) && m in ms[..k]
        invariant u < |lastmtx| && (pp.InMutex? ==> pp.m < |prevmtx|) && LinkAt(u, pp) == At(ms, k)
        invariant held == old(held) && prevmtx == old(prevmtx) && lastmtx == old(lastmtx)
        decreases k
      {
        var x := LinkAt(u, pp).value;
        assert ms[..k] == ms[..k - 1] + [ms[k - 1]];
        if x == m {
          CutLinks(u, k - 1);
          if pp.InTask? {
            lastmtx := lastmtx[u := prevmtx[m]];
          } else {
            prevmtx := prevmtx[pp.m := prevmtx[m]];
          }
          held := held[u := Remove(held[u], m)];
          return;
        }
        k := k - 1;
        Walk(u, ms, k);
        pp := InMutex(x);
      }
    }

    lemma Walk(u: nat, ms: seq<nat>, k: nat)
      requires |prevmtx| == |c.objs| && AllChained(prevmtx, lastmtx, held)
      requires u < |held| && ms == held[u] && k <= |ms| && forall x :: x in ms ==> x < |c.objs|
      ensures u < |lastmtx| && (k < |ms| ==> ms[k] < |prevmtx|) && LinkAt(u, PlaceOf(ms, k)) == At(ms, k)
    {
      assert Chained(prevmtx, lastmtx[u], held[u]);
      if k < |ms| {
        assert Leads(prevmtx, ms, k);
      }
    }

    /** The k-th oldest mutex of task u is cut out of the chain. */
    lemma CutLinks(u: nat, k: nat)
      requires |prevmtx| == |c.objs| && AllChained(prevmtx, lastmtx, held)
      requires u < |held| && k < |held[u]| && NoDup(held[u]) && Apart(held, u)
      requires forall x :: x in held[u] ==> x < |c.objs|
      ensures held[u][k] < |prevmtx| && u < |lastmtx|
      ensures var ms := held[u]; var link := prevmtx[ms[k]]; var held' := held[u := Remove(ms, ms[k])];
        if k + 1 == |ms| then AllChained(prevmtx, lastmtx[u := link], held')
        else ms[k + 1] < |prevmtx| && AllChained(prevmtx[ms[k + 1] := link], lastmtx, held')
    {
      var ms := held[u];
      assert Chained(prevmtx, lastmtx[u], ms);
      RemoveAt(ms, k);
      if k + 1 == |ms| {
        ChainPop(prevmtx, lastmtx[u], ms);
        assert ms[..k] + ms[k + 1..] == ms[..k];
      } else {
        ChainCut(prevmtx, lastmtx[u], ms, k);
        var newer := ms[k + 1];
        assert newer in ms;
        var prev', held' := prevmtx[newer := prevmtx[ms[k]]], held[u := Remove(ms, ms[k])];
        forall v | 0 <= v < |held| && v != u ensures Chained(prev', lastmtx[v], held'[v]) {
          assert Chained(prevmtx, lastmtx[v], held[v]);
          ChainOther(prevmtx, lastmtx[v], held[v], newer, prevmtx[ms[k]]);
        }
      }
    }

    /** The mutex that is initialised again is taken from its holder u. */
    method TakeAway(u: nat, m: nat)
      requires Ok({}) && Core(c, Abs(), {}, {}, {}) && IsMutex(c, m) && u < |held| && loctsk[m] == Some(u)
      modifies `loctsk, `prevmtx, `lastmtx, `held, `pri, `wq, `ready, `primap, `schedtsk
      ensures Ok({}) && (forall x :: x in Remove(old(held)[u], m) ==> IsMutex(c, x))
      ensures Abs() == Reprio(c, SetHeld(c, old(Abs()), u, Remove(old(held)[u], m)), u)
    {
      hide Indexed, ByPri, Top, Owned, AllChained, Core, Reprio, NoDup, Apart, Boosted, Remove;
      ghost var s := Abs();
      HoldsIt(u, m);
      TakenFacts(c, s, u, m);
      hide Shaped;
      loctsk := loctsk[m := None];
      CutMutex(u, m);
      assert Abs() == SetHeld(c, s, u, Remove(s.held[u], m));
      ChainOf(u);
      MutexDropPriority(u, m);
    }

    lemma ChainOf(u: nat)
      requires AllChained(prevmtx, lastmtx, held) && u < |held|
      ensures |lastmtx| == |held| && Chained(prevmtx, lastmtx[u], held[u])
    {
    }

    lemma HoldsIt(u: nat, m: nat)
      requires ChainsOk({}) && m < |c.objs| && u < |held| && loctsk[m] == Some(u) && Core(c, Abs(), {}, {}, {})
      ensures m in held[u] && Apart(held, u) && NoDup(held[u])
      ensures Owned(loctsk[m := None], held[u := Remove(held[u], m)], {})
    {
      assert m in held[u];
      OwnedWithout(loctsk, held, u, m);
    }

    /** ini_mtx. */
    method IniMtx(m: nat) returns (out: Outcome)
      requires Ok({}) && Inv(c, Abs()) && TaskCtx(Abs())
      modifies `loctsk, `prevmtx, `lastmtx, `held, `pri, `tasks, `wq, `ready, `primap, `schedtsk, `runtsk, `registered
      ensures Ok({}) && (Abs(), out) == TaskStep(c, old(Abs()), TaskCall.IniMtx(m), old(runtsk).value)
    {
      hide Indexed, ByPri, Top, ChainsOk, Core, Settle, InitMutex, Shaped;
      if !IsMutex(c, m) {
        return Done(E_ID);
      }
      InitLocked(m);
      Dispatch();
      return Done(E_OK);
    }

    /** The effect of ini_mtx before the dispatch. */
    method InitLocked(m: nat)
      requires Ok({}) && Inv(c, Abs()) && IsMutex(c, m)
      modifies `loctsk, `prevmtx, `lastmtx, `held, `pri, `tasks, `wq, `ready, `primap, `schedtsk, `registered
      ensures Ok({}) && Abs() == InitMutex(c, old(Abs()), m)
    {
      hide Indexed, ByPri, Top, Owned, AllChained, Placed, TasksOk, MutexesOk, Reprio, EndWaits, Remove, Within;
      EndedCore(c, Abs(), m);
      InitWaitQueue(m);
      LoctskIsOwner(m);
      if loctsk[m].Some? {
        TakeAway(loctsk[m].value, m);
      }
    }

    /** ini_sem, ini_flg, ini_dtq, ini_mpf and the like end all waits. */
    method IniObj(o: nat) returns (out: Outcome)
      requires Ok({}) && Inv(c, Abs()) && TaskCtx(Abs())
      modifies `tasks, `wq, `ready, `primap, `schedtsk, `runtsk, `registered
      ensures Ok({}) && (Abs(), out) == TaskStep(c, old(Abs()), TaskCall.IniObj(o), old(runtsk).value)
    {
      hide Indexed, ByPri, Top, ChainsOk, Placed, TasksOk, MutexesOk, Settle, EndWaits, Shaped;
      if o >= |c.objs| || IsMutex(c, o) {
        return Done(E_ID);
      }
      EndedCore(c, Abs(), o);
      InitWaitQueue(o);
      Dispatch();
      return Done(E_OK);
    }

    // ----- Calls of the running task about itself -----

    /** The end of the running task: task_terminate and exit_and_dispatch. */
    method ExitTask(t: nat)
      requires Ok({}) && Core(c, Abs(), {}, {}, {}) && t < |tasks| && dspflg
      modifies `loctsk, `prevmtx, `lastmtx, `held, `pri, `tasks, `wq, `ready, `primap, `schedtsk, `runtsk, `registered
      ensures Ok({}) && Abs() == EndTask(c, old(Abs()), t)
    {
      hide Indexed, ByPri, Top, ChainsOk, Placed, TasksOk, MutexesOk, Settle, Terminate;
      TaskTerminate(t);
      Dispatch();
    }

    /** Dispatching becomes possible: the task to be scheduled is searched. */
    method EnableDispatch()
      requires |ready| == TNUM_TPRI && Indexed(ready, primap) && ByPri(ready, pri) && Top(ready).Some?
      requires enadsp && ipm == 0
      modifies `dspflg, `schedtsk
      ensures SchedOk() && dspflg
    {
      hide Indexed, ByPri, Top;
      dspflg := true;
      var u := SearchSchedtsk();
      schedtsk := Some(u);
    }

    /** What follows in ena_dsp and chg_ipm: a pending termination takes effect. */
    method ResumeDispatch(t: nat) returns (out: Outcome)
      requires Ok({}) && Core(c, Abs(), {}, {}, {}) && t < |tasks| && dspflg
      modifies `loctsk, `prevmtx, `lastmtx, `held, `pri, `tasks, `wq, `ready, `primap, `schedtsk, `runtsk, `registered
      ensures Ok({}) && (Abs(), out) == KernelCalls.Resume(c, old(Abs()), t)
    {
      hide Indexed, ByPri, Top, ChainsOk, Placed, TasksOk, MutexesOk, Settle, EndTask;
      if tasks[t].raster && tasks[t].enater {
        ExitTask(t);
        return Ends;
      } else {
        Dispatch();
        return Done(E_OK);
      }
    }

    /** ext_tsk. */
    method ExtTsk() returns (out: Outcome)
      requires Ok({}) && Inv(c, Abs()) && TaskCtx(Abs())
      modifies this
      ensures Ok({}) && (Abs(), out) == OwnStep(c, old(Abs()), OwnCall.ExtTsk, old(runtsk).value)
    {
      var t := runtsk.value;
      RunningFacts(c, Abs());
      ModeChange(c, Abs(), true, 0);
      hide Indexed, ByPri, Top, Core, Settle, EndTask, Shaped;
      if !enadsp || ipm != 0 {
        enadsp := true;
        ipm := 0;
        EnableDispatch();
      }
      assert Abs() == old(Abs()).(enadsp := true, ipm := 0);
      ExitTask(t);
      return Ends;
    }

    /** dis_ter. */
    method DisTer() returns (out: Outcome)
      requires Ok({}) && Inv(c, Abs()) && TaskCtx(Abs())
      modifies `tasks
      ensures Ok({}) && (Abs(), out) == OwnStep(c, old(Abs()), OwnCall.DisTer, old(runtsk).value)
    {
      hide Indexed, ByPri, Top, ChainsOk, Core;
      var t := runtsk.value;
      assert Shaped(c, SetTask(c, Abs(), t, tasks[t].(enater := false)));
      tasks := tasks[t := tasks[t].(enater := false)];
      return Done(E_OK);
    }

    /** ena_ter. */
    method EnaTer() returns (out: Outcome)
      requires Ok({}) && Inv(c, Abs()) && TaskCtx(Abs())
      modifies `loctsk, `prevmtx, `lastmtx, `held, `pri, `tasks, `wq, `ready, `primap, `schedtsk, `runtsk, `registered
      ensures Ok({}) && (Abs(), out) == OwnStep(c, old(Abs()), OwnCall.EnaTer, old(runtsk).value)
    {
      hide Indexed, ByPri, Top, ChainsOk, Placed, TasksOk, MutexesOk, Settle, EndTask;
      var t := runtsk.value;
      if tasks[t].raster && dspflg {
        ExitTask(t);
        return Ends;
      } else {
        assert Shaped(c, SetTask(c, Abs(), t, tasks[t].(enater := true)));
        hide Shaped;
        tasks := tasks[t := tasks[t].(enater := true)];
        return Done(E_OK);
      }
    }

    /** dis_dsp.  In task context the running task is the one to be scheduled, and
      it stays so while dispatching is not possible. */
    method DisDsp() returns (out: Outcome)
      requires Ok({}) && Inv(c, Abs()) && TaskCtx(Abs())
      modifies `enadsp, `dspflg
      ensures Ok({}) && (Abs(), out) == OwnStep(c, old(Abs()), OwnCall.DisDsp, old(runtsk).value)
    {
      ModeChange(c, Abs(), false, ipm);
      hide Indexed, ByPri, Top, ChainsOk, Core, Shaped;
      enadsp := false;
      dspflg := false;
      return Done(E_OK);
    }

    /** ena_dsp. */
    method EnaDsp() returns (out: Outcome)
      requires Ok({}) && Inv(c, Abs()) && TaskCtx(Abs())
      modifies this
      ensures Ok({}) && (Abs(), out) == OwnStep(c, old(Abs()), OwnCall.EnaDsp, old(runtsk).value)
    {
      hide Indexed, ByPri, Top, Inv, ChainsOk, Core, Settle, KernelCalls.Resume, Shaped;
      var t := runtsk.value;
      RunningFacts(c, Abs());
      ModeChange(c, Abs(), true, ipm);
      enadsp := true;
      assert Abs() == old(Abs()).(enadsp := true);
      if ipm == 0 {
        EnableDispatch();
        out := ResumeDispatch(t);
      } else {
        return Done(E_OK);
      }
    }

    /** chg_ipm. */
    method ChgIpm(intpri: int) returns (out: Outcome)
      requires Ok({}) && Inv(c, Abs()) && TaskCtx(Abs())
      modifies this
      ensures Ok({}) && (Abs(), out) == OwnStep(c, old(Abs()), OwnCall.ChgIpm(intpri), old(runtsk).value)
    {
      hide Indexed, ByPri, Top, Inv, ChainsOk, Core, Settle, KernelCalls.Resume, Shaped;
      var t := runtsk.value;
      RunningFacts(c, Abs());
      ModeChange(c, Abs(), enadsp, intpri);
      ipm := intpri;
      assert Abs() == old(Abs()).(ipm := intpri);
      if intpri == 0 && enadsp {
        EnableDispatch();
        out := ResumeDispatch(t);
      } else {
        dspflg := false;
        return Done(E_OK);
      }
    }

    // ----- Interrupts -----

    /** wait_tmout and wait_tmout_ok, called back by the timer, which has just taken
      the timeout block out of its heap. */
    method Expire(t: nat)
      requires Shaped(c, Abs()) && SchedOk() && t < |tasks| && tasks[t].st.Waiting? && t !in ready[pri[t]]
      requires t !in registered
      modifies `tasks, `wq, `ready, `primap, `schedtsk
      ensures SchedOk() && Abs() == TimeOut(c, old(Abs()), t)
    {
      hide Indexed, ByPri, Top, KernelState.MakeNonWait, DequeueWobj, Within;
      ghost var s := Abs();
      assert s.(registered := s.registered - {t}) == s;
      DequeueEffect(c, s, t);
      if tasks[t].st.w == Dly {
        tasks := tasks[t := tasks[t].(wercd := E_OK)];
        assert Abs() == SetTask(c, s, t, s.tasks[t].(wercd := E_OK));
      } else {
        WaitDequeueWobj(t);
        tasks := tasks[t := tasks[t].(wercd := E_TMOUT)];
        assert Abs() == SetTask(c, DequeueWobj(c, s, t), t, s.tasks[t].(wercd := E_TMOUT));
      }
      MakeNonWait(t);
    }

    /** The timer takes the block of a timeout that is due out of its heap and
      calls back. */
    method WaitTmout(t: nat) returns (out: Outcome)
      requires Ok({}) && Inv(c, Abs())
      modifies `tasks, `wq, `ready, `primap, `schedtsk, `registered
      ensures Ok({}) && (Abs(), out) == Step(c, old(Abs()), TimerExpired(t))
    {
      hide Indexed, ByPri, Top, ChainsOk, Inv, TimeOut, Shaped, Boosted;
      if !sensectx || t >= |tasks| || t !in registered {
        return Done(E_OBJ);
      }
      TaskFacts(c, Abs(), t);
      TimeOutTaken(c, Abs(), t);
      registered := registered - {t};
      assert Abs() == old(Abs()).(registered := old(registered) - {t});
      Expire(t);
      return Done(E_OK);
    }

    /** The end of an interrupt: a dispatch that was requested takes place. */
    method IntExit() returns (out: Outcome)
      requires Ok({}) && Inv(c, Abs())
      modifies `sensectx, `runtsk
      ensures Ok({}) && (Abs(), out) == Step(c, old(Abs()), Call.IntExit)
    {
      assert Shaped(c, Abs().(inInt := false));
      hide Indexed, ByPri, Top, ChainsOk, Core, Settle, Shaped;
      sensectx := false;
      assert Abs() == old(Abs()).(inInt := false);
      Dispatch();
      return Done(E_OK);
    }

    /** The start of an interrupt. */
    method IntEnter() returns (out: Outcome)
      requires Ok({}) && Inv(c, Abs())
      modifies `sensectx
      ensures Ok({}) && (Abs(), out) == Step(c, old(Abs()), Call.IntEnter)
    {
      assert Shaped(c, Abs().(inInt := true));
      hide Indexed, ByPri, Top, ChainsOk, Core, Shaped;
      sensectx := true;
      return Done(E_OK);
    }

    // ----- Calls and runs -----

    method CallByAnyone(call: SharedCall) returns (out: Outcome)
      requires Ok({}) && Inv(c, Abs())
      modifies this
      ensures Ok({}) && (Abs(), out) == SharedStep(c, old(Abs()), call)
    {
      hide Ok, Inv, Abs, SharedStep;
      match call {
        case ActTsk(t) => out := ActTsk(t);
        case WupTsk(t) => out := WupTsk(t);
        case RelWai(t) => out := RelWai(t);
        case RotRdq(tskpri) => out := RotRdq(tskpri);
        case WakeObj(o) => out := WakeObj(o);
      }
    }

    method CallBlocking(call: WaitingCall) returns (out: Outcome)
      requires Ok({}) && Inv(c, Abs()) && MayWait(Abs())
      modifies this
      ensures Ok({}) && (Abs(), out) == WaitingStep(c, old(Abs()), call, old(runtsk).value)
    {
      match call {
        case SlpTsk(tmo) => out := SlpTsk(tmo);
        case DlyTsk => out := DlyTsk();
        case LocMtx(m, tmo) => out := LocMtx(m, tmo);
        case WaitObj(o, tmo) => out := WaitObj(o, tmo);
      }
    }

    method CallOnTasks(call: TaskCall) returns (out: Outcome)
      requires Ok({}) && Inv(c, Abs()) && TaskCtx(Abs())
      modifies this
      ensures Ok({}) && (Abs(), out) == TaskStep(c, old(Abs()), call, old(runtsk).value)
    {
      match call {
        case ChgPri(t, tskpri) => out := ChgPri(t, tskpri);
        case RasTer(t) => out := RasTer(t);
        case TerTsk(t) => out := TerTsk(t);
        case SusTsk(t) => out := SusTsk(t);
        case RsmTsk(t) => out := RsmTsk(t);
        case PlocMtx(m) => out := PlocMtx(m);
        case UnlMtx(m) => out := UnlMtx(m);
        case IniMtx(m) => out := IniMtx(m);
        case IniObj(o) => out := IniObj(o);
      }
    }

    method CallOnSelf(call: OwnCall) returns (out: Outcome)
      requires Ok({}) && Inv(c, Abs()) && TaskCtx(Abs())
      modifies this
      ensures Ok({}) && (Abs(), out) == OwnStep(c, old(Abs()), call, old(runtsk).value)
    {
      match call {
        case ExtTsk => out := ExtTsk();
        case DisTer => out := DisTer();
        case EnaTer => out := EnaTer();
        case DisDsp => out := DisDsp();
        case EnaDsp => out := EnaDsp();
        case ChgIpm(intpri) => out := ChgIpm(intpri);
      }
    }

    /** A call or interrupt event does what its step says and keeps everything in
      order; its caller's context is checked first. */
    method Perform(call: Call) returns (out: Outcome)
      requires Ok({}) && Inv(c, Abs())
      modifies this
      ensures Ok({}) && Inv(c, Abs()) && (Abs(), out) == Step(c, old(Abs()), call)
    {
      StepInv(c, Abs(), call);
      match call {
        case ByAnyone(sc) =>
          if sensectx || runtsk.Some? {
            out := CallByAnyone(sc);
          } else {
            out := Done(E_CTX);
          }
        case Blocking(wc) =>
          if !sensectx && runtsk.Some? && dspflg {
            out := CallBlocking(wc);
          } else {
            out := Done(E_CTX);
          }
        case OnTasks(tc) =>
          if !sensectx && runtsk.Some? {
            out := CallOnTasks(tc);
          } else {
            out := Done(E_CTX);
          }
        case OnSelf(oc) =>
          if !sensectx && runtsk.Some? {
            out := CallOnSelf(oc);
          } else {
            out := Done(E_CTX);
          }
        case TimerExpired(t) => out := WaitTmout(t);
        case IntEnter => out := IntEnter();
        case IntExit => out := IntExit();
      }
    }

    /** A whole run from any state in order does what the run of steps does. */
    method Execute(calls: seq<Call>)
      requires Ok({}) && Inv(c, Abs())
      modifies this
      ensures Ok({}) && Inv(c, Abs()) && Abs() == Run(c, old(Abs()), calls)
    {
      var i := 0;
      while i < |calls|
        invariant 0 <= i <= |calls| && Ok({}) && Inv(c, Abs())
        invariant Run(c, old(Abs()), calls) == Run(c, Abs(), calls[i..])
      {
        assert calls[i..][0] == calls[i] && calls[i..][1..] == calls[i + 1..];
        var out := Perform(calls[i]);
        i := i + 1;
      }
    }
  }

  /** A run from the start of the kernel ends in the state that the rules for
    reachable states speak of. */
  method RunFromBoot(config: Config, calls: seq<Call>) returns (k: Kernel)
    requires ConfigValid(config)
    ensures fresh(k) && k.c == config && k.Ok({}) && k.Abs() == Run(config, Boot(config), calls)
  {
    BootInv(config);
    k := new Kernel(config);
    k.Execute(calls);
  }

  lemma BootEmpty(ready: seq<seq<nat>>, pri: seq<nat>)
    requires |ready| == TNUM_TPRI && forall p :: 0 <= p < |ready| ==> ready[p] == []
    ensures Indexed(ready, 0) && ByPri(ready, pri) && Top(ready) == None
  {
    TopIs(ready, |ready|);
    forall p | 0 <= p < |ready| ensures AllAt(ready[p], pri, p) {
    }
  }

  /** It makes no difference to the callback that the block is out already. */
  lemma TimeOutTaken(c: Config, s: Sys, t: nat)
    requires Shaped(c, s) && t < |s.tasks|
    ensures Shaped(c, s.(registered := s.registered - {t}))
    ensures TimeOut(c, s.(registered := s.registered - {t}), t) == TimeOut(c, s, t)
  {
    hide MakeNonWait, DequeueWobj, Within;
    var s1 := s.(registered := s.registered - {t});
    assert s1.(registered := s1.registered - {t}) == s1;
  }

  /** In task context the running task is in a ready queue and is the one to be
    scheduled. */
  lemma RunningFacts(c: Config, s: Sys)
    requires Inv(c, s) && TaskCtx(s)
    ensures s.run.value < |s.tasks| && Top(s.ready).Some? && s.run == Sched(s)
  {
    TaskFacts(c, s, s.run.value);
    TopAfterTake(s.ready, s.pri[s.run.value], s.run.value);
  }

  lemma ModeChange(c: Config, s: Sys, enadsp: bool, ipm: int)
    requires Inv(c, s)
    ensures Core(c, s.(enadsp := enadsp, ipm := ipm), {}, {}, {}) && Shaped(c, s.(enadsp := enadsp, ipm := ipm))
  {
    ModeCore(c, s, s.(enadsp := enadsp, ipm := ipm));
  }

  lemma EndedCore(c: Config, s: Sys, o: nat)
    requires Inv(c, s) && o < |c.objs|
    ensures o < |s.wq| && Within(s.wq[o], |s.tasks|) && Core(c, EndWaits(c, s, s.wq[o], E_DLT), {}, {}, {})
    ensures EndWaits(c, s, s.wq[o], E_DLT).held == s.held
  {
    QueueWaits(c, s, {}, o);
    EndWaitsCore(c, s, {}, {}, {}, s.wq[o], E_DLT);
  }

  lemma OwnedByNone(loctsk: seq<Option<nat>>, held: seq<seq<nat>>, m: nat)
    requires Owned(loctsk, held, {m}) && m < |loctsk| && forall u :: 0 <= u < |held| ==> m !in held[u]
    ensures Owned(loctsk[m := None], held, {})
  {
  }

  lemma OwnedWithout(loctsk: seq<Option<nat>>, held: seq<seq<nat>>, u: nat, m: nat)
    requires Owned(loctsk, held, {}) && u < |held| && m < |loctsk| && m in held[u] && NoDup(held[u])
    ensures Owned(loctsk[m := None], held[u := Remove(held[u], m)], {})
  {
    RemoveMembers(held[u], m);
    hide Remove, NoDup;
  }

  /** When mutex m is taken from task u, its priority is what it was with m. */
  lemma TakenFacts(c: Config, s: Sys, u: nat, m: nat)
    requires Core(c, s, {}, {}, {}) && u < |s.tasks| && m in s.held[u]
    ensures NoDup(s.held[u]) && |s.tasks| == |s.held| == |s.pri|
    ensures forall x :: x in s.held[u] ==> IsMutex(c, x)
    ensures s.tasks[u].st == Runnable ==> s.pri[u] < |s.ready| && u in s.ready[s.pri[u]]
    ensures s.tasks[u].st != Runnable ==> forall p :: 0 <= p < |s.ready| ==> u !in s.ready[p]
    ensures forall x :: x in Remove(s.held[u], m) ==> IsMutex(c, x)
    ensures s.pri[u] == Lower(c, m, Boosted(c, Remove(s.held[u], m), s.tasks[u].bpri))
    ensures Shaped(c, SetHeld(c, s, u, Remove(s.held[u], m)))
  {
    HeldWithout(c, s, u, m);
    LinkedIn(c, s, {}, u);
    assert TaskOk(c, s, u);
    var k :| 0 <= k < |s.held[u]| && s.held[u][k] == m;
    RemoveAt(s.held[u], k);
    BoostedWithout(c, s.held[u], k, s.tasks[u].bpri);
  }

  lemma LastLink(prev: seq<Option<nat>>, last: Option<nat>, ms: seq<nat>)
    requires Chained(prev, last, ms)
    ensures ms == [] <==> last.None?
    ensures ms != [] ==> last == Some(ms[|ms| - 1])
  {
  }

  /** When the newest mutex of t has been popped. */
  lemma UnlockFacts(c: Config, s: Sys, t: nat)
    requires Inv(c, s) && t < |s.tasks| && s.held[t] != []
    ensures NoDup(s.held[t])
    ensures var n := |s.held[t]| - 1; var m := s.held[t][n];
      IsMutex(c, m) && (forall x :: x in s.held[t][..n] ==> IsMutex(c, x)) &&
      var s1 := SetHeld(c, s, t, s.held[t][..n]);
      var s2 := Reprio(c, s1, t);
      && s1.pri[t] == Lower(c, m, ClosedPri(c, s1, t))
      && m < |s2.wq| && HeadOk(c, s2, m) && s2.held == s1.held
  {
    var n := |s.held[t]| - 1;
    var m := s.held[t][n];
    assert m in s.held[t] && IsMutex(c, m);
    assert TaskOk(c, s, t);
    PopCore(c, s, t);
    var s1 := SetHeld(c, s, t, s.held[t][..n]);
    ReprioHeld(c, s1, t);
    HeadInOrder(c, Reprio(c, s1, t), {m}, m);
    hide Reprio, NoDup, HeadOk, Placed;
  }

  lemma HeadInOrder(c: Config, s: Sys, freed: set<nat>, m: nat)
    requires Core(c, s, {}, {}, freed) && m < |c.objs|
    ensures m < |s.wq| && HeadOk(c, s, m)
  {
    if s.wq[m] != [] {
      QueueWaits(c, s, {}, m);
      LinkedIn(c, s, {}, s.wq[m][0]);
      assert ToTimer(s, {}, s.wq[m][0]) ==> s.wq[m][0] in s.registered;
      assert TaskOk(c, s, s.wq[m][0]);
    }
  }

  lemma ReprioHeld(c: Config, s: Sys, t: nat)
    requires Shaped(c, s) && t < |s.tasks|
    ensures Reprio(c, s, t).held == s.held && Reprio(c, s, t).tasks == s.tasks
  {
    BoostedBound(c, s.held[t], s.tasks[t].bpri);
    ChangePriorityEffect(c, s, t, ClosedPri(c, s, t), true);
  }

  lemma SuspendShaped(c: Config, s: Sys, t: nat)
    requires Shaped(c, s) && t < |s.tasks|
    ensures Shaped(c, Unready(c, SetSt(c, s, t, Suspended), t)) && Shaped(c, KernelState.MakeRunnable(c, s, t))
    ensures s.tasks[t].st.Waiting? ==>
      Shaped(c, SetSt(c, s, t, s.tasks[t].st.(sus := true))) && Shaped(c, SetSt(c, s, t, s.tasks[t].st.(sus := false)))
  {
  }

  /** The two cases of Interrupted. */
  lemma InterruptedForm(c: Config, s: Sys, t: nat)
    requires Shaped(c, s) && t < |s.tasks|
    ensures |s.pri| == |s.tasks| && s.pri[t] < TNUM_TPRI && Shaped(c, SetTask(c, s, t, s.tasks[t].(raster := true)))
    ensures var s1 := SetTask(c, s, t, s.tasks[t].(raster := true));
      var s2 := DequeueWobj(c, s1, t);
      Interrupted(c, s, t) == if !s.tasks[t].st.Waiting? then s1
        else s2.(registered := Unregistered(s, t),
          tasks := s1.tasks[t := s.tasks[t].(raster := true, wercd := E_RASTER)])
  {
  }

  lemma ChainMutexes(c: Config, s: Sys, t: nat)
    requires Shaped(c, s) && t < |s.tasks|
    ensures |s.held| == |s.tasks| == |s.pri| && |s.wq| == |c.objs|
    ensures forall m :: m in s.held[t] ==> IsMutex(c, m)
  {
  }

  lemma HeadForm(c: Config, s: Sys, o: nat, er: Er)
    requires Shaped(c, s) && o < |s.wq| && s.wq[o] != [] && s.wq[o][0] < |s.tasks|
    requires s.tasks[s.wq[o][0]].st.Waiting? && s.tasks[s.wq[o][0]].st.w == Obj(o)
    ensures Within(s.wq[o][1..], |s.tasks|)
    ensures var t := s.wq[o][0]; var s1 := SetWq(c, s, o, s.wq[o][1..]);
      && EndWait(c, s, t, er) == MakeNonWait(c, SetTask(c, DequeueTmevtb(c, s1, t), t, s.tasks[t].(wercd := er)), t)
      && EndWait(c, s, t, er).wq == s1.wq
  {
    var t := s.wq[o][0];
    var s1 := SetWq(c, s, o, s.wq[o][1..]);
    assert s1 == DequeueWobj(c, s, t);
    hide Within, Remove, DequeueWobj;
    NonWaitEffect(c, SetTask(c, DequeueTmevtb(c, s1, t), t, s.tasks[t].(wercd := er)), t);
    hide MakeNonWait;
  }

  /** Ending the wait of the first task in a queue. */
  lemma HeadEnds(c: Config, s: Sys, o: nat, er: Er)
    requires Core(c, s, {}, {}, {}) && o < |s.wq| && s.wq[o] != []
    ensures var t := s.wq[o][0];
      && t < |s.tasks| == |s.pri| && s.pri[t] < |s.ready|
      && s.tasks[t].st.Waiting? && s.tasks[t].st.w == Obj(o) && t !in s.ready[s.pri[t]]
      && (s.tasks[t].tmevtb ==> t in s.registered)
    ensures Core(c, EndWait(c, s, s.wq[o][0], er), {}, {}, {})
  {
    hide EndWait, Placed, TasksOk, MutexesOk, Within;
    QueueWaits(c, s, {}, o);
    assert ToTimer(s, {}, s.wq[o][0]) ==> s.wq[o][0] in s.registered;
    LinkedIn(c, s, {}, s.wq[o][0]);
    hide TimersOk;
    EndWaitCore(c, s, {}, {}, {}, s.wq[o][0], er);
  }
}
