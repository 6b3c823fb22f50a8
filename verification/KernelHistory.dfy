/** Laws of whole runs: what was asked for and what was granted, and in which order. */
module KernelHistory {
  import opened Options
  import opened Queues
  import opened KernelState
  import opened KernelCalls
  import opened KernelPlacement
  import opened KernelInvariant
  import opened KernelSteps
  import opened KernelDeltas
  import opened KernelEffects
  import opened KernelModes
  import opened KernelRuns
  import opened KernelLaws

  // ----- Requests and what became of them -----

  datatype Event =
    | WakeUpAccepted       // wup_tsk for the task has been answered E_OK
    | NotEvenSlept         // a slp_tsk of the task has been answered E_OK at once
    | SleptTillWoken       // a sleep of the task has ended with the result E_OK
    | WakeUpDropped        // the task has ended with a request for a wake-up pending
    | ActivationAccepted   // act_tsk for the task has been answered E_OK
    | Started              // the task has started, or started again at its end

  ghost predicate Happens(e: Event, s: Sys, call: Call, out: Outcome, r: Sys, t: nat)
    requires t < |s.tasks| == |r.tasks|
  {
    match e
    case WakeUpAccepted => call == ByAnyone(WupTsk(t)) && out == Done(E_OK)
    case NotEvenSlept => call.Blocking? && call.wc.SlpTsk? && s.run == Some(t) && out == Done(E_OK)
    case SleptTillWoken =>
      Asleep(s, t) && !r.tasks[t].st.Waiting? && r.tasks[t].wercd == E_OK && !EndedBy(s, call, out, t)
    case WakeUpDropped => EndedBy(s, call, out, t) && s.tasks[t].wupque
    case ActivationAccepted => call == ByAnyone(ActTsk(t)) && out == Done(E_OK)
    case Started => r.tasks[t].st == Runnable && (s.tasks[t].st == Dormant || EndedBy(s, call, out, t))
  }

  /** How often something has happened to task t in a run. */
  ghost function Times(c: Config, calls: seq<Call>, e: Event, t: nat): nat
    requires ConfigValid(c) && t < |c.ipri|
    decreases |calls|
  {
    if calls == [] then 0
    else
      var before, last := calls[..|calls| - 1], calls[|calls| - 1];
      AfterInv(c, before);
      AfterInv(c, calls);
      Times(c, before, e, t) + Bit(Happens(e, After(c, before), last, Answer(c, before, last), After(c, calls), t))
  }

  function Bit(b: bool): nat { if b then 1 else 0 }

  /** Every wake-up that was accepted has let one slp_tsk of the task return E_OK, or
    was dropped at the end of the task, or is pending: none is lost and none counts
    twice. */
  lemma {:induction false} WakeUpsAccounted(c: Config, calls: seq<Call>, t: nat)
    requires ConfigValid(c) && t < |c.ipri|
    ensures |After(c, calls).tasks| == |c.ipri|
    ensures Times(c, calls, WakeUpAccepted, t)
      == Times(c, calls, NotEvenSlept, t) + Times(c, calls, SleptTillWoken, t) + Times(c, calls, WakeUpDropped, t)
       + Bit(After(c, calls).tasks[t].wupque)
    decreases |calls|
  {
    AfterInv(c, calls);
    if calls != [] {
      var before, last := calls[..|calls| - 1], calls[|calls| - 1];
      assert calls == before + [last];
      WakeUpsAccounted(c, before, t);
      NextStep(c, before, last);
      NoSleepWithRequest(c, before, t);
      var s, r, out := After(c, before), After(c, calls), Answer(c, before, last);
      hide After, Answer, ModeDelta, Inv, StepDelta, TasksAfter;
      OneWakeUp(c, s, last, out, r, t);
    }
  }

  lemma WokenAfter(c: Config, s: Sys, t: nat)
    requires t < |s.tasks| && t < |c.ipri|
    ensures var k, k' := s.tasks[t], TaskAfter(c, s, ByAnyone(WupTsk(t)), Done(E_OK), t);
      if Asleep(s, t) then !k'.st.Waiting? && k'.wercd == E_OK && k'.wupque == k.wupque else k'.wupque
  {
    NothingGivenUp(s, ByAnyone(WupTsk(t)), Done(E_OK));
    hide HandsTo, EndedBy;
  }

  /** Without wup_tsk a sleep goes on or ends with another result. */
  lemma SleepsOn(c: Config, s: Sys, call: Call, out: Outcome, t: nat)
    requires Inv(c, s) && t < |s.tasks| && t < |c.ipri| && Asleep(s, t) && !EndedBy(s, call, out, t)
    requires call == ByAnyone(WupTsk(t)) ==> out.Done? && out.er != E_OK
    ensures var k' := TaskAfter(c, s, call, out, t); k'.st.Waiting? || k'.wercd != E_OK
  {
    SleepEnds(c, s, call, out, t);
    GrantedWaits(c, s, call, t);
    if s.run == Some(t) {
      RunningWaitsNot(c, s, t);
    }
    hide Inv, HandsTo, EndedBy, Granted;
  }

  lemma OneWakeUp(c: Config, s: Sys, call: Call, out: Outcome, r: Sys, t: nat)
    requires Inv(c, s) && StepDelta(c, s, call, out, r) && TasksAfter(c, s, call, out, r) && t < |s.tasks|
    requires Asleep(s, t) ==> !s.tasks[t].wupque
    ensures |s.tasks| == |r.tasks|
    ensures Bit(Happens(WakeUpAccepted, s, call, out, r, t)) + Bit(s.tasks[t].wupque)
      == Bit(Happens(NotEvenSlept, s, call, out, r, t)) + Bit(Happens(SleptTillWoken, s, call, out, r, t))
       + Bit(Happens(WakeUpDropped, s, call, out, r, t)) + Bit(r.tasks[t].wupque)
  {
    WakeUpsOnly(c, s, call, out, r, t);
    assert r.tasks[t] == TaskAfter(c, s, call, out, t);
    RequestsAfter(c, s, call, out, t);
    if call == ByAnyone(WupTsk(t)) && out == Done(E_OK) {
      WokenAfter(c, s, t);
    } else if Asleep(s, t) && !EndedBy(s, call, out, t) {
      SleepsOn(c, s, call, out, t);
    }
    if s.run == Some(t) {
      RunningWaitsNot(c, s, t);
    }
    hide Inv, StepDelta, TasksAfter, TaskAfter;
  }

  /** A wake-up is accepted only if none is pending, and slp_tsk is answered E_OK at once
    only if one is. */
  lemma WakeUpsOnly(c: Config, s: Sys, call: Call, out: Outcome, r: Sys, t: nat)
    requires Inv(c, s) && StepDelta(c, s, call, out, r) && t < |s.tasks|
    ensures call == ByAnyone(WupTsk(t)) && out == Done(E_OK) ==>
      Asleep(s, t) || (!s.tasks[t].wupque && s.tasks[t].st != Dormant)
    ensures call.Blocking? && call.wc.SlpTsk? && s.run == Some(t) && out == Done(E_OK) ==>
      s.tasks[t].wupque && !Asleep(s, t)
    ensures call.ByAnyone? ==> out.Done?
  {
    hide Core, Heads, Remove, Left, Grown, Unreadied, WaitStarted;
  }

  /** act_tsk starts a dormant task; otherwise it is refused exactly if the task takes no
    queued activations or has one already. */
  lemma ActivationRequest(c: Config, calls: seq<Call>, t: nat)
    requires ConfigValid(c) && t < |c.ipri|
    ensures var call := ByAnyone(ActTsk(t));
      var s, r, out := After(c, calls), After(c, calls + [call]), Answer(c, calls, call);
      && |s.tasks| == |r.tasks| == |c.ipri| == |c.noactque| == |s.pri| && |s.ready| == |r.ready| == 16
      && s.pri[t] < 16
      && (s.inInt || s.run.Some? ==>
        if s.tasks[t].st == Dormant then
          out == Done(E_OK) && r.tasks[t].st == Runnable && r.ready[s.pri[t]] == s.ready[s.pri[t]] + [t]
        else if c.noactque[t] || s.tasks[t].actque then out == Done(E_QOVR)
        else out == Done(E_OK) && r.tasks[t] == s.tasks[t].(actque := true))
  {
    hide After, Answer, ModeDelta, Placed, TimersOk, TasksOk, MutexesOk;
    NextStep(c, calls, ByAnyone(ActTsk(t)));
    hide TasksAfter, Remove, Within;
  }

  /** A queued activation survives everything but the end of its task, which then
    starts again; a task that ends without one is dormant. */
  lemma ActivationPending(c: Config, calls: seq<Call>, call: Call, t: nat)
    requires ConfigValid(c) && t < |c.ipri|
    ensures var s, r, out := After(c, calls), After(c, calls + [call]), Answer(c, calls, call);
      && |s.tasks| == |r.tasks| == |c.ipri|
      && (if EndedBy(s, call, out, t) then
            !r.tasks[t].actque && r.tasks[t].st == if s.tasks[t].actque then Runnable else Dormant
          else (s.tasks[t].actque ==> r.tasks[t].actque) && (s.tasks[t].st != Dormant ==> r.tasks[t].st != Dormant))
      && (r.tasks[t].actque && !s.tasks[t].actque ==> call == ByAnyone(ActTsk(t)) && out == Done(E_OK))
  {
    hide After, Answer, ModeDelta, Inv, StepDelta, EndedBy, TaskAfter;
    NextStep(c, calls, call);
    var s, r, out := After(c, calls), After(c, calls + [call]), Answer(c, calls, call);
    assert r.tasks[t] == TaskAfter(c, s, call, out, t);
    RequestsAfter(c, s, call, out, t);
    StateAfter(c, s, call, out, t);
  }

  /** Only the end of a task makes it dormant. */
  lemma StateAfter(c: Config, s: Sys, call: Call, out: Outcome, t: nat)
    requires t < |s.tasks| && t < |c.ipri|
    ensures var k, k' := s.tasks[t], TaskAfter(c, s, call, out, t);
      if EndedBy(s, call, out, t) then k'.st == if k.actque then Runnable else Dormant
      else k.st != Dormant ==> k'.st != Dormant
  {
    hide EndedBy, WaitResult;
  }

  /** Every activation that was accepted has started the task once, or is queued. */
  lemma {:induction false} ActivationsAccounted(c: Config, calls: seq<Call>, t: nat)
    requires ConfigValid(c) && t < |c.ipri|
    ensures |After(c, calls).tasks| == |c.ipri|
    ensures Times(c, calls, ActivationAccepted, t) == Times(c, calls, Started, t) + Bit(After(c, calls).tasks[t].actque)
    decreases |calls|
  {
    AfterInv(c, calls);
    if calls != [] {
      var before, last := calls[..|calls| - 1], calls[|calls| - 1];
      assert calls == before + [last];
      ActivationsAccounted(c, before, t);
      NextStep(c, before, last);
      NoActivationWhenDormant(c, before, t);
      var s, r, out := After(c, before), After(c, calls), Answer(c, before, last);
      hide After, Answer, ModeDelta, Inv, StepDelta, TasksAfter;
      OneActivation(c, s, last, out, r, t);
    }
  }

  lemma NotDormantEnded(c: Config, s: Sys, call: Call, out: Outcome, r: Sys, t: nat)
    requires Inv(c, s) && StepDelta(c, s, call, out, r) && t < |s.tasks|
    ensures EndedBy(s, call, out, t) ==> s.tasks[t].st != Dormant
    ensures call == ByAnyone(ActTsk(t)) && out == Done(E_OK) ==> s.tasks[t].st == Dormant || !s.tasks[t].actque
  {
    hide Core, Heads, Released, Remove, Left, Grown, Unreadied, EndedTask, Replaced, MutexReset, WaitStarted;
  }

  lemma StaysDormant(c: Config, s: Sys, call: Call, out: Outcome, t: nat)
    requires t < |s.tasks| && t < |c.ipri| && (s.tasks[t].st == Dormant ==> !s.tasks[t].actque)
    ensures var k' := TaskAfter(c, s, call, out, t); k'.st == Dormant ==> !k'.actque
  {
    RequestsAfter(c, s, call, out, t);
    StateAfter(c, s, call, out, t);
    hide TaskAfter, EndedBy, WaitResult;
  }

  lemma {:induction false} NoActivationWhenDormant(c: Config, calls: seq<Call>, t: nat)
    requires ConfigValid(c) && t < |c.ipri|
    ensures var s := After(c, calls);
      |s.tasks| == |c.ipri| && (s.tasks[t].st == Dormant ==> !s.tasks[t].actque)
    decreases |calls|
  {
    if calls != [] {
      var before, last := calls[..|calls| - 1], calls[|calls| - 1];
      assert calls == before + [last];
      NoActivationWhenDormant(c, before, t);
      var s, out := After(c, before), Answer(c, before, last);
      TaskEffect(c, before, last, t);
      hide After, Answer, ModeDelta, Inv, StepDelta, TasksAfter;
      StaysDormant(c, s, last, out, t);
    }
  }

  lemma ActivatedAfter(c: Config, s: Sys, t: nat)
    requires t < |s.tasks| && t < |c.ipri|
    ensures var k := s.tasks[t];
      TaskAfter(c, s, ByAnyone(ActTsk(t)), Done(E_OK), t)
        == if k.st == Dormant then k.(st := Runnable) else k.(actque := true)
  {
    NothingGivenUp(s, ByAnyone(ActTsk(t)), Done(E_OK));
    hide HandsTo, EndedBy;
  }

  /** A dormant task is started by act_tsk only. */
  lemma DormantAfter(c: Config, s: Sys, call: Call, out: Outcome, t: nat)
    requires t < |s.tasks| && t < |c.ipri| && s.tasks[t].st == Dormant && !EndedBy(s, call, out, t)
    requires call == OnTasks(RasTer(t)) || call == OnTasks(RsmTsk(t)) ==> out != Done(E_OK)
    requires call == ByAnyone(ActTsk(t)) ==> out != Done(E_OK)
    ensures TaskAfter(c, s, call, out, t).st != Runnable
  {
    hide HandsTo, EndedBy;
  }

  lemma OneActivation(c: Config, s: Sys, call: Call, out: Outcome, r: Sys, t: nat)
    requires Inv(c, s) && StepDelta(c, s, call, out, r) && TasksAfter(c, s, call, out, r) && t < |s.tasks|
    requires s.tasks[t].st == Dormant ==> !s.tasks[t].actque
    ensures |s.tasks| == |r.tasks|
    ensures Bit(Happens(ActivationAccepted, s, call, out, r, t)) + Bit(s.tasks[t].actque)
      == Bit(Happens(Started, s, call, out, r, t)) + Bit(r.tasks[t].actque)
  {
    NotDormantEnded(c, s, call, out, r, t);
    assert r.tasks[t] == TaskAfter(c, s, call, out, t);
    RequestsAfter(c, s, call, out, t);
    StateAfter(c, s, call, out, t);
    hide Inv, StepDelta, TasksAfter, TaskAfter, EndedBy;
    if call == ByAnyone(ActTsk(t)) && out == Done(E_OK) {
      ActivatedAfter(c, s, t);
      assert !EndedBy(s, call, out, t);
    } else if s.tasks[t].st == Dormant {
      NobodyElseStarts(c, s, call, out, r, t);
      DormantAfter(c, s, call, out, t);
    }
  }

  lemma NobodyElseStarts(c: Config, s: Sys, call: Call, out: Outcome, r: Sys, t: nat)
    requires Inv(c, s) && StepDelta(c, s, call, out, r) && t < |s.tasks| && s.tasks[t].st == Dormant
    ensures call == OnTasks(RasTer(t)) || call == OnTasks(RsmTsk(t)) ==> out != Done(E_OK)
  {
    hide Core, Heads, Released, Remove, Left, Grown, Unreadied, EndedTask, Replaced, MutexReset, WaitStarted;
  }
}
