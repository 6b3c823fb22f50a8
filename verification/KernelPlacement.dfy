/** Where tasks are linked: every runnable task in the ready queue of its
  priority, every object-waiting task in that object's wait queue, any other
  task nowhere, and priority-ordered wait queues in order. */
module KernelPlacement {
  import opened Options
  import opened Queues
  import opened KernelState

  /** A state that goes with being linked in a queue. */
  predicate Linked(st: Stat) { st == Runnable || (st.Waiting? && st.w.Obj?) }

  /** Task t belongs in the ready queue of priority p; the tasks of `loose` are
    being moved and belong in no queue. */
  predicate ToReady(s: Sys, loose: set<nat>, p: nat, t: nat) {
    t < |s.tasks| == |s.pri| && t !in loose && s.tasks[t].st == Runnable && s.pri[t] == p
  }

  /** Task t belongs in the wait queue of object o. */
  predicate ToWait(s: Sys, loose: set<nat>, o: nat, t: nat) {
    t < |s.tasks| && t !in loose && s.tasks[t].st.Waiting? && s.tasks[t].st.w == Obj(o)
  }

  ghost predicate ReadyQueue(s: Sys, loose: set<nat>, p: nat, q: seq<nat>) {
    NoDup(q) && forall t :: t in q <==> ToReady(s, loose, p, t)
  }

  ghost predicate WaitQueue(s: Sys, loose: set<nat>, o: nat, q: seq<nat>) {
    NoDup(q) && forall t :: t in q <==> ToWait(s, loose, o, t)
  }

  ghost predicate WaitOrdered(c: Config, s: Sys) {
    forall o :: 0 <= o < |s.wq| == |c.objs| && InPriorityOrder(c, o) ==> ByPriority(s.wq[o], s.pri)
  }

  /** Every task is linked exactly where it belongs. */
  ghost predicate Placed(c: Config, s: Sys, loose: set<nat>) {
    && (forall p :: 0 <= p < |s.ready| ==> ReadyQueue(s, loose, p, s.ready[p]))
    && (forall o :: 0 <= o < |s.wq| ==> WaitQueue(s, loose, o, s.wq[o]))
    && WaitOrdered(c, s)
  }

  lemma UnreadyPlaced(c: Config, s: Sys, loose: set<nat>, t: nat)
    requires Shaped(c, s) && Placed(c, s, loose)
    requires t < |s.tasks| && t !in loose && s.tasks[t].st == Runnable
    ensures Placed(c, Unready(c, s, t), loose + {t})
  {
    var r := Unready(c, s, t);
    forall p | 0 <= p < |r.ready| ensures ReadyQueue(r, loose + {t}, p, r.ready[p]) {
      assert ReadyQueue(s, loose, p, s.ready[p]);
      if p == s.pri[t] {
        RemoveMembers(s.ready[p], t);
      }
    }
    forall o | 0 <= o < |r.wq| ensures WaitQueue(r, loose + {t}, o, r.wq[o]) {
      assert WaitQueue(s, loose, o, s.wq[o]);
    }
  }

  lemma UnwaitPlaced(c: Config, s: Sys, loose: set<nat>, t: nat, o: nat)
    requires Shaped(c, s) && Placed(c, s, loose)
    requires t < |s.tasks| && t !in loose && s.tasks[t].st.Waiting? && s.tasks[t].st.w == Obj(o)
    ensures Placed(c, Unwait(c, s, t, o), loose + {t})
  {
    var r := Unwait(c, s, t, o);
    forall p | 0 <= p < |r.ready| ensures ReadyQueue(r, loose + {t}, p, r.ready[p]) {
      assert ReadyQueue(s, loose, p, s.ready[p]);
    }
    forall p | 0 <= p < |r.wq| ensures WaitQueue(r, loose + {t}, p, r.wq[p]) {
      assert WaitQueue(s, loose, p, s.wq[p]);
      if p == o {
        RemoveMembers(s.wq[o], t);
      }
    }
    if InPriorityOrder(c, o) {
      RemoveOrdered(s.wq[o], t, s.pri);
    }
  }

  /** A task in no queue may be regarded as loose. */
  lemma Loosen(c: Config, s: Sys, loose: set<nat>, t: nat)
    requires Shaped(c, s) && Placed(c, s, loose)
    requires t < |s.tasks| && !Linked(s.tasks[t].st)
    ensures Placed(c, s, loose + {t})
  {
    forall p | 0 <= p < |s.ready| ensures ReadyQueue(s, loose + {t}, p, s.ready[p]) {
      assert ReadyQueue(s, loose, p, s.ready[p]);
    }
    forall o | 0 <= o < |s.wq| ensures WaitQueue(s, loose + {t}, o, s.wq[o]) {
      assert WaitQueue(s, loose, o, s.wq[o]);
    }
  }

  /** A loose task whose state goes with no queue has its place already. */
  lemma Settled(c: Config, s: Sys, loose: set<nat>, t: nat)
    requires Shaped(c, s) && Placed(c, s, loose)
    requires t < |s.tasks| && !Linked(s.tasks[t].st)
    ensures Placed(c, s, loose - {t})
  {
    forall p | 0 <= p < |s.ready| ensures ReadyQueue(s, loose - {t}, p, s.ready[p]) {
      assert ReadyQueue(s, loose, p, s.ready[p]);
    }
    forall o | 0 <= o < |s.wq| ensures WaitQueue(s, loose - {t}, o, s.wq[o]) {
      assert WaitQueue(s, loose, o, s.wq[o]);
    }
  }

  /** Nothing about a loose task matters to the queues. */
  lemma ChangeLoose(c: Config, s: Sys, s': Sys, loose: set<nat>, t: nat)
    requires Shaped(c, s) && Shaped(c, s') && Placed(c, s, loose) && t in loose && t < |s.tasks|
    requires s'.ready == s.ready && s'.wq == s.wq
    requires |s'.tasks| == |s.tasks| && forall u :: 0 <= u < |s.tasks| && u != t ==>
      s'.tasks[u] == s.tasks[u] && s'.pri[u] == s.pri[u]
    ensures Placed(c, s', loose)
  {
    forall p | 0 <= p < |s.ready| ensures ReadyQueue(s', loose, p, s.ready[p]) {
      assert ReadyQueue(s, loose, p, s.ready[p]);
    }
    forall o | 0 <= o < |s.wq| ensures WaitQueue(s', loose, o, s.wq[o]) {
      assert WaitQueue(s, loose, o, s.wq[o]);
    }
    forall o | 0 <= o < |s.wq| && InPriorityOrder(c, o) ensures ByPriority(s.wq[o], s'.pri) {
      OtherPriorities(s.wq[o], s.pri, s'.pri, t);
    }
  }

  /** Only the priorities of the entries matter to a queue's order. */
  lemma OtherPriorities(q: seq<nat>, pri: seq<nat>, pri': seq<nat>, t: nat)
    requires ByPriority(q, pri) && t !in q
    requires |pri'| == |pri| && forall u :: 0 <= u < |pri| && u != t ==> pri'[u] == pri[u]
    ensures ByPriority(q, pri')
  {
    assert forall i :: 0 <= i < |q| ==> q[i] in q && q[i] != t;
  }

  lemma FrontOrBack(q: seq<nat>, t: nat)
    requires NoDup(q) && t !in q
    ensures NoDup([t] + q) && NoDup(q + [t])
    ensures forall u :: (u in [t] + q <==> u == t || u in q) && (u in q + [t] <==> u == t || u in q)
  {
  }

  lemma EnreadyPlaced(c: Config, s: Sys, loose: set<nat>, t: nat, front: bool)
    requires Shaped(c, s) && Placed(c, s, loose)
    requires t < |s.tasks| && t in loose && s.tasks[t].st == Runnable
    ensures Placed(c, Enready(c, s, t, front), loose - {t})
  {
    var r := Enready(c, s, t, front);
    forall p | 0 <= p < |r.ready| ensures ReadyQueue(r, loose - {t}, p, r.ready[p]) {
      assert ReadyQueue(s, loose, p, s.ready[p]);
      if p == s.pri[t] {
        FrontOrBack(s.ready[p], t);
      }
    }
    forall o | 0 <= o < |r.wq| ensures WaitQueue(r, loose - {t}, o, r.wq[o]) {
      assert WaitQueue(s, loose, o, s.wq[o]);
    }
  }

  lemma EnwaitPlaced(c: Config, s: Sys, loose: set<nat>, t: nat, o: nat)
    requires Shaped(c, s) && Placed(c, s, loose)
    requires t < |s.tasks| && t in loose && s.tasks[t].st.Waiting? && s.tasks[t].st.w == Obj(o)
    ensures Placed(c, Enwait(c, s, t, o), loose - {t})
  {
    var q, r := s.wq[o], Enwait(c, s, t, o);
    assert WaitQueue(s, loose, o, q) && t !in q;
    hide NoDup;
    assert NoDup(r.wq[o]) && forall u :: u in r.wq[o] <==> u == t || u in q by {
      if InPriorityOrder(c, o) {
        InsertTpriMembers(q, t, s.pri);
      } else {
        FrontOrBack(q, t);
      }
    }
    assert InPriorityOrder(c, o) ==> ByPriority(r.wq[o], s.pri) by {
      if InPriorityOrder(c, o) {
        InsertTpriOrdered(q, t, s.pri);
      }
    }
    hide ByPriority;
    forall p | 0 <= p < |r.ready| ensures ReadyQueue(r, loose - {t}, p, r.ready[p]) {
      assert ReadyQueue(s, loose, p, s.ready[p]);
    }
    forall p | 0 <= p < |r.wq| ensures WaitQueue(r, loose - {t}, p, r.wq[p]) {
      assert WaitQueue(s, loose, p, s.wq[p]);
    }
  }

  /** Changes of a task that leave it linked, or unlinked, as it was. */
  lemma SameLink(c: Config, s: Sys, loose: set<nat>, t: nat, task: Task)
    requires Shaped(c, s) && Placed(c, s, loose) && t < |s.tasks| && task.bpri < TNUM_TPRI
    requires task.st == s.tasks[t].st || (!Linked(task.st) && !Linked(s.tasks[t].st))
      || (task.st.Waiting? && s.tasks[t].st.Waiting? && task.st.w == s.tasks[t].st.w)
    ensures task.st.Waiting? && task.st.w.Obj? ==> task.st.w.o < |c.objs|
    ensures Placed(c, SetTask(c, s, t, task), loose)
  {
    var r := SetTask(c, s, t, task);
    forall p | 0 <= p < |s.ready| ensures ReadyQueue(r, loose, p, s.ready[p]) {
      assert ReadyQueue(s, loose, p, s.ready[p]);
    }
    forall o | 0 <= o < |s.wq| ensures WaitQueue(r, loose, o, s.wq[o]) {
      assert WaitQueue(s, loose, o, s.wq[o]);
    }
  }

  /** A priority change that moves nothing: the task is in no queue or in one
    in arrival order. */
  lemma SetPriPlaced(c: Config, s: Sys, loose: set<nat>, t: nat, p: nat)
    requires Shaped(c, s) && Placed(c, s, loose) && t < |s.tasks| && p < TNUM_TPRI
    requires s.tasks[t].st != Runnable || t in loose
    requires forall o :: 0 <= o < |s.wq| && InPriorityOrder(c, o) ==> t !in s.wq[o]
    ensures Placed(c, SetPri(c, s, t, p), loose)
  {
    var r := SetPri(c, s, t, p);
    forall k | 0 <= k < |s.ready| ensures ReadyQueue(r, loose, k, s.ready[k]) {
      assert ReadyQueue(s, loose, k, s.ready[k]);
    }
    forall o | 0 <= o < |s.wq| ensures WaitQueue(r, loose, o, s.wq[o]) {
      assert WaitQueue(s, loose, o, s.wq[o]);
    }
    forall o | 0 <= o < |s.wq| && InPriorityOrder(c, o) ensures ByPriority(s.wq[o], s.pri[t := p]) {
      OtherPriorities(s.wq[o], s.pri, s.pri[t := p], t);
    }
  }

  lemma RotatePlaced(c: Config, s: Sys, loose: set<nat>, p: nat)
    requires Shaped(c, s) && Placed(c, s, loose) && p < TNUM_TPRI && s.ready[p] != []
    ensures Within(s.ready[p][1..] + [s.ready[p][0]], |s.tasks|)
    ensures Placed(c, SetReady(c, s, p, s.ready[p][1..] + [s.ready[p][0]]), loose)
  {
    var q := s.ready[p];
    var q' := q[1..] + [q[0]];
    assert ReadyQueue(s, loose, p, q);
    assert forall u :: u in q' <==> u in q by { assert q == [q[0]] + q[1..]; }
    var r := SetReady(c, s, p, q');
    forall k | 0 <= k < |r.ready| ensures ReadyQueue(r, loose, k, r.ready[k]) {
      assert ReadyQueue(s, loose, k, s.ready[k]);
    }
    forall o | 0 <= o < |s.wq| ensures WaitQueue(r, loose, o, s.wq[o]) {
      assert WaitQueue(s, loose, o, s.wq[o]);
    }
  }
}
