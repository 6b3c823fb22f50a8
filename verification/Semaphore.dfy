/** Semaphores: resources are neither lost nor invented, and tasks wait only while
  there are none. */
module Semaphore {
  import opened Options
  import opened Senders

  datatype Result = Ok | QOvr | TmOut | Blocked

  class Semaphore {
    const maxsem: nat
    const isemcnt: nat
    const tpri: bool
    var semcnt: nat
    var wait: seq<Sender<()>>   // wait_queue
    ghost var returned: nat     // resources returned since the initialisation
    ghost var acquired: nat     // resources acquired since then

    /** Tasks wait only while there is no resource, in the order of their priorities
      if the queue has it, and the resources add up. */
    ghost predicate Good()
      reads this
    {
      && semcnt <= maxsem && isemcnt <= maxsem
      && (wait != [] ==> semcnt == 0) && Ordered(tpri, wait)
      && semcnt + acquired == isemcnt + returned
    }

    constructor (isemcnt: nat, maxsem: nat, tpri: bool)
      requires isemcnt <= maxsem
      ensures Good() && semcnt == isemcnt && wait == [] && returned == acquired == 0
      ensures this.isemcnt == isemcnt && this.maxsem == maxsem && this.tpri == tpri
    {
      this.isemcnt, this.maxsem, this.tpri := isemcnt, maxsem, tpri;
      semcnt, wait, returned, acquired := isemcnt, [], 0, 0;
    }

    /** sig_sem: the resource goes to the first waiting task or is kept, unless
      there are already as many as there may be. */
    method SigSem() returns (result: Result, woken: Option<nat>)
      requires Good()
      modifies this
      ensures Good()
      ensures result == if old(wait) == [] && old(semcnt) == maxsem then QOvr else Ok
      ensures woken == if old(wait) != [] then Some(old(wait)[0].task) else None
      ensures wait == if old(wait) != [] then old(wait)[1..] else []
      ensures semcnt == if old(wait) == [] && result == Ok then old(semcnt) + 1 else old(semcnt)
      ensures returned == old(returned) + (if result == Ok then 1 else 0)
      ensures acquired == old(acquired) + (if woken.Some? then 1 else 0)
    {
      woken := None;
      if wait != [] {
        woken := Some(wait[0].task);
        wait := wait[1..];
        returned, acquired := returned + 1, acquired + 1;
        return Ok, woken;
      } else if semcnt < maxsem {
        semcnt := semcnt + 1;
        returned := returned + 1;
        return Ok, woken;
      } else {
        return QOvr, woken;
      }
    }

    /** wobj_queue_insert. */
    method Enqueue(x: Sender<()>)
      modifies `wait
      ensures wait == Insert(tpri, old(wait), x)
    {
      var q, k := wait, 0;
      while k < |q|
        invariant 0 <= k <= |q| && forall i :: 0 <= i < k ==> !Before(tpri, x, q[i])
      {
        if tpri && x.pri < q[k].pri {
          break;
        }
        k := k + 1;
      }
      InsertAt(tpri, q, x, k);
      wait := q[..k] + [x] + q[k..];
    }

    /** wai_sem and twai_sem, or pol_sem if not `mayWait`. */
    method WaiSem(task: nat, pri: nat, mayWait: bool) returns (result: Result)
      requires Good()
      modifies this
      ensures Good() && returned == old(returned)
      ensures result == if old(semcnt) >= 1 then Ok else if mayWait then Blocked else TmOut
      ensures semcnt == old(semcnt) - (if result == Ok then 1 else 0)
      ensures acquired == old(acquired) + (if result == Ok then 1 else 0)
      ensures wait == if result == Blocked then Insert(tpri, old(wait), Sender(task, pri, ())) else old(wait)
    {
      if semcnt >= 1 {
        semcnt := semcnt - 1;
        acquired := acquired + 1;
        return Ok;
      } else if !mayWait {
        return TmOut;
      } else {
        InsertOrdered(tpri, wait, Sender(task, pri, ()));
        Enqueue(Sender(task, pri, ()));
        return Blocked;
      }
    }

    /** The wait of a task ends early: wait_dequeue_wobj. */
    method Leave(task: nat)
      requires Good()
      modifies `wait
      ensures Good() && wait == Without(old(wait), task)
    {
      WithoutOrdered(tpri, wait, task);
      wait := Without(wait, task);
    }

    /** wobj_change_priority. */
    method Reprioritize(task: nat, pri: nat)
      requires Good()
      modifies `wait
      ensures Good() && wait == Repri(tpri, old(wait), task, pri)
    {
      RepriOrdered(tpri, wait, task, pri);
      hide Insert, Without, Renew, Find, Ordered;
      if tpri {
        var x := Find(wait, task);
        if x.Some? {
          wait := Without(wait, task);
          Enqueue(x.value.(pri := pri));
        }
      } else {
        wait := Renew(wait, task, pri);
      }
    }

    /** ini_sem. */
    method Init()
      requires Good()
      modifies this
      ensures Good() && semcnt == isemcnt && wait == [] && returned == acquired == 0
    {
      wait := [];
      semcnt, returned, acquired := isemcnt, 0, 0;
    }
  }
}
