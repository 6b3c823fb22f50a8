/** The head of the highest non-empty ready queue, and how it moves when queues
  change. */
module ReadyTop {
  import opened Options
  import opened Queues
  import opened KernelState

  /** f is the first non-empty queue, or one past the last when all are empty. */
  ghost predicate IsFirst(ready: seq<seq<nat>>, f: nat) {
    && f <= |ready| && (forall k :: 0 <= k < f ==> ready[k] == [])
    && (f < |ready| ==> ready[f] != [])
  }

  ghost function TopAt(ready: seq<seq<nat>>, f: nat): Option<nat>
    requires IsFirst(ready, f)
  {
    if f < |ready| then Some(ready[f][0]) else None
  }

  lemma {:induction false} TopFromFirst(ready: seq<seq<nat>>, f: nat, p: nat)
    requires IsFirst(ready, f) && p <= f
    ensures TopFrom(ready, p) == TopAt(ready, f)
    decreases f - p
  {
    if p < f {
      TopFromFirst(ready, f, p + 1);
    }
  }

  lemma TopIs(ready: seq<seq<nat>>, f: nat)
    requires IsFirst(ready, f)
    ensures Top(ready) == TopAt(ready, f)
  {
    TopFromFirst(ready, f, 0);
  }

  lemma {:induction false} FirstFrom(ready: seq<seq<nat>>, p: nat) returns (f: nat)
    requires p <= |ready| && forall k :: 0 <= k < p ==> ready[k] == []
    ensures IsFirst(ready, f)
    decreases |ready| - p
  {
    if p < |ready| && ready[p] == [] {
      f := FirstFrom(ready, p + 1);
    } else {
      f := p;
    }
  }

  lemma FirstOf(ready: seq<seq<nat>>) returns (f: nat)
    ensures IsFirst(ready, f) && Top(ready) == TopAt(ready, f)
  {
    f := FirstFrom(ready, 0);
    TopIs(ready, f);
  }

  /** Putting t into queue p, at the front or at the back. */
  lemma TopAfterPut(ready: seq<seq<nat>>, p: nat, t: nat, front: bool)
    requires p < |ready|
    ensures var ready' := ready[p := if front then [t] + ready[p] else ready[p] + [t]];
      forall f :: IsFirst(ready, f) ==>
        Top(ready') == if p < f || (front && p == f) then Some(t) else Top(ready)
  {
    var ready' := ready[p := if front then [t] + ready[p] else ready[p] + [t]];
    forall f | IsFirst(ready, f)
      ensures Top(ready') == if p < f || (front && p == f) then Some(t) else Top(ready)
    {
      TopIs(ready, f);
      if p < f {
        assert ready[p] == [];
        TopIs(ready', p);
      } else {
        TopIs(ready', f);
      }
    }
  }

  /** The entries of queue p have priority p. */
  ghost predicate AllAt(q: seq<nat>, pri: seq<nat>, p: nat) {
    NoDup(q) && forall t :: t in q ==> t < |pri| && pri[t] == p
  }

  ghost predicate ByPri(ready: seq<seq<nat>>, pri: seq<nat>) {
    forall p :: 0 <= p < |ready| ==> AllAt(ready[p], pri, p)
  }

  /** The head of the first queue has that queue's number as its priority. */
  lemma TopQueue(ready: seq<seq<nat>>, pri: seq<nat>)
    requires ByPri(ready, pri) && Top(ready).Some?
    ensures var t := Top(ready).value;
      t < |pri| && pri[t] < |ready| && IsFirst(ready, pri[t]) && ready[pri[t]][0] == t
  {
    var f := FirstOf(ready);
    assert AllAt(ready[f], pri, f) && ready[f][0] in ready[f];
  }

  /** Taking t out of queue p matters only if t was the head of the first queue. */
  lemma TopAfterTake(ready: seq<seq<nat>>, p: nat, t: nat)
    requires p < |ready| && t in ready[p]
    ensures Top(ready).Some?
    ensures Top(ready) != Some(t) ==> Top(ready[p := Remove(ready[p], t)]) == Top(ready)
  {
    var f := FirstOf(ready);
    var k := RemovePlace(ready[p], t);
    assert f <= p;
    if Top(ready) != Some(t) {
      assert f == p ==> k > 0;
      TopIs(ready[p := Remove(ready[p], t)], f);
    }
  }

  /** Rotating queue p matters only if its head was the head of the first queue. */
  lemma TopAfterRotate(ready: seq<seq<nat>>, pri: seq<nat>, p: nat)
    requires p < |ready| && |ready[p]| > 1 && ByPri(ready, pri)
    ensures var q := ready[p];
      Top(ready[p := q[1..] + [q[0]]]) == if Top(ready) == Some(q[0]) then Some(q[1]) else Top(ready)
  {
    var q := ready[p];
    var f := FirstOf(ready);
    assert AllAt(ready[f], pri, f) && AllAt(q, pri, p) && q[0] in q && ready[f][0] in ready[f];
    TopIs(ready[p := q[1..] + [q[0]]], f);
  }

  lemma ByPriPut(ready: seq<seq<nat>>, pri: seq<nat>, t: nat, front: bool)
    requires t < |pri| && pri[t] < |ready| && ByPri(ready, pri) && t !in ready[pri[t]]
    ensures ByPri(ready[pri[t] := if front then [t] + ready[pri[t]] else ready[pri[t]] + [t]], pri)
  {
    var p := pri[t];
    var ready' := ready[p := if front then [t] + ready[p] else ready[p] + [t]];
    forall k | 0 <= k < |ready| ensures AllAt(ready'[k], pri, k) {
      assert AllAt(ready[k], pri, k);
    }
  }

  lemma ByPriTake(ready: seq<seq<nat>>, pri: seq<nat>, p: nat, t: nat)
    requires p < |ready| && ByPri(ready, pri)
    ensures ByPri(ready[p := Remove(ready[p], t)], pri)
    ensures t !in Remove(ready[p], t)
  {
    RemoveMembers(ready[p], t);
    var ready' := ready[p := Remove(ready[p], t)];
    forall k | 0 <= k < |ready| ensures AllAt(ready'[k], pri, k) {
      assert AllAt(ready[k], pri, k);
    }
  }

  lemma ByPriRotate(ready: seq<seq<nat>>, pri: seq<nat>, p: nat)
    requires p < |ready| && ready[p] != [] && ByPri(ready, pri)
    ensures ByPri(ready[p := ready[p][1..] + [ready[p][0]]], pri)
  {
    var q := ready[p];
    assert q == [q[0]] + q[1..];
    var ready' := ready[p := q[1..] + [q[0]]];
    forall k | 0 <= k < |ready| ensures AllAt(ready'[k], pri, k) {
      assert AllAt(ready[k], pri, k);
    }
  }

  /** The priority of a task in no ready queue does not matter to them. */
  lemma ByPriOther(ready: seq<seq<nat>>, pri: seq<nat>, t: nat, p: nat)
    requires ByPri(ready, pri) && t < |pri| && forall k :: 0 <= k < |ready| ==> t !in ready[k]
    ensures ByPri(ready, pri[t := p])
  {
    forall k | 0 <= k < |ready| ensures AllAt(ready[k], pri[t := p], k) {
      assert AllAt(ready[k], pri, k);
    }
  }

  /** make_runnable compares with the task to be scheduled only. */
  lemma SchedPut(ready: seq<seq<nat>>, pri: seq<nat>, t: nat)
    requires t < |pri| && pri[t] < |ready| && ByPri(ready, pri) && t !in ready[pri[t]]
    ensures Top(ready).Some? ==> Top(ready).value < |pri|
    ensures var ready' := ready[pri[t] := ready[pri[t]] + [t]];
      && ByPri(ready', pri)
      && Top(ready') == if Top(ready).None? || pri[t] < pri[Top(ready).value] then Some(t) else Top(ready)
  {
    ByPriPut(ready, pri, t, false);
    TopAfterPut(ready, pri[t], t, false);
    hide ByPri;
    var f := FirstOf(ready);
    if Top(ready).Some? {
      TopQueue(ready, pri);
      TopIs(ready, pri[Top(ready).value]);
    }
  }

  /** make_non_runnable looks no further than t's own queue unless that is empty. */
  lemma SchedTake(ready: seq<seq<nat>>, pri: seq<nat>, t: nat)
    requires t < |pri| && pri[t] < |ready| && ByPri(ready, pri) && t in ready[pri[t]]
    ensures Top(ready).Some?
    ensures var q' := Remove(ready[pri[t]], t); var ready' := ready[pri[t] := q'];
      && ByPri(ready', pri)
      && (Top(ready) != Some(t) ==> Top(ready') == Top(ready))
      && (Top(ready) == Some(t) && q' != [] ==> Top(ready') == Some(q'[0]))
  {
    ByPriTake(ready, pri, pri[t], t);
    TopAfterTake(ready, pri[t], t);
    if Top(ready) == Some(t) && Remove(ready[pri[t]], t) != [] {
      TopQueue(ready, pri);
      TopIs(ready[pri[t] := Remove(ready[pri[t]], t)], pri[t]);
    }
  }

  /** Where a priority change puts t in the ready queues. */
  function Moved(ready: seq<seq<nat>>, pri: seq<nat>, t: nat, p: nat, front: bool): seq<seq<nat>>
    requires t < |pri| && pri[t] < |ready| && p < |ready|
  {
    var ready1 := ready[pri[t] := Remove(ready[pri[t]], t)];
    ready1[p := if front then [t] + ready1[p] else ready1[p] + [t]]
  }

  lemma MovedByPri(ready: seq<seq<nat>>, pri: seq<nat>, t: nat, p: nat, front: bool)
    requires t < |pri| && pri[t] < |ready| && p < |ready| && ByPri(ready, pri)
    ensures ByPri(Moved(ready, pri, t, p, front), pri[t := p])
  {
    ByPriTake(ready, pri, pri[t], t);
    var ready1 := ready[pri[t] := Remove(ready[pri[t]], t)];
    forall k | 0 <= k < |ready| ensures t !in ready1[k] {
      assert AllAt(ready[k], pri, k);
    }
    hide ByPri, Remove;
    ByPriOther(ready1, pri, t, p);
    ByPriPut(ready1, pri[t := p], t, front);
  }

  /** change_priority compares with the task to be scheduled, and searches only
    when that task itself is lowered. */
  lemma SchedMove(ready: seq<seq<nat>>, pri: seq<nat>, t: nat, p: nat, front: bool)
    requires t < |pri| && pri[t] < |ready| && p < |ready| && ByPri(ready, pri) && t in ready[pri[t]]
    ensures Top(ready).Some? && Top(ready).value < |pri|
    ensures var r, u := Top(Moved(ready, pri, t, p, front)), Top(ready).value;
      && r.Some?
      && (u == t && p < pri[t] ==> r == Some(t))
      && (u != t ==> r == if p < pri[u] || (front && p == pri[u]) then Some(t) else Some(u))
  {
    var ready1 := ready[pri[t] := Remove(ready[pri[t]], t)];
    TopAfterTake(ready, pri[t], t);
    TopQueue(ready, pri);
    ByPriTake(ready, pri, pri[t], t);
    var f := FirstOf(ready1);
    if Top(ready) != Some(t) {
      TopQueue(ready1, pri);
      TopIs(ready1, pri[Top(ready).value]);
    } else {
      assert f >= pri[t];
    }
    hide Remove, ByPri, TopFrom;
    TopAfterPut(ready1, p, t, front);
    var ready2 := Moved(ready, pri, t, p, front);
    assert ready2[p] != [];
    var g := FirstOf(ready2);
  }
}
