/** The chain of the mutexes a task has locked, and the priority they give it. */
module MutexChain {
  import opened Options
  import opened Queues
  import opened KernelState

  /** The newest of the k oldest mutexes. */
  function At(ms: seq<nat>, k: nat): Option<nat>
    requires k <= |ms|
  {
    if k == 0 then None else Some(ms[k - 1])
  }

  /** The i-th oldest mutex leads to the one locked before it. */
  ghost predicate Leads(prev: seq<Option<nat>>, ms: seq<nat>, i: nat)
    requires i < |ms|
  {
    ms[i] < |prev| && prev[ms[i]] == At(ms, i)
  }

  /** `last` is the newest of the mutexes ms, and `prev` leads from each one to
    the one locked before it. */
  ghost predicate Chained(prev: seq<Option<nat>>, last: Option<nat>, ms: seq<nat>) {
    && last == At(ms, |ms|)
    && forall i :: 0 <= i < |ms| ==> Leads(prev, ms, i)
  }

  lemma ChainPush(prev: seq<Option<nat>>, last: Option<nat>, ms: seq<nat>, m: nat)
    requires Chained(prev, last, ms) && m !in ms && m < |prev|
    ensures Chained(prev[m := last], Some(m), ms + [m])
  {
    var prev', r := prev[m := last], ms + [m];
    forall i | 0 <= i < |ms| ensures Leads(prev', r, i) {
      assert Leads(prev, ms, i);
    }
  }

  /** The link of a mutex that is not on the chain does not matter to it. */
  lemma ChainOther(prev: seq<Option<nat>>, last: Option<nat>, ms: seq<nat>, m: nat, link: Option<nat>)
    requires Chained(prev, last, ms) && m !in ms && m < |prev|
    ensures Chained(prev[m := link], last, ms)
  {
    var prev' := prev[m := link];
    forall i | 0 <= i < |ms| ensures Leads(prev', ms, i) {
      assert Leads(prev, ms, i);
    }
  }

  lemma ChainPop(prev: seq<Option<nat>>, last: Option<nat>, ms: seq<nat>)
    requires Chained(prev, last, ms) && ms != []
    ensures last == Some(ms[|ms| - 1]) && last.value < |prev|
    ensures Chained(prev, prev[last.value], ms[..|ms| - 1])
  {
    var n := |ms| - 1;
    assert Leads(prev, ms, n);
    forall i | 0 <= i < n ensures Leads(prev, ms[..n], i) {
      assert Leads(prev, ms, i);
    }
  }

  /** The place a link is stored at: in the task or in the next newer mutex. */
  datatype Place = InTask | InMutex(m: nat)

  /** The link that leads to the k-th oldest mutex is in the one after it. */
  function PlaceOf(ms: seq<nat>, k: nat): Place
    requires k <= |ms|
  {
    if k == |ms| then InTask else InMutex(ms[k])
  }

  lemma RemoveAt(ms: seq<nat>, k: nat)
    requires NoDup(ms) && k < |ms|
    ensures Remove(ms, ms[k]) == ms[..k] + ms[k + 1..]
  {
    var j := RemovePlace(ms, ms[k]);
    assert j == k;
  }

  /** A mutex is cut out of the chain by redirecting the link that the next
    newer mutex has to it. */
  lemma ChainCut(prev: seq<Option<nat>>, last: Option<nat>, ms: seq<nat>, k: nat)
    requires Chained(prev, last, ms) && NoDup(ms) && k + 1 < |ms|
    ensures ms[k] < |prev| && ms[k + 1] < |prev|
    ensures Chained(prev[ms[k + 1] := prev[ms[k]]], last, ms[..k] + ms[k + 1..])
  {
    assert Leads(prev, ms, k) && Leads(prev, ms, k + 1);
    var r, prev' := ms[..k] + ms[k + 1..], prev[ms[k + 1] := prev[ms[k]]];
    forall i | 0 <= i < |r| ensures Leads(prev', r, i) {
      assert Leads(prev, ms, i) && Leads(prev, ms, i + 1);
    }
  }

  ghost predicate AllChained(prev: seq<Option<nat>>, last: seq<Option<nat>>, held: seq<seq<nat>>) {
    |last| == |held| && forall t :: 0 <= t < |held| ==> Chained(prev, last[t], held[t])
  }

  /** No other task has a mutex that u has. */
  ghost predicate Apart(held: seq<seq<nat>>, u: nat)
    requires u < |held|
  {
    forall v, x :: 0 <= v < |held| && v != u && x in held[u] ==> x !in held[v]
  }

  /** The mutexes that are locked know who has locked them; those of `freed` are
    being handed over. */
  ghost predicate Owned(loctsk: seq<Option<nat>>, held: seq<seq<nat>>, freed: set<nat>) {
    forall m :: 0 <= m < |loctsk| && m !in freed ==>
      (forall t :: 0 <= t < |held| ==> (m in held[t] <==> loctsk[m] == Some(t)))
      && (loctsk[m].Some? ==> loctsk[m].value < |held|)
  }

  // ----- The priority given by a chain -----

  lemma {:induction false} BoostedShift(c: Config, ms: seq<nat>, m: nat, b: nat)
    ensures Boosted(c, ms + [m], b) == Boosted(c, ms, Lower(c, m, b))
    ensures Boosted(c, ms + [m], b) == Lower(c, m, Boosted(c, ms, b))
  {
    var r := ms + [m];
    assert r[..|r| - 1] == ms;
    if ms != [] {
      var n := |ms| - 1;
      BoostedShift(c, ms[..n], m, b);
      assert Boosted(c, ms, b) == Lower(c, ms[n], Boosted(c, ms[..n], b));
    }
  }

  /** Going down the chain from the newest mutex computes the same minimum. */
  lemma BoostedDown(c: Config, ms: seq<nat>, k: nat, p: nat)
    requires 0 < k <= |ms|
    ensures Boosted(c, ms[..k], p) == Boosted(c, ms[..k - 1], Lower(c, ms[k - 1], p))
  {
    assert ms[..k] == ms[..k - 1] + [ms[k - 1]];
    BoostedShift(c, ms[..k - 1], ms[k - 1], p);
  }

  /** Wherever a mutex is in the chain, it counts the same. */
  lemma {:induction false} BoostedWithout(c: Config, ms: seq<nat>, k: nat, b: nat)
    requires k < |ms|
    ensures Boosted(c, ms, b) == Lower(c, ms[k], Boosted(c, ms[..k] + ms[k + 1..], b))
    decreases |ms|
  {
    var n := |ms| - 1;
    if k == n {
      assert ms[..k] + ms[k + 1..] == ms[..n];
    } else {
      var r := ms[..k] + ms[k + 1..];
      assert r[..|r| - 1] == ms[..n][..k] + ms[..n][k + 1..];
      assert r[|r| - 1] == ms[n];
      BoostedWithout(c, ms[..n], k, b);
    }
  }

  /** The priority needs to be changed for a mutex that is given up only if it is
    that mutex's ceiling. */
  lemma DropOnlyAtCeiling(c: Config, m: nat, p: nat, closed: nat)
    requires m < |c.objs| && p == Lower(c, m, closed)
    ensures !(c.objs[m].Ceiling? && c.objs[m].ceil == p) ==> p == closed
  {
  }

  /** Locking a mutex raises the priority to its ceiling, or not at all. */
  lemma AcquirePri(c: Config, s: Sys, t: nat, m: nat)
    requires Shaped(c, s) && t < |s.tasks| && IsMutex(c, m) && s.pri[t] == ClosedPri(c, s, t)
    ensures forall x :: x in s.held[t] + [m] ==> IsMutex(c, x)
    ensures var s1 := SetHeld(c, s, t, s.held[t] + [m]);
      if c.objs[m].Ceiling? && c.objs[m].ceil < s.pri[t]
      then c.objs[m].ceil < TNUM_TPRI && Reprio(c, s1, t) == KernelState.ChangePriority(c, s1, t, c.objs[m].ceil, true)
      else Reprio(c, s1, t) == s1
  {
    BoostedShift(c, s.held[t], m, s.tasks[t].bpri);
    assert forall x :: x in s.held[t] + [m] ==> IsMutex(c, x);
    hide KernelState.ChangePriority, Boosted;
  }
}
