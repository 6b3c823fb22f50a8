/** Queues of task numbers as sequences: deletion of an entry and insertion by
  priority. */
module Queues {

  ghost predicate NoDup(q: seq<nat>) {
    forall i, j :: 0 <= i < j < |q| ==> q[i] != q[j]
  }

  /** The entries are task numbers below n. */
  ghost predicate Within(q: seq<nat>, n: nat) {
    forall i :: 0 <= i < |q| ==> q[i] < n
  }

  ghost function Members(q: seq<nat>): set<nat> { set t | t in q }

  /** The queue is in order of the priorities `pri`, smaller first. */
  ghost predicate ByPriority(q: seq<nat>, pri: seq<nat>) {
    && Within(q, |pri|)
    && (forall i, j :: 0 <= i < j < |q| ==> pri[q[i]] <= pri[q[j]])
  }

  /** queue_delete: the queue without entry t. */
  function Remove(q: seq<nat>, t: nat): (r: seq<nat>)
  {
    if q == [] then []
    else if q[0] == t then q[1..]
    else [q[0]] + Remove(q[1..], t)
  }

  lemma RemoveWithin(q: seq<nat>, t: nat, n: nat)
    requires Within(q, n)
    ensures Within(Remove(q, t), n)
  {
    var k := RemovePlace(q, t);
  }

  /** Deletion closes the gap where t was. */
  lemma {:induction false} RemovePlace(q: seq<nat>, t: nat) returns (k: nat)
    ensures k <= |q| && t !in q[..k]
    ensures k == |q| ==> t !in q && Remove(q, t) == q
    ensures k < |q| ==> q[k] == t && Remove(q, t) == q[..k] + q[k + 1..]
    decreases |q|
  {
    if q == [] || q[0] == t {
      k := 0;
    } else {
      var k' := RemovePlace(q[1..], t);
      k := k' + 1;
      assert q == [q[0]] + q[1..];
      assert q[..k] == [q[0]] + q[1..][..k'];
      assert k < |q| ==> q[k + 1..] == q[1..][k' + 1..];
    }
  }

  lemma RemoveMembers(q: seq<nat>, t: nat)
    requires NoDup(q)
    ensures NoDup(Remove(q, t)) && (forall u :: u in Remove(q, t) <==> u in q && u != t)
  {
    var k := RemovePlace(q, t);
    if k < |q| {
      var r := q[..k] + q[k + 1..];
      forall u ensures u in r <==> u in q && u != t {
        if u in q && u != t {
          var i :| 0 <= i < |q| && q[i] == u;
          assert r[if i < k then i else i - 1] == u;
        }
      }
    }
  }

  lemma RemoveOrdered(q: seq<nat>, t: nat, pri: seq<nat>)
    requires ByPriority(q, pri)
    ensures ByPriority(Remove(q, t), pri)
  {
    var k := RemovePlace(q, t);
  }

  /** queue_insert_tpri: t goes before the first entry of lower priority. */
  function InsertTpri(q: seq<nat>, t: nat, pri: seq<nat>): (r: seq<nat>)
    requires t < |pri| && Within(q, |pri|)
  {
    if q == [] then [t]
    else if pri[t] < pri[q[0]] then [t] + q
    else [q[0]] + InsertTpri(q[1..], t, pri)
  }

  /** Insertion puts t before the first entry of lower priority and keeps the
    other entries as they are. */
  lemma {:induction false} InsertTpriPlace(q: seq<nat>, t: nat, pri: seq<nat>) returns (k: nat)
    requires t < |pri| && Within(q, |pri|)
    ensures k <= |q| && InsertTpri(q, t, pri) == q[..k] + [t] + q[k..]
    ensures forall i :: 0 <= i < k ==> pri[q[i]] <= pri[t]
    ensures k < |q| ==> pri[t] < pri[q[k]]
    decreases |q|
  {
    if q == [] || pri[t] < pri[q[0]] {
      k := 0;
    } else {
      var k' := InsertTpriPlace(q[1..], t, pri);
      k := k' + 1;
      assert q[..k] == [q[0]] + q[1..][..k'] && q[k..] == q[1..][k'..];
    }
  }

  lemma InsertTpriOrdered(q: seq<nat>, t: nat, pri: seq<nat>)
    requires t < |pri| && ByPriority(q, pri)
    ensures ByPriority(InsertTpri(q, t, pri), pri)
  {
    var k := InsertTpriPlace(q, t, pri);
    Splice(q, k, t);
  }

  lemma Splice(q: seq<nat>, k: nat, t: nat)
    requires k <= |q|
    ensures var r := q[..k] + [t] + q[k..];
      |r| == |q| + 1 && forall i :: 0 <= i < |r| ==> r[i] == if i < k then q[i] else if i == k then t else q[i - 1]
  {
  }

  lemma SpliceMembers(q: seq<nat>, k: nat, t: nat)
    requires k <= |q| && NoDup(q) && t !in q
    ensures var r := q[..k] + [t] + q[k..]; NoDup(r) && forall u :: u in r <==> u == t || u in q
  {
    Splice(q, k, t);
    var r := q[..k] + [t] + q[k..];
    forall u ensures u in r <==> u == t || u in q {
      if u in q {
        var i :| 0 <= i < |q| && q[i] == u;
        assert r[if i < k then i else i + 1] == u;
      }
      assert r[k] == t;
    }
  }

  lemma InsertTpriMembers(q: seq<nat>, t: nat, pri: seq<nat>)
    requires t < |pri| && Within(q, |pri|)
    requires NoDup(q) && t !in q
    ensures NoDup(InsertTpri(q, t, pri)) && (forall u :: u in InsertTpri(q, t, pri) <==> u == t || u in q)
  {
    var k := InsertTpriPlace(q, t, pri);
    SpliceMembers(q, k, t);
  }

  lemma InsertTpriWithin(q: seq<nat>, t: nat, pri: seq<nat>)
    requires t < |pri| && Within(q, |pri|)
    ensures Within(InsertTpri(q, t, pri), |pri|)
  {
    var k := InsertTpriPlace(q, t, pri);
    Splice(q, k, t);
  }
}
