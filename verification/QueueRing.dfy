/** The circular doubly linked queue: rings of entries, as sequences. */
module QueueRing {

  class Entry {
    var next: Entry    // p_next
    var prev: Entry    // p_prev

    /** queue_initialize: an empty queue is its header alone. */
    constructor ()
      ensures next == this && prev == this
    {
      next, prev := this, this;
    }
  }

  function Succ(i: nat, n: nat): nat { if i + 1 < n then i + 1 else 0 }

  ghost predicate Joined(ring: seq<Entry>, i: nat)
    requires i < |ring|
    reads ring
  {
    ring[i].next == ring[Succ(i, |ring|)] && ring[Succ(i, |ring|)].prev == ring[i]
  }

  ghost predicate Distinct(ring: seq<Entry>) {
    forall i, j :: 0 <= i < j < |ring| ==> ring[i] != ring[j]
  }

  /** The queue whose header is ring[0] and whose entries follow in order. */
  ghost predicate IsQueue(ring: seq<Entry>)
    reads ring
  {
    ring != [] && Distinct(ring) && forall i :: 0 <= i < |ring| ==> Joined(ring, i)
  }

  /** The ring with e inserted before its k-th element; before the header is at
    the end. */
  function Inserted(ring: seq<Entry>, k: nat, e: Entry): seq<Entry>
    requires k < |ring|
  {
    if k == 0 then ring + [e] else ring[..k] + [e] + ring[k..]
  }

  /** A new queue is empty. */
  method Initialize() returns (q: Entry)
    ensures fresh(q) && IsQueue([q])
  {
    q := new Entry();
    assert Joined([q], 0);
  }

  function Pred(i: nat, n: nat): nat
    requires i < n
  {
    if i == 0 then n - 1 else i - 1
  }

  lemma Others(ring: seq<Entry>, k: nat)
    requires Distinct(ring) && k < |ring|
    ensures forall j :: 0 <= j < |ring| && j != k ==> ring[j] != ring[k]
  {
  }

  lemma CutDistinct(ring: seq<Entry>, k: nat)
    requires Distinct(ring) && k < |ring|
    ensures Distinct(ring[..k] + ring[k + 1..])
  {
  }

  lemma PutDistinct(ring: seq<Entry>, k: nat, e: Entry)
    requires Distinct(ring) && k <= |ring| && e !in ring
    ensures Distinct(ring[..k] + [e] + ring[k..])
  {
  }

  /** queue_insert_prev. */
  method InsertPrev(p: Entry, e: Entry, ghost ring: seq<Entry>, ghost k: nat)
    requires IsQueue(ring) && k < |ring| && p == ring[k] && e !in ring
    modifies p, p.prev, e
    ensures IsQueue(Inserted(ring, k, e))
  {
    hide Distinct, Inserted;
    ghost var n, r, b := |ring|, Inserted(ring, k, e), Pred(k, |ring|);
    Others(ring, b);
    Others(ring, k);
    InsertedAt(ring, k, e, 0);
    assert Joined(ring, b);
    e.prev := p.prev;
    e.next := p;
    p.prev.next := e;
    p.prev := e;
    assert forall j :: 0 <= j < n && j != b ==> ring[j].next == old(ring[j].next);
    assert forall j :: 0 <= j < n && j != k ==> ring[j].prev == old(ring[j].prev);
    forall i | 0 <= i < |r| ensures Joined(r, i) {
      InsertedAt(ring, k, e, i);
      InsertedAt(ring, k, e, Succ(i, |r|));
      if i < n {
        assert old(Joined(ring, i));
      }
      if i > 0 {
        assert old(Joined(ring, i - 1));
      }
      assert old(Joined(ring, b));
    }
    InsertedDistinct(ring, k, e);
  }

  lemma InsertedAt(ring: seq<Entry>, k: nat, e: Entry, i: nat)
    requires k < |ring| && i <= |ring|
    ensures |Inserted(ring, k, e)| == |ring| + 1
    ensures Inserted(ring, k, e)[i] ==
      if k == 0 then (if i == |ring| then e else ring[i])
      else if i < k then ring[i] else if i == k then e else ring[i - 1]
  {
  }

  lemma InsertedDistinct(ring: seq<Entry>, k: nat, e: Entry)
    requires k < |ring| && Distinct(ring) && e !in ring
    ensures Distinct(Inserted(ring, k, e))
  {
  }

  /** queue_insert_next: after the k-th element. */
  method InsertNext(p: Entry, e: Entry, ghost ring: seq<Entry>, ghost k: nat)
    requires IsQueue(ring) && k < |ring| && p == ring[k] && e !in ring
    modifies p, p.next, e
    ensures IsQueue(ring[..k + 1] + [e] + ring[k + 1..])
  {
    hide Distinct;
    ghost var n, r, a := |ring|, ring[..k + 1] + [e] + ring[k + 1..], Succ(k, |ring|);
    Others(ring, a);
    Others(ring, k);
    PutDistinct(ring, k + 1, e);
    assert Joined(ring, k);
    e.prev := p;
    e.next := p.next;
    p.next.prev := e;
    p.next := e;
    assert forall j :: 0 <= j < n && j != k ==> ring[j].next == old(ring[j].next);
    assert forall j :: 0 <= j < n && j != a ==> ring[j].prev == old(ring[j].prev);
    forall i | 0 <= i < |r| ensures Joined(r, i) {
      assert r[i] == if i <= k then ring[i] else if i == k + 1 then e else ring[i - 1];
      var s := Succ(i, |r|);
      assert r[s] == if s <= k then ring[s] else if s == k + 1 then e else ring[s - 1];
      if i < n {
        assert old(Joined(ring, i));
      }
      if i > 0 {
        assert old(Joined(ring, i - 1));
      }
      assert old(Joined(ring, k));
    }
  }

  /** queue_delete: the entry at index k, which is not the header. */
  method Delete(e: Entry, ghost ring: seq<Entry>, ghost k: nat)
    requires IsQueue(ring) && 0 < k < |ring| && e == ring[k]
    modifies e.prev, e.next
    ensures IsQueue(ring[..k] + ring[k + 1..])
  {
    hide Distinct;
    ghost var n, r := |ring|, ring[..k] + ring[k + 1..];
    Others(ring, k - 1);
    Others(ring, Succ(k, n));
    CutDistinct(ring, k);
    assert Joined(ring, k) && Joined(ring, k - 1);
    e.prev.next := e.next;
    e.next.prev := e.prev;
    assert forall j :: 0 <= j < n && j != k - 1 ==> ring[j].next == old(ring[j].next);
    assert forall j :: 0 <= j < n && j != Succ(k, n) ==> ring[j].prev == old(ring[j].prev);
    forall i | 0 <= i < |r| ensures Joined(r, i) {
      assert r[i] == if i < k then ring[i] else ring[i + 1];
      var s := Succ(i, |r|);
      assert r[s] == if s < k then ring[s] else ring[s + 1];
      assert old(Joined(ring, i)) && old(Joined(ring, i + 1)) && old(Joined(ring, k)) && old(Joined(ring, k - 1));
    }
  }

  /** queue_delete_next on the header: the first entry is taken out. */
  method DeleteNext(q: Entry, ghost ring: seq<Entry>) returns (e: Entry)
    requires IsQueue(ring) && q == ring[0] && |ring| > 1
    modifies q, q.next, q.next.next
    ensures e == ring[1] && IsQueue([ring[0]] + ring[2..])
  {
    hide Distinct;
    ghost var n, r := |ring|, [ring[0]] + ring[2..];
    Others(ring, 0);
    Others(ring, Succ(1, n));
    CutDistinct(ring, 1);
    assert ring[..1] + ring[2..] == r;
    assert Joined(ring, 0) && Joined(ring, 1);
    e := q.next;
    q.next := e.next;
    e.next.prev := q;
    assert forall j :: 0 < j < n ==> ring[j].next == old(ring[j].next);
    assert forall j :: 0 <= j < n && j != Succ(1, n) ==> ring[j].prev == old(ring[j].prev);
    forall i | 0 <= i < |r| ensures Joined(r, i) {
      assert r[i] == if i == 0 then ring[0] else ring[i + 1];
      var s := Succ(i, |r|);
      assert r[s] == if s == 0 then ring[0] else ring[s + 1];
      assert old(Joined(ring, 0)) && old(Joined(ring, 1)) && old(Joined(ring, i + 1));
    }
  }

  /** queue_empty, with its assertion. */
  method Empty(q: Entry, ghost ring: seq<Entry>) returns (empty: bool)
    requires IsQueue(ring) && q == ring[0]
    ensures empty <==> |ring| == 1
  {
    assert Joined(ring, 0);
    if q.next == q {
      assert q.prev == q;
      return true;
    }
    return false;
  }
}
