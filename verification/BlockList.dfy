/** Singly linked lists of blocks of an array, linked through a `next` array. */
module BlockList {
  import opened Options
  import opened Queues

  function Nth(ms: seq<nat>, k: nat): Option<nat> { if k < |ms| then Some(ms[k]) else None }

  /** Block ms[i] leads to the one after it, or to none if it is the last. */
  ghost predicate Leads(next: seq<Option<nat>>, ms: seq<nat>, i: nat)
    requires i < |ms|
  {
    ms[i] < |next| && next[ms[i]] == Nth(ms, i + 1)
  }

  /** The list that starts with `first` consists of the blocks ms. */
  ghost predicate Linked(next: seq<Option<nat>>, first: Option<nat>, ms: seq<nat>) {
    first == Nth(ms, 0) && forall i :: 0 <= i < |ms| ==> Leads(next, ms, i)
  }

  lemma First(next: seq<Option<nat>>, first: Option<nat>, ms: seq<nat>)
    requires Linked(next, first, ms)
    ensures first == Nth(ms, 0)
  {
  }

  /** The link of a block outside the list does not matter to it. */
  lemma Other(next: seq<Option<nat>>, first: Option<nat>, ms: seq<nat>, b: nat, link: Option<nat>)
    requires Linked(next, first, ms) && b !in ms && b < |next|
    ensures Linked(next[b := link], first, ms)
  {
    var next' := next[b := link];
    forall i | 0 <= i < |ms| ensures Leads(next', ms, i) {
      assert Leads(next, ms, i);
    }
  }

  lemma PushFront(next: seq<Option<nat>>, first: Option<nat>, ms: seq<nat>, b: nat)
    requires Linked(next, first, ms) && b !in ms && b < |next|
    ensures Linked(next[b := first], Some(b), [b] + ms)
  {
    var next', r := next[b := first], [b] + ms;
    forall i | 0 <= i < |r| ensures Leads(next', r, i) {
      assert i > 0 ==> Leads(next, ms, i - 1);
    }
  }

  lemma PopFront(next: seq<Option<nat>>, first: Option<nat>, ms: seq<nat>)
    requires Linked(next, first, ms) && first.Some?
    ensures ms != [] && first == Some(ms[0]) && ms[0] < |next| && Linked(next, next[ms[0]], ms[1..])
  {
    assert Leads(next, ms, 0);
    var r := ms[1..];
    forall i | 0 <= i < |r| ensures Leads(next, r, i) {
      assert Leads(next, ms, i + 1);
    }
  }

  /** A block is put behind the k-th. */
  lemma InsertBehind(next: seq<Option<nat>>, first: Option<nat>, ms: seq<nat>, k: nat, b: nat)
    requires Linked(next, first, ms) && NoDup(ms) && 0 < k <= |ms| && b !in ms && b < |next|
    ensures ms[k - 1] < |next|
    ensures Linked(next[b := Nth(ms, k)][ms[k - 1] := Some(b)], first, ms[..k] + [b] + ms[k..])
  {
    assert Leads(next, ms, k - 1);
    var next', r := next[b := Nth(ms, k)][ms[k - 1] := Some(b)], ms[..k] + [b] + ms[k..];
    Splice(ms, k, b);
    forall i | 0 <= i < |r| ensures Leads(next', r, i) {
      if i < k {
        assert Leads(next, ms, i);
      } else if i > k {
        assert Leads(next, ms, i - 1);
      }
    }
  }

  // ----- Blocks in use, free blocks and blocks never used -----

  /** The blocks below `unused` are all in use or free, each once. */
  ghost predicate Parted(used: seq<nat>, free: seq<nat>, unused: nat) {
    && NoDup(used) && NoDup(free) && (forall b :: b in used ==> b !in free)
    && Within(used, unused) && Within(free, unused) && |used| + |free| == unused
  }

  /** The first free block is taken into use. */
  lemma FromFree(used: seq<nat>, free: seq<nat>, unused: nat)
    requires Parted(used, free, unused) && free != []
    ensures Parted([free[0]] + used, free[1..], unused)
    ensures free[0] < unused && free[0] !in used && free[0] !in free[1..]
  {
    assert free[0] in free;
    assert forall b :: b in free[1..] ==> b in free;
  }

  /** A block never used before is taken into use. */
  lemma FromUnused(used: seq<nat>, unused: nat)
    requires Parted(used, [], unused)
    ensures Parted([unused] + used, [], unused + 1) && unused !in used
  {
  }

  /** The first block in use becomes free. */
  lemma ToFree(used: seq<nat>, free: seq<nat>, unused: nat)
    requires Parted(used, free, unused) && used != []
    ensures Parted(used[1..], [used[0]] + free, unused)
    ensures used[0] < unused && used[0] !in free && used[0] !in used[1..]
  {
    assert used[0] in used;
    assert forall b :: b in used[1..] ==> b in used;
  }

  lemma PartedTail(used: seq<nat>, free: seq<nat>, unused: nat, b: nat)
    requires Parted([b] + used, free, unused)
    ensures NoDup(used) && b !in used && forall x :: x in used ==> x !in free
  {
    var q := [b] + used;
    assert forall i :: 0 <= i < |used| ==> used[i] == q[i + 1] && q[0] != q[i + 1];
    assert forall x :: x in used ==> x in q;
  }

  /** The order of the blocks in use does not matter. */
  lemma PartedPut(used: seq<nat>, free: seq<nat>, unused: nat, b: nat, k: nat)
    requires Parted([b] + used, free, unused) && k <= |used|
    ensures Parted(used[..k] + [b] + used[k..], free, unused)
  {
    PartedTail(used, free, unused, b);
    var q := [b] + used;
    assert forall i :: 0 <= i < |used| ==> used[i] == q[i + 1];
    SpliceMembers(used, k, b);
    Splice(used, k, b);
    assert q[0] < unused;
    hide NoDup;
  }

  /** There are at most n distinct numbers below n. */
  lemma {:induction false} TooMany(q: seq<nat>, n: nat)
    requires NoDup(q) && Within(q, n)
    ensures |q| <= n
    decreases n
  {
    if n > 0 {
      RemoveMembers(q, n - 1);
      var k := RemovePlace(q, n - 1);
      var r := Remove(q, n - 1);
      assert Within(r, n - 1) by {
        forall i | 0 <= i < |r| ensures r[i] < n - 1 {
          assert r[i] in r;
          var j :| 0 <= j < |q| && q[j] == r[i];
        }
      }
      TooMany(r, n - 1);
    }
  }

  /** Distinct numbers below n of which there are n are all of them. */
  lemma AllThere(q: seq<nat>, n: nat, b: nat)
    requires NoDup(q) && Within(q, n) && |q| == n && b < n
    ensures b in q
  {
    if b !in q {
      TooMany(q + [b], n);
    }
  }

  /** Every block below `unused` is in use or free, and not both. */
  lemma Partition(used: seq<nat>, free: seq<nat>, unused: nat, b: nat)
    requires Parted(used, free, unused)
    ensures b < unused <==> b in used || b in free
    ensures !(b in used && b in free)
  {
    if b < unused {
      assert forall i :: 0 <= i < |used| ==> used[i] in used;
      assert forall i :: 0 <= i < |free| ==> free[i] in free;
      var q := used + free;
      assert forall i :: 0 <= i < |q| ==> q[i] == if i < |used| then used[i] else free[i - |used|];
      AllThere(q, unused, b);
    }
  }
}
