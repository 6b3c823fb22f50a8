/** Facts about a binary heap with one empty node, on plain sequences.

  Nodes are numbered 1..last and node k / 2 is the parent of node k.  The
  kernel never swaps nodes: it moves the empty node until the waiting block
  fits, so the facts below are about a tree with a hole. */
module HeapOrder {

  /** Block b of `reg` sits at node[b], and the nodes other than the hole hold
    exactly the blocks of `reg`. */
  ghost predicate Linked(h: seq<nat>, node: seq<nat>, last: nat, reg: set<nat>, hole: nat) {
    && last < |h|
    && (forall k :: 1 <= k <= last && k != hole ==> h[k] in reg && h[k] < |node| && node[h[k]] == k)
    && (forall b :: b in reg ==> b < |node| && 1 <= node[b] <= last && node[b] != hole && h[node[b]] == b)
  }

  /** The empty node moves from p to q: the block at q goes to p. */
  lemma MoveLinked(h: seq<nat>, node: seq<nat>, last: nat, reg: set<nat>, p: nat, q: nat)
    requires Linked(h, node, last, reg, p)
    requires 1 <= p <= last && 1 <= q <= last && p != q
    ensures Linked(h[p := h[q]], node[h[q] := p], last, reg, q)
  {
    var h' := h[p := h[q]];
    var node' := node[h[q] := p];
    forall k | 1 <= k <= last && k != q
      ensures h'[k] in reg && h'[k] < |node'| && node'[h'[k]] == k
    {
      if k != p {
        assert node[h[k]] == k && node[h[q]] == q;
      }
    }
  }

  /** A block outside `reg` is put into the empty node. */
  lemma FillLinked(h: seq<nat>, node: seq<nat>, last: nat, reg: set<nat>, p: nat, b: nat)
    requires Linked(h, node, last, reg, p)
    requires 1 <= p <= last && b !in reg && b < |node|
    ensures Linked(h[p := b], node[b := p], last, reg + {b}, 0)
  {
  }

  /** Taking a block out empties its node. */
  lemma RemoveLinked(h: seq<nat>, node: seq<nat>, last: nat, reg: set<nat>, b: nat)
    requires Linked(h, node, last, reg, 0) && b in reg
    ensures Linked(h, node, last, reg - {b}, node[b])
  {
  }

  /** Dropping the last node with its block, when the hole is elsewhere. */
  lemma DropLast(h: seq<nat>, node: seq<nat>, last: nat, reg: set<nat>, p: nat)
    requires Linked(h, node, last, reg, p) && last >= 1 && p != last
    ensures Linked(h, node, last - 1, reg - {h[last]}, p)
  {
    forall k | 1 <= k <= last - 1 && k != p ensures h[k] in reg - {h[last]} {
      assert node[h[k]] == k && node[h[last]] == last;
    }
  }

  /** Taking out block b and dropping the last node with its block. */
  lemma TakeOutLinked(h: seq<nat>, node: seq<nat>, last: nat, reg: set<nat>, b: nat)
    requires Linked(h, node, last, reg, 0) && b in reg && last >= 1
    ensures 1 <= node[b] <= last && h[node[b]] == b && h[last] in reg
    ensures node[b] == last <==> h[last] == b
    ensures Linked(h, node, last - 1, reg - {b, h[last]}, node[b])
  {
    RemoveLinked(h, node, last, reg, b);
    if node[b] != last {
      DropLast(h, node, last, reg - {b}, node[b]);
      assert reg - {b} - {h[last]} == reg - {b, h[last]};
    } else {
      assert reg - {b} == reg - {b, h[last]};
    }
  }

  /** Heap order away from the hole: nodes that are neither the hole nor its
    children come no earlier than their parent, and the children of the hole
    no earlier than the hole's parent. */
  ghost predicate OrderedAround(key: seq<int>, last: nat, hole: nat) {
    && last < |key|
    && (forall k :: 2 <= k <= last && k != hole && k / 2 != hole ==> key[k / 2] <= key[k])
    && (forall k :: 2 <= k <= last && k / 2 == hole && 2 <= hole ==> key[hole / 2] <= key[k])
  }

  ghost predicate Ordered(key: seq<int>, last: nat) { OrderedAround(key, last, 0) }

  /** No child of the hole has a key below d. */
  ghost predicate ChildrenFrom(key: seq<int>, last: nat, hole: nat, d: int)
    requires last < |key|
  {
    forall k :: 2 <= k <= last && k / 2 == hole ==> d <= key[k]
  }

  /** The key of the hole's parent is at most d. */
  ghost predicate ParentUpTo(key: seq<int>, last: nat, hole: nat, d: int)
    requires last < |key|
  {
    2 <= hole <= last + 1 ==> key[hole / 2] <= d
  }

  lemma MoveUp(key: seq<int>, last: nat, p: nat, d: int)
    requires OrderedAround(key, last, p) && ChildrenFrom(key, last, p, d)
    requires 2 <= p <= last && d < key[p / 2]
    ensures OrderedAround(key[p := key[p / 2]], last, p / 2)
    ensures ChildrenFrom(key[p := key[p / 2]], last, p / 2, d)
  {
    var q := p / 2;
    var key' := key[p := key[q]];
    forall k | 2 <= k <= last && k != q && k / 2 != q ensures key'[k / 2] <= key'[k] {
      if k / 2 == p {
        assert key[q] <= key[k];
      }
    }
    forall k | 2 <= k <= last && k / 2 == q ensures d <= key'[k] && (2 <= q ==> key'[q / 2] <= key'[k]) {
      assert k != p ==> key[q] <= key[k];
      assert 2 <= q ==> key[q / 2] <= key[q];
    }
  }

  lemma MoveDown(key: seq<int>, last: nat, p: nat, c: nat, d: int)
    requires OrderedAround(key, last, p) && ParentUpTo(key, last, p, d)
    requires 1 <= p && 2 <= c <= last && c / 2 == p && key[c] < d
    requires ChildrenFrom(key, last, p, key[c])
    ensures OrderedAround(key[p := key[c]], last, c)
    ensures ParentUpTo(key[p := key[c]], last, c, d)
  {
    var key' := key[p := key[c]];
    forall k | 2 <= k <= last && k != c && k / 2 != c ensures key'[k / 2] <= key'[k] {
      if k / 2 == p {
        assert key[c] <= key[k];
      } else if k == p {
        assert key[p / 2] <= key[c];
      }
    }
    forall k | 2 <= k <= last && k / 2 == c ensures key'[c / 2] <= key'[k] {
      assert key[k / 2] <= key[k];
    }
  }

  lemma FillOrdered(key: seq<int>, last: nat, p: nat, d: int)
    requires OrderedAround(key, last, p) && 1 <= p <= last
    requires ChildrenFrom(key, last, p, d) && ParentUpTo(key, last, p, d)
    ensures Ordered(key[p := d], last)
  {
  }

  /** Removing the key of any node leaves a tree ordered around that node. */
  lemma RemoveOrdered(key: seq<int>, last: nat, p: nat)
    requires Ordered(key, last) && 1 <= p <= last
    ensures OrderedAround(key, last - 1, p)
    ensures ChildrenFrom(key, last - 1, p, key[p]) && ParentUpTo(key, last - 1, p, key[p])
  {
    forall k | 2 <= k <= last - 1 && k / 2 == p && 2 <= p ensures key[p / 2] <= key[k] {
      assert key[p / 2] <= key[p] && key[k / 2] <= key[k];
    }
  }

  /** `key` lists the times of the blocks at the nodes other than the hole. */
  ghost predicate Keyed(h: seq<nat>, due: map<nat, int>, last: nat, hole: nat, key: seq<int>) {
    && last < |h| && |key| == |h|
    && forall k :: 1 <= k <= last && k != hole ==> h[k] in due && key[k] == due[h[k]]
  }

  lemma FillKeyed(h: seq<nat>, due: map<nat, int>, last: nat, p: nat, b: nat, key: seq<int>)
    requires Keyed(h, due, last, p, key) && 1 <= p <= last && b in due
    requires OrderedAround(key, last, p) && ChildrenFrom(key, last, p, due[b]) && ParentUpTo(key, last, p, due[b])
    ensures p < |key|
    ensures Keyed(h[p := b], due, last, 0, key[p := due[b]]) && Ordered(key[p := due[b]], last)
  {
    FillOrdered(key, last, p, due[b]);
  }

  lemma FillBeyond(h: seq<nat>, node: seq<nat>, due: map<nat, int>, last: nat, reg: set<nat>, b: nat, key: seq<int>)
    requires Linked(h, node, last, reg, last + 1) && Keyed(h, due, last, last + 1, key)
    requires OrderedAround(key, last, last + 1)
    requires last + 1 < |h| && b !in reg && b < |node|
    ensures Linked(h[last + 1 := b], node[b := last + 1], last, reg, 0)
    ensures Keyed(h[last + 1 := b], due, last, 0, key) && Ordered(key, last)
  {
  }

  lemma {:induction false} RootIsLeast(key: seq<int>, last: nat, k: nat)
    requires Ordered(key, last) && 1 <= k <= last
    ensures key[1] <= key[k]
  {
    if k > 1 {
      RootIsLeast(key, last, k / 2);
    }
  }

  /** A heap has as many nodes as registered blocks. */
  lemma {:induction false} LinkedCount(h: seq<nat>, node: seq<nat>, last: nat, reg: set<nat>)
    requires Linked(h, node, last, reg, 0)
    ensures |reg| == last
  {
    if last == 0 {
      assert forall b :: b !in reg;
    } else {
      DropLast(h, node, last, reg, 0);
      LinkedCount(h, node, last - 1, reg - {h[last]});
      assert reg == (reg - {h[last]}) + {h[last]};
    }
  }

  lemma {:induction false} BoundedCount(s: set<nat>, n: nat)
    requires forall x :: x in s ==> x < n
    ensures |s| <= n
  {
    if n == 0 {
      assert s == {};
    } else {
      BoundedCount(s - {n - 1}, n - 1);
      assert s <= (s - {n - 1}) + {n - 1};
    }
  }
}
