/** The time event heap: an array binary heap of block numbers with back
  pointers from blocks to nodes, searched by moving an empty node. */
module TimeEventHeap {
  import opened EventTime
  import opened HeapOrder

  /** The heap's nodes are numbered 1..last; `heap[k]` is the block at node k,
    and `node[b]` and `evttim[b]` are the fields of block b. */
  class EventHeap {
    const heap: array<nat>
    const evttim: array<u32>
    const node: array<nat>
    var last: nat

    /** The unbounded times of the registered blocks. */
    ghost var due: map<nat, int>

    /** The times at the nodes. */
    ghost function Keys(): (key: seq<int>)
      reads this, heap
    {
      KeysOf(heap[..])
    }

    ghost predicate Shape() {
      heap.Length == node.Length + 1 == evttim.Length + 1 && evttim as object != node && evttim as object != heap
    }

    /** The block just beyond the last node. */
    ghost function Beyond(): (b: nat)
      reads this, heap
    {
      if last + 1 < heap.Length then heap[last + 1] else 0
    }

    ghost predicate Valid()
      reads this, heap, node
    {
      && Shape()
      && Linked(heap[..], node[..], last, due.Keys, 0)
      && Ordered(Keys(), last)
    }

    /** The stored 32-bit times stand for the true times, all in one window. */
    ghost predicate Timed(lo: int)
      reads this, evttim
    {
      forall b :: b in due ==>
        b < evttim.Length && evttim[b] == Wrap32(due[b]) && InWindow(lo, due[b])
    }

    constructor (n: nat)
      ensures Valid() && fresh(heap) && fresh(evttim) && fresh(node)
      ensures due == map[] && last == 0 && node.Length == n
    {
      heap := new nat[n + 1];
      evttim := new u32[n];
      node := new nat[n];
      last := 0;
      due := map[];
    }

    /** The top of the heap is due no later than any registered block. */
    lemma TopIsEarliest()
      requires Valid()
      ensures last == 0 <==> due == map[]
      ensures last > 0 ==> heap[1] in due && forall b :: b in due ==> due[heap[1]] <= due[b]
    {
      if last == 0 {
        assert forall b :: b !in due;
      } else {
        assert heap[..][1] in due;
        forall b | b in due ensures due[heap[1]] <= due[b] {
          var h, key := heap[..], Keys();
          assert h[node[..][b]] == b && h[1] in due;
          RootIsLeast(key, last, node[b]);
          assert key[1] == due[h[1]] && key[node[b]] == due[b];
        }
      }
    }

    /** Moves the block at node q into the empty node p. */
    method MoveNode(p: nat, q: nat, ghost reg: set<nat>, ghost key: seq<int>)
      requires Shape()
      requires 1 <= p <= last && 1 <= q <= last && p != q
      requires Linked(heap[..], node[..], last, reg, p) && Keyed(heap[..], due, last, p, key)
      modifies heap, node
      ensures Linked(heap[..], node[..], last, reg, q) && Keyed(heap[..], due, last, q, key[p := key[q]])
      ensures Beyond() == old(Beyond())
      ensures p != 1 ==> heap[1] == old(heap[1])
    {
      MoveLinked(heap[..], node[..], last, reg, p, q);
      ghost var h, n := heap[..], node[..];
      assert h[q] in reg;
      heap[p] := heap[q];
      node[heap[p]] := p;
      assert heap[..] == h[p := h[q]] && node[..] == n[h[q] := p];
    }

    /** The child of node p that is due first; the left one when both are due
      together. */
    method EarlierChild(p: nat, boundary: u32, ghost reg: set<nat>, ghost lo: int, ghost key: seq<int>)
      returns (child: nat)
      requires Shape()
      requires 1 <= p && 2 * p <= last
      requires Linked(heap[..], node[..], last, reg, p) && Keyed(heap[..], due, last, p, key)
      requires Timed(lo) && boundary == Wrap32(lo)
      ensures child / 2 == p && p < child <= last
      ensures heap[child] in due && key[child] == due[heap[child]] && ChildrenFrom(key, last, p, key[child])
    {
      child := 2 * p;
      assert heap[..][child] in reg && heap[child] in due;
      if child + 1 <= last {
        assert heap[..][child + 1] in reg && heap[child + 1] in due;
        OrderAgrees(lo, due[heap[child + 1]], due[heap[child]]);
      }
      if child + 1 <= last && EvttimLt(boundary, evttim[heap[child + 1]], evttim[heap[child]]) {
        child := child + 1;
      }
      forall k | 2 <= k <= last && k / 2 == p ensures key[child] <= key[k] {
        assert k == 2 * p || k == 2 * p + 1;
      }
    }

    /** Moves the empty node up to where a block with time t belongs. */
    method TmevtUp(start: nat, t: u32, boundary: u32, ghost reg: set<nat>, ghost d: int, ghost lo: int,
        ghost key0: seq<int>)
      returns (p: nat, ghost key: seq<int>)
      requires Shape()
      requires 1 <= start <= last
      requires Linked(heap[..], node[..], last, reg, start) && Keyed(heap[..], due, last, start, key0)
      requires OrderedAround(key0, last, start) && ChildrenFrom(key0, last, start, d)
      requires Timed(lo) && boundary == Wrap32(lo) && InWindow(lo, d) && t == Wrap32(d)
      modifies heap, node
      ensures 1 <= p <= last
      ensures Linked(heap[..], node[..], last, reg, p) && Keyed(heap[..], due, last, p, key)
      ensures OrderedAround(key, last, p) && ChildrenFrom(key, last, p, d) && ParentUpTo(key, last, p, d)
      ensures heap[1] == old(heap[1]) && Beyond() == old(Beyond())
      ensures p == 1 != start ==> heap[1] in due && d < due[heap[1]]
    {
      p, key := start, key0;
      while 1 < p
        invariant 1 <= p <= last
        invariant heap[1] == old(heap[1]) && Beyond() == old(Beyond())
        invariant p == 1 != start ==> heap[1] in due && d < due[heap[1]]
        invariant Linked(heap[..], node[..], last, reg, p) && Keyed(heap[..], due, last, p, key)
        invariant OrderedAround(key, last, p) && ChildrenFrom(key, last, p, d)
      {
        var parent := p / 2;
        assert heap[..][parent] in reg;
        OrderAgrees(lo, due[heap[parent]], d);
        if EvttimLe(boundary, evttim[heap[parent]], t) {
          break;
        }
        MoveUp(key, last, p, d);
        MoveNode(p, parent, reg, key);
        key := key[p := key[parent]];
        p := parent;
      }
    }

    /** Moves the empty node down to where a block with time t belongs. */
    method TmevtDown(start: nat, t: u32, boundary: u32, ghost reg: set<nat>, ghost d: int, ghost lo: int,
        ghost key0: seq<int>)
      returns (p: nat, ghost key: seq<int>)
      requires Shape()
      requires 1 <= start <= last + 1
      requires Linked(heap[..], node[..], last, reg, start) && Keyed(heap[..], due, last, start, key0)
      requires OrderedAround(key0, last, start) && ParentUpTo(key0, last, start, d)
      requires Timed(lo) && boundary == Wrap32(lo) && InWindow(lo, d) && t == Wrap32(d)
      modifies heap, node
      ensures start <= p <= last + 1 && (start <= last ==> p <= last)
      ensures Linked(heap[..], node[..], last, reg, p) && Keyed(heap[..], due, last, p, key)
      ensures OrderedAround(key, last, p) && ChildrenFrom(key, last, p, d) && ParentUpTo(key, last, p, d)
      ensures Beyond() == old(Beyond())
      ensures start != 1 ==> heap[1] == old(heap[1])
    {
      p, key := start, key0;
      while 2 * p <= last
        invariant start <= p <= last + 1 && (start <= last ==> p <= last)
        invariant Linked(heap[..], node[..], last, reg, p) && Keyed(heap[..], due, last, p, key)
        invariant OrderedAround(key, last, p) && ParentUpTo(key, last, p, d)
        invariant Beyond() == old(Beyond())
        invariant start != 1 ==> heap[1] == old(heap[1])
        decreases last + 1 - p
      {
        var child := EarlierChild(p, boundary, reg, lo, key);
        OrderAgrees(lo, d, due[heap[child]]);
        if EvttimLe(boundary, t, evttim[heap[child]]) {
          break;
        }
        MoveDown(key, last, p, child, d);
        MoveNode(p, child, reg, key);
        key := key[p := key[child]];
        p := child;
      }
    }

    /** The heap array has a node left for any block not yet registered. */
    lemma RoomFor(b: nat)
      requires Valid() && b < node.Length && b !in due
      ensures last < node.Length
    {
      LinkedCount(heap[..], node[..], last, due.Keys);
      BoundedCount(due.Keys + {b}, node.Length);
    }

    /** The new leaf as an empty node for block b. */
    lemma LeafOpened(b: nat, d: int, lo: int) returns (key: seq<int>)
      requires Valid() && Timed(lo) && b < node.Length && b !in due
      requires InWindow(lo, d) && evttim[b] == Wrap32(d)
      ensures last < node.Length
      ensures Linked(heap[..], node[..], last + 1, due.Keys, last + 1)
      ensures Keyed(heap[..], due[b := d], last + 1, last + 1, key)
      ensures OrderedAround(key, last + 1, last + 1) && ChildrenFrom(key, last + 1, last + 1, d)
      ensures due[b := d].Keys == due.Keys + {b}
      ensures forall c :: c in due[b := d] ==>
        c < evttim.Length && evttim[c] == Wrap32(due[b := d][c]) && InWindow(lo, due[b := d][c])
    {
      RoomFor(b);
      key := Keys();
    }

    /** Registers block b, whose time field already holds `d` wrapped. */
    method Insert(b: nat, boundary: u32, ghost d: int, ghost lo: int)
      requires Valid() && b < node.Length && b !in due
      requires Timed(lo) && boundary == Wrap32(lo) && InWindow(lo, d) && evttim[b] == Wrap32(d)
      modifies this, heap, node
      ensures Valid() && Timed(lo)
      ensures due == old(due)[b := d]
      ensures last == old(last) + 1
      ensures node[b] != 1 ==> old(last) > 0 && heap[1] == old(heap[1])
      ensures node[b] == 1 ==> heap[1] == b
    {
      ghost var key := LeafOpened(b, d, lo);
      ghost var reg := due.Keys;
      due := due[b := d];
      last := last + 1;
      var p;
      p, key := TmevtUp(last, evttim[b], boundary, reg, d, lo, key);
      Fill(p, b, reg, key);
    }

    /** Puts block b into the empty node p; beyond the last node this leaves
      the heap as it is. */
    method Fill(p: nat, b: nat, ghost reg: set<nat>, ghost key: seq<int>)
      requires Shape()
      requires 1 <= p <= last + 1 && p < heap.Length && b !in reg && b < node.Length
      requires due.Keys == if p <= last then reg + {b} else reg
      requires Linked(heap[..], node[..], last, reg, p) && Keyed(heap[..], due, last, p, key)
      requires OrderedAround(key, last, p)
      requires p <= last ==> ChildrenFrom(key, last, p, due[b]) && ParentUpTo(key, last, p, due[b])
      modifies heap, node
      ensures Valid()
      ensures heap[..] == old(heap[..])[p := b] && node[..] == old(node[..])[b := p]
    {
      hide Linked, Keyed, OrderedAround, ChildrenFrom, ParentUpTo;
      if p <= last {
        FillLinked(heap[..], node[..], last, reg, p, b);
        FillKeyed(heap[..], due, last, p, b, key);
        KeysDetermined(heap[..][p := b], key[p := due[b]]);
      } else {
        FillBeyond(heap[..], node[..], due, last, reg, b, key);
        KeysDetermined(heap[..][p := b], key);
      }
      ghost var h, n := heap[..], node[..];
      heap[p] := b;
      node[b] := p;
      assert heap[..] == h[p := b] && node[..] == n[b := p];
    }

    ghost function KeysOf(h: seq<nat>): (key: seq<int>)
      reads this
    {
      var l, d := last, due;
      seq(|h|, (k: nat) requires k < |h| => if 1 <= k <= l && h[k] in d then d[h[k]] else 0)
    }

    /** Any listing of the times at the nodes will do to show the heap order. */
    lemma KeysDetermined(h: seq<nat>, key: seq<int>)
      requires Keyed(h, due, last, 0, key) && Ordered(key, last)
      ensures Ordered(KeysOf(h), last)
    {
      var keys := KeysOf(h);
      assert forall k :: 1 <= k <= last ==> h[k] in due && keys[k] == key[k];
    }

    /** What is left of the heap when block b and the last block are taken out. */
    lemma TakenOut(b: nat, lo: int) returns (key: seq<int>)
      requires Valid() && Timed(lo) && b in due && last > 1
      ensures heap[last] in due && b < node.Length
      ensures Pending(heap[..], node[..], evttim[..], last - 1, due - {b}, node[b], heap[last],
                      due.Keys - {b, heap[last]}, due[heap[last]], lo, key)
    {
      var h, n, ev := heap[..], node[..], evttim[..];
      TakeOutLinked(h, n, last, due.Keys, b);
      var p := n[b];
      key := Keys();
      RemoveOrdered(key, last, p);
      assert ParentUpTo(key, last - 1, p, key[p]) && ChildrenFrom(key, last - 1, p, key[p]);
    }

    /** Moves the empty node from where a block was taken out to where block
      x belongs: up if x is due before the parent, down otherwise. */
    method Refit(start: nat, x: nat, boundary: u32, ghost reg: set<nat>, ghost d: int, ghost lo: int,
        ghost key0: seq<int>)
      returns (p: nat, ghost key: seq<int>)
      requires Shape() && x < node.Length
      requires 1 <= start <= last + 1
      requires Linked(heap[..], node[..], last, reg, start) && Keyed(heap[..], due, last, start, key0)
      requires OrderedAround(key0, last, start)
      requires exists e ::
        ParentUpTo(key0, last, start, e) && ChildrenFrom(key0, last, start, e) && (start == last + 1 ==> d == e)
      requires Timed(lo) && boundary == Wrap32(lo) && InWindow(lo, d) && evttim[x] == Wrap32(d)
      modifies heap, node
      ensures 1 <= p <= last + 1 && (p == last + 1 <==> start == last + 1)
      ensures Linked(heap[..], node[..], last, reg, p) && Keyed(heap[..], due, last, p, key)
      ensures OrderedAround(key, last, p) && ChildrenFrom(key, last, p, d) && ParentUpTo(key, last, p, d)
      ensures Beyond() == old(Beyond())
      ensures start != 1 ==> heap[1] == old(heap[1])
      ensures p == 1 != start ==> heap[1] in due && d < due[heap[1]]
    {
      p, key := start, key0;
      if 1 < p {
        assert heap[..][p / 2] in reg;
        OrderAgrees(lo, d, due[heap[p / 2]]);
      }
      if 1 < p && EvttimLt(boundary, evttim[x], evttim[heap[p / 2]]) {
        var parent := p / 2;
        MoveUp(key, last, p, d);
        MoveNode(p, parent, reg, key);
        p, key := TmevtUp(parent, evttim[x], boundary, reg, d, lo, key[p := key[parent]]);
      } else {
        p, key := TmevtDown(p, evttim[x], boundary, reg, d, lo, key);
      }
    }

    /** The heap after blocks were taken out: node `start` is empty, and block
      x, due at d, still has to be put back unless the empty node is beyond
      the last one. */
    ghost predicate Pending(h: seq<nat>, n: seq<nat>, ev: seq<u32>, l: nat, dues: map<nat, int>, start: nat, x: nat,
                            reg: set<nat>, d: int, lo: int, key: seq<int>)
    {
      && |h| == |n| + 1 == |ev| + 1 && l + 1 < |h| && 1 <= start <= l + 1
      && x == h[l + 1] < |n| && x !in reg
      && dues.Keys == (if start <= l then reg + {x} else reg)
      && (start <= l ==> dues[x] == d)
      && Linked(h, n, l, reg, start) && Keyed(h, dues, l, start, key)
      && OrderedAround(key, l, start)
      && (exists e :: ParentUpTo(key, l, start, e) && ChildrenFrom(key, l, start, e) && (start == l + 1 ==> d == e))
      && (forall c :: c in dues ==> c < |ev| && ev[c] == Wrap32(dues[c]) && InWindow(lo, dues[c]))
      && InWindow(lo, d) && ev[x] == Wrap32(d)
    }

    /** Reinserts the former last block x, starting from the empty node. */
    method Reseat(start: nat, ghost x: nat, boundary: u32, ghost reg: set<nat>, ghost d: int, ghost lo: int,
        ghost key0: seq<int>)
      requires Shape() && boundary == Wrap32(lo)
      requires Pending(heap[..], node[..], evttim[..], last, due, start, x, reg, d, lo, key0)
      modifies heap, node
      ensures Valid() && Timed(lo)
      ensures start != 1 ==> heap[1] == old(heap[1]) || (heap[1] == x && old(heap[1]) in due && d < due[old(heap[1])])
    {
      assert Timed(lo) by {
        forall b | b in due ensures b < evttim.Length && evttim[b] == Wrap32(due[b]) && InWindow(lo, due[b]) {
          assert evttim[..][b] == evttim[b];
        }
      }
      var p;
      ghost var key;
      p, key := Refit(start, heap[last + 1], boundary, reg, d, lo, key0);
      Fill(p, heap[last + 1], reg, key);
    }

    /** Removing the only block needs no search. */
    method DeleteOnly(b: nat)
      requires Valid() && b in due && last == 1
      modifies this
      ensures Valid()
      ensures due == old(due) - {b} && last == 0
    {
      assert heap[..][node[..][b]] == b;
      last := last - 1;
      due := due - {b};
    }

    /** Unregisters block b. */
    method Delete(b: nat, boundary: u32, ghost lo: int)
      requires Valid() && b in due
      requires Timed(lo) && boundary == Wrap32(lo)
      modifies this, heap, node
      ensures Valid() && Timed(lo)
      ensures due == old(due) - {b}
      ensures last == old(last) - 1
      ensures old(node[b]) != 1 ==> heap[1] == old(heap[1])
    {
      if last == 1 {
        DeleteOnly(b);
        return;
      }
      hide Pending, Ordered, Wrap32;
      ghost var key := TakenOut(b, lo);
      TopIsEarliest();
      ghost var x := heap[last];
      ghost var d, reg, rest := due[x], due.Keys - {b, x}, due - {b};
      last := last - 1;
      due := rest;
      Reseat(node[b], x, boundary, reg, d, lo, key);
    }

    /** Unregisters and returns the block at the top: the search starts at the
      top and can only go down. */
    method DeleteTop(boundary: u32, ghost lo: int) returns (top: nat)
      requires Valid() && last > 0
      requires Timed(lo) && boundary == Wrap32(lo)
      modifies this, heap, node
      ensures Valid() && Timed(lo)
      ensures top == old(heap[1]) && top in old(due)
      ensures due == old(due) - {top}
      ensures last == old(last) - 1
    {
      TopIsEarliest();
      top := heap[1];
      assert node[top] == 1 by { assert node[..][heap[..][1]] == 1; }
      if last == 1 {
        DeleteOnly(top);
        return;
      }
      hide Pending, Ordered, Wrap32;
      ghost var key := TakenOut(top, lo);
      ghost var x := heap[last];
      ghost var d, reg, rest := due[x], due.Keys - {top, x}, due - {top};
      last := last - 1;
      due := rest;
      Reseat(1, x, boundary, reg, d, lo, key);
    }
  }
}
