/** Fixed-sized memory pools: blocks with an owner, a free list threaded through
  the blocks' indices, and blocks never used. */
module MemoryPool {
  import opened BlockList
  import opened Options
  import opened Queues
  import opened Senders

  const INDEX_NULL: nat := 0xffffffff
  const INDEX_ALLOC: nat := 0xfffffffe

  datatype Result = Ok | Par | TmOut | Blocked

  /** The index as a pointer: INDEX_NULL is none. */
  function Ptr(i: nat): Option<nat> { if i == INDEX_NULL then None else Some(i) }

  ghost function Ptrs(next: seq<nat>): (r: seq<Option<nat>>)
    ensures |r| == |next| && forall i :: 0 <= i < |next| ==> r[i] == Ptr(next[i])
  {
    seq(|next|, (i: nat) requires i < |next| => Ptr(next[i]))
  }

  lemma PtrsUpdate(next: seq<nat>, b: nat, x: nat)
    requires b < |next|
    ensures Ptrs(next[b := x]) == Ptrs(next)[b := Ptr(x)]
  {
  }

  /** Dividing the offset finds the block whose start it is. */
  lemma OffsetOf(off: nat, size: nat, b: nat)
    requires 0 < size
    ensures off == size * b <==> off % size == 0 && off / size == b
  {
    if off == size * b {
      MultipleMod(size, b);
    }
  }

  lemma MultipleMod(size: nat, b: nat)
    requires 0 < size
    ensures (size * b) % size == 0 && (size * b) / size == b
  {
    var q, r := (size * b) / size, (size * b) % size;
    assert size * b == size * q + r && 0 <= r < size;
    SameQuotient(size, b, q, r);
  }

  lemma SameQuotient(size: int, b: int, q: int, r: int)
    requires 0 <= r < size && size * b == size * q + r
    ensures b == q
  {
    Monotone(size, b - q);
    assert size * (b - q) == r;
  }

  lemma Monotone(size: int, k: int)
    requires 0 < size
    ensures k >= 1 ==> size * k >= size
    ensures k <= -1 ==> size * k <= 0 - size
  {
  }

  class MemoryPool {
    const blkcnt: nat
    const blksz: nat
    const mpf: nat                   // address of the area
    const tpri: bool
    var next: seq<nat>               // next of the blocks' control entries
    var fblkcnt: nat
    var unused: nat
    var freelist: nat
    var wait: seq<Sender<()>>        // wait_queue
    ghost var owner: map<nat, nat>   // the task each allocated block belongs to
    ghost var used: seq<nat>         // the allocated blocks
    ghost var free: seq<nat>         // the free list

    /** Allocated, free and never used blocks make up the area; the allocated ones
      are marked; nobody waits while a block is available, and those who do are in
      the order of their priorities if the queue has it. */
    ghost predicate Good()
      reads this
    {
      && |next| == blkcnt <= INDEX_ALLOC && 0 < blksz && unused <= blkcnt
      && Linked(Ptrs(next), Ptr(freelist), free) && Parted(used, free, unused)
      && (forall b :: b in used <==> b in owner)
      && (forall b :: b in used ==> b < blkcnt && next[b] == INDEX_ALLOC)
      && (forall b :: b in free ==> b < blkcnt && next[b] != INDEX_ALLOC)
      && fblkcnt == |free| + (blkcnt - unused)
      && (wait != [] ==> fblkcnt == 0) && Ordered(tpri, wait)
    }

    function Address(b: nat): nat { mpf + blksz * b }

    constructor (blkcnt: nat, blksz: nat, mpf: nat, tpri: bool)
      requires blkcnt <= INDEX_ALLOC && 0 < blksz
      ensures Good() && owner == map[] && wait == []
      ensures this.blkcnt == blkcnt && this.blksz == blksz && this.mpf == mpf && this.tpri == tpri
    {
      this.blkcnt, this.blksz, this.mpf, this.tpri := blkcnt, blksz, mpf, tpri;
      next := seq(blkcnt, _ => 0);
      fblkcnt, unused, freelist := blkcnt, 0, INDEX_NULL;
      wait, used, free, owner := [], [], [], map[];
    }

    /** get_mpf_block: a block that nobody has. */
    method GetMpfBlock(ghost task: nat) returns (blk: nat, ghost b: nat)
      requires Good() && fblkcnt > 0
      modifies `next, `fblkcnt, `unused, `freelist, `owner, `used, `free
      ensures Good() && b < blkcnt && b !in old(owner) && blk == mpf + blksz * b
      ensures owner == old(owner)[b := task] && fblkcnt == old(fblkcnt) - 1
    {
      hide NoDup, Within, Linked, Parted;
      First(Ptrs(next), Ptr(freelist), free);
      var blkidx;
      if freelist != INDEX_NULL {
        PopFront(Ptrs(next), Ptr(freelist), free);
        FromFree(used, free, unused);
        blkidx := freelist;
        assert free[0] in free && forall x :: x in free[1..] ==> x in free;
        freelist := next[blkidx];
        free := free[1..];
      } else {
        assert free == [];
        FromUnused(used, unused);
        blkidx := unused;
        unused := unused + 1;
      }
      blk := mpf + blksz * blkidx;
      b := blkidx;
      fblkcnt := fblkcnt - 1;
      PtrsUpdate(next, blkidx, INDEX_ALLOC);
      Other(Ptrs(next), Ptr(freelist), free, blkidx, Some(INDEX_ALLOC));
      next := next[blkidx := INDEX_ALLOC];
      used := [b] + used;
      owner := owner[b := task];
    }

    /** wobj_queue_insert. */
    method Enqueue(x: Sender<()>)
      modifies `wait
      ensures wait == Insert(tpri, old(wait), x)
    {
      var q, k := wait, 0;
      while k < |q|
        invariant 0 <= k <= |q| && forall i :: 0 <= i < k ==> !Before(tpri, x, q[i])
      {
        if tpri && x.pri < q[k].pri {
          break;
        }
        k := k + 1;
      }
      InsertAt(tpri, q, x, k);
      wait := q[..k] + [x] + q[k..];
    }

    /** get_mpf and tget_mpf, or pget_mpf if not `mayWait`. */
    method Get(task: nat, pri: nat, mayWait: bool) returns (result: Result, blk: nat, ghost b: nat)
      requires Good()
      modifies this
      ensures Good()
      ensures result == if old(fblkcnt) > 0 then Ok else if mayWait then Blocked else TmOut
      ensures result == Ok ==> b < blkcnt && b !in old(owner) && blk == mpf + blksz * b
      ensures result == Ok ==> owner == old(owner)[b := task]
      ensures result != Ok ==> owner == old(owner) && forall x: nat :: x in owner <==> x < blkcnt
      ensures wait == if result == Blocked then Insert(tpri, old(wait), Sender(task, pri, ())) else old(wait)
    {
      blk, b := 0, 0;
      if fblkcnt > 0 {
        blk, b := GetMpfBlock(task);
        return Ok, blk, b;
      }
      AllOwned();
      if !mayWait {
        return TmOut, blk, b;
      }
      InsertOrdered(tpri, wait, Sender(task, pri, ()));
      Enqueue(Sender(task, pri, ()));
      return Blocked, blk, b;
    }

    /** Without a free block every block has an owner. */
    lemma AllOwned()
      requires Good() && fblkcnt == 0
      ensures forall x: nat :: x in owner <==> x < blkcnt
    {
      forall x: nat ensures x in owner <==> x < blkcnt {
        Partition(used, free, unused, x);
      }
    }

    /** The search for the block with an address, and its release. */
    method RelAt(blk: nat) returns (result: Result, woken: Option<nat>)
      requires Good()
      modifies this
      ensures Good()
      ensures result == if exists b :: b in old(owner) && blk == Address(b) then Ok else Par
      ensures result == Par ==> woken == None && owner == old(owner) && wait == old(wait)
      ensures forall b :: b in old(owner) && blk == Address(b) ==>
        if old(wait) == [] then woken == None && owner == old(owner) - {b} && wait == []
        else woken == Some(old(wait)[0].task) && owner == old(owner)[b := old(wait)[0].task] && wait == old(wait)[1..]
    {
      if !(mpf <= blk) {
        assert forall b: nat :: blk != Address(b) by {
          forall b: nat ensures blk != Address(b) { assert blksz * b >= 0; }
        }
        return Par, None;
      }
      var blkoffset := blk - mpf;
      var blkidx := blkoffset / blksz;
      Addresses(blk);
      if !(blkoffset % blksz == 0) || !(blkidx < unused) || !(next[blkidx] == INDEX_ALLOC) {
        assert forall b :: b in owner ==> b in used && b < unused && next[b] == INDEX_ALLOC;
        return Par, None;
      }
      Partition(used, free, unused, blkidx);
      assert blkidx in owner && blk == Address(blkidx);
      if wait != [] {
        woken := Some(wait[0].task);
        owner := owner[blkidx := wait[0].task];
        wait := wait[1..];
        return Ok, woken;
      } else {
        GiveBack(blkidx);
        return Ok, None;
      }
    }

    /** rel_mpf: it succeeds exactly for the addresses of allocated blocks.  The
      block goes to the first waiting task, or becomes free. */
    method Rel(blk: nat) returns (result: Result, woken: Option<nat>)
      requires Good()
      modifies this
      ensures Good()
      ensures result == if exists b :: b in old(owner) && blk == mpf + blksz * b then Ok else Par
      ensures result == Par ==> woken == None && owner == old(owner) && wait == old(wait)
      ensures forall b :: b in old(owner) && blk == mpf + blksz * b ==>
        if old(wait) == [] then woken == None && owner == old(owner) - {b} && wait == []
        else woken == Some(old(wait)[0].task) && owner == old(owner)[b := old(wait)[0].task] && wait == old(wait)[1..]
    {
      result, woken := RelAt(blk);
    }

    /** The block that an address belongs to. */
    lemma Addresses(blk: nat)
      requires 0 < blksz && mpf <= blk
      ensures forall b: nat :: blk == Address(b) <==> (blk - mpf) % blksz == 0 && (blk - mpf) / blksz == b
    {
      forall b: nat ensures blk == Address(b) <==> (blk - mpf) % blksz == 0 && (blk - mpf) / blksz == b {
        OffsetOf(blk - mpf, blksz, b);
      }
    }

    /** The branch of rel_mpf that puts the block on the free list. */
    method GiveBack(blkidx: nat)
      requires Good() && blkidx in used && wait == []
      modifies `next, `fblkcnt, `freelist, `owner, `used, `free
      ensures Good() && owner == old(owner) - {blkidx}
    {
      hide NoDup, Within, Linked, Parted, Remove;
      First(Ptrs(next), Ptr(freelist), free);
      Unused(used, free, unused, blkidx);
      fblkcnt := fblkcnt + 1;
      PtrsUpdate(next, blkidx, freelist);
      PushFront(Ptrs(next), Ptr(freelist), free, blkidx);
      assert freelist != INDEX_ALLOC by {
        assert free != [] ==> free[0] in free;
      }
      next := next[blkidx := freelist];
      freelist := blkidx;
      used, free, owner := Remove(used, blkidx), [blkidx] + free, owner - {blkidx};
    }

    /** The wait of a task ends early: wait_dequeue_wobj. */
    method Leave(task: nat)
      requires Good()
      modifies `wait
      ensures Good() && wait == Without(old(wait), task)
    {
      WithoutOrdered(tpri, wait, task);
      wait := Without(wait, task);
    }

    /** wobj_change_priority. */
    method Reprioritize(task: nat, pri: nat)
      requires Good()
      modifies `wait
      ensures Good() && wait == Repri(tpri, old(wait), task, pri)
    {
      RepriOrdered(tpri, wait, task, pri);
      hide Insert, Without, Renew, Find, Ordered;
      if tpri {
        var x := Find(wait, task);
        if x.Some? {
          wait := Without(wait, task);
          Enqueue(x.value.(pri := pri));
        }
      } else {
        wait := Renew(wait, task, pri);
      }
    }

    /** ini_mpf. */
    method Init()
      requires Good()
      modifies this
      ensures Good() && owner == map[] && wait == []
    {
      wait := [];
      fblkcnt, unused, freelist := blkcnt, 0, INDEX_NULL;
      used, free, owner := [], [], map[];
    }

    /** The blocks are parted into allocated, free and never used ones, and fblkcnt
      counts the last two kinds. */
    lemma BlocksParted(b: nat)
      requires Good() && b < blkcnt
      ensures b < unused <==> b in owner || b in free
      ensures !(b in owner && b in free)
      ensures fblkcnt + |used| == blkcnt
    {
      Partition(used, free, unused, b);
    }
  }

  /** A block in use becomes free. */
  lemma Unused(used: seq<nat>, free: seq<nat>, unused: nat, b: nat)
    requires Parted(used, free, unused) && b in used
    ensures Parted(Remove(used, b), [b] + free, unused) && b !in free && b < unused
    ensures forall x :: x in Remove(used, b) <==> x in used && x != b
  {
    RemoveMembers(used, b);
    RemoveWithin(used, b, unused);
    var k := RemovePlace(used, b);
    assert used[k] == b;
  }
}
