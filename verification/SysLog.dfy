/** The system log: a ring that overwrites its oldest record and counts the
  records lost in a 32-bit counter. */
module SysLog {
  import opened Options
  import opened Ring

  const WIDTH: int := 0x1_0000_0000

  /** A count in the 32-bit counter. */
  function Wrapped(n: nat): nat { n % WIDTH }

  /** Counting on in the counter. */
  lemma CountOn(n: nat)
    ensures Wrapped(Wrapped(n) + 1) == Wrapped(n + 1)
  {
  }

  lemma CountNone()
    ensures Wrapped(0) == 0
  {
  }

  /** The result of a read is the count exactly if that fits in 31 bits. */
  lemma Fits(n: nat)
    ensures Signed(Wrapped(n)) == n <==> n < 0x8000_0000
  {
  }

  /** The counter as the signed result of a read. */
  function Signed(lost: nat): int { if lost < 0x8000_0000 then lost else lost - WIDTH }

  const E_OBJ: int := -41

  class SysLog<T(0)> {
    const size: nat                // ATTR_logBufferSize
    const buffer: array<T>
    var head: nat
    var tail: nat
    var count: nat
    var lost: nat                  // VAR_lost, 32 bits wide
    var logMask: set<nat>          // the priorities that are recorded
    ghost var history: seq<T>      // all records made
    ghost var oldest: nat          // index of the oldest record held
    ghost var next: nat            // index after the one last returned by a read
    ghost var returned: nat        // number of records returned
    ghost var reported: nat        // number of records that reads reported lost

    ghost predicate InRing()
      reads `head, `tail, `count, `history, `oldest, buffer
    {
      && 0 < size == buffer.Length && In(buffer[..], head, count)
      && tail == (if count == size then head else Wrap(head + count, size))
      && oldest + count == |history| && Contents(buffer[..], head, count) == history[oldest..]
    }

    /** The ring holds the newest records; those between the one last returned and
      the oldest one held are lost, and counted. */
    ghost predicate Good()
      reads this, buffer
    {
      InRing() && next <= oldest && lost == Wrapped(oldest - next) && returned + reported == next
    }

    constructor (size: nat, logMask: set<nat>)
      requires 0 < size
      ensures Good() && fresh(buffer) && this.size == size && history == [] && next == returned == reported == 0
      ensures this.logMask == logMask
    {
      hide Wrapped, Contents;
      CountNone();
      this.size := size;
      buffer := new T[size];
      head, tail, count, lost := 0, 0, 0, 0;
      this.logMask := logMask;
      history, oldest, next, returned, reported := [], 0, 0, 0, 0;
      new;
      assert history[oldest..] == [];
    }

    /** The part of eSysLog_write that records. */
    method Record(record: T)
      requires InRing()
      modifies `head, `tail, `count, `history, `oldest, buffer
      ensures InRing() && history == old(history) + [record]
      ensures count == if old(count) < size then old(count) + 1 else size
      ensures oldest == if old(count) < size then old(oldest) else old(oldest) + 1
    {
      hide Contents, Wrap;
      if count < size {
        Put(buffer[..], head, count, record);
      } else {
        Overwrite(buffer[..], head, record);
      }
      Appended(history, oldest, record);
      buffer[tail] := record;
      assert buffer[..] == old(buffer[..])[old(tail) := record];
      tail := tail + 1;
      if tail >= size {
        tail := 0;
      }
      history := history + [record];
      if count < size {
        count := count + 1;
      } else {
        head := tail;
        oldest := oldest + 1;
      }
    }

    static lemma Appended(h: seq<T>, k: nat, x: T)
      requires k <= |h|
      ensures (h + [x])[k..] == h[k..] + [x]
      ensures (h + [x])[k + 1..] == (h[k..] + [x])[1..]
    {
    }

    /** eSysLog_write: a record of a priority that the mask lets through is made. */
    method Write(priority: nat, record: T)
      requires Good()
      modifies this, buffer
      ensures Good() && logMask == old(logMask)
      ensures next == old(next) && returned == old(returned) && reported == old(reported)
      ensures history == if priority in logMask then old(history) + [record] else old(history)
      ensures count == if priority in logMask && old(count) < size then old(count) + 1 else old(count)
    {
      hide InRing, Wrapped;
      if priority in logMask {
        ghost var missing := oldest - next;
        var full := count == size;
        Bounds();
        Record(record);
        if full {
          CountOn(missing);
          assert oldest - next == missing + 1;
          lost := Wrapped(lost + 1);
        }
      }
    }

    lemma Bounds()
      requires InRing()
      ensures count <= size
    {
    }

    /** eSysLog_read: the record returned is the oldest one held.  Its index is that
      of the one returned before, plus 1, plus the number of records lost in
      between, and this number is the result if it fits in 31 bits. */
    method Read() returns (ercd: int, record: Option<T>)
      requires Good()
      modifies this
      ensures Good() && history == old(history) && logMask == old(logMask)
      ensures old(count) == 0 ==>
        ercd == E_OBJ && next == old(next) && count == 0 && lost == old(lost) && returned == old(returned) &&
          reported == old(reported)
      ensures old(count) > 0 ==> var missing := old(oldest) - old(next); var k := old(next) + missing;
        && k < |history| && record == Some(history[k]) && next == k + 1 && count == old(count) - 1 && lost == 0
        && (ercd == missing <==> missing < 0x8000_0000) && ercd == Signed(Wrapped(missing))
        && returned == old(returned) + 1 && reported == old(reported) + missing
    {
      hide InRing, Wrapped, Signed;
      if count > 0 {
        CountNone();
        Fits(oldest - next);
        returned, reported := returned + 1, reported + (oldest - next);
        var taken := TakeOut();
        record := Some(taken);
        ercd := Signed(lost);
        lost := 0;
        next := oldest;
        assert oldest - next == 0;
      } else {
        record := None;
        ercd := E_OBJ;
      }
    }

    /** The part of eSysLog_read that takes the oldest record out of the ring. */
    method TakeOut() returns (record: T)
      requires InRing() && count > 0
      modifies `head, `count, `oldest
      ensures InRing() && old(oldest) < |history| && record == history[old(oldest)]
      ensures oldest == old(oldest) + 1 && count == old(count) - 1
    {
      hide Contents;
      Drop(buffer[..], head, count);
      assert history[oldest..][0] == history[oldest] && history[oldest..][1..] == history[oldest + 1..];
      record := buffer[head];
      count := count - 1;
      head := head + 1;
      if head >= size {
        head := 0;
      }
      oldest := oldest + 1;
    }

    /** eSysLog_mask. */
    method Mask(mask: set<nat>)
      requires Good()
      modifies `logMask
      ensures Good() && logMask == mask
    {
      logMask := mask;
    }

    /** Every record made has been returned, is held, was reported lost or is lost
      and not yet reported. */
    lemma Accounting()
      requires Good()
      ensures |history| == returned + count + reported + (oldest - next)
    {
    }
  }

  /** A log of one record after 0x80000001 writes: 0x80000000 records are lost, and
    the read reports a negative number. */
  method CountOverflows<T(0)>(record: T) returns (log: SysLog<T>, ercd: int)
    ensures fresh(log) && log.Good() && log.reported == 0x8000_0000 && ercd == -0x8000_0000
  {
    hide Wrapped;
    log := new SysLog<T>(1, {0});
    var i := 0;
    while i < 0x8000_0001
      invariant 0 <= i <= 0x8000_0001 && fresh(log) && fresh(log.buffer) && log.Good() && log.size == 1
      invariant log.logMask == {0} && |log.history| == i && log.count == (if i == 0 then 0 else 1)
      invariant log.next == log.returned == log.reported == 0
    {
      log.Write(0, record);
      i := i + 1;
    }
    Halfway();
    var held;
    ercd, held := log.Read();
  }

  lemma Halfway()
    ensures Signed(Wrapped(0x8000_0000)) == -0x8000_0000
  {
  }
}
