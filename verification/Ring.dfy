/** Ring buffers: `count` elements of an array from index `head` on, going on at
  index 0 after the last. */
module Ring {

  function Wrap(i: nat, size: nat): nat { if i < size then i else i - size }

  /** The index after i. */
  function Next(i: nat, size: nat): nat { if i + 1 >= size then 0 else i + 1 }

  ghost predicate In<T>(m: seq<T>, head: nat, count: nat) {
    count <= |m| && if |m| == 0 then head == 0 else head < |m|
  }

  /** The elements, oldest first. */
  ghost function Contents<T>(m: seq<T>, head: nat, count: nat): (r: seq<T>)
    requires In(m, head, count)
    ensures |r| == count && forall i :: 0 <= i < count ==> r[i] == m[Wrap(head + i, |m|)]
  {
    seq(count, (i: nat) requires i < count && In(m, head, count) => m[Wrap(head + i, |m|)])
  }

  /** Writing behind the newest element appends. */
  lemma Put<T>(m: seq<T>, head: nat, count: nat, x: T)
    requires In(m, head, count) && count < |m|
    ensures Wrap(head + count, |m|) < |m|
    ensures In(m[Wrap(head + count, |m|) := x], head, count + 1)
    ensures Contents(m[Wrap(head + count, |m|) := x], head, count + 1) == Contents(m, head, count) + [x]
    ensures Next(Wrap(head + count, |m|), |m|) == if count + 1 == |m| then head else Wrap(head + count + 1, |m|)
  {
  }

  /** Moving the head on drops the oldest element. */
  lemma Drop<T>(m: seq<T>, head: nat, count: nat)
    requires In(m, head, count) && 0 < count
    ensures In(m, Next(head, |m|), count - 1) && Contents(m, head, count)[0] == m[head]
    ensures Contents(m, Next(head, |m|), count - 1) == Contents(m, head, count)[1..]
    ensures Wrap(Next(head, |m|) + (count - 1), |m|) == if count == |m| then head else Wrap(head + count, |m|)
  {
  }

  /** Writing over the oldest element of a full buffer drops it and appends. */
  lemma Overwrite<T>(m: seq<T>, head: nat, x: T)
    requires In(m, head, |m|) && 0 < |m|
    ensures In(m[head := x], Next(head, |m|), |m|)
    ensures Contents(m[head := x], Next(head, |m|), |m|) == (Contents(m, head, |m|) + [x])[1..]
  {
    var a, b := Contents(m[head := x], Next(head, |m|), |m|), (Contents(m, head, |m|) + [x])[1..];
    forall i | 0 <= i < |m| ensures a[i] == b[i] {
      if i < |m| - 1 {
        assert b[i] == Contents(m, head, |m|)[i + 1];
      }
    }
  }
}
