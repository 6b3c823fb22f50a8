/** Queues of waiting tasks, each with its priority and its data. */
module Senders {
  import opened Options

  /** A waiting task with its priority and its data, such as those to be sent. */
  datatype Sender<T> = Sender(task: nat, pri: nat, data: T)

  /** Sender x goes before y: only in a queue in priority order, and only if it has
    the higher priority. */
  predicate Before<T>(tpri: bool, x: Sender<T>, y: Sender<T>) { tpri && x.pri < y.pri }

  /** Waiting senders queue in order of arrival, or by priority. */
  function Insert<T>(tpri: bool, q: seq<Sender<T>>, x: Sender<T>): seq<Sender<T>> {
    if q == [] then [x]
    else if Before(tpri, x, q[0]) then [x] + q
    else [q[0]] + Insert(tpri, q[1..], x)
  }

  /** The place of the new sender is before the first one it goes before. */
  lemma {:induction false} InsertAt<T>(tpri: bool, q: seq<Sender<T>>, x: Sender<T>, k: nat)
    requires k <= |q| && (forall i :: 0 <= i < k ==> !Before(tpri, x, q[i])) && (k < |q| ==> Before(tpri, x, q[k]))
    ensures Insert(tpri, q, x) == q[..k] + [x] + q[k..]
    decreases k
  {
    if k > 0 {
      InsertAt(tpri, q[1..], x, k - 1);
      assert q[..k] == [q[0]] + q[1..][..k - 1] && q[k..] == q[1..][k - 1..];
    }
  }

  function Without<T>(q: seq<Sender<T>>, task: nat): seq<Sender<T>> {
    if q == [] then [] else if q[0].task == task then q[1..] else [q[0]] + Without(q[1..], task)
  }

  function Datas<T>(q: seq<Sender<T>>): seq<T> {
    if q == [] then [] else [q[0].data] + Datas(q[1..])
  }

  lemma {:induction false} InsertLast<T>(tpri: bool, q: seq<Sender<T>>, x: Sender<T>)
    requires !tpri
    ensures Datas(Insert(tpri, q, x)) == Datas(q) + [x.data]
    decreases |q|
  {
    if q != [] {
      InsertLast(tpri, q[1..], x);
      assert Insert(tpri, q, x)[1..] == Insert(tpri, q[1..], x);
    }
  }

  lemma {:induction false} InsertData<T>(tpri: bool, q: seq<Sender<T>>, x: Sender<T>)
    ensures multiset(Datas(Insert(tpri, q, x))) == multiset(Datas(q)) + multiset{x.data}
    decreases |q|
  {
    if q != [] && !Before(tpri, x, q[0]) {
      InsertData(tpri, q[1..], x);
      var r := Insert(tpri, q[1..], x);
      assert Insert(tpri, q, x) == [q[0]] + r && ([q[0]] + r)[1..] == r;
      assert Datas([q[0]] + r) == [q[0].data] + Datas(r);
      hide Datas, Insert;
    } else {
      assert Insert(tpri, q, x) == [x] + q && ([x] + q)[1..] == q;
      assert Datas([x] + q) == [x.data] + Datas(q);
      hide Datas, Insert;
    }
  }

  lemma {:induction false} WithoutData<T>(q: seq<Sender<T>>, task: nat)
    ensures multiset(Datas(Without(q, task))) <= multiset(Datas(q))
    decreases |q|
  {
    if q != [] && q[0].task != task {
      WithoutData(q[1..], task);
      assert Without(q, task)[1..] == Without(q[1..], task);
    }
  }

  // ----- Streams -----

  /** What goes in and out of a stream by one call and by those after it. */
  lemma Regroup<T>(a: seq<T>, b: seq<T>, d: seq<T>, e: seq<T>, f: seq<T>, g: seq<T>, h: seq<T>)
    requires a + b == e + f && f + d == g + h
    ensures a + (b + d) == (e + g) + h
  {
    calc {
      a + (b + d);
      (a + b) + d;
      (e + f) + d;
      e + (f + d);
      e + (g + h);
      (e + g) + h;
    }
  }

  // ----- Priority order and changes of priority -----

  /** A queue in priority order has the higher priorities in front. */
  ghost predicate Ordered<T>(tpri: bool, q: seq<Sender<T>>) {
    tpri ==> forall i, j :: 0 <= i < j < |q| ==> q[i].pri <= q[j].pri
  }

  /** A waiting task comes last in a queue in order of arrival, and behind those of its
    priority or higher and before the others in a queue in priority order. */
  lemma {:induction false} InsertPlace<T>(tpri: bool, q: seq<Sender<T>>, x: Sender<T>) returns (k: nat)
    ensures k <= |q| && Insert(tpri, q, x) == q[..k] + [x] + q[k..]
    ensures !tpri ==> k == |q|
    ensures tpri ==> (forall i :: 0 <= i < k ==> q[i].pri <= x.pri) && (k < |q| ==> x.pri < q[k].pri)
    decreases |q|
  {
    if q == [] || Before(tpri, x, q[0]) {
      k := 0;
    } else {
      var k' := InsertPlace(tpri, q[1..], x);
      k := k' + 1;
      assert q[..k] == [q[0]] + q[1..][..k'] && q[k..] == q[1..][k'..];
    }
  }

  lemma InsertOrdered<T>(tpri: bool, q: seq<Sender<T>>, x: Sender<T>)
    requires Ordered(tpri, q)
    ensures Ordered(tpri, Insert(tpri, q, x)) && |Insert(tpri, q, x)| == |q| + 1
  {
    var k := InsertPlace(tpri, q, x);
    var r := q[..k] + [x] + q[k..];
    assert forall i :: 0 <= i < |r| ==> r[i] == if i < k then q[i] else if i == k then x else q[i - 1];
    hide Insert;
  }

  /** The place of a task in the queue; it is there at most once. */
  lemma {:induction false} WithoutPlace<T>(q: seq<Sender<T>>, task: nat) returns (k: nat)
    ensures k <= |q| && (forall i :: 0 <= i < k ==> q[i].task != task)
    ensures k < |q| ==> q[k].task == task
    ensures Without(q, task) == (if k < |q| then q[..k] + q[k + 1..] else q)
    ensures Find(q, task) == if k < |q| then Some(q[k]) else None
    decreases |q|
  {
    if q == [] || q[0].task == task {
      k := 0;
    } else {
      var k' := WithoutPlace(q[1..], task);
      k := k' + 1;
      Shifted(q, k);
    }
  }

  lemma Shifted<T>(q: seq<Sender<T>>, k: nat)
    requires 0 < k <= |q|
    ensures q == [q[0]] + q[1..]
    ensures k < |q| ==> [q[0]] + (q[1..][..k - 1] + q[1..][k..]) == q[..k] + q[k + 1..]
  {
  }

  lemma WithoutOrdered<T>(tpri: bool, q: seq<Sender<T>>, task: nat)
    requires Ordered(tpri, q)
    ensures Ordered(tpri, Without(q, task)) && |Without(q, task)| <= |q|
  {
    var k := WithoutPlace(q, task);
    hide Without;
    if k < |q| {
      var r := q[..k] + q[k + 1..];
      assert forall i :: 0 <= i < |r| ==> r[i] == q[if i < k then i else i + 1];
    }
  }

  function Find<T>(q: seq<Sender<T>>, task: nat): Option<Sender<T>> {
    if q == [] then None else if q[0].task == task then Some(q[0]) else Find(q[1..], task)
  }

  /** The queue with another priority of the task, at its old place. */
  function Renew<T>(q: seq<Sender<T>>, task: nat, pri: nat): seq<Sender<T>> {
    if q == [] then []
    else if q[0].task == task then [q[0].(pri := pri)] + q[1..]
    else [q[0]] + Renew(q[1..], task, pri)
  }

  /** wobj_change_priority: with its new priority a task gets a new place in a queue
    in priority order and keeps its place in any other. */
  function Repri<T>(tpri: bool, q: seq<Sender<T>>, task: nat, pri: nat): seq<Sender<T>> {
    if !tpri then Renew(q, task, pri)
    else match Find(q, task)
      case None => q
      case Some(x) => Insert(tpri, Without(q, task), x.(pri := pri))
  }

  lemma {:induction false} RenewAt<T>(q: seq<Sender<T>>, task: nat, pri: nat, k: nat)
    requires k <= |q| && (forall i :: 0 <= i < k ==> q[i].task != task) && (k < |q| ==> q[k].task == task)
    ensures Renew(q, task, pri) == if k < |q| then q[k := q[k].(pri := pri)] else q
    decreases k
  {
    if k > 0 {
      RenewAt(q[1..], task, pri, k - 1);
      assert q == [q[0]] + q[1..];
      assert k < |q| ==> q[k := q[k].(pri := pri)] == [q[0]] + q[1..][k - 1 := q[k].(pri := pri)];
    } else if q != [] {
      assert q[0 := q[0].(pri := pri)] == [q[0].(pri := pri)] + q[1..];
    }
  }

  lemma RepriOrdered<T>(tpri: bool, q: seq<Sender<T>>, task: nat, pri: nat)
    requires Ordered(tpri, q)
    ensures Ordered(tpri, Repri(tpri, q, task, pri)) && |Repri(tpri, q, task, pri)| == |q|
  {
    var k := WithoutPlace(q, task);
    if !tpri {
      RenewAt(q, task, pri, k);
    } else if k < |q| {
      WithoutOrdered(tpri, q, task);
      InsertOrdered(tpri, Without(q, task), q[k].(pri := pri));
    }
  }

  /** With its new priority the task is behind those of that priority or higher and
    before the others, or in its old place; nothing else changes. */
  lemma RepriPlace<T>(tpri: bool, q: seq<Sender<T>>, task: nat, pri: nat) returns (k: nat, j: nat)
    ensures k <= |q| && (k < |q| ==> q[k].task == task && j < |q|) && forall i :: 0 <= i < k ==> q[i].task != task
    ensures k == |q| ==> Repri(tpri, q, task, pri) == q
    ensures k < |q| ==> var rest := q[..k] + q[k + 1..]; var x := q[k].(pri := pri);
      && Repri(tpri, q, task, pri) == rest[..j] + [x] + rest[j..]
      && (!tpri ==> j == k)
      && (tpri ==> (forall i :: 0 <= i < j ==> rest[i].pri <= pri) && (j < |rest| ==> pri < rest[j].pri))
  {
    k := WithoutPlace(q, task);
    j := 0;
    hide Insert, Without, Find;
    if k < |q| {
      var rest := q[..k] + q[k + 1..];
      if tpri {
        j := InsertPlace(tpri, rest, q[k].(pri := pri));
      } else {
        j := k;
        RenewAt(q, task, pri, k);
        assert rest[..k] == q[..k] && rest[k..] == q[k + 1..];
      }
    } else if !tpri {
      RenewAt(q, task, pri, k);
    }
  }

  lemma DatasAt<T>(q: seq<Sender<T>>, i: nat)
    requires i < |q|
    ensures |Datas(q)| == |q| && Datas(q)[i] == q[i].data
    decreases i
  {
    DatasLength(q);
    if i > 0 {
      DatasAt(q[1..], i - 1);
    }
  }

  lemma {:induction false} DatasLength<T>(q: seq<Sender<T>>)
    ensures |Datas(q)| == |q|
    decreases |q|
  {
    if q != [] {
      DatasLength(q[1..]);
    }
  }

  /** In a queue in order of arrival a change of priority moves no data. */
  lemma RenewData<T>(q: seq<Sender<T>>, task: nat, pri: nat)
    ensures Datas(Renew(q, task, pri)) == Datas(q)
  {
    var k := WithoutPlace(q, task);
    RenewAt(q, task, pri, k);
    var r := Renew(q, task, pri);
    hide Renew, Without, Find;
    DatasLength(q);
    DatasLength(r);
    forall i | 0 <= i < |q| ensures Datas(r)[i] == Datas(q)[i] {
      DatasAt(q, i);
      DatasAt(r, i);
    }
  }

  lemma {:induction false} FoundData<T>(q: seq<Sender<T>>, task: nat)
    requires Find(q, task).Some?
    ensures multiset(Datas(q)) == multiset(Datas(Without(q, task))) + multiset{Find(q, task).value.data}
    decreases |q|
  {
    if q[0].task != task {
      FoundData(q[1..], task);
      assert Without(q, task)[1..] == Without(q[1..], task);
    }
  }

  /** Whatever its order, a change of priority changes no data. */
  lemma RepriData<T>(tpri: bool, q: seq<Sender<T>>, task: nat, pri: nat)
    ensures multiset(Datas(Repri(tpri, q, task, pri))) == multiset(Datas(q))
  {
    hide Datas, Insert, Without;
    if !tpri {
      RenewData(q, task, pri);
    } else if Find(q, task).Some? {
      FoundData(q, task);
      InsertData(tpri, Without(q, task), Find(q, task).value.(pri := pri));
    }
  }
}
