/** Priority data queues: what a priority data queue is, and its sorted list of
  blocks. */
module PriDataQueue {
  import opened BlockList
  import opened Options
  import opened Queues
  import opened Senders

  datatype Config = Config(cnt: nat, maxdpri: int, tpri: bool)

  datatype Datum = Datum(pri: int, data: int)

  /** The data in the queue, highest priority first and oldest first among
    equals, and the waiting tasks. */
  datatype State = State(buf: seq<Datum>, snd: seq<Sender<Datum>>, rcv: seq<nat>)

  datatype Op =
    | Send(task: nat, pri: nat, datum: Datum, wait: bool)  // snd_pdq, tsnd_pdq; psnd_pdq without waiting
    | Receive(task: nat, wait: bool)                       // rcv_pdq, trcv_pdq; prcv_pdq without waiting
    | Leave(task: nat)                                     // a wait ended by a timeout, rel_wai or a termination
    | Reprioritize(task: nat, pri: nat)                    // a waiting sender's priority changes
    | Init                                                 // ini_pdq

  datatype Result = Ok | Par | TmOut | Blocked

  datatype Out = Out(result: Result, woken: Option<nat>, taken: Option<Datum>)

  /** The place of a new datum is before the first one of lower priority. */
  function Place(buf: seq<Datum>, x: Datum): (r: seq<Datum>) {
    if buf == [] then [x] else if buf[0].pri > x.pri then [x] + buf else [buf[0]] + Place(buf[1..], x)
  }

  ghost predicate Sorted(buf: seq<Datum>) {
    forall i, j :: 0 <= i < j < |buf| ==> buf[i].pri <= buf[j].pri
  }

  ghost predicate Valid(c: Config, s: State) {
    && |s.buf| <= c.cnt && Sorted(s.buf)
    && (s.snd != [] ==> |s.buf| == c.cnt && s.rcv == [])
    && (s.rcv != [] ==> s.buf == [])
    && Ordered(c.tpri, s.snd)
  }

  function Step(c: Config, s: State, op: Op): (State, Out) {
    match op
    case Send(task, pri, datum, wait) =>
      if !(1 <= datum.pri <= c.maxdpri) then (s, Out(Par, None, None))
      else if s.rcv != [] then (s.(rcv := s.rcv[1..]), Out(Ok, Some(s.rcv[0]), Some(datum)))
      else if |s.buf| < c.cnt then (s.(buf := Place(s.buf, datum)), Out(Ok, None, None))
      else if wait then (s.(snd := Insert(c.tpri, s.snd, Sender(task, pri, datum))), Out(Blocked, None, None))
      else (s, Out(TmOut, None, None))
    case Receive(task, wait) =>
      if s.buf != [] then
        if s.snd == [] then (s.(buf := s.buf[1..]), Out(Ok, None, Some(s.buf[0])))
        else (s.(buf := Place(s.buf[1..], s.snd[0].data), snd := s.snd[1..]),
          Out(Ok, Some(s.snd[0].task), Some(s.buf[0])))
      else if s.snd != [] then (s.(snd := s.snd[1..]), Out(Ok, Some(s.snd[0].task), Some(s.snd[0].data)))
      else if wait then (s.(rcv := s.rcv + [task]), Out(Blocked, None, None))
      else (s, Out(TmOut, None, None))
    case Leave(task) =>
      (s.(snd := Without(s.snd, task), rcv := Remove(s.rcv, task)), Out(Ok, None, None))
    case Reprioritize(task, pri) => (s.(snd := Repri(c.tpri, s.snd, task, pri)), Out(Ok, None, None))
    case Init => (State([], [], []), Out(Ok, None, None))
  }

  /** A new datum goes behind those of its priority or higher and before all of
    lower priority; the others keep their order. */
  lemma {:induction false} PlaceAt(buf: seq<Datum>, x: Datum, k: nat)
    requires k <= |buf| && (forall i :: 0 <= i < k ==> buf[i].pri <= x.pri) && (k < |buf| ==> x.pri < buf[k].pri)
    ensures Place(buf, x) == buf[..k] + [x] + buf[k..]
    decreases k
  {
    if k > 0 {
      PlaceAt(buf[1..], x, k - 1);
      assert buf[..k] == [buf[0]] + buf[1..][..k - 1] && buf[k..] == buf[1..][k - 1..];
    }
  }

  lemma {:induction false} PlaceOf(buf: seq<Datum>, x: Datum) returns (k: nat)
    ensures k <= |buf| && (forall i :: 0 <= i < k ==> buf[i].pri <= x.pri) && (k < |buf| ==> x.pri < buf[k].pri)
    decreases |buf|
  {
    if buf == [] || buf[0].pri > x.pri {
      k := 0;
    } else {
      k := PlaceOf(buf[1..], x);
      k := k + 1;
    }
  }

  lemma PlaceSorted(buf: seq<Datum>, x: Datum)
    requires Sorted(buf)
    ensures Sorted(Place(buf, x)) && |Place(buf, x)| == |buf| + 1
  {
    var k := PlaceOf(buf, x);
    PlaceAt(buf, x, k);
    var r := buf[..k] + [x] + buf[k..];
    assert forall i :: 0 <= i < |r| ==> r[i] == if i < k then buf[i] else if i == k then x else buf[i - 1];
    hide Place;
  }

  /** The list stays sorted, waiting senders mean a full queue, waiting receivers
    an empty one, and there are never both; the senders are in the order of their
    priorities if the queue is. */
  lemma StepValid(c: Config, s: State, op: Op)
    requires Valid(c, s)
    ensures Valid(c, Step(c, s, op).0)
  {
    hide Place, Insert, Without, Repri;
    match op {
      case Send(task, pri, datum, _) =>
        PlaceSorted(s.buf, datum);
        InsertOrdered(c.tpri, s.snd, Sender(task, pri, datum));
      case Receive(_, _) =>
        if s.buf != [] && s.snd != [] {
          PlaceSorted(s.buf[1..], s.snd[0].data);
        }
      case Leave(task) => WithoutOrdered(c.tpri, s.snd, task);
      case Reprioritize(task, pri) => RepriOrdered(c.tpri, s.snd, task, pri);
      case Init =>
    }
  }

  /** A receive takes the oldest datum of the highest priority in the buffer. */
  lemma ReceivesHighest(c: Config, s: State, op: Op)
    requires Valid(c, s) && op.Receive? && s.buf != []
    ensures var out := Step(c, s, op).1;
      out.result == Ok && out.taken == Some(s.buf[0]) && forall i :: 0 <= i < |s.buf| ==> s.buf[0].pri <= s.buf[i].pri
  {
  }

  /** The data of a priority in a queue, in order. */
  function OfPri(buf: seq<Datum>, p: int): seq<int> {
    if buf == [] then [] else (if buf[0].pri == p then [buf[0].data] else []) + OfPri(buf[1..], p)
  }

  function Own(x: Datum, p: int): seq<int> { if x.pri == p then [x.data] else [] }

  lemma FirstOff(buf: seq<Datum>, p: int)
    ensures OfPri(buf, p) == if buf == [] then [] else Own(buf[0], p) + OfPri(buf[1..], p)
  {
  }

  lemma {:induction false} OfPriConcat(a: seq<Datum>, b: seq<Datum>, p: int)
    ensures OfPri(a + b, p) == OfPri(a, p) + OfPri(b, p)
    decreases |a|
  {
    FirstOff(a, p);
    FirstOff(a + b, p);
    hide OfPri, Own;
    if a == [] {
      assert a + b == b;
      assert [] + OfPri(b, p) == OfPri(b, p);
    } else {
      OfPriConcat(a[1..], b, p);
      assert (a + b)[0] == a[0] && (a + b)[1..] == a[1..] + b;
      assert Own(a[0], p) + (OfPri(a[1..], p) + OfPri(b, p)) == Own(a[0], p) + OfPri(a[1..], p) + OfPri(b, p);
    }
  }

  /** Seen priority by priority, a new datum is appended. */
  lemma PlaceAppends(buf: seq<Datum>, x: Datum, p: int)
    requires Sorted(buf)
    ensures OfPri(Place(buf, x), p) == OfPri(buf, p) + Own(x, p)
  {
    var k := PlaceOf(buf, x);
    PlaceAt(buf, x, k);
    hide Place;
    assert buf == buf[..k] + buf[k..];
    OfPriConcat(buf[..k] + [x], buf[k..], p);
    OfPriConcat(buf[..k], [x], p);
    OfPriConcat(buf[..k], buf[k..], p);
    assert OfPri([x], p) == Own(x, p);
    if x.pri == p {
      NoneOf(buf[k..], p);
    }
  }

  lemma {:induction false} NoneOf(buf: seq<Datum>, p: int)
    requires Sorted(buf) && (buf != [] ==> buf[0].pri > p)
    ensures OfPri(buf, p) == []
    decreases |buf|
  {
    if buf != [] {
      NoneOf(buf[1..], p);
    }
  }

  /** The data of a priority in the queue and with the waiting senders. */
  function Stream(s: State, p: int): seq<int> { OfPri(s.buf, p) + OfPri(Datas(s.snd), p) }

  function Sent(op: Op, out: Out, p: int): seq<int> {
    if op.Send? && (out.result == Ok || out.result == Blocked) then Own(op.datum, p) else []
  }

  function Taken(out: Out, p: int): seq<int> { if out.taken.Some? then Own(out.taken.value, p) else [] }

  lemma SendFacts(c: Config, s: State, x: Sender<Datum>, p: int)
    requires Valid(c, s) && !c.tpri
    ensures OfPri(Place(s.buf, x.data), p) == OfPri(s.buf, p) + Own(x.data, p)
    ensures OfPri(Datas(Insert(c.tpri, s.snd, x)), p) == OfPri(Datas(s.snd), p) + Own(x.data, p)
    ensures s.rcv != [] || |s.buf| < c.cnt ==> OfPri(Datas(s.snd), p) == []
    ensures s.rcv != [] ==> OfPri(s.buf, p) == []
  {
    PlaceAppends(s.buf, x.data, p);
    InsertLast(c.tpri, s.snd, x);
    OfPriConcat(Datas(s.snd), [x.data], p);
    assert OfPri([x.data], p) == Own(x.data, p);
    hide Place, Insert;
  }

  lemma SendStream(c: Config, s: State, op: Op, p: int)
    requires Valid(c, s) && !c.tpri && op.Send?
    ensures var (s', out) := Step(c, s, op); Stream(s, p) + Sent(op, out, p) == Taken(out, p) + Stream(s', p)
  {
    hide Place, Insert, Own, Sorted, OfPri, Datas, Valid;
    SendFacts(c, s, Sender(op.task, op.pri, op.datum), p);
    var a, b, x := OfPri(s.buf, p), OfPri(Datas(s.snd), p), Own(op.datum, p);
    assert a + (b + x) == a + b + x;
  }

  lemma ReceiveFacts(c: Config, s: State, p: int)
    requires Valid(c, s)
    ensures OfPri(s.buf, p) == if s.buf == [] then [] else Own(s.buf[0], p) + OfPri(s.buf[1..], p)
    ensures OfPri(Datas(s.snd), p) == if s.snd == [] then [] else Own(s.snd[0].data, p) + OfPri(Datas(s.snd[1..]), p)
    ensures s.buf != [] && s.snd != [] ==>
      OfPri(Place(s.buf[1..], s.snd[0].data), p) == OfPri(s.buf[1..], p) + Own(s.snd[0].data, p)
  {
    hide Place, Own;
    FirstOff(s.buf, p);
    FirstOff(Datas(s.snd), p);
    if s.snd != [] {
      assert Datas(s.snd)[0] == s.snd[0].data && Datas(s.snd)[1..] == Datas(s.snd[1..]);
      if s.buf != [] {
        PlaceAppends(s.buf[1..], s.snd[0].data, p);
      }
    }
  }

  lemma ReceiveStream(c: Config, s: State, op: Op, p: int)
    requires Valid(c, s) && op.Receive?
    ensures var (s', out) := Step(c, s, op); Stream(s, p) + Sent(op, out, p) == Taken(out, p) + Stream(s', p)
  {
    hide Place, Own, Sorted, OfPri, Datas, Valid;
    ReceiveFacts(c, s, p);
    if s.buf != [] && s.snd != [] {
      var a, b, x, y := OfPri(s.buf[1..], p), OfPri(Datas(s.snd[1..]), p), Own(s.buf[0], p), Own(s.snd[0].data, p);
      assert (x + a) + (y + b) == x + ((a + y) + b);
    }
  }

  /** A priority data queue is one FIFO queue for each priority: every send appends
    to its priority's stream and every receive takes the first of one. */
  lemma FifoPerPriority(c: Config, s: State, op: Op, p: int)
    requires Valid(c, s) && !c.tpri && !op.Leave? && !op.Init?
    ensures var (s', out) := Step(c, s, op); Stream(s, p) + Sent(op, out, p) == Taken(out, p) + Stream(s', p)
  {
    match op {
      case Send(_, _, _, _) => SendStream(c, s, op, p);
      case Receive(_, _) => ReceiveStream(c, s, op, p);
      case Reprioritize(task, pri) => RenewData(s.snd, task, pri);
    }
  }

  // ----- Whole runs -----

  function Run(c: Config, s: State, ops: seq<Op>): State
    decreases |ops|
  {
    if ops == [] then s else Run(c, Step(c, s, ops[0]).0, ops[1..])
  }

  /** The data of priority p sent in a run, in order. */
  function AllSent(c: Config, s: State, ops: seq<Op>, p: int): seq<int>
    decreases |ops|
  {
    if ops == [] then []
    else var (s', out) := Step(c, s, ops[0]); Sent(ops[0], out, p) + AllSent(c, s', ops[1..], p)
  }

  function AllTaken(c: Config, s: State, ops: seq<Op>, p: int): seq<int>
    decreases |ops|
  {
    if ops == [] then []
    else var (s', out) := Step(c, s, ops[0]); Taken(out, p) + AllTaken(c, s', ops[1..], p)
  }

  /** Over any run without an early end of a wait or an initialisation, the data of
    each priority are received in the order in which they were sent. */
  lemma {:induction false} FifoPerPriorityRun(c: Config, s: State, ops: seq<Op>, p: int)
    requires Valid(c, s) && !c.tpri && forall op :: op in ops ==> !op.Leave? && !op.Init?
    ensures Stream(s, p) + AllSent(c, s, ops, p) == AllTaken(c, s, ops, p) + Stream(Run(c, s, ops), p)
    decreases |ops|
  {
    if ops != [] {
      hide Step, Valid, Stream, Sent, Taken;
      var (s', out) := Step(c, s, ops[0]);
      StepValid(c, s, ops[0]);
      FifoPerPriority(c, s, ops[0], p);
      FifoPerPriorityRun(c, s', ops[1..], p);
      Regroup(Stream(s, p), Sent(ops[0], out, p), AllSent(c, s', ops[1..], p), Taken(out, p), Stream(s', p),
              AllTaken(c, s', ops[1..], p), Stream(Run(c, s', ops[1..]), p));
    }
  }

  // ----- Who is served -----

  /** The receivers that a call makes wait, and those whose wait it ends with a datum. */
  function Joining(op: Op, out: Out): seq<nat> {
    if op.Receive? && out.result == Blocked then [op.task] else []
  }

  function Served(op: Op, out: Out): seq<nat> {
    if op.Send? && out.woken.Some? then [out.woken.value] else []
  }

  /** The same for the senders. */
  function Sending(op: Op, out: Out): seq<nat> {
    if op.Send? && out.result == Blocked then [op.task] else []
  }

  function Accepted(op: Op, out: Out): seq<nat> {
    if op.Receive? && out.woken.Some? then [out.woken.value] else []
  }

  function Tasks(q: seq<Sender<Datum>>): (r: seq<nat>)
    ensures |r| == |q| && forall i :: 0 <= i < |q| ==> r[i] == q[i].task
  {
    seq(|q|, (i: nat) requires i < |q| => q[i].task)
  }

  lemma TasksFirst(q: seq<Sender<Datum>>)
    requires q != []
    ensures Tasks(q) == [q[0].task] + Tasks(q[1..])
  {
  }

  lemma TasksLast(tpri: bool, q: seq<Sender<Datum>>, x: Sender<Datum>)
    requires !tpri
    ensures Tasks(Insert(tpri, q, x)) == Tasks(q) + [x.task]
  {
    var k := InsertPlace(tpri, q, x);
    hide Insert;
  }

  lemma TasksRenewed(q: seq<Sender<Datum>>, task: nat, pri: nat)
    ensures Tasks(Renew(q, task, pri)) == Tasks(q)
  {
    var k := WithoutPlace(q, task);
    RenewAt(q, task, pri, k);
    hide Renew, Without, Find;
  }

  /** Waiting receivers are served first come, first served: the one whose wait a send
    ends is the first in the queue and gets the datum that is sent. */
  lemma ServeStep(c: Config, s: State, op: Op)
    requires Valid(c, s) && !op.Leave? && !op.Init?
    ensures var (s', out) := Step(c, s, op);
      && s.rcv + Joining(op, out) == Served(op, out) + s'.rcv
      && (Served(op, out) != [] ==> out.taken == Some(op.datum))
  {
    hide Insert, Place, Repri;
    assert s.rcv != [] ==> s.rcv == [s.rcv[0]] + s.rcv[1..];
  }

  /** Waiting senders are too, in a queue in order of arrival. */
  lemma AcceptStep(c: Config, s: State, op: Op)
    requires Valid(c, s) && !c.tpri && !op.Leave? && !op.Init?
    ensures var (s', out) := Step(c, s, op); Tasks(s.snd) + Sending(op, out) == Accepted(op, out) + Tasks(s'.snd)
  {
    hide Tasks, Insert, Without, Renew, Ordered, Place;
    match op {
      case Send(task, pri, datum, _) => TasksLast(c.tpri, s.snd, Sender(task, pri, datum));
      case Receive(_, _) =>
        if s.snd != [] {
          TasksFirst(s.snd);
        }
      case Reprioritize(task, pri) => TasksRenewed(s.snd, task, pri);
      case _ =>
    }
  }

  function AllJoining(c: Config, s: State, ops: seq<Op>): seq<nat>
    decreases |ops|
  {
    if ops == [] then []
    else var (s', out) := Step(c, s, ops[0]); Joining(ops[0], out) + AllJoining(c, s', ops[1..])
  }

  function AllServed(c: Config, s: State, ops: seq<Op>): seq<nat>
    decreases |ops|
  {
    if ops == [] then []
    else var (s', out) := Step(c, s, ops[0]); Served(ops[0], out) + AllServed(c, s', ops[1..])
  }

  function AllSending(c: Config, s: State, ops: seq<Op>): seq<nat>
    decreases |ops|
  {
    if ops == [] then []
    else var (s', out) := Step(c, s, ops[0]); Sending(ops[0], out) + AllSending(c, s', ops[1..])
  }

  function AllAccepted(c: Config, s: State, ops: seq<Op>): seq<nat>
    decreases |ops|
  {
    if ops == [] then []
    else var (s', out) := Step(c, s, ops[0]); Accepted(ops[0], out) + AllAccepted(c, s', ops[1..])
  }

  /** Over any run without an early end of a wait or an initialisation, the receivers
    waiting at the start followed by those that came to wait are those served
    followed by those still waiting, in the same order. */
  lemma {:induction false} ServeRun(c: Config, s: State, ops: seq<Op>)
    requires Valid(c, s) && forall op :: op in ops ==> !op.Leave? && !op.Init?
    ensures s.rcv + AllJoining(c, s, ops) == AllServed(c, s, ops) + Run(c, s, ops).rcv
    decreases |ops|
  {
    if ops != [] {
      hide Step, Valid, Joining, Served;
      var (s', out) := Step(c, s, ops[0]);
      StepValid(c, s, ops[0]);
      ServeStep(c, s, ops[0]);
      ServeRun(c, s', ops[1..]);
      Regroup(s.rcv, Joining(ops[0], out), AllJoining(c, s', ops[1..]), Served(ops[0], out), s'.rcv,
              AllServed(c, s', ops[1..]), Run(c, s', ops[1..]).rcv);
    }
  }

  /** Likewise for the senders of a queue in order of arrival. */
  lemma {:induction false} AcceptRun(c: Config, s: State, ops: seq<Op>)
    requires Valid(c, s) && !c.tpri && forall op :: op in ops ==> !op.Leave? && !op.Init?
    ensures Tasks(s.snd) + AllSending(c, s, ops) == AllAccepted(c, s, ops) + Tasks(Run(c, s, ops).snd)
    decreases |ops|
  {
    if ops != [] {
      hide Step, Valid, Sending, Accepted, Tasks;
      var (s', out) := Step(c, s, ops[0]);
      StepValid(c, s, ops[0]);
      AcceptStep(c, s, ops[0]);
      AcceptRun(c, s', ops[1..]);
      Regroup(Tasks(s.snd), Sending(ops[0], out), AllSending(c, s', ops[1..]), Accepted(ops[0], out), Tasks(s'.snd),
              AllAccepted(c, s', ops[1..]), Tasks(Run(c, s', ops[1..]).snd));
    }
  }

  /** When a call succeeds, waits or is refused, and what an early end of a wait does. */
  lemma Answers(c: Config, s: State, op: Op)
    requires Valid(c, s)
    ensures var (s', out) := Step(c, s, op);
      && (op.Send? && (op.datum.pri < 1 || op.datum.pri > c.maxdpri) ==> out.result == Par)
      && (op.Send? && 1 <= op.datum.pri <= c.maxdpri ==>
        out.result == if s.rcv != [] || |s.buf| < c.cnt then Ok else if op.wait then Blocked else TmOut)
      && (op.Receive? ==>
        out.result == if s.buf != [] || s.snd != [] then Ok else if op.wait then Blocked else TmOut)
      && (out.result != Ok ==> out.woken.None? && out.taken.None? && s'.buf == s.buf)
      && (out.result == TmOut || out.result == Par ==> s' == s)
      && (op.Receive? && out.result == Ok && s.buf != [] ==> out.taken == Some(s.buf[0]))
      && (op.Receive? && out.result == Ok && s.buf == [] ==> out.taken == Some(s.snd[0].data))
      && (op.Receive? && out.result == Ok && s.snd != [] ==> out.woken == Some(s.snd[0].task) && s'.snd == s.snd[1..])
      && (op.Init? ==> s'.buf == [] && s'.snd == [] && s'.rcv == [])
  {
    hide Place, Insert, Without, Repri, Remove;
  }

  /** An early end of a wait takes out that task alone. */
  lemma LeaveStep(c: Config, s: State, task: nat) returns (i: nat, k: nat)
    ensures var s' := Step(c, s, Leave(task)).0;
      && s'.buf == s.buf
      && i <= |s.snd| && s'.snd == (if i < |s.snd| then s.snd[..i] + s.snd[i + 1..] else s.snd)
      && (if i < |s.snd| then s.snd[i].task == task else forall x :: x in s.snd ==> x.task != task)
      && k <= |s.rcv| && s'.rcv == (if k < |s.rcv| then s.rcv[..k] + s.rcv[k + 1..] else s.rcv)
      && (if k < |s.rcv| then s.rcv[k] == task else task !in s.rcv)
  {
    i := WithoutPlace(s.snd, task);
    k := RemovePlace(s.rcv, task);
    hide Without, Remove, Find;
  }

  // ----- The code -----

  /** Where the pointer to a block is stored. */
  datatype Link = Head | NextOf(b: nat)

  /** The data in the blocks of a list. */
  ghost function Datums(used: seq<nat>, datapri: seq<int>, data: seq<int>): (b: seq<Datum>)
    requires |datapri| == |data| && Within(used, |data|)
    ensures |b| == |used| && forall i :: 0 <= i < |used| ==> b[i] == Datum(datapri[used[i]], data[used[i]])
  {
    seq(|used|, (i: nat) requires i < |used| && |datapri| == |data| && Within(used, |data|) =>
      Datum(datapri[used[i]], data[used[i]]))
  }

  lemma DatumsPut(used: seq<nat>, datapri: seq<int>, data: seq<int>, k: nat, b: nat)
    requires |datapri| == |data| && Within(used, |data|) && k <= |used| && b < |data|
    ensures var used', buf := used[..k] + [b] + used[k..], Datums(used, datapri, data);
      Within(used', |data|) && Datums(used', datapri, data) == buf[..k] + [Datum(datapri[b], data[b])] + buf[k..]
  {
    Splice(used, k, b);
    var buf := Datums(used, datapri, data);
    var r := buf[..k] + [Datum(datapri[b], data[b])] + buf[k..];
    assert forall i :: 0 <= i < |r| ==>
      r[i] == if i < k then buf[i] else if i == k then Datum(datapri[b], data[b]) else buf[i - 1];
  }

  class PriDataQueue {
    const c: Config
    var next: seq<Option<nat>>     // p_next of the blocks, which are numbered
    var datapri: seq<int>
    var data: seq<int>
    var count: nat
    var head: Option<nat>          // p_head
    var unused: nat
    var freelist: Option<nat>      // p_freelist
    var swait: seq<Sender<Datum>>
    var rwait: seq<nat>
    ghost var used: seq<nat>       // the blocks of the list
    ghost var free: seq<nat>       // the free blocks

    /** The blocks in use, the free ones and those never used make up the area. */
    ghost predicate Blocks()
      reads `next, `datapri, `data, `count, `head, `unused, `freelist, `used, `free
    {
      && |next| == |datapri| == |data| == c.cnt && unused <= c.cnt && count == |used|
      && Linked(next, head, used) && Linked(next, freelist, free) && Parted(used, free, unused)
    }

    ghost function Buffer(): (b: seq<Datum>)
      requires |datapri| == |data| && Within(used, |data|)
      reads `datapri, `data, `used
    {
      Datums(used, datapri, data)
    }

    ghost predicate Good()
      reads this
    {
      Blocks() && Within(used, |data|) && Valid(c, State(Buffer(), swait, rwait))
    }

    ghost function Abs(): State
      requires |datapri| == |data| && Within(used, |data|)
      reads this
    {
      State(Buffer(), swait, rwait)
    }

    constructor (config: Config)
      ensures Good() && c == config && Abs() == State([], [], [])
    {
      c := config;
      next := seq(config.cnt, _ => None);
      datapri, data := seq(config.cnt, _ => 0), seq(config.cnt, _ => 0);
      count, head, unused, freelist := 0, None, 0, None;
      swait, rwait, used, free := [], [], [], [];
    }

    /** The first part of enqueue_pridata: a block is taken from the free list or,
      if that is empty, from those never used, of which there is one left. */
    method TakeBlock() returns (b: nat)
      requires Blocks() && count < c.cnt
      modifies `freelist, `unused, `free
      ensures |next| == |datapri| == |data| == c.cnt && unused <= c.cnt && b < unused
      ensures Linked(next, head, used) && Linked(next, freelist, free) && Parted([b] + used, free, unused)
      ensures b !in used && b !in free
    {
      if freelist.Some? {
        PopFront(next, freelist, free);
        b := freelist.value;
        freelist := next[b];
        FromFree(used, free, unused);
        free := free[1..];
      } else {
        assert free == [];
        b := unused;
        FromUnused(used, unused);
        unused := unused + 1;
      }
    }

    /** What is stored at a place. */
    function LinkAt(pp: Link): Option<nat>
      requires pp.NextOf? ==> pp.b < |next|
      reads `head, `next
    {
      if pp.Head? then head else next[pp.b]
    }

    /** The search of enqueue_pridata for the place of a datum of priority p. */
    method FindPlace(p: int) returns (pp: Link, ghost k: nat)
      requires |next| == |datapri| == |data| && Within(used, |data|) && Linked(next, head, used)
      ensures k <= |used| && pp == (if k == 0 then Head else NextOf(used[k - 1])) && (pp.NextOf? ==> pp.b < |next|)
      ensures LinkAt(pp) == Nth(used, k)
      ensures forall i :: 0 <= i < k ==> datapri[used[i]] <= p
      ensures k < |used| ==> p < datapri[used[k]]
    {
      hide NoDup;
      k := 0;
      pp := Head;
      while LinkAt(pp).Some?
        invariant 0 <= k <= |used| && pp == (if k == 0 then Head else NextOf(used[k - 1]))
        invariant pp.NextOf? ==> pp.b < |next|
        invariant LinkAt(pp) == Nth(used, k)
        invariant forall i :: 0 <= i < k ==> datapri[used[i]] <= p
        decreases |used| - k
      {
        var n := LinkAt(pp).value;
        if datapri[n] > p {
          break;
        }
        assert Leads(next, used, k);
        pp := NextOf(n);
        k := k + 1;
      }
    }

    /** Block b is linked in at the place pp, which leads to the k-th block. */
    method PutIn(pp: Link, b: nat, ghost k: nat)
      requires |next| == |datapri| == |data| == c.cnt && unused <= c.cnt && b < unused && count == |used|
      requires Linked(next, head, used) && Linked(next, freelist, free) && Parted([b] + used, free, unused)
      requires k <= |used| && pp == (if k == 0 then Head else NextOf(used[k - 1])) && (pp.NextOf? ==> pp.b < |next|)
      requires LinkAt(pp) == Nth(used, k) && b !in used && b !in free
      modifies `next, `head, `count, `used
      ensures Blocks() && used == old(used)[..k] + [b] + old(used)[k..]
    {
      PartedPut(used, free, unused, b, k);
      PartedTail(used, free, unused, b);
      hide Parted, NoDup, Linked;
      Other(next, freelist, free, b, LinkAt(pp));
      if k == 0 {
        PushFront(next, head, used, b);
        assert used[..k] + [b] + used[k..] == [b] + used;
      } else {
        InsertBehind(next, head, used, k, b);
        Other(next[b := LinkAt(pp)], freelist, free, pp.b, Some(b));
      }
      next := next[b := LinkAt(pp)];
      if pp.Head? {
        head := Some(b);
      } else {
        next := next[pp.b := Some(b)];
      }
      count := count + 1;
      used := used[..k] + [b] + used[k..];
    }

    /** enqueue_pridata. */
    method EnqueuePridata(d: int, p: int)
      requires Blocks() && Within(used, |data|) && Sorted(Buffer()) && count < c.cnt
      modifies `next, `datapri, `data, `count, `head, `unused, `freelist, `used, `free
      ensures Blocks() && Within(used, |data|) && Buffer() == Place(old(Buffer()), Datum(p, d))
    {
      hide NoDup, Linked, Parted, Place;
      ghost var buf, oldUsed := Buffer(), used;
      var b := TakeBlock();
      data, datapri := data[b := d], datapri[b := p];
      assert Datums(used, datapri, data) == buf;
      var pp, k := FindPlace(p);
      PlaceAt(buf, Datum(p, d), k);
      PutIn(pp, b, k);
      DatumsPut(oldUsed, datapri, data, k, b);
    }

    /** dequeue_pridata. */
    method DequeuePridata() returns (d: int, p: int)
      requires Blocks() && Within(used, |data|) && 0 < count
      modifies `next, `count, `head, `freelist, `used, `free
      ensures Blocks() && Within(used, |data|) && count == old(count) - 1
      ensures Datum(p, d) == old(Buffer())[0] && Buffer() == old(Buffer())[1..]
    {
      hide NoDup;
      PopFront(next, head, used);
      ToFree(used, free, unused);
      var b := head.value;
      Other(next, next[b], used[1..], b, freelist);
      PushFront(next, freelist, free, b);
      hide Linked, Parted;
      head := next[b];
      count := count - 1;
      d, p := data[b], datapri[b];
      next := next[b := freelist];
      freelist := Some(b);
      used, free := used[1..], [b] + free;
      assert Buffer() == old(Buffer())[1..];
    }

    /** send_pridata: sent, and the receiver whose wait ends, if one waits. */
    method SendPridata(d: int, p: int) returns (sent: bool, woken: Option<nat>)
      requires Good()
      modifies this
      ensures Good() && sent == (old(rwait) != [] || old(count) < c.cnt)
      ensures woken == if old(rwait) != [] then Some(old(rwait)[0]) else None
      ensures Abs() == if old(rwait) != [] then old(Abs()).(rcv := old(rwait)[1..])
        else if old(count) < c.cnt then old(Abs()).(buf := Place(old(Buffer()), Datum(p, d))) else old(Abs())
    {
      hide NoDup, Linked, Parted, Place;
      woken := None;
      if rwait != [] {
        woken := Some(rwait[0]);
        rwait := rwait[1..];
        sent := true;
      } else if count < c.cnt {
        PlaceSorted(Buffer(), Datum(p, d));
        EnqueuePridata(d, p);
        sent := true;
      } else {
        sent := false;
      }
    }

    /** snd_pdq and tsnd_pdq, or psnd_pdq if not `wait`. */
    method Send(task: nat, pri: nat, datum: Datum, wait: bool) returns (out: Out)
      requires Good()
      modifies this
      ensures Good() && (Abs(), out) == Step(c, old(Abs()), Op.Send(task, pri, datum, wait))
    {
      hide NoDup, Linked, Parted, Place;
      if !(1 <= datum.pri) || datum.pri > c.maxdpri {
        return Out(Par, None, None);
      }
      var sent, woken := SendPridata(datum.data, datum.pri);
      if sent {
        return Out(Ok, woken, if woken.Some? then Some(datum) else None);
      } else if !wait {
        return Out(TmOut, None, None);
      } else {
        InsertOrdered(c.tpri, swait, Sender(task, pri, datum));
        InsertSender(Sender(task, pri, datum));
        return Out(Blocked, None, None);
      }
    }

    /** wobj_queue_insert on the queue of waiting senders. */
    method InsertSender(x: Sender<Datum>)
      modifies `swait
      ensures swait == Insert(c.tpri, old(swait), x)
    {
      var q, k := swait, 0;
      while k < |q|
        invariant 0 <= k <= |q| && forall i :: 0 <= i < k ==> !Before(c.tpri, x, q[i])
      {
        if c.tpri && x.pri < q[k].pri {
          break;
        }
        k := k + 1;
      }
      InsertAt(c.tpri, q, x, k);
      swait := q[..k] + [x] + q[k..];
    }

    /** receive_pridata: received, the datum, and the sender whose wait ends. */
    method ReceivePridata() returns (received: bool, datum: Datum, woken: Option<nat>)
      requires Good()
      modifies this
      ensures Good() && received == (old(count) > 0 || old(swait) != [])
      ensures received ==> (Abs(), Out(Ok, woken, Some(datum))) == Step(c, old(Abs()), Op.Receive(0, false))
      ensures !received ==> Abs() == old(Abs()) && woken == None
    {
      hide NoDup, Linked, Parted, Place;
      woken, datum := None, Datum(0, 0);
      if count > 0 {
        var d, p := DequeuePridata();
        datum := Datum(p, d);
        if swait != [] {
          var x := swait[0];
          swait := swait[1..];
          PlaceSorted(Buffer(), x.data);
          EnqueuePridata(x.data.data, x.data.pri);
          woken := Some(x.task);
        }
        received := true;
      } else if swait != [] {
        woken, datum := Some(swait[0].task), swait[0].data;
        swait := swait[1..];
        received := true;
      } else {
        received := false;
      }
    }

    /** rcv_pdq and trcv_pdq, or prcv_pdq if not `wait`. */
    method Receive(task: nat, wait: bool) returns (out: Out)
      requires Good()
      modifies this
      ensures Good() && (Abs(), out) == Step(c, old(Abs()), Op.Receive(task, wait))
    {
      hide NoDup, Linked, Parted, Place;
      var received, datum, woken := ReceivePridata();
      if received {
        return Out(Ok, woken, Some(datum));
      } else if !wait {
        return Out(TmOut, None, None);
      } else {
        rwait := rwait + [task];
        return Out(Blocked, None, None);
      }
    }

    /** The wait of a task ends early: wait_dequeue_wobj. */
    method Leave(task: nat) returns (out: Out)
      requires Good()
      modifies `swait, `rwait
      ensures Good() && (Abs(), out) == Step(c, old(Abs()), Op.Leave(task))
    {
      WithoutOrdered(c.tpri, swait, task);
      swait, rwait := Without(swait, task), Remove(rwait, task);
      return Out(Ok, None, None);
    }

    /** wobj_change_priority on the queue of waiting senders. */
    method Reprioritize(task: nat, pri: nat) returns (out: Out)
      requires Good()
      modifies `swait
      ensures Good() && (Abs(), out) == Step(c, old(Abs()), Op.Reprioritize(task, pri))
    {
      hide NoDup, Linked, Parted, Insert, Without, Renew, Find, Ordered;
      StepValid(c, Abs(), Op.Reprioritize(task, pri));
      if c.tpri {
        var x := Find(swait, task);
        if x.Some? {
          swait := Without(swait, task);
          InsertSender(x.value.(pri := pri));
        }
      } else {
        swait := Renew(swait, task, pri);
      }
      return Out(Ok, None, None);
    }

    /** ini_pdq. */
    method Init() returns (out: Out)
      requires Good()
      modifies this
      ensures Good() && (Abs(), out) == Step(c, old(Abs()), Op.Init)
    {
      hide Place, Insert, Without, Repri;
      swait, rwait := [], [];
      count, head, unused, freelist := 0, None, 0, None;
      used, free := [], [];
      return Out(Ok, None, None);
    }

    /** Every block is in the list, free, or has never been used, and the number of
      data is that of the blocks in the list. */
    lemma BlocksParted(b: nat)
      requires Good() && b < c.cnt
      ensures count == |used|
      ensures b < unused <==> b in used || b in free
      ensures !(b in used && b in free)
    {
      Partition(used, free, unused, b);
    }
  }
}
