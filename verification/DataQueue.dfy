/** Data queues: what a data queue is, and its ring buffer. */
module DataQueue {
  import opened Options
  import opened Queues
  import opened Ring
  import opened Senders

  datatype Config = Config(cnt: nat, tpri: bool)

  /** The data in the queue, oldest first, and the waiting tasks. */
  datatype State = State(buf: seq<int>, snd: seq<Sender<int>>, rcv: seq<nat>)

  datatype Op =
    | Send(task: nat, pri: nat, data: int, wait: bool)   // snd_dtq, tsnd_dtq; psnd_dtq without waiting
    | Force(data: int)                                   // fsnd_dtq
    | Receive(task: nat, wait: bool)                     // rcv_dtq, trcv_dtq; prcv_dtq without waiting
    | Leave(task: nat)                                   // a wait ended by a timeout, rel_wai or a termination
    | Reprioritize(task: nat, pri: nat)                  // a waiting sender's priority changes
    | Init                                               // ini_dtq

  datatype Result = Ok | IlUse | TmOut | Blocked

  /** The caller's result, the task whose wait ends with E_OK, and the data given
    to the caller of a receive or to the task whose wait ends. */
  datatype Out = Out(result: Result, woken: Option<nat>, taken: Option<int>)

  ghost predicate Valid(c: Config, s: State) {
    && |s.buf| <= c.cnt
    && (s.snd != [] ==> |s.buf| == c.cnt && s.rcv == [])
    && (s.rcv != [] ==> s.buf == [])
    && Ordered(c.tpri, s.snd)
  }

  function Step(c: Config, s: State, op: Op): (State, Out) {
    match op
    case Send(task, pri, data, wait) =>
      if s.rcv != [] then (s.(rcv := s.rcv[1..]), Out(Ok, Some(s.rcv[0]), Some(data)))
      else if |s.buf| < c.cnt then (s.(buf := s.buf + [data]), Out(Ok, None, None))
      else if wait then (s.(snd := Insert(c.tpri, s.snd, Sender(task, pri, data))), Out(Blocked, None, None))
      else (s, Out(TmOut, None, None))
    case Force(data) =>
      if c.cnt == 0 then (s, Out(IlUse, None, None))
      else if s.rcv != [] then (s.(rcv := s.rcv[1..]), Out(Ok, Some(s.rcv[0]), Some(data)))
      else if |s.buf| < c.cnt then (s.(buf := s.buf + [data]), Out(Ok, None, None))
      else (s.(buf := (s.buf + [data])[1..]), Out(Ok, None, None))
    case Receive(task, wait) =>
      if s.buf != [] then
        if s.snd == [] then (s.(buf := s.buf[1..]), Out(Ok, None, Some(s.buf[0])))
        else (s.(buf := s.buf[1..] + [s.snd[0].data], snd := s.snd[1..]), Out(Ok, Some(s.snd[0].task), Some(s.buf[0])))
      else if s.snd != [] then (s.(snd := s.snd[1..]), Out(Ok, Some(s.snd[0].task), Some(s.snd[0].data)))
      else if wait then (s.(rcv := s.rcv + [task]), Out(Blocked, None, None))
      else (s, Out(TmOut, None, None))
    case Leave(task) =>
      (s.(snd := Without(s.snd, task), rcv := Remove(s.rcv, task)), Out(Ok, None, None))
    case Reprioritize(task, pri) => (s.(snd := Repri(c.tpri, s.snd, task, pri)), Out(Ok, None, None))
    case Init => (State([], [], []), Out(Ok, None, None))
  }

  /** Waiting senders mean a full buffer, waiting receivers an empty one, and
    there are never both, whatever the capacity; the senders are in the order of
    their priorities if the queue is. */
  lemma StepValid(c: Config, s: State, op: Op)
    requires Valid(c, s)
    ensures Valid(c, Step(c, s, op).0)
  {
    match op {
      case Send(task, pri, data, _) => InsertOrdered(c.tpri, s.snd, Sender(task, pri, data));
      case Leave(task) => WithoutOrdered(c.tpri, s.snd, task);
      case Reprioritize(task, pri) => RepriOrdered(c.tpri, s.snd, task, pri);
      case Force(_) =>
      case Receive(_, _) =>
      case Init =>
    }
  }

  /** The sender whose datum is accepted first has the highest priority of all, in
    a queue in priority order. */
  lemma FirstSender(c: Config, s: State, op: Op)
    requires Valid(c, s) && c.tpri && op.Receive? && s.snd != []
    ensures var out := Step(c, s, op).1;
      out.woken == Some(s.snd[0].task) && forall i :: 0 <= i < |s.snd| ==> s.snd[0].pri <= s.snd[i].pri
  {
  }

  // ----- One FIFO sequence -----

  /** The data in the buffer followed by the data of the waiting senders. */
  function Stream(s: State): seq<int> { s.buf + Datas(s.snd) }

  /** The data that a call adds to the queue's stream. */
  function Sent(op: Op, out: Out): seq<int> {
    if (op.Send? || op.Force?) && (out.result == Ok || out.result == Blocked) then [op.data] else []
  }

  function Taken(out: Out): seq<int> { if out.taken.Some? then [out.taken.value] else [] }

  /** A forced send to a full buffer. */
  predicate Overflows(c: Config, s: State, op: Op) {
    op.Force? && s.rcv == [] && 0 < c.cnt && |s.buf| >= c.cnt
  }

  predicate Plain(c: Config, s: State, op: Op) {
    !op.Leave? && !op.Init? && !Overflows(c, s, op)
  }

  lemma FifoSend(c: Config, s: State, op: Op)
    requires Valid(c, s) && !c.tpri && op.Send?
    ensures var (s', out) := Step(c, s, op); Stream(s) + Sent(op, out) == Taken(out) + Stream(s')
  {
    InsertLast(c.tpri, s.snd, Sender(op.task, op.pri, op.data));
    hide Insert;
    assert s.buf + (Datas(s.snd) + [op.data]) == s.buf + Datas(s.snd) + [op.data];
  }

  lemma FifoReceive(c: Config, s: State, op: Op)
    requires Valid(c, s) && op.Receive?
    ensures var (s', out) := Step(c, s, op); Stream(s) + Sent(op, out) == Taken(out) + Stream(s')
  {
    if s.buf != [] && s.snd != [] {
      assert s.buf == [s.buf[0]] + s.buf[1..];
      assert s.buf[1..] + [s.snd[0].data] + Datas(s.snd[1..]) == s.buf[1..] + Datas(s.snd);
    }
  }

  lemma FifoForce(c: Config, s: State, op: Op)
    requires Valid(c, s) && op.Force? && !Overflows(c, s, op)
    ensures var (s', out) := Step(c, s, op); Stream(s) + Sent(op, out) == Taken(out) + Stream(s')
  {
  }

  /** Every send appends to the stream, and every receive takes its first element. */
  lemma FifoStep(c: Config, s: State, op: Op)
    requires Valid(c, s) && !c.tpri && Plain(c, s, op)
    ensures var (s', out) := Step(c, s, op);
      Stream(s) + Sent(op, out) == Taken(out) + Stream(s')
  {
    match op {
      case Send(_, _, _, _) => FifoSend(c, s, op);
      case Receive(_, _) => FifoReceive(c, s, op);
      case Force(_) => FifoForce(c, s, op);
      case Reprioritize(task, pri) => RenewData(s.snd, task, pri);
    }
  }

  /** A forced send to a full buffer drops the oldest datum and puts the new one
    behind the buffer, ahead of the data of the waiting senders. */
  lemma OverflowDropsOldest(c: Config, s: State, data: int)
    requires Valid(c, s) && Overflows(c, s, Force(data))
    ensures var (s', out) := Step(c, s, Force(data));
      && s.buf != [] && out.result == Ok && out.taken.None?
      && Stream(s') == s.buf[1..] + [data] + Datas(s.snd) && s'.snd == s.snd
  {
  }

  // ----- Whole runs -----

  function Run(c: Config, s: State, ops: seq<Op>): State
    decreases |ops|
  {
    if ops == [] then s else Run(c, Step(c, s, ops[0]).0, ops[1..])
  }

  function AllSent(c: Config, s: State, ops: seq<Op>): seq<int>
    decreases |ops|
  {
    if ops == [] then []
    else var (s', out) := Step(c, s, ops[0]); Sent(ops[0], out) + AllSent(c, s', ops[1..])
  }

  function AllTaken(c: Config, s: State, ops: seq<Op>): seq<int>
    decreases |ops|
  {
    if ops == [] then []
    else var (s', out) := Step(c, s, ops[0]); Taken(out) + AllTaken(c, s', ops[1..])
  }

  /** No call of the run overflows, ends a wait early or initialises. */
  predicate PlainRun(c: Config, s: State, ops: seq<Op>)
    decreases |ops|
  {
    ops == [] || (Plain(c, s, ops[0]) && PlainRun(c, Step(c, s, ops[0]).0, ops[1..]))
  }

  /** Over any run without an overflow, an early end of a wait or an initialisation,
    what has been received followed by what is in the queue is what was in it
    followed by what has been sent, in the same order. */
  lemma {:induction false} FifoRun(c: Config, s: State, ops: seq<Op>)
    requires Valid(c, s) && !c.tpri && PlainRun(c, s, ops)
    ensures Stream(s) + AllSent(c, s, ops) == AllTaken(c, s, ops) + Stream(Run(c, s, ops))
    decreases |ops|
  {
    if ops != [] {
      hide Step, Valid, Plain, Stream, Sent, Taken;
      var (s', out) := Step(c, s, ops[0]);
      StepValid(c, s, ops[0]);
      FifoStep(c, s, ops[0]);
      FifoRun(c, s', ops[1..]);
      Regroup(Stream(s), Sent(ops[0], out), AllSent(c, s', ops[1..]), Taken(out), Stream(s'),
              AllTaken(c, s', ops[1..]), Stream(Run(c, s', ops[1..])));
    }
  }

  // ----- Who is served -----

  /** The receivers that a call makes wait, and those whose wait it ends with a datum. */
  function Joining(op: Op, out: Out): seq<nat> {
    if op.Receive? && out.result == Blocked then [op.task] else []
  }

  function Served(op: Op, out: Out): seq<nat> {
    if (op.Send? || op.Force?) && out.woken.Some? then [out.woken.value] else []
  }

  /** The same for the senders. */
  function Sending(op: Op, out: Out): seq<nat> {
    if op.Send? && out.result == Blocked then [op.task] else []
  }

  function Accepted(op: Op, out: Out): seq<nat> {
    if op.Receive? && out.woken.Some? then [out.woken.value] else []
  }

  function Tasks(q: seq<Sender<int>>): (r: seq<nat>)
    ensures |r| == |q| && forall i :: 0 <= i < |q| ==> r[i] == q[i].task
  {
    seq(|q|, (i: nat) requires i < |q| => q[i].task)
  }

  lemma TasksFirst(q: seq<Sender<int>>)
    requires q != []
    ensures Tasks(q) == [q[0].task] + Tasks(q[1..])
  {
  }

  lemma TasksLast(tpri: bool, q: seq<Sender<int>>, x: Sender<int>)
    requires !tpri
    ensures Tasks(Insert(tpri, q, x)) == Tasks(q) + [x.task]
  {
    var k := InsertPlace(tpri, q, x);
    hide Insert;
  }

  lemma TasksRenewed(q: seq<Sender<int>>, task: nat, pri: nat)
    ensures Tasks(Renew(q, task, pri)) == Tasks(q)
  {
    var k := WithoutPlace(q, task);
    RenewAt(q, task, pri, k);
    hide Renew, Without, Find;
  }

  /** Waiting receivers are served first come, first served: the one whose wait a send
    ends is the first in the queue and gets the datum that is sent. */
  lemma ServeStep(c: Config, s: State, op: Op)
    requires Valid(c, s) && !op.Leave? && !op.Init?
    ensures var (s', out) := Step(c, s, op);
      && s.rcv + Joining(op, out) == Served(op, out) + s'.rcv
      && (Served(op, out) != [] ==> out.taken == Some(op.data))
  {
    hide Insert, Repri;
    assert s.rcv != [] ==> s.rcv == [s.rcv[0]] + s.rcv[1..];
  }

  /** Waiting senders are too, in a queue in order of arrival. */
  lemma AcceptStep(c: Config, s: State, op: Op)
    requires Valid(c, s) && !c.tpri && !op.Leave? && !op.Init?
    ensures var (s', out) := Step(c, s, op); Tasks(s.snd) + Sending(op, out) == Accepted(op, out) + Tasks(s'.snd)
  {
    hide Tasks, Insert, Without, Renew, Ordered;
    match op {
      case Send(task, pri, data, _) => TasksLast(c.tpri, s.snd, Sender(task, pri, data));
      case Receive(_, _) =>
        if s.snd != [] {
          TasksFirst(s.snd);
        }
      case Reprioritize(task, pri) => TasksRenewed(s.snd, task, pri);
      case _ =>
    }
  }

  function AllJoining(c: Config, s: State, ops: seq<Op>): seq<nat>
    decreases |ops|
  {
    if ops == [] then []
    else var (s', out) := Step(c, s, ops[0]); Joining(ops[0], out) + AllJoining(c, s', ops[1..])
  }

  function AllServed(c: Config, s: State, ops: seq<Op>): seq<nat>
    decreases |ops|
  {
    if ops == [] then []
    else var (s', out) := Step(c, s, ops[0]); Served(ops[0], out) + AllServed(c, s', ops[1..])
  }

  function AllSending(c: Config, s: State, ops: seq<Op>): seq<nat>
    decreases |ops|
  {
    if ops == [] then []
    else var (s', out) := Step(c, s, ops[0]); Sending(ops[0], out) + AllSending(c, s', ops[1..])
  }

  function AllAccepted(c: Config, s: State, ops: seq<Op>): seq<nat>
    decreases |ops|
  {
    if ops == [] then []
    else var (s', out) := Step(c, s, ops[0]); Accepted(ops[0], out) + AllAccepted(c, s', ops[1..])
  }

  /** Over any run without an early end of a wait or an initialisation, the receivers
    waiting at the start followed by those that came to wait are those served
    followed by those still waiting, in the same order. */
  lemma {:induction false} ServeRun(c: Config, s: State, ops: seq<Op>)
    requires Valid(c, s) && forall op :: op in ops ==> !op.Leave? && !op.Init?
    ensures s.rcv + AllJoining(c, s, ops) == AllServed(c, s, ops) + Run(c, s, ops).rcv
    decreases |ops|
  {
    if ops != [] {
      hide Step, Valid, Joining, Served;
      var (s', out) := Step(c, s, ops[0]);
      StepValid(c, s, ops[0]);
      ServeStep(c, s, ops[0]);
      ServeRun(c, s', ops[1..]);
      Regroup(s.rcv, Joining(ops[0], out), AllJoining(c, s', ops[1..]), Served(ops[0], out), s'.rcv,
              AllServed(c, s', ops[1..]), Run(c, s', ops[1..]).rcv);
    }
  }

  /** Likewise for the senders of a queue in order of arrival. */
  lemma {:induction false} AcceptRun(c: Config, s: State, ops: seq<Op>)
    requires Valid(c, s) && !c.tpri && forall op :: op in ops ==> !op.Leave? && !op.Init?
    ensures Tasks(s.snd) + AllSending(c, s, ops) == AllAccepted(c, s, ops) + Tasks(Run(c, s, ops).snd)
    decreases |ops|
  {
    if ops != [] {
      hide Step, Valid, Sending, Accepted, Tasks;
      var (s', out) := Step(c, s, ops[0]);
      StepValid(c, s, ops[0]);
      AcceptStep(c, s, ops[0]);
      AcceptRun(c, s', ops[1..]);
      Regroup(Tasks(s.snd), Sending(ops[0], out), AllSending(c, s', ops[1..]), Accepted(ops[0], out), Tasks(s'.snd),
              AllAccepted(c, s', ops[1..]), Tasks(Run(c, s', ops[1..]).snd));
    }
  }

  /** When a call succeeds, waits or is refused, and what an early end of a wait does. */
  lemma Answers(c: Config, s: State, op: Op)
    requires Valid(c, s)
    ensures var (s', out) := Step(c, s, op);
      && (op.Send? ==>
        out.result == if s.rcv != [] || |s.buf| < c.cnt then Ok else if op.wait then Blocked else TmOut)
      && (op.Force? ==> out.result == if c.cnt == 0 then IlUse else Ok)
      && (op.Receive? ==>
        out.result == if s.buf != [] || s.snd != [] then Ok else if op.wait then Blocked else TmOut)
      && (out.result != Ok ==> out.woken.None? && out.taken.None? && s'.buf == s.buf)
      && (out.result == TmOut || out.result == IlUse ==> s' == s)
      && (op.Receive? && out.result == Ok && s.buf != [] ==> out.taken == Some(s.buf[0]))
      && (op.Receive? && out.result == Ok && s.buf == [] ==> out.taken == Some(s.snd[0].data))
      && (op.Receive? && out.result == Ok && s.snd != [] ==> out.woken == Some(s.snd[0].task) && s'.snd == s.snd[1..])
      && (op.Init? ==> s'.buf == [] && s'.snd == [] && s'.rcv == [])
  {
    hide Insert, Without, Repri, Remove;
  }

  /** An early end of a wait takes out that task alone. */
  lemma LeaveStep(c: Config, s: State, task: nat) returns (i: nat, k: nat)
    ensures var s' := Step(c, s, Leave(task)).0;
      && s'.buf == s.buf
      && i <= |s.snd| && s'.snd == (if i < |s.snd| then s.snd[..i] + s.snd[i + 1..] else s.snd)
      && (if i < |s.snd| then s.snd[i].task == task else forall x :: x in s.snd ==> x.task != task)
      && k <= |s.rcv| && s'.rcv == (if k < |s.rcv| then s.rcv[..k] + s.rcv[k + 1..] else s.rcv)
      && (if k < |s.rcv| then s.rcv[k] == task else task !in s.rcv)
  {
    i := WithoutPlace(s.snd, task);
    k := RemovePlace(s.rcv, task);
    hide Without, Remove, Find;
  }

  // ----- Nothing is lost or invented, whatever the order of the senders -----

  /** The data that a call discards: the oldest by a forced send to a full buffer,
    that of a sender whose wait ends early, all by an initialisation. */
  function Lost(c: Config, s: State, op: Op): multiset<int> {
    match op
    case Force(_) => if Overflows(c, s, op) && s.buf != [] then multiset{s.buf[0]} else multiset{}
    case Leave(task) => multiset(Datas(s.snd)) - multiset(Datas(Without(s.snd, task)))
    case Init => multiset(Stream(s))
    case _ => multiset{}
  }

  lemma Conservation(c: Config, s: State, op: Op)
    requires Valid(c, s)
    ensures var (s', out) := Step(c, s, op);
      multiset(Stream(s)) + multiset(Sent(op, out)) == multiset(Taken(out)) + Lost(c, s, op) + multiset(Stream(s'))
  {
    hide Step, Stream, Sent, Taken, Lost;
    match op {
      case Send(_, _, _, _) => SendConserves(c, s, op);
      case Receive(_, _) => ReceiveConserves(c, s, op);
      case Force(data) => ForceConserves(c, s, op);
      case _ => OtherConserves(c, s, op);
    }
  }

  lemma OtherConserves(c: Config, s: State, op: Op)
    requires Valid(c, s) && (op.Leave? || op.Reprioritize? || op.Init?)
    ensures var (s', out) := Step(c, s, op);
      multiset(Stream(s)) + multiset(Sent(op, out)) == multiset(Taken(out)) + Lost(c, s, op) + multiset(Stream(s'))
  {
    hide Without, Repri, Ordered, Valid, Remove;
    match op {
      case Leave(task) =>
        hide Datas;
        WithoutData(s.snd, task);
      case Reprioritize(task, pri) =>
        hide Datas;
        RepriData(c.tpri, s.snd, task, pri);
      case Init =>
    }
  }

  function AllLost(c: Config, s: State, ops: seq<Op>): multiset<int>
    decreases |ops|
  {
    if ops == [] then multiset{} else Lost(c, s, ops[0]) + AllLost(c, Step(c, s, ops[0]).0, ops[1..])
  }

  lemma Balance(a: multiset<int>, b: multiset<int>, d: multiset<int>, e: multiset<int>, f: multiset<int>,
                g: multiset<int>, h: multiset<int>, k: multiset<int>, l: multiset<int>)
    requires a + b == e + f + g && g + d == h + k + l
    ensures a + (b + d) == (e + h) + (f + k) + l
  {
    forall x ensures (a + (b + d))[x] == ((e + h) + (f + k) + l)[x] {
      assert (a + b)[x] == (e + f + g)[x] && (g + d)[x] == (h + k + l)[x];
    }
  }

  /** The first call of a run and the rest of it. */
  lemma SentTaken(c: Config, s: State, ops: seq<Op>)
    requires ops != []
    ensures var (s', out) := Step(c, s, ops[0]);
      && multiset(AllSent(c, s, ops)) == multiset(Sent(ops[0], out)) + multiset(AllSent(c, s', ops[1..]))
      && multiset(AllTaken(c, s, ops)) == multiset(Taken(out)) + multiset(AllTaken(c, s', ops[1..]))
      && AllLost(c, s, ops) == Lost(c, s, ops[0]) + AllLost(c, s', ops[1..])
      && Run(c, s, ops) == Run(c, s', ops[1..])
  {
    hide Step, Sent, Taken, Lost;
  }

  /** Over every run, in whatever order the senders queue, what was in the queue and
    what has been sent is what has been received, what has been discarded and what
    is in the queue. */
  lemma {:induction false} ConservationRun(c: Config, s: State, ops: seq<Op>)
    requires Valid(c, s)
    ensures multiset(Stream(s)) + multiset(AllSent(c, s, ops))
      == multiset(AllTaken(c, s, ops)) + AllLost(c, s, ops) + multiset(Stream(Run(c, s, ops)))
    decreases |ops|
  {
    if ops != [] {
      hide Step, Valid, Stream, Sent, Taken, Lost;
      var (s', out) := Step(c, s, ops[0]);
      StepValid(c, s, ops[0]);
      Conservation(c, s, ops[0]);
      ConservationRun(c, s', ops[1..]);
      Balance(multiset(Stream(s)), multiset(Sent(ops[0], out)), multiset(AllSent(c, s', ops[1..])),
              multiset(Taken(out)), Lost(c, s, ops[0]), multiset(Stream(s')), multiset(AllTaken(c, s', ops[1..])),
              AllLost(c, s', ops[1..]), multiset(Stream(Run(c, s', ops[1..]))));
      SentTaken(c, s, ops);
      hide AllSent, AllTaken, AllLost, Run;
    }
  }

  lemma ReceiveConserves(c: Config, s: State, op: Op)
    requires Valid(c, s) && op.Receive?
    ensures var (s', out) := Step(c, s, op);
      multiset(Stream(s)) + multiset(Sent(op, out)) == multiset(Taken(out)) + Lost(c, s, op) + multiset(Stream(s'))
  {
    FifoReceive(c, s, op);
    hide Step, Stream;
    var (s', out) := Step(c, s, op);
    assert multiset(Stream(s) + Sent(op, out)) == multiset(Taken(out) + Stream(s'));
  }

  lemma ForceConserves(c: Config, s: State, op: Op)
    requires Valid(c, s) && op.Force?
    ensures var (s', out) := Step(c, s, op);
      multiset(Stream(s)) + multiset(Sent(op, out)) == multiset(Taken(out)) + Lost(c, s, op) + multiset(Stream(s'))
  {
    hide Datas, Ordered;
    if Overflows(c, s, op) {
      DropOldest(s.buf, op.data, Datas(s.snd));
    } else {
      FifoForce(c, s, op);
      hide Step, Stream;
      var (s', out) := Step(c, s, op);
      assert multiset(Stream(s) + Sent(op, out)) == multiset(Taken(out) + Stream(s'));
    }
  }

  lemma DropOldest(b: seq<int>, x: int, rest: seq<int>)
    requires b != []
    ensures multiset(b + rest) + multiset{x} == multiset{b[0]} + multiset((b + [x])[1..] + rest)
  {
    assert (b + [x])[1..] + rest == b[1..] + ([x] + rest);
    assert b + rest == [b[0]] + (b[1..] + rest);
    assert multiset(b[1..] + ([x] + rest)) == multiset(b[1..]) + multiset([x] + rest);
  }

  lemma SendConserves(c: Config, s: State, op: Op)
    requires Valid(c, s) && op.Send?
    ensures var (s', out) := Step(c, s, op);
      multiset(Stream(s)) + multiset(Sent(op, out)) == multiset(Taken(out)) + Lost(c, s, op) + multiset(Stream(s'))
  {
    InsertData(c.tpri, s.snd, Sender(op.task, op.pri, op.data));
    hide Insert, Datas;
  }

  // ----- The code -----

  class DataQueue {
    const c: Config
    const mb: array<int>       // p_dtqmb
    var count: nat
    var head: nat
    var tail: nat
    var swait: seq<Sender<int>>     // swait_queue, with the data in the senders' wait information
    var rwait: seq<nat>        // rwait_queue

    ghost predicate InRing()
      reads `count, `head, `tail, mb
    {
      && mb.Length == c.cnt && In(mb[..], head, count)
      && tail == if count == c.cnt then head else Wrap(head + count, c.cnt)
    }

    ghost function Buffer(): (b: seq<int>)
      requires InRing()
      reads `count, `head, `tail, mb
      ensures |b| == count
    {
      Contents(mb[..], head, count)
    }

    ghost function Abs(): State
      requires InRing()
      reads this, mb
    {
      State(Buffer(), swait, rwait)
    }

    ghost predicate Good()
      reads this, mb
    {
      InRing() && Valid(c, Abs())
    }

    constructor (config: Config)
      ensures Good() && c == config && fresh(mb) && Abs() == State([], [], [])
    {
      c := config;
      mb := new int[config.cnt];
      count, head, tail := 0, 0, 0;
      swait, rwait := [], [];
    }

    /** enqueue_data. */
    method EnqueueData(data: int)
      requires InRing() && count < c.cnt
      modifies mb, `count, `tail
      ensures InRing() && Buffer() == old(Buffer()) + [data] && count == old(count) + 1
    {
      hide Contents;
      Put(mb[..], head, count, data);
      mb[tail] := data;
      assert mb[..] == old(mb[..])[old(tail) := data];
      count := count + 1;
      tail := tail + 1;
      if tail >= c.cnt {
        tail := 0;
      }
    }

    /** force_enqueue_data. */
    method ForceEnqueueData(data: int)
      requires InRing() && 0 < c.cnt
      modifies mb, `count, `tail, `head
      ensures InRing()
      ensures Buffer() == if old(count) < c.cnt then old(Buffer()) + [data] else (old(Buffer()) + [data])[1..]
    {
      hide Contents;
      if count < c.cnt {
        Put(mb[..], head, count, data);
      } else {
        Overwrite(mb[..], head, data);
      }
      mb[tail] := data;
      assert mb[..] == old(mb[..])[old(tail) := data];
      tail := tail + 1;
      if tail >= c.cnt {
        tail := 0;
      }
      if count < c.cnt {
        count := count + 1;
      } else {
        head := tail;
      }
    }

    /** dequeue_data. */
    method DequeueData() returns (data: int)
      requires InRing() && 0 < count
      modifies `count, `head
      ensures InRing() && data == old(Buffer())[0] && Buffer() == old(Buffer())[1..] && count == old(count) - 1
    {
      hide Contents;
      Drop(mb[..], head, count);
      data := mb[head];
      count := count - 1;
      head := head + 1;
      if head >= c.cnt {
        head := 0;
      }
    }

    /** send_data: sent, and the receiver whose wait ends, if one waits. */
    method SendData(data: int) returns (sent: bool, woken: Option<nat>)
      requires Good()
      modifies this, mb
      ensures Good() && sent == (old(rwait) != [] || old(count) < c.cnt)
      ensures woken == if old(rwait) != [] then Some(old(rwait)[0]) else None
      ensures Abs() == if old(rwait) != [] then old(Abs()).(rcv := old(rwait)[1..])
        else if old(count) < c.cnt then old(Abs()).(buf := old(Buffer()) + [data]) else old(Abs())
    {
      woken := None;
      if rwait != [] {
        woken := Some(rwait[0]);
        rwait := rwait[1..];
        sent := true;
      } else if count < c.cnt {
        EnqueueData(data);
        sent := true;
      } else {
        sent := false;
      }
    }

    /** snd_dtq and tsnd_dtq, or psnd_dtq if not `wait`. */
    method Send(task: nat, pri: nat, data: int, wait: bool) returns (out: Out)
      requires Good()
      modifies this, mb
      ensures Good() && (Abs(), out) == Step(c, old(Abs()), Op.Send(task, pri, data, wait))
    {
      var sent, woken := SendData(data);
      if sent {
        return Out(Ok, woken, if woken.Some? then Some(data) else None);
      } else if !wait {
        return Out(TmOut, None, None);
      } else {
        InsertOrdered(c.tpri, swait, Sender(task, pri, data));
        InsertSender(Sender(task, pri, data));
        return Out(Blocked, None, None);
      }
    }

    /** wobj_queue_insert on the queue of waiting senders. */
    method InsertSender(x: Sender<int>)
      requires InRing()
      modifies `swait
      ensures swait == Insert(c.tpri, old(swait), x) && InRing() && Buffer() == old(Buffer())
    {
      var q, k := swait, 0;
      while k < |q|
        invariant 0 <= k <= |q| && forall i :: 0 <= i < k ==> !Before(c.tpri, x, q[i])
      {
        if c.tpri && x.pri < q[k].pri {
          break;
        }
        k := k + 1;
      }
      InsertAt(c.tpri, q, x, k);
      swait := q[..k] + [x] + q[k..];
    }

    /** fsnd_dtq with force_send_data. */
    method ForceSend(data: int) returns (out: Out)
      requires Good()
      modifies this, mb
      ensures Good() && (Abs(), out) == Step(c, old(Abs()), Force(data))
    {
      if !(c.cnt > 0) {
        return Out(IlUse, None, None);
      }
      if rwait != [] {
        var woken := rwait[0];
        rwait := rwait[1..];
        return Out(Ok, Some(woken), Some(data));
      } else {
        ForceEnqueueData(data);
        return Out(Ok, None, None);
      }
    }

    /** receive_data: received, the datum, and the sender whose wait ends. */
    method ReceiveData() returns (received: bool, data: int, woken: Option<nat>)
      requires Good()
      modifies this, mb
      ensures Good() && received == (old(count) > 0 || old(swait) != [])
      ensures received ==> (Abs(), Out(Ok, woken, Some(data))) == Step(c, old(Abs()), Op.Receive(0, false))
      ensures !received ==> Abs() == old(Abs()) && woken == None
    {
      woken, data := None, 0;
      if count > 0 {
        data := DequeueData();
        if swait != [] {
          var p := swait[0];
          swait := swait[1..];
          assert Buffer() == old(Buffer())[1..];
          EnqueueData(p.data);
          woken := Some(p.task);
        }
        received := true;
      } else if swait != [] {
        woken, data := Some(swait[0].task), swait[0].data;
        swait := swait[1..];
        assert Buffer() == old(Buffer());
        received := true;
      } else {
        received := false;
      }
    }

    /** rcv_dtq and trcv_dtq, or prcv_dtq if not `wait`. */
    method Receive(task: nat, wait: bool) returns (out: Out)
      requires Good()
      modifies this, mb
      ensures Good() && (Abs(), out) == Step(c, old(Abs()), Op.Receive(task, wait))
    {
      var received, data, woken := ReceiveData();
      if received {
        return Out(Ok, woken, Some(data));
      } else if !wait {
        return Out(TmOut, None, None);
      } else {
        rwait := rwait + [task];
        return Out(Blocked, None, None);
      }
    }

    /** The wait of a task ends early: wait_dequeue_wobj. */
    method Leave(task: nat) returns (out: Out)
      requires Good()
      modifies `swait, `rwait
      ensures Good() && (Abs(), out) == Step(c, old(Abs()), Op.Leave(task))
    {
      WithoutOrdered(c.tpri, swait, task);
      swait, rwait := Without(swait, task), Remove(rwait, task);
      assert Buffer() == old(Buffer());
      return Out(Ok, None, None);
    }

    /** wobj_change_priority on the queue of waiting senders. */
    method Reprioritize(task: nat, pri: nat) returns (out: Out)
      requires Good()
      modifies `swait
      ensures Good() && (Abs(), out) == Step(c, old(Abs()), Op.Reprioritize(task, pri))
    {
      hide Insert, Without, Renew, InRing, Find, Ordered;
      StepValid(c, Abs(), Op.Reprioritize(task, pri));
      if c.tpri {
        var x := Find(swait, task);
        if x.Some? {
          swait := Without(swait, task);
          InsertSender(x.value.(pri := pri));
        }
      } else {
        swait := Renew(swait, task, pri);
      }
      assert Buffer() == old(Buffer());
      return Out(Ok, None, None);
    }

    /** ini_dtq. */
    method Init() returns (out: Out)
      requires Good()
      modifies this
      ensures Good() && (Abs(), out) == Step(c, old(Abs()), Op.Init)
    {
      swait, rwait := [], [];
      count, head, tail := 0, 0, 0;
      return Out(Ok, None, None);
    }
  }
}
