/** The serial interface driver: two ring buffers between tasks and the callbacks
  of the device, with binary semaphores as tokens.  The methods of the class are
  the atomic steps of the tasks and the callbacks, which may come in any order. */
module SerialPort {
  import opened Options
  import opened Ring

  const LF := 10
  const CR := 13
  const FC_START := 17
  const FC_STOP := 19

  datatype Ioctl = Ioctl(echo: bool, crlf: bool, fcsnd: bool, fcany: bool, fcrcv: bool)

  /** What a task has still to do in eSerialPort_write or eSerialPort_read: the
    characters to write (those of a write, or the one to be echoed), whether the
    CR before the first of them is written, and the characters to read; and the
    tokens it holds. */
  datatype Proc = Proc(todo: seq<int>, cr: bool, sendTok: bool, left: nat, recvTok: bool)

  const IDLE := Proc([], false, false, 0, false)

  /** What eSerialPort_open sets: IOCTL_ECHO, IOCTL_CRLF, IOCTL_FCSND, IOCTL_FCRCV. */
  const OPENED := Ioctl(true, true, true, false, true)

  /** The steps of the tasks, of the device and of those who cut a wait short. */
  datatype Event =
    | Write(t: nat, buffer: seq<int>)
    | Read(t: nat, length: nat)
    | TakeSend(t: nat)
    | WriteChar(t: nat, taken: bool)
    | GiveSend(t: nat)
    | TakeRecv(t: nat)
    | ReadChar(t: nat, taken: bool)
    | GiveRecv(t: nat)
    | SendReady
    | CharReceived(c: int, taken: bool)
    | CutShort(t: nat)
    | Control(ioctl: Ioctl)

  function Bit(b: bool): nat { if b then 1 else 0 }

  function Writers(ps: seq<Proc>): nat {
    if ps == [] then 0 else Bit(ps[0].sendTok) + Writers(ps[1..])
  }

  function Readers(ps: seq<Proc>): nat {
    if ps == [] then 0 else Bit(ps[0].recvTok) + Readers(ps[1..])
  }

  lemma {:induction false} Change(ps: seq<Proc>, t: nat, p: Proc)
    requires t < |ps|
    ensures Writers(ps[t := p]) == Writers(ps) - Bit(ps[t].sendTok) + Bit(p.sendTok)
    ensures Readers(ps[t := p]) == Readers(ps) - Bit(ps[t].recvTok) + Bit(p.recvTok)
    ensures Writers(ps) >= Bit(ps[t].sendTok) && Readers(ps) >= Bit(ps[t].recvTok)
    decreases |ps|
  {
    if t == 0 {
      assert ps[0 := p][1..] == ps[1..];
    } else {
      Change(ps[1..], t - 1, p);
      assert ps[t := p][1..] == ps[1..][t - 1 := p];
    }
  }

  lemma {:induction false} AllIdle(ps: seq<Proc>)
    requires forall t :: 0 <= t < |ps| ==> ps[t] == IDLE
    ensures Writers(ps) == 0 && Readers(ps) == 0
    decreases |ps|
  {
    if ps != [] {
      AllIdle(ps[1..]);
    }
  }

  lemma {:induction false} NoReader(ps: seq<Proc>)
    ensures Readers(ps) == 0 <==> forall t :: 0 <= t < |ps| ==> !ps[t].recvTok
    decreases |ps|
  {
    if ps != [] {
      NoReader(ps[1..]);
      assert forall t :: 1 <= t < |ps| ==> ps[t] == ps[1..][t - 1];
    }
  }

  class SerialPort {
    const sendSize: nat                     // ATTR_sendBufferSize
    const recvSize: nat                     // ATTR_receiveBufferSize
    const sendBuffer: array<int>
    const recvBuffer: array<int>
    var sendRead: nat                       // VAR_sendReadPointer
    var sendWrite: nat                      // VAR_sendWritePointer
    var sendCount: nat
    var sendStopped: bool
    var recvRead: nat
    var recvWrite: nat
    var recvCount: nat
    var recvStopped: bool
    var recvFlowControl: Option<int>        // VAR_receiveFlowControl, none for '\0'
    var ioControl: Ioctl
    var errorFlag: bool
    var sendSem: nat                        // the semaphores' counts
    var recvSem: nat
    var procs: seq<Proc>                    // the tasks
    ghost var accepted: seq<int>            // data characters taken from writers
    ghost var line: seq<int>                // data characters given to the device
    ghost var received: seq<int>            // characters put into the receive buffer
    ghost var delivered: seq<int>           // characters given to readers

    ghost predicate SendRing()
      reads `sendRead, `sendWrite, `sendCount, sendBuffer
    {
      && 0 < sendSize == sendBuffer.Length && In(sendBuffer[..], sendRead, sendCount)
      && sendWrite == if sendCount == sendSize then sendRead else Wrap(sendRead + sendCount, sendSize)
    }

    ghost predicate RecvRing()
      reads `recvRead, `recvWrite, `recvCount, recvBuffer
    {
      && 0 < recvSize == recvBuffer.Length && In(recvBuffer[..], recvRead, recvCount)
      && recvWrite == if recvCount == recvSize then recvRead else Wrap(recvRead + recvCount, recvSize)
    }

    /** The characters in the send buffer. */
    ghost function SendQueue(): seq<int>
      requires SendRing()
      reads `sendRead, `sendWrite, `sendCount, sendBuffer
    {
      Contents(sendBuffer[..], sendRead, sendCount)
    }

    ghost function RecvQueue(): seq<int>
      requires RecvRing()
      reads `recvRead, `recvWrite, `recvCount, recvBuffer
    {
      Contents(recvBuffer[..], recvRead, recvCount)
    }

    /** One send token is in the semaphore, with a writer, or in a full buffer; and
      data characters leave in the order in which they were taken. */
    ghost predicate Sending()
      reads `sendRead, `sendWrite, `sendCount, `sendSem, `procs, `accepted, `line, sendBuffer
    {
      && SendRing() && sendSem + Writers(procs) + Bit(sendCount == sendSize) == 1
      && accepted == line + SendQueue()
    }

    ghost predicate Receiving()
      reads `recvRead, `recvWrite, `recvCount, `received, `delivered, recvBuffer
    {
      RecvRing() && received == delivered + RecvQueue()
    }

    /** How many receive tokens are missing: there should be one, in the semaphore
      or with a reader, exactly while there are characters to read. */
    ghost function Lost(): int
      reads `recvCount, `recvSem, `procs
    {
      Bit(recvCount > 0) - recvSem - Readers(procs)
    }

    /** What holds in every state: there is never a token too many. */
    ghost predicate Valid()
      reads this, sendBuffer, recvBuffer
    {
      sendBuffer != recvBuffer && Sending() && Receiving() && 0 <= Lost() && !errorFlag
    }

    /** Characters wait to be read, but nobody can get the receive token. */
    ghost predicate Stuck()
      reads `recvCount, `recvSem, `procs
    {
      recvCount > 0 && recvSem == 0 && forall t :: 0 <= t < |procs| ==> !procs[t].recvTok
    }

    /** The receive token is where it should be, or it is lost and the port stuck. */
    lemma LostMeansStuck()
      requires 0 <= Lost()
      ensures Lost() <= 1 && (Stuck() <==> Lost() == 1)
    {
      NoReader(procs);
    }

    /** eSerialPort_open, with the semaphores as they are configured. */
    constructor (sendSize: nat, recvSize: nat, n: nat)
      requires 0 < sendSize && 0 < recvSize
      ensures Valid() && Lost() == 0 && fresh(sendBuffer) && fresh(recvBuffer)
      ensures this.sendSize == sendSize && this.recvSize == recvSize && accepted == received == line == delivered == []
      ensures |procs| == n && forall t :: 0 <= t < n ==> procs[t] == IDLE
      ensures sendSem == 1 && recvSem == 0 && sendCount == recvCount == 0 && ioControl == OPENED
      ensures !sendStopped && !recvStopped && recvFlowControl == None
    {
      hide Contents, Writers, Readers;
      this.sendSize, this.recvSize := sendSize, recvSize;
      sendBuffer, recvBuffer := new int[sendSize], new int[recvSize];
      sendRead, sendWrite, sendCount, sendStopped := 0, 0, 0, false;
      recvRead, recvWrite, recvCount, recvStopped, recvFlowControl := 0, 0, 0, false, None;
      ioControl := OPENED;
      errorFlag, sendSem, recvSem := false, 1, 0;
      procs := seq(n, _ => IDLE);
      accepted, line, received, delivered := [], [], [], [];
      new;
      AllIdle(procs);
    }

    /** eSerialPort_close and eSerialPort_open with no call in progress: even a port
      that was stuck is in order again.  The characters in the buffers are gone. */
    method Reopen()
      requires Valid() && forall t :: 0 <= t < |procs| ==> procs[t] == IDLE
      modifies this
      ensures Valid() && Lost() == 0 && procs == old(procs) && line == old(line) && delivered == old(delivered)
      ensures sendSem == 1 && recvSem == 0 && sendCount == recvCount == 0 && ioControl == OPENED
      ensures !sendStopped && !recvStopped && recvFlowControl == None
    {
      Sizes();
      AllIdle(procs);
      hide Sending, Receiving, Lost;
      EmptySend();
      EmptyRecv();
      ioControl := OPENED;
      errorFlag := false;
    }

    lemma Sizes()
      requires Valid()
      ensures 0 < sendSize == sendBuffer.Length && 0 < recvSize == recvBuffer.Length
    {
    }

    method EmptySend()
      requires 0 < sendSize == sendBuffer.Length && Writers(procs) == 0
      modifies `sendRead, `sendWrite, `sendCount, `sendStopped, `sendSem, `accepted
      ensures Sending() && sendCount == 0 && sendSem == 1 && !sendStopped
    {
      sendRead, sendWrite, sendCount, sendStopped := 0, 0, 0, false;
      sendSem := 1;
      accepted := line;
    }

    method EmptyRecv()
      requires 0 < recvSize == recvBuffer.Length && Readers(procs) == 0
      modifies `recvRead, `recvWrite, `recvCount, `recvStopped, `recvFlowControl, `recvSem, `received
      ensures Receiving() && Lost() == 0
      ensures recvCount == 0 && recvSem == 0 && !recvStopped && recvFlowControl == None
    {
      recvRead, recvWrite, recvCount, recvStopped, recvFlowControl := 0, 0, 0, false, None;
      recvSem := 0;
      received := delivered;
    }

    /** eSerialPort_control. */
    method SetControl(ioctl: Ioctl)
      requires Valid()
      modifies `ioControl
      ensures Valid() && Lost() == old(Lost()) && ioControl == ioctl
    {
      ioControl := ioctl;
    }

    // ----- The send buffer -----

    method PushSend(c: int)
      requires SendRing() && sendCount < sendSize
      modifies `sendWrite, `sendCount, sendBuffer
      ensures SendRing() && SendQueue() == old(SendQueue()) + [c] && sendCount == old(sendCount) + 1
    {
      hide Contents;
      Put(sendBuffer[..], sendRead, sendCount, c);
      sendBuffer[sendWrite] := c;
      assert sendBuffer[..] == old(sendBuffer[..])[old(sendWrite) := c];
      sendWrite := Next(sendWrite, sendSize);
      sendCount := sendCount + 1;
    }

    method PopSend() returns (c: int)
      requires SendRing() && 0 < sendCount
      modifies `sendRead, `sendCount
      ensures SendRing() && c == old(SendQueue())[0] && SendQueue() == old(SendQueue())[1..]
      ensures |old(SendQueue())| > 0 && sendCount == old(sendCount) - 1
    {
      hide Contents;
      Drop(sendBuffer[..], sendRead, sendCount);
      c := sendBuffer[sendRead];
      sendRead := Next(sendRead, sendSize);
      sendCount := sendCount - 1;
    }

    /** A signal of the send semaphore: it would fail only if the token were there. */
    method SignalSend()
      modifies `sendSem, `errorFlag
      ensures old(sendSem) == 0 ==> sendSem == 1 && errorFlag == old(errorFlag)
    {
      if sendSem < 1 {
        sendSem := sendSem + 1;
      } else {
        errorFlag := true;
      }
    }

    method SignalRecv()
      modifies `recvSem, `errorFlag
      ensures old(recvSem) == 0 ==> recvSem == 1 && errorFlag == old(errorFlag)
    {
      if recvSem < 1 {
        recvSem := recvSem + 1;
      } else {
        errorFlag := true;
      }
    }

    // ----- Steps of the tasks -----

    /** eSerialPort_write is called. */
    method StartWrite(t: nat, buffer: seq<int>)
      requires Valid() && t < |procs| && procs[t] == IDLE
      modifies `procs
      ensures Valid() && Lost() == old(Lost()) && procs == old(procs)[t := Proc(buffer, false, false, 0, false)]
    {
      hide SendRing, RecvRing, Contents;
      Change(procs, t, Proc(buffer, false, false, 0, false));
      procs := procs[t := Proc(buffer, false, false, 0, false)];
    }

    /** eSerialPort_read is called. */
    method StartRead(t: nat, length: nat)
      requires Valid() && t < |procs| && procs[t] == IDLE
      modifies `procs
      ensures Valid() && Lost() == old(Lost()) && procs == old(procs)[t := Proc([], false, false, length, false)]
    {
      hide SendRing, RecvRing, Contents;
      Change(procs, t, Proc([], false, false, length, false));
      procs := procs[t := Proc([], false, false, length, false)];
    }

    /** A task that has characters to write gets the send token. */
    method AcquireSend(t: nat)
      requires Valid() && t < |procs| && procs[t].todo != [] && !procs[t].sendTok && sendSem > 0
      modifies `procs, `sendSem
      ensures Valid() && Lost() == old(Lost()) && procs == old(procs)[t := old(procs)[t].(sendTok := true)]
      ensures sendCount < sendSize && sendSem == 0
    {
      hide SendRing, RecvRing, Contents;
      Change(procs, t, procs[t].(sendTok := true));
      sendSem := sendSem - 1;
      procs := procs[t := procs[t].(sendTok := true)];
      RoomForHolder(t);
    }

    /** serialPort_writeChar of a character, LF preceded by CR if so configured: it
      goes to the device at once or into the buffer, where there is room for it.
      `taken` says whether the device takes a character now. */
    method PutChar(t: nat, taken: bool)
      requires Valid() && t < |procs| && procs[t].todo != [] && procs[t].sendTok
      modifies `procs, `sendWrite, `sendCount, `accepted, `line, sendBuffer
      ensures Valid() && Lost() == old(Lost())
      ensures var p := old(procs)[t];
        var isCr := ioControl.crlf && p.todo[0] == LF && !p.cr;
        && accepted == old(accepted) + [if isCr then CR else p.todo[0]]
        && procs == old(procs)[t := p.(todo := if isCr then p.todo else p.todo[1..], cr := isCr,
          sendTok := sendCount < sendSize)]
        && line == if old(sendCount) == 0 && !sendStopped && taken
          then old(line) + [if isCr then CR else p.todo[0]] else old(line)
    {
      hide SendRing, RecvRing, Contents, Writers, Readers;
      RoomForHolder(t);
      var p := procs[t];
      var isCr := ioControl.crlf && p.todo[0] == LF && !p.cr;
      WriteOut(if isCr then CR else p.todo[0], taken);
      Bounds();
      var full := sendCount == sendSize;
      var q := p.(todo := if isCr then p.todo else p.todo[1..], cr := isCr, sendTok := !full);
      Change(procs, t, q);
      procs := procs[t := q];
    }

    /** The critical section of serialPort_writeChar. */
    method WriteOut(c: int, taken: bool)
      requires SendRing() && sendCount < sendSize && accepted == line + SendQueue()
      modifies `sendWrite, `sendCount, `accepted, `line, sendBuffer
      ensures SendRing() && accepted == line + SendQueue() && accepted == old(accepted) + [c]
      ensures line == if old(sendCount) == 0 && !sendStopped && taken then old(line) + [c] else old(line)
    {
      hide SendRing, Contents;
      if sendCount == 0 && !sendStopped && taken {
        line := line + [c];
        EmptyQueue();
      } else {
        PushSend(c);
      }
      accepted := accepted + [c];
    }

    /** A task with the send token finds room in the send buffer. */
    lemma RoomForHolder(t: nat)
      requires Sending() && t < |procs| && procs[t].sendTok
      ensures sendCount < sendSize && sendSem == 0
    {
      Change(procs, t, procs[t]);
    }

    lemma EmptyQueue()
      requires SendRing()
      ensures sendCount == 0 ==> SendQueue() == [] && sendCount < sendSize
    {
    }

    /** A write or an echo is finished, and the token still held is given back. */
    method ReleaseSend(t: nat)
      requires Valid() && t < |procs| && procs[t].todo == [] && procs[t].sendTok
      modifies `procs, `sendSem, `errorFlag
      ensures Valid() && Lost() == old(Lost()) && procs == old(procs)[t := old(procs)[t].(sendTok := false)]
    {
      hide SendRing, RecvRing, Contents;
      RoomForHolder(t);
      Change(procs, t, procs[t].(sendTok := false));
      procs := procs[t := procs[t].(sendTok := false)];
      SignalSend();
    }

    /** A task that has characters to read gets the receive token. */
    method AcquireRecv(t: nat)
      requires Valid() && t < |procs|
      requires var p := procs[t]; p.todo == [] && !p.sendTok && p.left > 0 && !p.recvTok
      requires recvSem > 0
      modifies `procs, `recvSem
      ensures Valid() && Lost() == old(Lost()) && procs == old(procs)[t := old(procs)[t].(recvTok := true)]
    {
      hide SendRing, RecvRing, Contents;
      Change(procs, t, procs[t].(recvTok := true));
      recvSem := recvSem - 1;
      procs := procs[t := procs[t].(recvTok := true)];
    }

    /** serialPort_readChar: with the receive token there is a character to read.
      It is to be echoed if so configured. */
    method GetChar(t: nat, taken: bool) returns (c: int)
      requires Valid() && t < |procs|
      requires var p := procs[t]; p.todo == [] && !p.sendTok && p.left > 0 && p.recvTok
      modifies `procs, `recvRead, `recvCount, `recvStopped, `recvFlowControl, `delivered
      ensures Valid() && Lost() == old(Lost()) && delivered == old(delivered) + [c]
      ensures delivered <= received && recvCount == old(recvCount) - 1
      ensures procs == old(procs)[t := Proc(if ioControl.echo then [c] else [], false, false,
        old(procs)[t].left - 1, recvCount > 0)]
      ensures recvStopped == (old(recvStopped) && recvCount > recvSize / 2)
      ensures recvFlowControl ==
        if old(recvStopped) && !recvStopped && !taken then Some(FC_START) else old(recvFlowControl)
    {
      hide Contents, Writers, Readers, SendRing, RecvRing;
      HeldMeansSome(t);
      c := ReadOut();
      StartAgain(taken);
      var q := Proc(if ioControl.echo then [c] else [], false, false, procs[t].left - 1, recvCount > 0);
      Change(procs, t, q);
      procs := procs[t := q];
    }

    /** START is sent once the receive buffer is half empty. */
    method StartAgain(taken: bool)
      modifies `recvStopped, `recvFlowControl
      ensures recvStopped == (old(recvStopped) && recvCount > recvSize / 2)
      ensures recvFlowControl ==
        if old(recvStopped) && !recvStopped && !taken then Some(FC_START) else old(recvFlowControl)
    {
      if recvStopped && recvCount <= recvSize / 2 {
        if !taken {
          recvFlowControl := Some(FC_START);
        }
        recvStopped := false;
      }
    }

    /** The oldest received character is given to a reader. */
    method ReadOut() returns (c: int)
      requires Receiving() && 0 < recvCount
      modifies `recvRead, `recvCount, `delivered
      ensures Receiving() && delivered == old(delivered) + [c] && recvCount == old(recvCount) - 1
    {
      hide RecvRing, Contents;
      MoveFirst(delivered, RecvQueue());
      c := PopRecv();
      delivered := delivered + [c];
    }

    method PopRecv() returns (c: int)
      requires RecvRing() && 0 < recvCount
      modifies `recvRead, `recvCount
      ensures RecvRing() && |old(RecvQueue())| > 0 && c == old(RecvQueue())[0] && RecvQueue() == old(RecvQueue())[1..]
      ensures recvCount == old(recvCount) - 1
    {
      hide Contents;
      Drop(recvBuffer[..], recvRead, recvCount);
      c := recvBuffer[recvRead];
      recvRead := Next(recvRead, recvSize);
      recvCount := recvCount - 1;
    }

    lemma HeldMeansSome(t: nat)
      requires 0 <= Lost() && t < |procs| && procs[t].recvTok
      ensures recvCount > 0 && recvSem == 0 && Lost() == 0 && Readers(procs) == 1
    {
      Change(procs, t, procs[t]);
    }

    /** A read is finished with characters left, and gives the token back. */
    method ReleaseRecv(t: nat)
      requires Valid() && t < |procs|
      requires var p := procs[t]; p.todo == [] && !p.sendTok && p.left == 0 && p.recvTok
      modifies `procs, `recvSem, `errorFlag
      ensures Valid() && Lost() == old(Lost()) && procs == old(procs)[t := old(procs)[t].(recvTok := false)]
    {
      hide SendRing, RecvRing, Contents;
      HeldMeansSome(t);
      Change(procs, t, procs[t].(recvTok := false));
      procs := procs[t := procs[t].(recvTok := false)];
      SignalRecv();
    }

    // ----- Callbacks of the device -----

    /** eiSIOCBR_readySend. */
    method ReadySend()
      requires Valid()
      modifies `recvFlowControl, `sendRead, `sendCount, `sendSem, `errorFlag, `line
      ensures Valid() && Lost() == old(Lost()) && recvFlowControl == None
      ensures line == if old(recvFlowControl) == None && !sendStopped && old(sendCount) > 0
        then old(line) + [old(SendQueue())[0]] else old(line)
    {
      hide SendRing, RecvRing, Contents;
      if recvFlowControl != None {
        recvFlowControl := None;
      } else if !sendStopped && sendCount > 0 {
        SendOldest();
      }
    }

    /** The oldest character in the send buffer goes to the device; a full buffer
      gives the send token back. */
    method SendOldest()
      requires Sending() && sendCount > 0 && !errorFlag
      modifies `sendRead, `sendCount, `sendSem, `errorFlag, `line
      ensures Sending() && !errorFlag && |old(SendQueue())| > 0 && line == old(line) + [old(SendQueue())[0]]
    {
      hide SendRing, Contents, Writers;
      Bounds();
      ghost var q := SendQueue();
      MoveFirst(line, q);
      var full := sendCount == sendSize;
      var c := PopSend();
      line := line + [c];
      if full {
        SignalSend();
      }
    }

    static lemma MoveFirst(a: seq<int>, q: seq<int>)
      requires q != []
      ensures a + q == (a + [q[0]]) + q[1..]
    {
    }

    lemma Bounds()
      requires SendRing()
      ensures sendCount <= sendSize && |SendQueue()| == sendCount
    {
    }

    /** eiSIOCBR_readyReceive with a character from the device. */
    method ReadyReceive(c: int, taken: bool)
      requires Valid()
      modifies `sendStopped, `sendRead, `sendCount, `sendSem, `errorFlag, `line
      modifies `recvWrite, `recvCount, `recvSem, `received, `recvStopped, `recvFlowControl, recvBuffer
      ensures Valid() && Lost() == old(Lost())
      ensures var stops := ioControl.fcsnd && c == FC_STOP;
        var resumes := !stops && old(sendStopped) && (c == FC_START || ioControl.fcany);
        var stored := !stops && !resumes && !(ioControl.fcsnd && c == FC_START) && old(recvCount) != recvSize;
        && sendStopped == (stops || (old(sendStopped) && !resumes))
        && line == (if resumes && old(sendCount) > 0 && taken then old(line) + [old(SendQueue())[0]] else old(line))
        && received == (if stored then old(received) + [c] else old(received))
        && recvCount == old(recvCount) + Bit(stored) && recvSem == old(recvSem) + Bit(stored && old(recvCount) == 0)
        && recvStopped == (old(recvStopped) || (stored && ioControl.fcrcv && recvCount >= recvSize * 3 / 4))
        && (!resumes ==> sendSem == old(sendSem) && sendCount == old(sendCount))
      ensures recvFlowControl ==
        if !old(recvStopped) && recvStopped && !taken then Some(FC_STOP) else old(recvFlowControl)
    {
      hide SendRing, RecvRing, Contents, Sending, Receiving, Lost;
      if ioControl.fcsnd && c == FC_STOP {
        sendStopped := true;
      } else if sendStopped && (c == FC_START || ioControl.fcany) {
        StartSending(taken);
      } else if ioControl.fcsnd && c == FC_START {
      } else if recvCount == recvSize {
      } else {
        StoreReceived(c);
        StopIfFull(taken);
      }
    }

    /** Transmission goes on, with the oldest character if the device takes it. */
    method StartSending(taken: bool)
      requires Sending() && !errorFlag
      modifies `sendStopped, `sendRead, `sendCount, `sendSem, `errorFlag, `line
      ensures Sending() && !errorFlag && !sendStopped
      ensures line == if old(sendCount) > 0 && taken then old(line) + [old(SendQueue())[0]] else old(line)
    {
      hide SendRing, Contents, Writers;
      sendStopped := false;
      if sendCount > 0 {
        if taken {
          SendOldest();
        }
      }
    }

    /** STOP is sent once the receive buffer is three quarters full. */
    method StopIfFull(taken: bool)
      modifies `recvStopped, `recvFlowControl
      ensures recvStopped == (old(recvStopped) || (ioControl.fcrcv && recvCount >= recvSize * 3 / 4))
      ensures recvFlowControl ==
        if !old(recvStopped) && recvStopped && !taken then Some(FC_STOP) else old(recvFlowControl)
    {
      if ioControl.fcrcv && !recvStopped && recvCount >= recvSize * 3 / 4 {
        if !taken {
          recvFlowControl := Some(FC_STOP);
        }
        recvStopped := true;
      }
    }

    /** The character goes into the receive buffer; into an empty one it brings the
      receive token. */
    method StoreReceived(c: int)
      requires Receiving() && recvCount != recvSize && !errorFlag && 0 <= Lost()
      modifies `recvWrite, `recvCount, `recvSem, `errorFlag, `received, recvBuffer
      ensures Receiving() && received == old(received) + [c] && recvCount == old(recvCount) + 1
      ensures Lost() == old(Lost()) && !errorFlag && recvSem == old(recvSem) + Bit(old(recvCount) == 0)
    {
      hide RecvRing, Contents, Readers;
      var empty := recvCount == 0;
      PushRecv(c);
      received := received + [c];
      if empty {
        SignalRecv();
      }
    }

    method PushRecv(c: int)
      requires RecvRing() && recvCount != recvSize
      modifies `recvWrite, `recvCount, recvBuffer
      ensures old(recvCount) < recvSize && RecvRing() && RecvQueue() == old(RecvQueue()) + [c]
      ensures recvCount == old(recvCount) + 1
    {
      hide Contents;
      Put(recvBuffer[..], recvRead, recvCount, c);
      recvBuffer[recvWrite] := c;
      assert recvBuffer[..] == old(recvBuffer[..])[old(recvWrite) := c];
      recvWrite := Next(recvWrite, recvSize);
      recvCount := recvCount + 1;
    }

    // ----- Waits that are cut short -----

    /** The wait of a task for a semaphore ends with E_RLWAI or E_RASTER, and the
      write or read ends there and then.  The receive token is lost exactly if the
      task holds it, as it may while it waits to echo. */
    method Interrupt(t: nat)
      requires Valid() && t < |procs|
      requires var p := procs[t]; !p.sendTok && (p.todo != [] || (p.left > 0 && !p.recvTok))
      modifies `procs
      ensures Valid() && procs == old(procs)[t := IDLE] && Lost() == old(Lost()) + Bit(old(procs)[t].recvTok)
    {
      hide SendRing, RecvRing, Contents;
      Change(procs, t, IDLE);
      procs := procs[t := IDLE];
    }

    // ----- Runs -----

    /** The step can be taken in this state. */
    predicate Enabled(e: Event)
      reads `procs, `sendSem, `recvSem
    {
      match e
      case Write(t, _) => t < |procs| && procs[t] == IDLE
      case Read(t, _) => t < |procs| && procs[t] == IDLE
      case TakeSend(t) => t < |procs| && procs[t].todo != [] && !procs[t].sendTok && sendSem > 0
      case WriteChar(t, _) => t < |procs| && procs[t].todo != [] && procs[t].sendTok
      case GiveSend(t) => t < |procs| && procs[t].todo == [] && procs[t].sendTok
      case TakeRecv(t) =>
        t < |procs| && procs[t].todo == [] && !procs[t].sendTok && procs[t].left > 0 && !procs[t].recvTok && recvSem > 0
      case ReadChar(t, _) =>
        t < |procs| && procs[t].todo == [] && !procs[t].sendTok && procs[t].left > 0 && procs[t].recvTok
      case GiveRecv(t) =>
        t < |procs| && procs[t].todo == [] && !procs[t].sendTok && procs[t].left == 0 && procs[t].recvTok
      case CutShort(t) =>
        t < |procs| && !procs[t].sendTok && (procs[t].todo != [] || (procs[t].left > 0 && !procs[t].recvTok))
      case _ => true
    }

    /** No task holds the receive token while it has something to echo. */
    ghost predicate NoEcho()
      reads `procs
    {
      forall t :: 0 <= t < |procs| && procs[t].recvTok ==> procs[t].todo == []
    }

    /** One step.  It loses the receive token only by cutting short the wait of a
      reader for its echo, and a lost token never comes back. */
    method Perform(e: Event)
      requires Valid() && Enabled(e)
      modifies this, sendBuffer, recvBuffer
      ensures Valid() && |procs| == |old(procs)|
      ensures Lost() == old(Lost()) + Bit(e.CutShort? && old(procs)[e.t].recvTok)
      ensures !e.ReadChar? ==> delivered == old(delivered)
      ensures ioControl == if e.Control? then e.ioctl else old(ioControl)
      ensures old(NoEcho()) && !old(ioControl).echo ==> NoEcho() && Lost() == old(Lost())
    {
      hide Valid, Lost;
      match e {
        case Write(t, buffer) => StartWrite(t, buffer);
        case Read(t, length) => StartRead(t, length);
        case TakeSend(t) => AcquireSend(t);
        case WriteChar(t, taken) => PutChar(t, taken);
        case GiveSend(t) => ReleaseSend(t);
        case TakeRecv(t) => AcquireRecv(t);
        case ReadChar(t, taken) => var c := GetChar(t, taken);
        case GiveRecv(t) => ReleaseRecv(t);
        case SendReady => ReadySend();
        case CharReceived(c, taken) => ReadyReceive(c, taken);
        case CutShort(t) => Interrupt(t);
        case Control(ioctl) => SetControl(ioctl);
      }
    }

    /** A stuck port hands no character to a reader and takes no step that would. */
    lemma NothingToRead(e: Event)
      requires Stuck() && Enabled(e)
      ensures !e.TakeRecv? && !e.ReadChar? && !e.GiveRecv?
    {
    }

    /** Any interleaving of the steps.  A port that is stuck remains so and delivers
      nothing; while IOCTL_ECHO is off the receive token is never lost, whichever
      waits are cut short. */
    method Execute(events: seq<Event>)
      requires Valid()
      modifies this, sendBuffer, recvBuffer
      ensures Valid() && |procs| == |old(procs)|
      ensures old(Stuck()) ==> Stuck() && delivered == old(delivered)
      ensures old(NoEcho()) && !old(ioControl).echo && (forall e :: e in events && e.Control? ==> !e.ioctl.echo) ==>
        NoEcho() && Lost() == old(Lost())
    {
      LostMeansStuck();
      hide Valid, Lost, Stuck, NoEcho, Enabled;
      ghost var quiet := NoEcho() && !ioControl.echo && forall e :: e in events && e.Control? ==> !e.ioctl.echo;
      for i := 0 to |events|
        invariant Valid() && |procs| == |old(procs)| && 0 <= Lost()
        invariant old(Stuck()) ==> Stuck() && delivered == old(delivered)
        invariant quiet ==> NoEcho() && !ioControl.echo && Lost() == old(Lost())
      {
        if Enabled(events[i]) {
          Step(events[i]);
        }
      }
    }

    method Step(e: Event)
      requires Valid() && Enabled(e)
      modifies this, sendBuffer, recvBuffer
      ensures Valid() && 0 <= Lost() && |procs| == |old(procs)|
      ensures old(Stuck()) ==> Stuck() && delivered == old(delivered)
      ensures ioControl == if e.Control? then e.ioctl else old(ioControl)
      ensures old(NoEcho()) && !old(ioControl).echo ==> NoEcho() && Lost() == old(Lost())
    {
      LostMeansStuck();
      if Stuck() {
        NothingToRead(e);
      }
      hide Enabled, Stuck, NoEcho;
      Perform(e);
      LostMeansStuck();
    }
  }

  /** Without echo no token is lost in any run from the opening of the port. */
  method RunWithoutEcho(sendSize: nat, recvSize: nat, n: nat, ioctl: Ioctl, events: seq<Event>)
    returns (port: SerialPort)
    requires 0 < sendSize && 0 < recvSize && !ioctl.echo && forall e :: e in events && e.Control? ==> !e.ioctl.echo
    ensures fresh(port) && port.Valid() && port.Lost() == 0 && !port.Stuck()
  {
    port := new SerialPort(sendSize, recvSize, n);
    port.SetControl(ioctl);
    port.Execute(events);
    port.LostMeansStuck();
  }

  /** A port in which two characters have arrived, neither of them START or STOP. */
  method TwoArrive(a: int, b: int) returns (port: SerialPort)
    requires a != FC_STOP && a != FC_START && b != FC_STOP && b != FC_START
    ensures fresh(port) && fresh(port.sendBuffer) && fresh(port.recvBuffer) && port.Valid() && port.Lost() == 0
    ensures port.procs == [IDLE, IDLE] && port.sendSem == 1 && port.recvSem == 1 && port.recvCount == 2
    ensures port.received == [a, b] && port.delivered == [] && port.ioControl == OPENED
  {
    hide SerialPort.Valid, SerialPort.Lost, SerialPort.SendRing, Contents;
    port := new SerialPort(4, 4, 2);
    port.ReadyReceive(a, true);
    port.ReadyReceive(b, true);
  }

  /** With echo it can be lost: while task 1 is about to write a character, task 0
    reads the first of two characters and waits to echo it, and that wait is cut
    short.  The second character can never be read, whatever follows. */
  method LoseToken(a: int, b: int, x: int, later: seq<Event>) returns (port: SerialPort)
    requires a != FC_STOP && a != FC_START && b != FC_STOP && b != FC_START
    ensures fresh(port) && port.Valid() && port.Stuck() && port.delivered == [a]
  {
    hide SerialPort.Valid, SerialPort.Lost, SerialPort.Stuck, SerialPort.SendRing, SerialPort.RecvRing, Contents;
    port := TwoArrive(a, b);
    port.StartWrite(1, [x]);
    port.AcquireSend(1);
    port.StartRead(0, 2);
    port.AcquireRecv(0);
    var c := port.GetChar(0, true);
    assert port.delivered[0] == port.received[0];
    port.Interrupt(0);
    port.LostMeansStuck();
    port.Execute(later);
  }
}
