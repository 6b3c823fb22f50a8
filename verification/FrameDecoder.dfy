/** The command frames between the controller and the hub: three bytes, of which
  only the first has its top bit set. */
module FrameDecoder {

  type Byte = x: int | 0 <= x < 256

  datatype Command = Command(id: nat, value: int)

  /** A byte with the top bit: the header of a frame. */
  predicate Header(x: Byte) { x >= 0x80 }

  /** A frame starts at index i. */
  predicate FrameAt(s: seq<Byte>, i: nat) {
    i + 3 <= |s| && Header(s[i]) && !Header(s[i + 1]) && !Header(s[i + 2])
  }

  /** The command in a frame: 7 bits of id, a sign bit and 12 bits of magnitude. */
  function CommandOf(h: Byte, d1: Byte, d2: Byte): Command {
    var magnitude := d1 % 0x20 * 0x80 + d2;
    Command(h % 0x80, if d1 / 0x20 % 2 == 1 then -magnitude else magnitude)
  }

  predicate InRange(v: int) { -2048 <= v <= 2048 }

  /** The commands of all frames from index i on, wherever they start. */
  function Frames(s: seq<Byte>, i: nat): seq<Command>
    decreases |s| - i
  {
    if i + 3 > |s| then []
    else (if FrameAt(s, i) then [CommandOf(s[i], s[i + 1], s[i + 2])] else []) + Frames(s, i + 1)
  }

  /** Those with a value in range. */
  function Accepted(cs: seq<Command>): seq<Command> {
    if cs == [] then [] else IfInRange(cs[0]) + Accepted(cs[1..])
  }

  function IfInRange(c: Command): seq<Command> { if InRange(c.value) then [c] else [] }

  function Decode(s: seq<Byte>): seq<Command> { Accepted(Frames(s, 0)) }

  lemma AcceptedFirst(cs: seq<Command>)
    ensures Accepted(cs) == if cs == [] then [] else IfInRange(cs[0]) + Accepted(cs[1..])
  {
  }

  lemma {:induction false} AcceptedConcat(a: seq<Command>, b: seq<Command>)
    ensures Accepted(a + b) == Accepted(a) + Accepted(b)
    decreases |a|
  {
    AcceptedFirst(a);
    AcceptedFirst(a + b);
    hide Accepted, IfInRange;
    if a == [] {
      assert a + b == b;
      assert [] + Accepted(b) == Accepted(b);
    } else {
      assert (a + b)[0] == a[0] && (a + b)[1..] == a[1..] + b;
      AcceptedConcat(a[1..], b);
      assert IfInRange(a[0]) + (Accepted(a[1..]) + Accepted(b)) == IfInRange(a[0]) + Accepted(a[1..]) + Accepted(b);
    }
  }

  /** Going on from a byte that starts no frame. */
  lemma Skip(s: seq<Byte>, i: nat)
    requires i < |s| && !FrameAt(s, i)
    ensures Frames(s, i) == Frames(s, i + 1)
  {
  }

  /** Going on from a whole frame. */
  lemma Whole(s: seq<Byte>, i: nat)
    requires FrameAt(s, i)
    ensures Frames(s, i) == [CommandOf(s[i], s[i + 1], s[i + 2])] + Frames(s, i + 3)
  {
    Skip(s, i + 1);
    Skip(s, i + 2);
  }

  lemma Take(s: seq<Byte>, i: nat)
    requires FrameAt(s, i)
    ensures var x := CommandOf(s[i], s[i + 1], s[i + 2]);
      Accepted(Frames(s, i)) == (if InRange(x.value) then [x] else []) + Accepted(Frames(s, i + 3))
  {
    Whole(s, i);
    var x := CommandOf(s[i], s[i + 1], s[i + 2]);
    AcceptedConcat([x], Frames(s, i + 3));
  }

  lemma Short(s: seq<Byte>, i: nat)
    requires i + 3 > |s|
    ensures Accepted(Frames(s, i)) == []
  {
  }

  lemma NothingYet(s: seq<Byte>)
    ensures Decode(s) == [] + Accepted(Frames(s, 0)) && Accepted([]) == []
  {
  }

  /** The framing part of receiver, on a stream that ends: it waits for a header,
    reads two bytes, and starts again from either of them if it is a header. */
  method Receive(s: seq<Byte>) returns (commands: seq<Command>)
    ensures commands == Decode(s)
  {
    hide Accepted, Decode, Frames;
    var pos := 0;
    commands := [];
    NothingYet(s);
    while true
      invariant 0 <= pos <= |s|
      invariant Decode(s) == commands + Accepted(Frames(s, pos))
      decreases |s| - pos
    {
      // A header byte is awaited.
      var cmd: Byte;
      while true
        invariant 0 <= pos <= |s|
        invariant Decode(s) == commands + Accepted(Frames(s, pos))
        decreases |s| - pos
      {
        if pos == |s| {
          Short(s, pos);
          return;
        }
        cmd := s[pos];
        pos := pos + 1;
        if cmd >= 0x80 {
          break;
        }
        Skip(s, pos - 1);
      }
      // The two bytes that follow are read, from the last header on.
      var id: nat;
      var value: int;
      while true
        invariant 0 < pos <= |s| && Header(s[pos - 1]) && cmd == s[pos - 1]
        invariant Decode(s) == commands + Accepted(Frames(s, pos - 1))
        decreases |s| - pos
      {
        if pos == |s| {
          Short(s, pos - 1);
          return;
        }
        var data1: int := s[pos];
        pos := pos + 1;
        if data1 >= 0x80 {
          Skip(s, pos - 2);
          cmd := data1;
          continue;
        }
        id := cmd % 0x80;
        if pos == |s| {
          Short(s, pos - 2);
          return;
        }
        var data2: int := s[pos];
        pos := pos + 1;
        if data2 >= 0x80 {
          Skip(s, pos - 3);
          Skip(s, pos - 2);
          cmd := data2;
          continue;
        }
        value := data1 % 0x20 * 0x80 + data2;
        if data1 / 0x20 % 2 == 1 {
          value := value * -1;
        }
        break;
      }
      Take(s, pos - 3);
      if value < -2048 || value > 2048 {
        continue;
      }
      commands := commands + [Command(id, value)];
    }
  }

  // ----- Garbage and round trips -----

  /** What precedes a header never hides a frame that starts with it. */
  lemma {:induction false} FramesSplit(g: seq<Byte>, e: seq<Byte>, i: nat)
    requires i <= |g| && (e != [] ==> Header(e[0]))
    ensures Frames(g + e, i) == Frames(g, i) + Frames(e, 0)
    decreases |g| - i
  {
    hide CommandOf;
    var s := g + e;
    if i == |g| {
      FramesShift(g, e, 0);
    } else {
      FramesSplit(g, e, i + 1);
      if i + 3 <= |g| {
        assert FrameAt(s, i) <==> FrameAt(g, i);
      } else {
        assert !FrameAt(s, i);
        Skip(s, i);
        assert Frames(g, i) == [] && Frames(g, i + 1) == [];
      }
    }
  }

  lemma {:induction false} FramesShift(g: seq<Byte>, e: seq<Byte>, i: nat)
    requires i <= |e|
    ensures Frames(g + e, |g| + i) == Frames(e, i)
    decreases |e| - i
  {
    hide CommandOf;
    var s := g + e;
    if i + 3 <= |e| {
      FramesShift(g, e, i + 1);
      assert s[|g| + i] == e[i] && s[|g| + i + 1] == e[i + 1] && s[|g| + i + 2] == e[i + 2];
      assert FrameAt(s, |g| + i) <==> FrameAt(e, i);
    }
  }

  /** The frame the sender makes of a command (sign and magnitude). */
  function Encode(c: Command): (r: seq<Byte>)
    requires c.id < 0x80
    ensures |r| == 3 && Header(r[0]) && !Header(r[1]) && !Header(r[2])
  {
    var m := if c.value < 0 then -c.value else c.value;
    [0x80 + c.id, m / 0x80 % 0x20 + (if c.value < 0 then 0x20 else 0), m % 0x80]
  }

  function EncodeAll(cs: seq<Command>): (r: seq<Byte>)
    requires forall i :: 0 <= i < |cs| ==> cs[i].id < 0x80
    ensures r != [] ==> Header(r[0])
  {
    if cs == [] then [] else Encode(cs[0]) + EncodeAll(cs[1..])
  }

  lemma Bits(m: nat)
    ensures m / 0x80 % 0x20 * 0x80 + m % 0x80 == m % 4096
  {
  }

  /** The bytes that are sent: the number, the sign, and the magnitude modulo 4096. */
  lemma EncodeMeans(c: Command)
    requires c.id < 128
    ensures var h: int, d1: int, d2: int := Encode(c)[0], Encode(c)[1], Encode(c)[2];
      && h == 128 + c.id && (d1 >= 32 <==> c.value < 0)
      && d1 % 32 * 128 + d2 == (if c.value < 0 then -c.value else c.value) % 4096
  {
    var m := if c.value < 0 then -c.value else c.value;
    Bits(m);
    assert (m / 0x80 % 0x20 + 0x20) % 0x20 == m / 0x80 % 0x20;
  }

  /** The magnitude arrives modulo 4096. */
  lemma Arrives(c: Command)
    requires c.id < 0x80
    ensures var r := Encode(c); var m := if c.value < 0 then -c.value else c.value;
      CommandOf(r[0], r[1], r[2]) == Command(c.id, if c.value < 0 then -(m % 4096) else m % 4096)
  {
    var m := if c.value < 0 then -c.value else c.value;
    Bits(m);
    var high := m / 0x80 % 0x20;
    assert (high + 0x20) % 0x20 == high && (high + 0x20) / 0x20 % 2 == 1 && high / 0x20 % 2 == 0;
  }

  lemma AcceptedOne(x: Command)
    ensures Accepted([x]) == if InRange(x.value) then [x] else []
  {
    assert Accepted([x][1..]) == [];
  }

  lemma OneFrame(c: Command)
    requires c.id < 0x80
    ensures var r := Encode(c); Decode(r) == Accepted([CommandOf(r[0], r[1], r[2])])
  {
    var r := Encode(c);
    Whole(r, 0);
    assert Frames(r, 3) == [];
  }

  /** What one frame means: the low bits of the header are the number; then come a
    sign, the five high and the seven low bits of the magnitude, which must not
    exceed 2048. */
  lemma FrameMeans(h: Byte, d1: Byte, d2: Byte)
    requires h >= 128 && d1 < 128 && d2 < 128
    ensures var negative := d1 % 64 >= 32; var magnitude := d1 % 32 * 128 + d2;
      Decode([h, d1, d2]) ==
        if magnitude > 2048 then [] else [Command(h - 128, if negative then -magnitude else magnitude)]
  {
    var r := [h, d1, d2];
    Whole(r, 0);
    assert Frames(r, 3) == [];
    AcceptedOne(CommandOf(h, d1, d2));
    hide Decode, Frames, Accepted;
  }

  /** A command that is sent is decoded as it was, alone, exactly if its value is in
    the range that is accepted. */
  lemma RoundTrip(c: Command)
    requires c.id < 0x80
    ensures Decode(Encode(c)) == [c] <==> -2048 <= c.value <= 2048
  {
    OneFrame(c);
    Arrives(c);
    var r := Encode(c);
    AcceptedOne(CommandOf(r[0], r[1], r[2]));
    hide Decode, Frames, Encode, Accepted;
  }

  /** Commands sent one after the other, after any bytes at all, are decoded in
    order behind whatever these bytes contain. */
  lemma {:induction false} Recovered(garbage: seq<Byte>, cs: seq<Command>)
    requires forall i :: 0 <= i < |cs| ==> cs[i].id < 0x80 && -2048 <= cs[i].value <= 2048
    ensures Decode(garbage + EncodeAll(cs)) == Decode(garbage) + cs
    decreases |cs|
  {
    FramesSplit(garbage, EncodeAll(cs), 0);
    AcceptedConcat(Frames(garbage, 0), Frames(EncodeAll(cs), 0));
    if cs != [] {
      Recovered(Encode(cs[0]), cs[1..]);
      RoundTrip(cs[0]);
      assert cs == [cs[0]] + cs[1..];
    } else {
      assert Frames([], 0) == [];
    }
  }

  // ----- The other encoder -----

  /** makeCommand: the bits of the two's complement value, and a sign bit. */
  function MakeCommand(c: Command): (r: seq<Byte>)
    requires c.id < 0x80
    ensures |r| == 3
  {
    var low := c.value % 4096;
    [0x80 + c.id, low / 0x80 + (if c.value < 0 then 0x20 else 0), low % 0x80]
  }

  lemma MakeCommandDecoded(c: Command)
    requires c.id < 0x80
    ensures var low := c.value % 4096; var x := Command(c.id, if c.value < 0 then -low else low);
      Decode(MakeCommand(c)) == if InRange(x.value) then [x] else []
  {
    var r := MakeCommand(c);
    Whole(r, 0);
    assert Frames(r, 3) == [];
    var low := c.value % 4096;
    assert CommandOf(r[0], r[1], r[2]) == Command(c.id, if c.value < 0 then -low else low);
    AcceptedOne(CommandOf(r[0], r[1], r[2]));
  }

  /** It sends a value as it was exactly if it is 0 to 2048, or -2048: of other
    negative values it sends the complement. */
  lemma MakeCommandRoundTrip(c: Command)
    requires c.id < 0x80
    ensures Decode(MakeCommand(c)) == [c] <==> 0 <= c.value <= 2048 || c.value == -2048
  {
    MakeCommandDecoded(c);
    hide Decode, MakeCommand;
  }

  /** For instance -1 is not received at all. */
  lemma MinusOneIsDropped()
    ensures Decode(MakeCommand(Command(1, -1))) == []
  {
    MakeCommandDecoded(Command(1, -1));
  }
}
