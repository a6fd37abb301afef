/** The testbench UART: the oversampling receiver of tbuart against the frames of
    uart_put, in real time measured in receiver clock periods. */
module Uart {
  /** state 0 is idle, 1 the start bit, 2 to 9 the data bits, 10 the stop bit;
      divcnt counts clocks within a bit, modulo 8. */
  datatype Rx = Rx(state: nat, divcnt: nat, pattern: bv8)

  function Shifted(p: bv8, rx: bool): bv8 { (p >> 1) | (if rx then 0x80 else 0) }

  function Next(r: Rx, rx: bool): Rx {
    var count := (r.divcnt + 1) % 8;
    if r.state == 0 then Rx(if rx then 0 else 1, 0, r.pattern)
    else if r.state == 1 then (if 2 * r.divcnt > 3 then Rx(2, 0, r.pattern) else Rx(1, count, r.pattern))
    else if r.state == 10 then (if r.divcnt > 3 then Rx(0, count, r.pattern) else Rx(10, count, r.pattern))
    else if r.divcnt > 3 then Rx(r.state + 1, 0, Shifted(r.pattern, rx))
    else Rx(r.state, count, r.pattern)
  }

  /** A byte is complete in the last clock of its stop bit. */
  predicate Completes(r: Rx) { r.state == 10 && r.divcnt > 3 }

  /** The receiver as its clocked block updates it, a later assignment overriding.
      received stands for the line buffer and the lines displayed. */
  class Receiver {
    var state: nat
    var divcnt: nat
    var pattern: bv8
    var received: seq<bv8>

    function Snapshot(): Rx
      reads this
    {
      Rx(state, divcnt, pattern)
    }

    method Clock(rx: bool)
      modifies this
      ensures Snapshot() == Next(old(Snapshot()), rx)
      ensures received == old(received) + if Completes(old(Snapshot())) then [old(pattern)] else []
    {
      var s, d, p := state, divcnt, pattern;
      divcnt := (d + 1) % 8;
      match s {
        case 0 =>
          if !rx { state := 1; }
          divcnt := 0;
        case 1 =>
          if 2 * d > 3 { state, divcnt := 2, 0; }
        case 10 =>
          if d > 3 {
            received := received + [p];
            state := 0;
          }
        case _ =>
          if d > 3 {
            pattern := Shifted(p, rx);
            state, divcnt := s + 1, 0;
          }
      }
    }

    /** Receives the frame of b whose start edge is the given phase before the first clock. */
    method Receive(b: bv8, T: real, phase: real)
      requires state == 0 && T > 0.0 && 0.0 <= phase < 1.0 && 44.0 <= 9.0 * T && 8.0 * T <= 43.0
      modifies this
      ensures state == 0 && pattern == b
    {
      ghost var r := Snapshot();
      var n := 0;
      while n < 49
        invariant 0 <= n <= 49
        invariant Snapshot() == Run(r, FrameLine(b, T, phase), n)
      {
        Clock(Line(b, T, phase + n as real));
        n := n + 1;
      }
      InCells(T, phase);
      FrameReceived(r, b, T, phase);
    }

    /** Receives a stream of back-to-back frames, given clocks enough. */
    method ReceiveStream(bs: seq<bv8>, T: real, phase: real, clocks: nat)
      requires state == 0 && 0.0 <= phase < 1.0 && bs != [] && Keeps(T, |bs|)
      requires phase + clocks as real >= Frames(T, |bs|) + 2.0
      modifies this
      ensures received == old(received) + bs
    {
      hide Keeps, Frames, InTime, StreamLine, Next, Completes;
      ghost var r := Snapshot();
      var n := 0;
      while n < clocks
        invariant 0 <= n <= clocks
        invariant Snapshot() == Run(r, StreamFrom(bs, T, phase), n)
        invariant received == old(received) + Received(r, StreamFrom(bs, T, phase), n)
      {
        Clock(StreamLine(bs, T, phase + n as real));
        n := n + 1;
      }
      KeepsInTime(T, |bs|);
      StreamReceived(r, bs, T, phase, 1.0, clocks);
    }
  }

  // --- The line -----------------------------------------------------------------

  predicate BitOf(b: bv8, i: nat)
    requires i < 8
  {
    if i == 0 then b & 1 != 0 else if i == 1 then b & 2 != 0 else if i == 2 then b & 4 != 0
      else if i == 3 then b & 8 != 0
    else if i == 4 then b & 16 != 0 else if i == 5 then b & 32 != 0 else if i == 6 then b & 64 != 0 else b & 128 != 0
  }

  /** The level at time t of a frame that starts at time 0, with bit period T: start
      bit, data least significant first, then stop bit and idle line.  At the instant
      of a change the line has its new level; the RTL leaves that race open. */
  predicate Line(b: bv8, T: real, t: real) {
    if t < 0.0 then true else if t < T then false
    else if t < 2.0 * T then BitOf(b, 0) else if t < 3.0 * T then BitOf(b, 1)
    else if t < 4.0 * T then BitOf(b, 2) else if t < 5.0 * T then BitOf(b, 3)
    else if t < 6.0 * T then BitOf(b, 4) else if t < 7.0 * T then BitOf(b, 5)
    else if t < 8.0 * T then BitOf(b, 6) else if t < 9.0 * T then BitOf(b, 7)
    else true
  }

  /** The line as clocks see it, the first of which comes phase after the start edge. */
  function FrameLine(b: bv8, T: real, phase: real): nat -> bool { (k: nat) => Line(b, T, phase + k as real) }

  /** The receiver after n clocks. */
  function Run(r: Rx, line: nat -> bool, n: nat): Rx {
    if n == 0 then r else Next(Run(r, line, n - 1), line(n - 1))
  }

  /** The bytes completed in n clocks. */
  function Received(r: Rx, line: nat -> bool, n: nat): seq<bv8> {
    if n == 0 then [] else
      var q := Run(r, line, n - 1);
      Received(r, line, n - 1) + if Completes(q) then [q.pattern] else []
  }

  /** Time of the sample of bit i. */
  function SampleTime(phase: real, i: nat): real { phase + 8.0 + 5.0 * i as real }

  /** Clock of the sample of bit i. */
  function SampleClock(i: nat): nat { 8 + 5 * i }

  // --- The receiver's timing ------------------------------------------------------

  lemma StartBit(r: Rx, line: nat -> bool)
    requires r.state == 0 && !line(0)
    ensures Run(r, line, 4) == Rx(2, 0, r.pattern) && Received(r, line, 4) == []
  {
    assert Run(r, line, 1) == Rx(1, 0, r.pattern) && Received(r, line, 1) == [];
    assert Run(r, line, 2) == Rx(1, 1, r.pattern) && Received(r, line, 2) == [];
    assert Run(r, line, 3) == Rx(1, 2, r.pattern) && Received(r, line, 3) == [];
  }

  lemma OneClock(r: Rx, line: nat -> bool, n: nat, q: Rx)
    requires Run(r, line, n) == q
    ensures Run(r, line, n + 1) == Next(q, line(n))
    ensures Received(r, line, n + 1) == Received(r, line, n) + if Completes(q) then [q.pattern] else []
  {
    hide Next, Completes;
  }

  /** Five clocks take one bit, sampled at the fifth. */
  lemma FiveClocks(r: Rx, line: nat -> bool, n: nat, k: nat, p: bv8)
    requires 2 <= k <= 9 && Run(r, line, n) == Rx(k, 0, p)
    ensures Run(r, line, n + 5) == Rx(k + 1, 0, Shifted(p, line(n + 4)))
    ensures Received(r, line, n + 5) == Received(r, line, n)
  {
    hide Run, Received, Shifted;
    OneClock(r, line, n, Rx(k, 0, p));
    OneClock(r, line, n + 1, Rx(k, 1, p));
    OneClock(r, line, n + 2, Rx(k, 2, p));
    OneClock(r, line, n + 3, Rx(k, 3, p));
    OneClock(r, line, n + 4, Rx(k, 4, p));
  }

  lemma StopBit(r: Rx, line: nat -> bool, n: nat, p: bv8)
    requires Run(r, line, n) == Rx(10, 0, p)
    ensures Run(r, line, n + 5) == Rx(0, 5, p)
    ensures Received(r, line, n + 5) == Received(r, line, n) + [p]
  {
    hide Run, Received, Shifted;
    OneClock(r, line, n, Rx(10, 0, p));
    OneClock(r, line, n + 1, Rx(10, 1, p));
    OneClock(r, line, n + 2, Rx(10, 2, p));
    OneClock(r, line, n + 3, Rx(10, 3, p));
    OneClock(r, line, n + 4, Rx(10, 4, p));
  }

  /** The pattern after k data bits. */
  function Collected(p: bv8, line: nat -> bool, k: nat): bv8 {
    if k == 0 then p else Shifted(Collected(p, line, k - 1), line(SampleClock(k - 1)))
  }

  lemma {:induction false} DataBits(r: Rx, line: nat -> bool, k: nat)
    requires k <= 8 && r.state == 0 && !line(0)
    ensures Run(r, line, 4 + 5 * k) == Rx(2 + k, 0, Collected(r.pattern, line, k))
    ensures Received(r, line, 4 + 5 * k) == []
  {
    hide Run, Received, Shifted;
    if k == 0 {
      StartBit(r, line);
    } else {
      DataBits(r, line, k - 1);
      FiveClocks(r, line, 4 + 5 * (k - 1), 1 + k, Collected(r.pattern, line, k - 1));
      assert 4 + 5 * (k - 1) + 4 == SampleClock(k - 1);
    }
  }

  /** From the clock that sees the start bit, 49 clocks take a frame, whatever the
      line does between samples. */
  lemma FrameEnds(r: Rx, line: nat -> bool)
    requires r.state == 0 && !line(0)
    ensures Run(r, line, 49) == Rx(0, 5, Collected(r.pattern, line, 8))
    ensures Received(r, line, 49) == [Collected(r.pattern, line, 8)]
  {
    hide Run, Received, Collected;
    DataBits(r, line, 8);
    StopBit(r, line, 44, Collected(r.pattern, line, 8));
  }

  lemma ShiftedBits(p: bv8, x: bool, i: nat)
    requires i < 8
    ensures BitOf(Shifted(p, x), i) == if i == 7 then x else BitOf(p, i + 1)
  {}

  /** After k samples the top k bits are those samples. */
  lemma {:induction false} CollectedBit(p: bv8, line: nat -> bool, k: nat, i: nat)
    requires k <= 8 && 8 - k <= i < 8
    ensures BitOf(Collected(p, line, k), i) == line(SampleClock(i + k - 8))
    decreases k
  {
    hide Shifted, BitOf, SampleClock;
    ShiftedBits(Collected(p, line, k - 1), line(SampleClock(k - 1)), i);
    if i < 7 {
      CollectedBit(p, line, k - 1, i + 1);
    }
  }

  lemma CollectedBits(p: bv8, line: nat -> bool)
    ensures forall i: nat :: i < 8 ==> BitOf(Collected(p, line, 8), i) == line(SampleClock(i))
  {
    hide BitOf, Collected, SampleClock;
    forall i: nat | i < 8 ensures BitOf(Collected(p, line, 8), i) == line(SampleClock(i)) {
      CollectedBit(p, line, 8, i);
    }
  }

  lemma SameBits(a: bv8, b: bv8)
    requires forall i: nat :: i < 8 ==> BitOf(a, i) == BitOf(b, i)
    ensures a == b
  {
    assert BitOf(a, 0) == BitOf(b, 0) && BitOf(a, 1) == BitOf(b, 1) && BitOf(a, 2) == BitOf(b, 2)
      && BitOf(a, 3) == BitOf(b, 3);
    assert BitOf(a, 4) == BitOf(b, 4) && BitOf(a, 5) == BitOf(b, 5) && BitOf(a, 6) == BitOf(b, 6)
      && BitOf(a, 7) == BitOf(b, 7);
  }

  // --- Tolerance of one frame -------------------------------------------------------

  /** Every bit is sampled inside its own cell. */
  predicate Centred(T: real, phase: real) {
    forall i: nat :: i < 8 ==> (i + 1) as real * T <= SampleTime(phase, i) < (i + 2) as real * T
  }

  lemma InCells(T: real, phase: real)
    requires 0.0 <= phase && phase + 43.0 < 9.0 * T && phase + 8.0 < 2.0 * T && 8.0 * T <= 43.0
    ensures Centred(T, phase) && phase < T
  {
    forall i: nat | i < 8 ensures (i + 1) as real * T <= SampleTime(phase, i) < (i + 2) as real * T {
      if i == 0 {} else if i == 1 {} else if i == 2 {} else if i == 3 {} else if i == 4 {} else if i == 5 {}
        else if i == 6 {} else { assert i == 7; }
    }
  }

  lemma CellLevel(b: bv8, T: real, t: real, i: nat)
    requires i < 8 && T > 0.0 && (i + 1) as real * T <= t < (i + 2) as real * T
    ensures Line(b, T, t) == BitOf(b, i)
  {
    hide BitOf;
    if i == 0 {} else if i == 1 {} else if i == 2 {} else if i == 3 {} else if i == 4 {} else if i == 5 {}
      else if i == 6 {} else {}
  }

  /** A line whose samples are those of a centred frame yields its byte. */
  lemma CentredByte(p: bv8, line: nat -> bool, b: bv8, T: real, phase: real)
    requires T > 0.0 && Centred(T, phase)
    requires forall i: nat :: i < 8 ==> line(SampleClock(i)) == Line(b, T, SampleTime(phase, i))
    ensures Collected(p, line, 8) == b
  {
    hide Line, BitOf, Collected, SampleClock;
    CollectedBits(p, line);
    forall i: nat | i < 8 ensures BitOf(Collected(p, line, 8), i) == BitOf(b, i) {
      CellLevel(b, T, SampleTime(phase, i), i);
    }
    SameBits(Collected(p, line, 8), b);
  }

  lemma FrameSample(b: bv8, T: real, phase: real, i: nat)
    ensures FrameLine(b, T, phase)(SampleClock(i)) == Line(b, T, SampleTime(phase, i))
  {
    hide Line;
    assert phase + SampleClock(i) as real == SampleTime(phase, i);
  }

  lemma LowAtStart(b: bv8, T: real, phase: real)
    requires 0.0 <= phase < T
    ensures !FrameLine(b, T, phase)(0)
  {}

  lemma FrameReceived(r: Rx, b: bv8, T: real, phase: real)
    requires r.state == 0 && 0.0 <= phase < T && Centred(T, phase)
    ensures Run(r, FrameLine(b, T, phase), 49) == Rx(0, 5, b)
  {
    hide Line, Run, Collected, Centred, FrameLine, SampleClock;
    var line := FrameLine(b, T, phase);
    LowAtStart(b, T, phase);
    FrameEnds(r, line);
    forall i: nat | i < 8 ensures line(SampleClock(i)) == Line(b, T, SampleTime(phase, i)) {
      FrameSample(b, T, phase, i);
    }
    CentredByte(r.pattern, line, b, T, phase);
  }

  /** An idle receiver gets every byte, at every phase. */
  ghost predicate Receives(T: real) {
    forall r: Rx, b: bv8, phase: real :: r.state == 0 && 0.0 <= phase < 1.0 ==>
      Run(r, FrameLine(b, T, phase), 49).state == 0 && Run(r, FrameLine(b, T, phase), 49).pattern == b
  }

  /** The last data bit of what an idle receiver takes from a line. */
  lemma LastSample(r: Rx, line: nat -> bool)
    requires r.state == 0 && !line(0)
    ensures Run(r, line, 49).pattern == Collected(r.pattern, line, 8)
    ensures BitOf(Collected(r.pattern, line, 8), 7) == line(43)
  {
    hide Run, Collected, BitOf;
    FrameEnds(r, line);
    CollectedBits(r.pattern, line);
    assert SampleClock(7) == 43;
  }

  lemma TopBit()
    ensures !BitOf(0, 7) && BitOf(0x80, 7)
  {}

  lemma TooFast(T: real)
    requires 0.0 < T && 9.0 * T < 44.0
    ensures exists phase: real :: 0.0 <= phase < 1.0 && Run(Rx(0, 0, 0), FrameLine(0, T, phase), 49).pattern != 0
  {
    hide Run, Collected, BitOf;
    var phase := if 9.0 * T < 43.0 then 0.0 else 9.0 * T - 43.0;
    LowAtStart(0, T, phase);
    LastSample(Rx(0, 0, 0), FrameLine(0, T, phase));
    TopBit();
  }

  lemma TooSlow(T: real)
    requires 8.0 * T > 43.0
    ensures Run(Rx(0, 0, 0), FrameLine(0x80, T, 0.0), 49).pattern != 0x80
  {
    hide Run, Collected;
    LowAtStart(0x80, T, 0.0);
    LastSample(Rx(0, 0, 0), FrameLine(0x80, T, 0.0));
    LowBeforeLast(T, 43.0);
    TopBit();
    hide BitOf, Line;
  }

  lemma LowBeforeLast(T: real, t: real)
    requires T > 0.0 && 0.0 <= t < 8.0 * T
    ensures !Line(0x80, T, t)
  {}

  /** Reception is right for every byte and phase exactly when the bit period is
      between 44/9 and 43/8 receiver clocks. */
  lemma BaudTolerance(T: real)
    requires T > 0.0
    ensures Receives(T) <==> 44.0 <= 9.0 * T && 8.0 * T <= 43.0
  {
    hide Run, FrameLine;
    if 44.0 <= 9.0 * T && 8.0 * T <= 43.0 {
      forall r: Rx, b: bv8, phase: real | r.state == 0 && 0.0 <= phase < 1.0
        ensures Run(r, FrameLine(b, T, phase), 49).state == 0 && Run(r, FrameLine(b, T, phase), 49).pattern == b
      {
        InCells(T, phase);
        FrameReceived(r, b, T, phase);
      }
    } else if 9.0 * T < 44.0 {
      TooFast(T);
    } else {
      TooSlow(T);
    }
  }

  // --- Streams of frames ------------------------------------------------------------

  /** The level at time t when frames follow each other without a pause, the first
      starting at time 0. */
  predicate StreamLine(bs: seq<bv8>, T: real, t: real) {
    if t < 0.0 || bs == [] then true
    else if t < 10.0 * T then Line(bs[0], T, t)
    else StreamLine(bs[1..], T, t - 10.0 * T)
  }

  function StreamFrom(bs: seq<bv8>, T: real, phase: real): nat -> bool {
    (k: nat) => StreamLine(bs, T, phase + k as real)
  }

  /** The bit periods at which n frames can follow each other: a receiver that takes
      49 clocks for a frame of less must not fall behind by the n-th. */
  predicate Keeps(T: real, n: nat) {
    (49 * n - 5) as real <= (10 * n - 1) as real * T && 8.0 * T <= 43.0
  }

  lemma {:induction false} SameLines(r: Rx, line: nat -> bool, other: nat -> bool, n: nat)
    requires forall k: nat :: k < n ==> line(k) == other(k)
    ensures Run(r, line, n) == Run(r, other, n) && Received(r, line, n) == Received(r, other, n)
    decreases n
  {
    hide Next, Completes;
    if n > 0 { SameLines(r, line, other, n - 1); }
  }

  function From(line: nat -> bool, c: nat): nat -> bool { (k: nat) => line(c + k) }

  lemma {:induction false} RunFrom(r: Rx, line: nat -> bool, c: nat, n: nat)
    ensures Run(r, line, c + n) == Run(Run(r, line, c), From(line, c), n)
    ensures Received(r, line, c + n) == Received(r, line, c) + Received(Run(r, line, c), From(line, c), n)
    decreases n
  {
    hide Next, Completes;
    if n > 0 { RunFrom(r, line, c, n - 1); }
  }

  lemma {:induction false} IdleRun(r: Rx, line: nat -> bool, n: nat)
    requires r.state == 0 && forall k: nat :: k < n ==> line(k)
    ensures Run(r, line, n).state == 0 && Received(r, line, n) == []
    decreases n
  {
    if n > 0 { IdleRun(r, line, n - 1); }
  }

  /** After its 49 clocks the rest of the stream begins 10 T after the frame. */
  lemma Later(bs: seq<bv8>, T: real, phase: real, c: nat, k: nat)
    requires bs != [] && T > 0.0 && phase + c as real >= 9.0 * T
    ensures From(StreamFrom(bs, T, phase), c)(k) == StreamFrom(bs[1..], T, phase + c as real - 10.0 * T)(k)
  {
    hide BitOf;
    var t := phase + (c + k) as real;
    assert t >= 9.0 * T;
    assert t - 10.0 * T == phase + c as real - 10.0 * T + k as real;
  }

  lemma StreamStarts(bs: seq<bv8>, T: real, phase: real)
    requires bs != [] && 0.0 <= phase < T
    ensures !StreamFrom(bs, T, phase)(0)
  {}

  /** What follows the frame that starts at the first clock. */
  lemma AfterFrame(r: Rx, line: nat -> bool, n: nat)
    requires r.state == 0 && !line(0) && n >= 49
    ensures var p := Collected(r.pattern, line, 8);
            Received(r, line, n) == [p] + Received(Rx(0, 5, p), From(line, 49), n - 49)
  {
    hide Run, Received, Collected, From;
    FrameEnds(r, line);
    RunFrom(r, line, 49, n - 49);
  }

  /** The first frame of a stream, then the rest of it. */
  lemma FirstFrame(r: Rx, bs: seq<bv8>, T: real, phase: real, n: nat)
    requires r.state == 0 && bs != [] && 0.0 <= phase < T && phase + 49.0 >= 9.0 * T && n >= 49
    ensures var p := Collected(r.pattern, StreamFrom(bs, T, phase), 8);
            Received(r, StreamFrom(bs, T, phase), n)
            == [p] + Received(Rx(0, 5, p), StreamFrom(bs[1..], T, phase + 49.0 - 10.0 * T), n - 49)
  {
    hide Run, Received, Collected, Line, StreamFrom, From;
    var line, x := StreamFrom(bs, T, phase), phase + 49.0 - 10.0 * T;
    var rest := StreamFrom(bs[1..], T, x);
    StreamStarts(bs, T, phase);
    AfterFrame(r, line, n);
    RestOfStream(bs, T, phase, n - 49);
    SameLines(Rx(0, 5, Collected(r.pattern, line, 8)), From(line, 49), rest, n - 49);
  }

  lemma RestOfStream(bs: seq<bv8>, T: real, phase: real, n: nat)
    requires bs != [] && T > 0.0 && phase + 49.0 >= 9.0 * T
    ensures forall k: nat :: k < n ==>
              From(StreamFrom(bs, T, phase), 49)(k) == StreamFrom(bs[1..], T, phase + 49.0 - 10.0 * T)(k)
  {
    hide StreamFrom, From;
    forall k: nat | k < n
      ensures From(StreamFrom(bs, T, phase), 49)(k) == StreamFrom(bs[1..], T, phase + 49.0 - 10.0 * T)(k)
    {
      Later(bs, T, phase, 49, k);
    }
  }

  lemma StreamSample(bs: seq<bv8>, T: real, phase: real, i: nat)
    requires bs != [] && 0.0 <= phase && SampleTime(phase, i) < 10.0 * T
    ensures StreamFrom(bs, T, phase)(SampleClock(i)) == Line(bs[0], T, SampleTime(phase, i))
  {
    hide Line;
    assert phase + SampleClock(i) as real == SampleTime(phase, i);
  }

  /** A frame met soon enough after its start is received. */
  lemma StreamByte(p: bv8, bs: seq<bv8>, T: real, phase: real)
    requires bs != [] && 0.0 <= phase && phase + 43.0 < 9.0 * T && phase + 8.0 < 2.0 * T && 8.0 * T <= 43.0
    ensures Collected(p, StreamFrom(bs, T, phase), 8) == bs[0]
  {
    hide Line, Collected, StreamFrom, SampleClock;
    InCells(T, phase);
    forall i: nat | i < 8 ensures StreamFrom(bs, T, phase)(SampleClock(i)) == Line(bs[0], T, SampleTime(phase, i)) {
      StreamSample(bs, T, phase, i);
    }
    CentredByte(p, StreamFrom(bs, T, phase), bs[0], T, phase);
  }

  lemma StreamShift(bs: seq<bv8>, T: real, phase: real, k: nat)
    ensures From(StreamFrom(bs, T, phase), 1)(k) == StreamFrom(bs, T, phase + 1.0)(k)
  {
    hide StreamLine;
    assert phase + (1 + k) as real == phase + 1.0 + k as real;
  }

  lemma HighBefore(bs: seq<bv8>, T: real, phase: real)
    requires phase < 0.0 || bs == []
    ensures StreamFrom(bs, T, phase)(0)
  {}

  lemma HighClock(r: Rx, line: nat -> bool)
    requires r.state == 0 && line(0)
    ensures Run(r, line, 1) == Rx(0, 0, r.pattern) && Received(r, line, 1) == []
  {}

  /** A clock before the stream starts passes unnoticed. */
  lemma IdleClock(r: Rx, bs: seq<bv8>, T: real, phase: real, n: nat)
    requires r.state == 0 && (phase < 0.0 || bs == []) && n > 0
    ensures Received(r, StreamFrom(bs, T, phase), n)
            == Received(Rx(0, 0, r.pattern), StreamFrom(bs, T, phase + 1.0), n - 1)
  {
    hide StreamFrom, Run, Received, From;
    var line := StreamFrom(bs, T, phase);
    HighBefore(bs, T, phase);
    HighClock(r, line);
    RunFrom(r, line, 1, n - 1);
    forall k: nat | k < n - 1 ensures From(line, 1)(k) == StreamFrom(bs, T, phase + 1.0)(k) {
      StreamShift(bs, T, phase, k);
    }
    SameLines(Rx(0, 0, r.pattern), From(line, 1), StreamFrom(bs, T, phase + 1.0), n - 1);
  }

  /** How much later than the frame before a frame is met, at worst. */
  function Slip(T: real): real { if 10.0 * T < 49.0 then 49.0 - 10.0 * T else 0.0 }

  /** n more frames can be received if the next is met less than late clocks after its start. */
  predicate InTime(T: real, late: real, n: nat) {
    1.0 <= late && 44.0 <= 9.0 * T && 8.0 * T <= 43.0 && (n > 0 ==> late + (n - 1) as real * Slip(T) <= 9.0 * T - 43.0)
    && (Slip(T) == 0.0 ==> late == 1.0)
  }

  lemma KeepsInTime(T: real, n: nat)
    requires n > 0
    ensures InTime(T, 1.0, n) <==> Keeps(T, n)
  {}

  /** The time the frames take. */
  function Frames(T: real, n: nat): real { 10.0 * T * n as real }

  lemma OneFrameLess(T: real, n: nat)
    requires n > 0 && T > 0.0
    ensures Frames(T, n) == Frames(T, n - 1) + 10.0 * T && Frames(T, n - 1) >= 0.0
  {}

  lemma NextInTime(T: real, late: real, n: nat, phase: real)
    requires InTime(T, late, n) && n > 0 && phase < late
    ensures InTime(T, late + Slip(T), n - 1) && phase + 43.0 < 9.0 * T && phase + 8.0 < 2.0 * T
  {
    assert (n - 1) as real * Slip(T) >= 0.0;
    assert n > 1 ==> (n - 2) as real * Slip(T) == (n - 1) as real * Slip(T) - Slip(T);
  }

  lemma {:induction false} StreamReceived(r: Rx, bs: seq<bv8>, T: real, phase: real, late: real, n: nat)
    requires r.state == 0 && phase < late && InTime(T, late, |bs|) && phase + n as real >= Frames(T, |bs|) + 2.0
    ensures Received(r, StreamFrom(bs, T, phase), n) == bs
    decreases n
  {
    hide Run, Received, StreamFrom, Frames, Slip, InTime;
    if bs == [] {
      forall k: nat | k < n ensures StreamFrom(bs, T, phase)(k) {
        HighAfter(T, phase, k);
      }
      IdleRun(r, StreamFrom(bs, T, phase), n);
    } else {
      OneFrame(T, late, |bs|);
      OneFrameLess(T, |bs|);
      if phase < 0.0 {
        IdleClock(r, bs, T, phase, n);
        StreamReceived(Rx(0, 0, r.pattern), bs, T, phase + 1.0, late, n - 1);
      } else {
        NextInTime(T, late, |bs|, phase);
        SlipBound(T);
        FirstFrame(r, bs, T, phase, n);
        StreamByte(r.pattern, bs, T, phase);
        StreamReceived(Rx(0, 5, bs[0]), bs[1..], T, phase + 49.0 - 10.0 * T, late + Slip(T), n - 49);
      }
    }
  }

  lemma OneFrame(T: real, late: real, n: nat)
    requires InTime(T, late, n)
    ensures late >= 1.0 && 44.0 <= 9.0 * T && 8.0 * T <= 43.0
  {
    hide Slip;
  }

  lemma SlipBound(T: real)
    ensures 49.0 - 10.0 * T <= Slip(T)
  {}

  lemma HighAfter(T: real, phase: real, k: nat)
    ensures StreamFrom([], T, phase)(k)
  {}

  // --- Streams that are lost ----------------------------------------------------------

  function Zeros(n: nat): (bs: seq<bv8>)
    ensures |bs| == n
  {
    if n == 0 then [] else [0] + Zeros(n - 1)
  }

  lemma WrongFirst(r: Rx, bs: seq<bv8>, T: real, phase: real, n: nat)
    requires r.state == 0 && bs != [] && 0.0 <= phase < T && n >= 49
    requires StreamFrom(bs, T, phase)(43) != BitOf(bs[0], 7)
    ensures Received(r, StreamFrom(bs, T, phase), n) != bs
  {
    hide Run, Received, Collected, StreamFrom, BitOf;
    var line := StreamFrom(bs, T, phase);
    StreamStarts(bs, T, phase);
    LastSample(r, line);
    AfterFrame(r, line, n);
  }

  /** Beyond the data bits of the first frame the line does not depend on its byte. */
  lemma TailOnly(bs: seq<bv8>, cs: seq<bv8>, T: real, t: real)
    requires bs != [] && cs != [] && bs[1..] == cs[1..] && T > 0.0 && t >= 9.0 * T
    ensures StreamLine(bs, T, t) == StreamLine(cs, T, t)
  {
    hide BitOf;
  }

  lemma FastStream(T: real, m: nat, n: nat)
    requires 0.0 < T && 9.0 * T < 44.0 && n >= 49
    ensures exists b: bv8, phase: real ::
              0.0 <= phase < 1.0 && Received(Rx(0, 0, 0), StreamFrom([b] + Zeros(m), T, phase), n) != [b] + Zeros(m)
  {
    hide Received, BitOf, StreamLine;
    var phase := if 9.0 * T < 43.0 then 0.0 else 9.0 * T - 43.0;
    var b: bv8 := if StreamLine([0] + Zeros(m), T, phase + 43.0) then 0 else 0x80;
    TailOnly([b] + Zeros(m), [0] + Zeros(m), T, phase + 43.0);
    TopBit();
    WrongFirst(Rx(0, 0, 0), [b] + Zeros(m), T, phase, n);
  }

  lemma SlowStream(T: real, m: nat, n: nat)
    requires 8.0 * T > 43.0 && n >= 49
    ensures Received(Rx(0, 0, 0), StreamFrom([0x80] + Zeros(m), T, 0.0), n) != [0x80] + Zeros(m)
  {
    hide Received, Line;
    LowBeforeLast(T, 43.0);
    TopBit();
    assert !StreamFrom([0x80] + Zeros(m), T, 0.0)(43);
    hide BitOf;
    WrongFirst(Rx(0, 0, 0), [0x80] + Zeros(m), T, 0.0, n);
  }

  /** Below 4.9 clocks a bit the receiver falls behind until it takes a stop bit for
      the last data bit. */
  lemma {:induction false} Drifts(r: Rx, T: real, phase: real, m: nat, n: nat)
    requires r.state == 0 && m > 0 && n >= 49 * m && 44.0 <= 9.0 * T && 10.0 * T < 49.0
    requires 0.0 <= phase < 6.0 - T && phase + (m - 1) as real * (49.0 - 10.0 * T) >= 9.0 * T - 43.0
    ensures Received(r, StreamFrom(Zeros(m), T, phase), n) != Zeros(m)
    decreases m
  {
    hide Received, Run, BitOf, StreamFrom, Collected;
    if phase + 43.0 >= 9.0 * T {
      StopAtLast(T, phase, m);
      TopBit();
      WrongFirst(r, Zeros(m), T, phase, n);
    } else {
      assert m > 1;
      var d := 49.0 - 10.0 * T;
      assert (m - 2) as real * d == (m - 1) as real * d - d;
      assert Zeros(m)[1..] == Zeros(m - 1);
      FirstFrame(r, Zeros(m), T, phase, n);
      StreamByte(r.pattern, Zeros(m), T, phase);
      Drifts(Rx(0, 5, 0), T, phase + d, m - 1, n - 49);
    }
  }

  lemma StopAtLast(T: real, phase: real, m: nat)
    requires m > 0 && 0.0 <= phase < 6.0 - T && 44.0 <= 9.0 * T && phase + 43.0 >= 9.0 * T
    ensures StreamFrom(Zeros(m), T, phase)(43)
  {
    hide BitOf;
  }

  /** Every stream of n bytes is received, at every phase, given clocks enough. */
  ghost predicate ReceivesStream(T: real, n: nat) {
    forall r: Rx, bs: seq<bv8>, phase: real, clocks: nat ::
      r.state == 0 && |bs| == n && 0.0 <= phase < 1.0 && phase + clocks as real >= Frames(T, n) + 2.0 ==>
        Received(r, StreamFrom(bs, T, phase), clocks) == bs
  }

  lemma ClocksEnough(T: real, n: nat) returns (clocks: nat)
    requires T > 0.0 && n > 0
    ensures clocks >= 49 * n && clocks as real >= Frames(T, n) + 2.0
  {
    OneFrameLess(T, n);
    clocks := 49 * n + Frames(T, n).Floor + 3;
    hide Frames;
  }

  lemma DriftingStream(T: real, n: nat, clocks: nat)
    requires n > 0 && clocks >= 49 * n && 44.0 <= 9.0 * T && 8.0 * T <= 43.0 && !Keeps(T, n)
    ensures exists phase: real ::
              0.0 <= phase < 1.0 && Received(Rx(0, 0, 0), StreamFrom(Zeros(n), T, phase), clocks) != Zeros(n)
  {
    hide Received, StreamFrom, Zeros;
    KeepsInTime(T, n);
    hide Keeps;
    var late := (n - 1) as real * (49.0 - 10.0 * T);
    var phase := if late >= 9.0 * T - 43.0 then 0.0 else 9.0 * T - 43.0 - late;
    Drifts(Rx(0, 0, 0), T, phase, n, clocks);
  }

  /** Streams of n back-to-back frames are received, for all bytes and phases, exactly
      when 49 n - 5 <= (10 n - 1) T and 8 T <= 43: from 44/9 clocks a bit for a single
      frame up to 4.9 clocks for arbitrarily long streams. */
  lemma StreamTolerance(T: real, n: nat)
    requires T > 0.0 && n > 0
    ensures ReceivesStream(T, n) <==> Keeps(T, n)
  {
    hide Received, StreamFrom, Frames, Zeros;
    KeepsInTime(T, n);
    if Keeps(T, n) {
      hide InTime, Keeps;
      forall r: Rx, bs: seq<bv8>, phase: real, clocks: nat |
        r.state == 0 && |bs| == n && 0.0 <= phase < 1.0 && phase + clocks as real >= Frames(T, n) + 2.0
        ensures Received(r, StreamFrom(bs, T, phase), clocks) == bs
      {
        StreamReceived(r, bs, T, phase, 1.0, clocks);
      }
    } else {
      var clocks := ClocksEnough(T, n);
      if 9.0 * T < 44.0 {
        hide InTime, Keeps;
        FastStream(T, n - 1, clocks);
      } else if 8.0 * T > 43.0 {
        hide InTime, Keeps;
        SlowStream(T, n - 1, clocks);
      } else {
        DriftingStream(T, n, clocks);
        hide InTime, Keeps;
      }
    }
  }

  /** At 4.9 clocks a bit or more no stream is too long, and at less some are. */
  lemma EveryStream(T: real)
    requires T > 0.0
    ensures (forall n: nat :: n > 0 ==> ReceivesStream(T, n)) <==> 49.0 <= 10.0 * T && 8.0 * T <= 43.0
  {
    hide ReceivesStream;
    if 49.0 <= 10.0 * T && 8.0 * T <= 43.0 {
      forall n: nat | n > 0 ensures ReceivesStream(T, n) {
        StreamTolerance(T, n);
        LongKeeps(T, n);
      }
    } else {
      var n := TooLong(T);
      StreamTolerance(T, n);
    }
  }

  lemma LongKeeps(T: real, n: nat)
    requires 49.0 <= 10.0 * T && 8.0 * T <= 43.0 && n > 0
    ensures Keeps(T, n)
  {}

  lemma TooLong(T: real) returns (n: nat)
    requires T > 0.0 && !(49.0 <= 10.0 * T && 8.0 * T <= 43.0)
    ensures n > 0 && !Keeps(T, n)
  {
    if 8.0 * T > 43.0 {
      n := 1;
    } else {
      var d := 49.0 - 10.0 * T;
      var p := 5.0;
      n := (p / d).Floor + 1;
      Cancel(p, d);
      Exceeds(n as real, p / d, d, p);
    }
  }

  lemma Exceeds(x: real, q: real, d: real, p: real)
    requires d > 0.0 && x > q && q * d == p
    ensures x * d > p
  {
    Scale(x, q, d);
  }

  lemma Cancel(p: real, d: real)
    requires d > 0.0
    ensures (p / d) * d == p
  {}

  lemma Scale(x: real, q: real, d: real)
    requires d > 0.0 && x > q
    ensures x * d > q * d
  {
    assert (x - q) * d > 0.0;
  }

  // --- The second decoder -------------------------------------------------------------

  /** When uart_get samples bit i, after the falling edge; BTIME/2 is an integer division. */
  function GetTime(btime: nat, i: nat): nat { btime + 2 * (btime / 2) * i + btime / 2 }

  /** An odd bit time loses one unit per bit, which half a bit time of slack absorbs. */
  predicate GetKeepsUp(btime: nat) { btime >= 15 || (btime % 2 == 0 && btime > 0) }

  /** Half a bit time into cell i + 1, less one unit for each bit so far if the bit time is odd. */
  lemma GetOffset(btime: nat, i: nat)
    ensures GetTime(btime, i) == (i + 1) * btime + btime / 2 - btime % 2 * i
  {
    assert 2 * (btime / 2) == btime - btime % 2;
    assert (btime - btime % 2) * i == btime * i - btime % 2 * i;
  }

  lemma GetInCell(btime: nat, i: nat)
    requires GetKeepsUp(btime) && i < 8
    ensures (i + 1) * btime <= GetTime(btime, i) < (i + 2) * btime
  {
    hide GetTime;
    GetOffset(btime, i);
    assert (i + 2) * btime == (i + 1) * btime + btime;
    if btime % 2 == 0 { assert btime % 2 * i == 0; } else { assert btime % 2 * i == i; }
  }

  lemma GetLevel(b: bv8, btime: nat, i: nat)
    requires GetKeepsUp(btime) && i < 8
    ensures Line(b, btime as real, GetTime(btime, i) as real) == BitOf(b, i)
  {
    hide Line, BitOf, GetTime;
    GetInCell(btime, i);
    assert (i + 1) as real * btime as real <= GetTime(btime, i) as real < (i + 2) as real * btime as real by {
      assert ((i + 1) * btime) as real == (i + 1) as real * btime as real;
      assert ((i + 2) * btime) as real == (i + 2) as real * btime as real;
    }
    CellLevel(b, btime as real, GetTime(btime, i) as real, i);
  }

  /** Recovers a byte sent by uart_put with the same bit time. */
  method UartGet(b: bv8, btime: nat) returns (bits: seq<bool>)
    requires GetKeepsUp(btime)
    ensures |bits| == 8 && forall i :: 0 <= i < 8 ==> bits[i] == BitOf(b, i)
  {
    hide Line, BitOf, GetTime, GetKeepsUp;
    var time := btime;
    bits := [];
    GetStart(btime);
    for i := 0 to 8
      invariant |bits| == i && time + btime / 2 == GetTime(btime, i)
      invariant forall k :: 0 <= k < i ==> bits[k] == BitOf(b, k)
    {
      time := time + btime / 2;
      GetLevel(b, btime, i);
      bits := bits + [Line(b, btime as real, time as real)];
      time := time + btime / 2;
      GetNext(btime, i);
    }
  }

  lemma GetStart(btime: nat)
    ensures btime + btime / 2 == GetTime(btime, 0)
  {}

  lemma GetNext(btime: nat, i: nat)
    ensures GetTime(btime, i + 1) == GetTime(btime, i) + btime / 2 + btime / 2
  {
    assert 2 * (btime / 2) * (i + 1) == 2 * (btime / 2) * i + 2 * (btime / 2);
  }

  /** A shorter odd bit time drifts out of the last cell. */
  lemma GetDrifts(btime: nat)
    requires !GetKeepsUp(btime) && btime > 0
    ensures GetTime(btime, 7) < 8 * btime
  {}

  /** Every bit of every byte is read right. */
  ghost predicate GetReads(btime: nat) {
    forall b: bv8, i: nat :: i < 8 ==> Line(b, btime as real, GetTime(btime, i) as real) == BitOf(b, i)
  }

  /** The second decoder works exactly for even bit times and for odd ones of 15 or more. */
  lemma GetTolerance(btime: nat)
    ensures GetReads(btime) <==> GetKeepsUp(btime)
  {
    hide Line, BitOf, GetTime, GetKeepsUp;
    if GetKeepsUp(btime) {
      forall b: bv8, i: nat | i < 8 ensures Line(b, btime as real, GetTime(btime, i) as real) == BitOf(b, i) {
        GetLevel(b, btime, i);
      }
    } else if btime == 0 {
      NoTime(0);
      assert Line(0, btime as real, GetTime(btime, 0) as real) != BitOf(0, 0);
    } else {
      GetDrifts(btime);
      LowBeforeLast(btime as real, GetTime(btime, 7) as real);
      LastBit();
      assert Line(0x80, btime as real, GetTime(btime, 7) as real) != BitOf(0x80, 7);
    }
  }

  lemma NoTime(b: bv8)
    ensures Line(b, 0.0, GetTime(0, 0) as real) && !BitOf(0, 0)
  {}

  lemma LastBit()
    ensures BitOf(0x80, 7)
  {}

  /** No sample falls on a change of the line. */
  predicate GetClear(btime: nat) {
    forall i: nat :: i < 8 ==> (i + 1) * btime < GetTime(btime, i) < (i + 2) * btime
  }

  /** At a bit time of 15 the last sample falls on the change itself; beyond that, and at
      even bit times, none does. */
  lemma GetNoRace(btime: nat)
    ensures GetClear(btime) <==> (btime > 0 && btime % 2 == 0) || btime >= 17
  {
    hide GetTime;
    if (btime > 0 && btime % 2 == 0) || btime >= 17 {
      forall i: nat | i < 8 ensures (i + 1) * btime < GetTime(btime, i) < (i + 2) * btime {
        GetOffset(btime, i);
        assert (i + 2) * btime == (i + 1) * btime + btime;
        if btime % 2 == 0 { assert btime % 2 * i == 0; } else { assert btime % 2 * i == i; }
      }
    } else {
      GetOffset(btime, 7);
      assert !((7 + 1) * btime < GetTime(btime, 7));
    }
  }
}
