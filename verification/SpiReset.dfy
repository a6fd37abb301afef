/** The commands of the SPI flash model that read nothing: power down and up, and the
    mode-bit reset that leaves continuous read. */
module SpiReset {
  import opened SpiFlash

  // --- Power ------------------------------------------------------------------

  /** Between transactions, continuous read off, powered up or down. */
  predicate Resting(f: Flash) {
    f.dummycount == 0 && f.bitcount == 0 && f.bytecount == 0 && f.mode == Spi && f.xip == 0
  }

  function SendAll(m: Contents, f: Flash, bs: seq<bv8>): Flash {
    if bs == [] then f else Send(m, SendAll(m, f, bs[..|bs| - 1]), bs[|bs| - 1])
  }

  lemma FirstByte(m: Contents, f: Flash)
    requires f.bytecount == 1
    ensures var g := Action(m, f);
            && g.cmd == f.buffer && g.poweredUp == (f.buffer == 0xab || (f.buffer != 0xb9 && f.poweredUp))
            && g.xip == (if f.buffer == 0xff then 0 else f.xip) && g.dummycount == f.dummycount
            && (!g.poweredUp ==> g == f.(cmd := f.buffer, poweredUp := false, xip := g.xip))
  {
    hide Upper, Middle, Lower, Following;
  }

  /** AB powers the flash up, B9 powers it down, and no other command changes that. */
  lemma PowerCommands(m: Contents, f: Flash, cmd: bv8, c: Counters, counted: bool)
    requires Resting(f)
    ensures var g := Deselect(Send(m, Select(m, f), cmd), c, counted);
            Resting(g) && g.poweredUp == (cmd == 0xab || (cmd != 0xb9 && f.poweredUp))
  {
    hide Action, Send;
    SendByte(m, f, cmd);
    FirstByte(m, f.(buffer := cmd, bytecount := 1));
  }

  /** Powered down, the flash echoes the bytes it is sent and reads nothing, until AB. */
  lemma {:induction false} Asleep(m: Contents, f: Flash, bs: seq<bv8>)
    requires Resting(f) && !f.poweredUp && (bs != [] ==> bs[0] != 0xab)
    ensures SendAll(m, f, bs)
            == if bs == [] then f else f.(buffer := bs[|bs| - 1], bytecount := |bs|, cmd := bs[0])
    decreases |bs|
  {
    hide Action, Send;
    if bs != [] {
      var cs, b := bs[..|bs| - 1], bs[|bs| - 1];
      Asleep(m, f, cs);
      var g := SendAll(m, f, cs);
      SendByte(m, g, b);
      if cs == [] {
        FirstByte(m, g.(buffer := b, bytecount := 1));
      } else {
        LaterByte(m, g.(buffer := b, bytecount := |bs|));
      }
    }
  }

  lemma LaterByte(m: Contents, f: Flash)
    requires !f.poweredUp && f.bytecount > 1
    ensures Action(m, f) == f
  {
    hide SingleRead, WideRead;
  }

  // --- Counting the clocks ------------------------------------------------------

  predicate AllHigh(lines: seq<bv4>) { forall k :: 0 <= k < |lines| ==> lines[k] & 1 != 0 }

  lemma {:induction false} ClocksCounted(lines: seq<bv4>)
    ensures var c := CountAll(Counters(0, 0), lines);
            && c.clocks == (if |lines| < 9 then |lines| else 9)
            && (|lines| < 9 ==> c.high <= |lines| && (c.high == |lines| <==> AllHigh(lines)))
    decreases |lines|
  {
    if lines != [] {
      var ls, l := lines[..|lines| - 1], lines[|lines| - 1];
      ClocksCounted(ls);
      assert lines == ls + [l];
      OneMore(ls, l);
    }
  }

  lemma OneMore(ls: seq<bv4>, l: bv4)
    ensures AllHigh(ls + [l]) <==> AllHigh(ls) && l & 1 != 0
  {
    var all := ls + [l];
    assert all[|ls|] == l;
    assert forall k :: 0 <= k < |ls| ==> all[k] == ls[k];
  }

  /** The counters show a mode-bit reset exactly after a transaction of eight clocks
      with io0 high in each. */
  lemma ResetExactly(lines: seq<bv4>)
    ensures CountAll(Counters(0, 0), lines) == Counters(8, 8) <==> |lines| == 8 && AllHigh(lines)
  {
    hide CountAll, AllHigh;
    ClocksCounted(lines);
  }

  /** What deselection leaves of continuous read. */
  lemma DeselectExactly(f: Flash, lines: seq<bv4>, counted: bool)
    ensures var g := Deselect(f, CountAll(Counters(0, 0), lines), counted);
            var armed := f.xip == 0xbb || f.xip == 0xeb || f.xip == 0xed;
            var reset := armed && counted && |lines| == 8 && AllHigh(lines);
            && g.buffer == 0 && g.bitcount == 0 && g.bytecount == 0 && g.mode == Spi
            && g.poweredUp == f.poweredUp && g.dummycount == f.dummycount && g.addr == f.addr
            && g.xip == (if reset then 0 else f.xip) && g.cmd == if reset then 0x03 else f.cmd
  {
    hide CountAll, AllHigh;
    ResetExactly(lines);
  }

  // --- Mode-bit reset -------------------------------------------------------------

  /** The host drives each of the given values for one clock; the lines as the rising
      edges see them. */
  function Clocked(m: Contents, f: Flash, hosts: seq<bv4>): Flash {
    if hosts == [] then f else Clock(m, Clocked(m, f, hosts[..|hosts| - 1]), hosts[|hosts| - 1])
  }

  function ClockedLines(m: Contents, f: Flash, hosts: seq<bv4>): (ls: seq<bv4>)
    ensures |ls| == |hosts|
  {
    if hosts == [] then [] else
      var ys := hosts[..|hosts| - 1];
      ClockedLines(m, f, ys) + [Lines(Clocked(m, f, ys), hosts[|hosts| - 1])]
  }

  /** k clocks into the address, on two lines. */
  predicate DualAt(f: Flash, g: Flash, k: nat) {
    && g.poweredUp && g.dummycount == 0 && g.xip == f.xip && g.cmd == 0xbb && g.mode == DualRead
    && g.bytecount == 1 + k / 4 && g.bitcount == 2 * (k % 4)
  }

  /** k clocks into address and mode byte, on four lines; the last clock's nibble is in
      the low half of the buffer. */
  predicate QuadAt(f: Flash, g: Flash, k: nat) {
    && g.poweredUp && g.dummycount == 0 && g.xip == f.xip && g.cmd == 0xeb && g.mode == QuadRead
    && g.bytecount == 1 + k / 2 && g.bitcount == 4 * (k % 2)
    && (k == 7 ==> g.buffer & 1 != 0)
  }

  lemma InputIsHost(f: Flash, host: bv4)
    requires f.mode == DualRead || f.mode == QuadRead
    ensures Lines(f, host) == host
  {}

  lemma DualClock(m: Contents, f: Flash, g: Flash, host: bv4, k: nat)
    requires DualAt(f, g, k) && k < 8
    ensures DualAt(f, Clock(m, g, host), k + 1)
  {
    hide Action, ShiftIn, Lines, Upper, Middle, Lower;
    AddressAction(m, g.(buffer := ShiftIn(DualRead, g.buffer, Lines(g, host)), bitcount := 0,
      bytecount := g.bytecount + 1));
  }

  lemma NibbleStays(b: bv8, host: bv4)
    requires host & 1 != 0
    ensures ShiftIn(QuadRead, b, host) & 1 != 0
    ensures b & 1 != 0 ==> ShiftIn(QuadRead, b, host) & 0x10 != 0
  {}

  lemma QuadClock(m: Contents, f: Flash, g: Flash, host: bv4, k: nat)
    requires QuadAt(f, g, k) && k < 7 && host & 1 != 0
    ensures QuadAt(f, Clock(m, g, host), k + 1)
  {
    hide Action, ShiftIn, Lines, Upper, Middle, Lower;
    InputIsHost(g, host);
    NibbleStays(g.buffer, host);
    if k % 2 == 1 {
      AddressAction(m, g.(buffer := ShiftIn(QuadRead, g.buffer, host), bitcount := 0, bytecount := g.bytecount + 1));
    }
  }

  /** The eighth clock on four lines completes the mode byte, which is not A5. */
  lemma QuadLast(m: Contents, f: Flash, g: Flash, host: bv4)
    requires QuadAt(f, g, 7) && host & 1 != 0
    ensures var h := Clock(m, g, host); h.poweredUp && h.xip == 0 && h.dummycount == 8
  {
    hide Action, ShiftIn, Lines;
    InputIsHost(g, host);
    NibbleStays(g.buffer, host);
    var b := ShiftIn(QuadRead, g.buffer, host);
    ModeAction(m, g.(buffer := b, bitcount := 0, bytecount := 5));
    NotArmed(b);
  }

  lemma NotArmed(b: bv8)
    requires b & 0x10 != 0
    ensures b != 0xa5
  {}

  lemma ModeAction(m: Contents, f: Flash)
    requires f.poweredUp && f.cmd == 0xeb && f.bytecount == 5
    ensures var g := Action(m, f);
            g.poweredUp && g.dummycount == 8 && g.xip == if f.buffer == 0xa5 then 0xeb else 0
  {
    hide Following;
  }

  lemma {:induction false} DualClocks(m: Contents, f: Flash, g: Flash, hosts: seq<bv4>)
    requires DualAt(f, g, 0) && |hosts| <= 8
    ensures DualAt(f, Clocked(m, g, hosts), |hosts|) && ClockedLines(m, g, hosts) == hosts
    decreases |hosts|
  {
    hide DualAt, Clock, Lines;
    if hosts != [] {
      var ys, host := hosts[..|hosts| - 1], hosts[|hosts| - 1];
      DualClocks(m, f, g, ys);
      DualClock(m, f, Clocked(m, g, ys), host, |ys|);
      DualMode(f, Clocked(m, g, ys), |ys|);
      InputIsHost(Clocked(m, g, ys), host);
    }
  }

  lemma DualMode(f: Flash, g: Flash, k: nat)
    ensures DualAt(f, g, k) ==> g.mode == DualRead
    ensures QuadAt(f, g, k) ==> g.mode == QuadRead
  {}

  lemma {:induction false} QuadClocks(m: Contents, f: Flash, g: Flash, hosts: seq<bv4>)
    requires QuadAt(f, g, 0) && |hosts| <= 7 && AllHigh(hosts)
    ensures QuadAt(f, Clocked(m, g, hosts), |hosts|)
    decreases |hosts|
  {
    hide QuadAt, Clock;
    if hosts != [] {
      var ys, host := hosts[..|hosts| - 1], hosts[|hosts| - 1];
      QuadClocks(m, f, g, ys);
      QuadClock(m, f, Clocked(m, g, ys), host, |ys|);
    }
  }

  /** From continuous read, eight clocks with io0 high and a deselection.  On two lines
      they leave continuous read exactly when the counters are checked before they are
      cleared; on four lines they always do, since they also complete a mode byte that
      is not A5, but that byte leaves eight dummy clocks behind. */
  lemma ModeBitReset(m: Contents, f: Flash, cmd: bv8, hosts: seq<bv4>, counted: bool)
    requires Resumable(f, cmd) && Wide(cmd) && |hosts| == 8 && AllHigh(hosts)
    ensures var s := Select(m, f);
            var g := Deselect(Clocked(m, s, hosts), CountAll(Counters(0, 0), ClockedLines(m, s, hosts)), counted);
            && g.poweredUp && g.bitcount == 0 && g.bytecount == 0 && g.mode == Spi
            && g.xip == (if cmd == 0xeb || counted then 0 else cmd)
            && g.dummycount == if cmd == 0xeb then 8 else 0
  {
    hide AllHigh, CountAll, Clock, Deselect;
    CommandTaken(m, f.(buffer := cmd, bitcount := 0, bytecount := 1), cmd);
    hide Action;
    var s := Select(m, f);
    DeselectExactly(Clocked(m, s, hosts), ClockedLines(m, s, hosts), counted);
    if cmd == 0xbb {
      DualClocks(m, s, s, hosts);
    } else {
      var ys := hosts[..7];
      LastHigh(hosts);
      QuadClocks(m, s, s, ys);
      QuadLast(m, s, Clocked(m, s, ys), hosts[7]);
    }
  }

  lemma LastHigh(hosts: seq<bv4>)
    requires |hosts| == 8 && AllHigh(hosts)
    ensures AllHigh(hosts[..7]) && hosts[7] & 1 != 0
  {}

  /** With these left over the next command byte is lost. */
  lemma CommandLost(m: Contents, f: Flash, b: bv8)
    requires f.dummycount == 8 && f.mode == Spi
    ensures Send(m, f, b) == f.(dummycount := 0)
  {
    hide Clock;
    DummySend(m, f, b, 8);
  }

  lemma {:induction false} DummySend(m: Contents, f: Flash, b: bv8, n: nat)
    requires f.dummycount == n
    ensures SendIn(m, f, b, n) == f.(dummycount := 0)
    decreases n
  {
    hide Lines, ByteDone, ShiftIn, Leading, Remaining;
    if n > 0 { DummySend(m, Clock(m, f, Leading(f.mode, b)), Remaining(f.mode, b), n - 1); }
  }
}
