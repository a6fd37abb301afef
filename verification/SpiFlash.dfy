/** The SPI flash model of the testbench: commands 03, BB, EB, AB, B9, FF and
    continuous read (XIP), clock by clock on its four lines. */
module SpiFlash {
  type Address = bv24
  type Contents = Address -> bv8

  datatype Mode = Spi | DualRead | DualWrite | QuadRead | QuadWrite

  datatype Flash = Flash(
    buffer: bv8, bitcount: nat, bytecount: nat, dummycount: nat,
    cmd: bv8, xip: bv8, addr: Address, poweredUp: bool, mode: Mode)

  /** Clocks since selection, up to nine, and how many of them had io0 high. */
  datatype Counters = Counters(clocks: nat, high: nat)

  const LATENCY: nat := 8

  // --- spi_action ---------------------------------------------------------------

  /** The command and power effects of a completed byte. */
  function Command(f: Flash): Flash {
    if f.bytecount == 1 then
      f.(cmd := f.buffer,
         poweredUp := if f.buffer == 0xab then true else if f.buffer == 0xb9 then false else f.poweredUp,
         xip := if f.buffer == 0xff then 0 else f.xip)
    else f
  }

  function Upper(a: Address, b: bv8): Address { (a & 0x00ffff) | ((b as bv24) << 16) }
  function Middle(a: Address, b: bv8): Address { (a & 0xff00ff) | ((b as bv24) << 8) }
  function Lower(a: Address, b: bv8): Address { (a & 0xffff00) | (b as bv24) }
  function Following(a: Address): Address { a + 1 }

  function AddressByte(f: Flash): Flash {
    if f.bytecount == 2 then f.(addr := Upper(f.addr, f.buffer))
    else if f.bytecount == 3 then f.(addr := Middle(f.addr, f.buffer))
    else if f.bytecount == 4 then f.(addr := Lower(f.addr, f.buffer))
    else f
  }

  function LoadNext(m: Contents, f: Flash): Flash { f.(buffer := m(f.addr), addr := Following(f.addr)) }

  function SingleRead(m: Contents, f: Flash): Flash {
    var g := AddressByte(f);
    if g.bytecount >= 4 then LoadNext(m, g) else g
  }

  /** Dual and quad reads: a mode byte follows the address and A5 arms continuous read. */
  function WideRead(m: Contents, f: Flash, input: Mode, output: Mode): Flash {
    var g := AddressByte(if f.bytecount == 1 then f.(mode := input) else f);
    var h := if g.bytecount == 5 then ModeByte(g, output) else g;
    if h.bytecount >= 5 then LoadNext(m, h) else h
  }

  function ModeByte(f: Flash, output: Mode): Flash {
    f.(xip := if f.buffer == 0xa5 then f.cmd else 0, mode := output, dummycount := LATENCY)
  }

  function Action(m: Contents, f: Flash): Flash {
    var g := Command(f);
    if !g.poweredUp then g
    else if g.cmd == 0x03 then SingleRead(m, g)
    else if g.cmd == 0xbb then WideRead(m, g, DualRead, DualWrite)
    else if g.cmd == 0xeb then WideRead(m, g, QuadRead, QuadWrite)
    else g
  }

  // --- Edges ----------------------------------------------------------------------

  /** The four lines at the rising clock edge: what the flash drives overrides the host. */
  function Lines(f: Flash, host: bv4): bv4 {
    if f.dummycount > 0 then host
    else match f.mode
      case Spi => (host & 0xd) | (if f.buffer & 0x80 != 0 then 2 else 0)
      case DualWrite => (host & 0xc) | ((f.buffer >> 6) as bv4)
      case QuadWrite => (f.buffer >> 4) as bv4
      case _ => host
  }

  function ByteDone(m: Contents, f: Flash): Flash {
    if f.bitcount == 8 then Action(m, f.(bitcount := 0, bytecount := f.bytecount + 1)) else f
  }

  function Width(mode: Mode): nat { match mode case Spi => 1 case DualRead => 2 case DualWrite => 2 case _ => 4 }

  function ShiftIn(mode: Mode, b: bv8, lines: bv4): bv8 {
    match mode
    case Spi => (b << 1) | ((lines & 1) as bv8)
    case DualRead => (b << 2) | ((lines & 3) as bv8)
    case DualWrite => (b << 2) | ((lines & 3) as bv8)
    case _ => (b << 4) | (lines as bv8)
  }

  function CountReset(c: Counters, lines: bv4): Counters {
    if c.clocks < 9 then Counters(c.clocks + 1, if lines & 1 != 0 then c.high + 1 else c.high) else c
  }

  function Edge(m: Contents, f: Flash, lines: bv4): Flash {
    if f.dummycount > 0 then f.(dummycount := f.dummycount - 1)
    else ByteDone(m, f.(buffer := ShiftIn(f.mode, f.buffer, lines), bitcount := f.bitcount + Width(f.mode)))
  }

  /** One clock: the lines settle, then the rising edge samples them. */
  function Clock(m: Contents, f: Flash, host: bv4): Flash { Edge(m, f, Lines(f, host)) }

  function Select(m: Contents, f: Flash): Flash {
    if f.xip != 0 then Action(m, f.(buffer := f.xip, bitcount := 0, bytecount := 1)) else f
  }

  predicate ContinuousRead(xip: bv8) { xip == 0xbb || xip == 0xeb || xip == 0xed }

  /** The end of a transaction.  counted says whether the reset counters still hold
      their values when continuous read is checked; the RTL leaves that order open. */
  function Deselect(f: Flash, c: Counters, counted: bool): Flash {
    var g := f.(buffer := 0, bitcount := 0, bytecount := 0, mode := Spi);
    if ContinuousRead(f.xip) && counted && c == Counters(8, 8) then g.(xip := 0, cmd := 0x03) else g
  }

  // --- The flash as its procedural blocks update it ---------------------------------

  class Device {
    const memory: Contents
    var buffer: bv8
    var bitcount: nat
    var bytecount: nat
    var dummycount: nat
    var spiCmd: bv8
    var xipCmd: bv8
    var spiAddr: Address
    var poweredUp: bool
    var mode: Mode
    var resetCount: nat
    var resetMonitor: nat

    function Snapshot(): Flash
      reads this
    {
      Flash(buffer, bitcount, bytecount, dummycount, spiCmd, xipCmd, spiAddr, poweredUp, mode)
    }

    function Count(): Counters
      reads this
    {
      Counters(resetCount, resetMonitor)
    }

    method CommandByte()
      modifies `spiCmd, `poweredUp, `xipCmd
      ensures Snapshot() == Command(old(Snapshot()))
    {
      if bytecount == 1 {
        spiCmd := buffer;
        if spiCmd == 0xab { poweredUp := true; }
        if spiCmd == 0xb9 { poweredUp := false; }
        if spiCmd == 0xff { xipCmd := 0; }
      }
    }

    method TakeAddress()
      modifies `spiAddr
      ensures Snapshot() == AddressByte(old(Snapshot()))
    {
      hide Upper, Middle, Lower;
      if bytecount == 2 { spiAddr := Upper(spiAddr, buffer); }
      if bytecount == 3 { spiAddr := Middle(spiAddr, buffer); }
      if bytecount == 4 { spiAddr := Lower(spiAddr, buffer); }
    }

    method LoadByte()
      modifies `buffer, `spiAddr
      ensures Snapshot() == LoadNext(memory, old(Snapshot()))
    {
      hide Following;
      buffer := memory(spiAddr);
      spiAddr := Following(spiAddr);
    }

    method SingleReadByte()
      modifies `buffer, `spiAddr
      ensures Snapshot() == SingleRead(memory, old(Snapshot()))
    {
      hide AddressByte, LoadNext;
      ghost var f := Snapshot();
      TakeAddress();
      AddressKeeps(f);
      if bytecount >= 4 { LoadByte(); }
    }

    method WideReadByte(input: Mode, output: Mode)
      modifies `buffer, `spiAddr, `mode, `xipCmd, `dummycount
      ensures Snapshot() == WideRead(memory, old(Snapshot()), input, output)
    {
      hide AddressByte, LoadNext, ModeByte;
      if bytecount == 1 { mode := input; }
      ghost var f := Snapshot();
      TakeAddress();
      AddressKeeps(f);
      if bytecount == 5 { TakeMode(output); }
      if bytecount >= 5 { LoadByte(); }
    }

    method TakeMode(output: Mode)
      modifies `mode, `xipCmd, `dummycount
      ensures Snapshot() == ModeByte(old(Snapshot()), output)
    {
      xipCmd := if buffer == 0xa5 then spiCmd else 0;
      mode := output;
      dummycount := LATENCY;
    }

    method SpiAction()
      modifies `buffer, `spiAddr, `mode, `xipCmd, `dummycount, `spiCmd, `poweredUp
      ensures Snapshot() == Action(memory, old(Snapshot()))
    {
      hide Command, SingleRead, WideRead;
      CommandByte();
      if poweredUp && spiCmd == 0x03 {
        SingleReadByte();
      } else if poweredUp && spiCmd == 0xbb {
        WideReadByte(DualRead, DualWrite);
      } else if poweredUp && spiCmd == 0xeb {
        WideReadByte(QuadRead, QuadWrite);
      }
    }

    /** The rising clock edge while selected. */
    method PosedgeClk(lines: bv4)
      modifies this
      ensures Snapshot() == Edge(memory, old(Snapshot()), lines) && Count() == CountReset(old(Count()), lines)
    {
      hide Action, ShiftIn;
      if resetCount < 9 {
        resetCount := resetCount + 1;
        if lines & 1 != 0 { resetMonitor := resetMonitor + 1; }
      }
      if dummycount > 0 {
        dummycount := dummycount - 1;
      } else {
        buffer := ShiftIn(mode, buffer, lines);
        bitcount := bitcount + Width(mode);
        if bitcount == 8 {
          bitcount := 0;
          bytecount := bytecount + 1;
          SpiAction();
        }
      }
    }

    method NegedgeCsb()
      modifies this
      ensures Snapshot() == Select(memory, old(Snapshot())) && Count() == old(Count())
    {
      hide Action;
      if xipCmd != 0 {
        buffer := xipCmd;
        bitcount := 0;
        bytecount := 1;
        SpiAction();
      }
    }

    method PosedgeCsb(counted: bool)
      modifies this
      ensures Snapshot() == Deselect(old(Snapshot()), old(Count()), counted) && Count() == Counters(0, 0)
    {
      if !counted { resetCount, resetMonitor := 0, 0; }
      buffer, bitcount, bytecount, mode := 0, 0, 0, Spi;
      if ContinuousRead(xipCmd) {
        if resetCount == 8 && resetMonitor == 8 { xipCmd, spiCmd := 0, 0x03; }
      }
      resetCount, resetMonitor := 0, 0;
    }
  }

  lemma AddressKeeps(f: Flash)
    ensures AddressByte(f).bytecount == f.bytecount && AddressByte(f).buffer == f.buffer && AddressByte(f).cmd == f.cmd
  {
    hide Upper, Middle, Lower;
  }

  // --- The host's side ---------------------------------------------------------------

  /** Lines carrying the leading bits of b, and what is left of b after one clock. */
  function Leading(mode: Mode, b: bv8): bv4 {
    match mode
    case Spi => (b >> 7) as bv4
    case DualRead => (b >> 6) as bv4
    case DualWrite => (b >> 6) as bv4
    case _ => (b >> 4) as bv4
  }
  function Remaining(mode: Mode, b: bv8): bv8 {
    match mode case Spi => b << 1 case DualRead => b << 2 case DualWrite => b << 2 case _ => b << 4
  }

  function ClocksPerByte(mode: Mode): nat {
    match mode case Spi => 8 case DualRead => 4 case DualWrite => 4 case _ => 2
  }

  /** Sends b, most significant bits first, in n clocks. */
  function SendIn(m: Contents, f: Flash, b: bv8, n: nat): Flash
    decreases n
  {
    if n == 0 then f else SendIn(m, Clock(m, f, Leading(f.mode, b)), Remaining(f.mode, b), n - 1)
  }

  function Send(m: Contents, f: Flash, b: bv8): Flash { SendIn(m, f, b, ClocksPerByte(f.mode)) }

  /** What the host reads off the lines: MISO alone, or two or four lines. */
  function Taken(mode: Mode, acc: bv8, lines: bv4): bv8 {
    match mode
    case Spi => (acc << 1) | ((lines >> 1) & 1) as bv8
    case DualRead => (acc << 2) | (lines & 3) as bv8
    case DualWrite => (acc << 2) | (lines & 3) as bv8
    case _ => (acc << 4) | (lines as bv8)
  }

  /** Clocks n times, the host driving host(n) ... host(1), and collects what it reads. */
  function ReceiveIn(m: Contents, f: Flash, host: nat -> bv4, acc: bv8, n: nat): (Flash, bv8)
    decreases n
  {
    if n == 0 then (f, acc)
    else ReceiveIn(m, Clock(m, f, host(n)), host, Taken(f.mode, acc, Lines(f, host(n))), n - 1)
  }

  function Receive(m: Contents, f: Flash, host: nat -> bv4): (Flash, bv8) {
    ReceiveIn(m, f, host, 0, ClocksPerByte(f.mode))
  }

  function Dummies(m: Contents, f: Flash, host: nat -> bv4, n: nat): Flash
    decreases n
  {
    if n == 0 then f else Dummies(m, Clock(m, f, host(n)), host, n - 1)
  }

  // --- Bytes ---------------------------------------------------------------------------

  function Merge(mode: Mode, buf: bv8, b: bv8, n: nat): bv8
    decreases n
  {
    if n == 0 then buf else Merge(mode, ShiftIn(mode, buf, Leading(mode, b)), Remaining(mode, b), n - 1)
  }

  /** k bits of b have been shifted in and the rest are still to come. */
  predicate Partial(buf: bv8, rest: bv8, b: bv8, k: bv4) {
    k <= 8 && rest & (0xff << k) == b << k && buf & !(0xff << k) == b >> (8 - k)
  }

  function Bits(mode: Mode): bv4 { match mode case Spi => 1 case DualRead => 2 case DualWrite => 2 case _ => 4 }

  lemma PartialOne(buf: bv8, rest: bv8, b: bv8, k: bv4)
    requires Partial(buf, rest, b, k) && k <= 7
    ensures Partial((buf << 1) | (rest >> 7), rest << 1, b, k + 1)
  {}

  lemma PartialTwo(buf: bv8, rest: bv8, b: bv8, k: bv4)
    requires Partial(buf, rest, b, k) && k <= 6
    ensures Partial((buf << 2) | (rest >> 6), rest << 2, b, k + 2)
  {}

  lemma PartialFour(buf: bv8, rest: bv8, b: bv8, k: bv4)
    requires Partial(buf, rest, b, k) && k <= 4
    ensures Partial((buf << 4) | (rest >> 4), rest << 4, b, k + 4)
  {}

  lemma Steps(mode: Mode, buf: bv8, b: bv8)
    ensures ShiftIn(mode, buf, Leading(mode, b)) == match mode
                                                    case Spi => (buf << 1) | (b >> 7)
                                                    case DualRead => (buf << 2) | (b >> 6)
                                                    case DualWrite => (buf << 2) | (b >> 6)
                                                    case _ => (buf << 4) | (b >> 4)
  {}

  lemma PartialStep(mode: Mode, buf: bv8, rest: bv8, b: bv8, k: bv4)
    requires Partial(buf, rest, b, k) && k <= 8 - Bits(mode)
    ensures Partial(ShiftIn(mode, buf, Leading(mode, rest)), Remaining(mode, rest), b, k + Bits(mode))
  {
    hide Partial, ShiftIn, Leading;
    Steps(mode, buf, rest);
    match mode
    case Spi => PartialOne(buf, rest, b, k);
    case DualRead => PartialTwo(buf, rest, b, k);
    case DualWrite => PartialTwo(buf, rest, b, k);
    case _ => PartialFour(buf, rest, b, k);
  }

  lemma PartialEnds(buf: bv8, rest: bv8, b: bv8)
    ensures Partial(buf, b, b, 0)
    ensures Partial(buf, rest, b, 8) ==> buf == b
  {}

  lemma BitsLeft(mode: Mode, k: bv4, n: nat)
    requires k <= 8 && n > 0 && k as nat + n * Width(mode) == 8
    ensures k <= 8 - Bits(mode) && (k + Bits(mode)) as nat == k as nat + Width(mode)
  {}

  lemma {:induction false} MergeFrom(mode: Mode, buf: bv8, rest: bv8, b: bv8, k: bv4, n: nat)
    requires Partial(buf, rest, b, k) && k as nat + n * Width(mode) == 8
    ensures Merge(mode, buf, rest, n) == b
    decreases n
  {
    hide Partial, ShiftIn, Leading, Remaining, Bits;
    if n == 0 {
      assert k == 8;
      PartialEnds(buf, rest, b);
    } else {
      assert k <= 8;
      BitsLeft(mode, k, n);
      PartialStep(mode, buf, rest, b, k);
      MergeFrom(mode, ShiftIn(mode, buf, Leading(mode, rest)), Remaining(mode, rest), b, k + Bits(mode), n - 1);
    }
  }

  /** A whole byte replaces whatever the buffer held. */
  lemma MergeByte(mode: Mode, buf: bv8, b: bv8)
    ensures Merge(mode, buf, b, ClocksPerByte(mode)) == b
  {
    hide Partial, Merge;
    PartialEnds(buf, b, b);
    MergeFrom(mode, buf, b, b, 0, ClocksPerByte(mode));
  }

  // --- One byte on the wire ------------------------------------------------------------

  predicate Input(mode: Mode) { mode == Spi || mode == DualRead || mode == QuadRead }
  predicate Output(mode: Mode) { mode == Spi || mode == DualWrite || mode == QuadWrite }

  /** What the flash leaves to the host: every line while it waits or is written to, all
      but io1 with a single data line, and io2 and io3 with two. */
  lemma ReleasedLines(f: Flash, host: bv4)
    ensures f.dummycount > 0 || f.mode == DualRead || f.mode == QuadRead ==> Lines(f, host) == host
    ensures f.mode == Spi ==> Lines(f, host) & 0xd == host & 0xd
    ensures f.mode == DualWrite ==> Lines(f, host) & 0xc == host & 0xc
  {}

  lemma InputLines(f: Flash, host: bv4)
    requires f.dummycount == 0 && Input(f.mode)
    ensures ShiftIn(f.mode, f.buffer, Lines(f, host)) == ShiftIn(f.mode, f.buffer, host)
  {}

  lemma OutputSpi(f: Flash, host: bv4, acc: bv8)
    requires f.dummycount == 0 && f.mode == Spi
    ensures Taken(Spi, acc, Lines(f, host)) == ShiftIn(Spi, acc, Leading(Spi, f.buffer))
  {
    MisoBit(f.buffer, host);
    MisoTaken(acc, Lines(f, host), f.buffer);
    hide Lines;
  }

  lemma MisoBit(b: bv8, host: bv4)
    ensures (((host & 0xd) | (if b & 0x80 != 0 then 2 else 0)) >> 1) & 1 == (b >> 7) as bv4
  {}

  lemma MisoTaken(acc: bv8, lines: bv4, b: bv8)
    requires (lines >> 1) & 1 == (b >> 7) as bv4
    ensures Taken(Spi, acc, lines) == ShiftIn(Spi, acc, Leading(Spi, b))
  {}

  lemma OutputDual(f: Flash, host: bv4, acc: bv8)
    requires f.dummycount == 0 && f.mode == DualWrite
    ensures Taken(DualWrite, acc, Lines(f, host)) == ShiftIn(DualWrite, acc, Leading(DualWrite, f.buffer))
  {}

  lemma OutputQuad(f: Flash, host: bv4, acc: bv8)
    requires f.dummycount == 0 && f.mode == QuadWrite
    ensures Taken(QuadWrite, acc, Lines(f, host)) == ShiftIn(QuadWrite, acc, Leading(QuadWrite, f.buffer))
  {}

  lemma OutputLines(f: Flash, host: bv4, acc: bv8)
    requires f.dummycount == 0 && Output(f.mode)
    ensures Taken(f.mode, acc, Lines(f, host)) == ShiftIn(f.mode, acc, Leading(f.mode, f.buffer))
  {
    hide Taken, Lines, ShiftIn, Leading;
    match f.mode
    case Spi => OutputSpi(f, host, acc);
    case DualWrite => OutputDual(f, host, acc);
    case _ => OutputQuad(f, host, acc);
  }

  lemma OutputRest(f: Flash, host: bv4, acc: bv8, b: bv8, k: bv4)
    requires f.dummycount == 0 && Output(f.mode) && Partial(acc, f.buffer, b, k) && k <= 8 - Bits(f.mode)
    ensures Partial(ShiftIn(f.mode, acc, Leading(f.mode, f.buffer)), ShiftIn(f.mode, f.buffer, Lines(f, host)), b,
            k + Bits(f.mode))
  {
    PartialStep(f.mode, acc, f.buffer, b, k);
    LowBits(f.mode, f.buffer, Lines(f, host), ShiftIn(f.mode, acc, Leading(f.mode, f.buffer)), b, k + Bits(f.mode));
    hide Partial, ShiftIn, Leading, Remaining, Lines;
  }

  lemma LowBits(mode: Mode, buf: bv8, lines: bv4, acc: bv8, b: bv8, k: bv4)
    requires Partial(acc, Remaining(mode, buf), b, k) && k >= Bits(mode)
    ensures Partial(acc, ShiftIn(mode, buf, lines), b, k)
  {}

  /** Sending a byte hands it to spi_action with the byte count advanced. */
  lemma {:induction false} SendRest(m: Contents, f: Flash, b: bv8, n: nat)
    requires f.dummycount == 0 && Input(f.mode) && n > 0 && f.bitcount + n * Width(f.mode) == 8
    ensures SendIn(m, f, b, n) == Action(m,
            f.(buffer := Merge(f.mode, f.buffer, b, n), bitcount := 0, bytecount := f.bytecount + 1))
    decreases n
  {
    hide Action, ShiftIn, Leading, Remaining, Lines;
    var g := Clock(m, f, Leading(f.mode, b));
    InputLines(f, Leading(f.mode, b));
    MergeStep(f.mode, f.buffer, b, n - 1);
    if n == 1 {
      MergeStep(f.mode, ShiftIn(f.mode, f.buffer, Leading(f.mode, b)), Remaining(f.mode, b), 0);
      assert SendIn(m, g, Remaining(f.mode, b), 0) == g;
    } else {
      NotYet(f.mode, f.bitcount, n);
      SendRest(m, g, Remaining(f.mode, b), n - 1);
    }
  }

  lemma MergeStep(mode: Mode, buf: bv8, b: bv8, n: nat)
    ensures Merge(mode, buf, b, n + 1) == Merge(mode, ShiftIn(mode, buf, Leading(mode, b)), Remaining(mode, b), n)
    ensures Merge(mode, buf, b, 0) == buf
  {
    hide ShiftIn, Leading, Remaining;
  }

  lemma NotYet(mode: Mode, bitcount: nat, n: nat)
    requires bitcount + n * Width(mode) == 8 && n > 1
    ensures bitcount + Width(mode) != 8 && bitcount + Width(mode) + (n - 1) * Width(mode) == 8
  {}

  lemma SendByte(m: Contents, f: Flash, b: bv8)
    requires f.dummycount == 0 && Input(f.mode) && f.bitcount == 0
    ensures Send(m, f, b) == Action(m, f.(buffer := b, bytecount := f.bytecount + 1))
  {
    hide Action, Merge;
    SendRest(m, f, b, ClocksPerByte(f.mode));
    MergeByte(f.mode, f.buffer, b);
  }

  /** What a received byte leaves in the buffer before spi_action. */
  function Leftover(f: Flash, host: nat -> bv4, n: nat): bv8
    decreases n
  {
    if n == 0 then f.buffer
    else Leftover(f.(buffer := ShiftIn(f.mode, f.buffer, Lines(f, host(n)))), host, n - 1)
  }

  lemma LeftoverFields(f: Flash, g: Flash, host: nat -> bv4, n: nat)
    requires g.mode == f.mode && g.buffer == f.buffer && g.dummycount == f.dummycount
    ensures Leftover(f, host, n) == Leftover(g, host, n)
    decreases n
  {
    hide ShiftIn;
    if n > 0 {
      LinesFields(f, g, host(n));
      var b := ShiftIn(f.mode, f.buffer, Lines(f, host(n)));
      LeftoverFields(f.(buffer := b), g.(buffer := b), host, n - 1);
    }
  }

  lemma LinesFields(f: Flash, g: Flash, host: bv4)
    requires g.mode == f.mode && g.buffer == f.buffer && g.dummycount == f.dummycount
    ensures Lines(f, host) == Lines(g, host)
  {}

  /** Receiving a byte reads the buffer off the lines, whatever the host drives. */
  lemma {:induction false} ReceiveRest(m: Contents, f: Flash, host: nat -> bv4, acc: bv8, b: bv8, k: bv4, n: nat)
    requires f.dummycount == 0 && Output(f.mode) && n > 0 && f.bitcount + n * Width(f.mode) == 8
    requires Partial(acc, f.buffer, b, k) && k as nat == f.bitcount
    ensures ReceiveIn(m, f, host, acc, n).1 == b
    ensures ReceiveIn(m, f, host, acc, n).0
            == Action(m, f.(buffer := Leftover(f, host, n), bitcount := 0, bytecount := f.bytecount + 1))
    decreases n
  {
    hide Action, ShiftIn, Leading, Remaining, Lines, Partial, Taken, Bits;
    var g, l := Clock(m, f, host(n)), Lines(f, host(n));
    var acc' := Taken(f.mode, acc, l);
    OutputLines(f, host(n), acc);
    KInRange(k, f.bitcount, f.mode, n);
    BitsLeft(f.mode, k, n);
    OutputRest(f, host(n), acc, b, k);
    if n == 1 {
      assert ReceiveIn(m, g, host, acc', 0) == (g, acc');
      FullCount(f.mode, k);
      PartialEnds(acc', ShiftIn(f.mode, f.buffer, l), b);
    } else {
      NotYet(f.mode, f.bitcount, n);
      ReceiveRest(m, g, host, acc', b, k + Bits(f.mode), n - 1);
      LeftoverFields(f.(buffer := ShiftIn(f.mode, f.buffer, l)), g, host, n - 1);
    }
  }

  lemma KInRange(k: bv4, bitcount: nat, mode: Mode, n: nat)
    requires k as nat == bitcount && n > 0 && bitcount + n * Width(mode) == 8
    ensures k <= 8 && k as nat + n * Width(mode) == 8
  {}

  lemma FullCount(mode: Mode, k: bv4)
    requires k as nat + Width(mode) == 8
    ensures k + Bits(mode) == 8
  {}

  lemma ReceiveByte(m: Contents, f: Flash, host: nat -> bv4)
    requires f.dummycount == 0 && Output(f.mode) && f.bitcount == 0
    ensures Receive(m, f, host).1 == f.buffer
    ensures Receive(m, f, host).0 == Action(m,
            f.(buffer := Leftover(f, host, ClocksPerByte(f.mode)), bytecount := f.bytecount + 1))
  {
    hide Action, Partial, Leftover;
    PartialEnds(0, f.buffer, f.buffer);
    ReceiveRest(m, f, host, 0, f.buffer, 0, ClocksPerByte(f.mode));
  }

  // --- Transactions ----------------------------------------------------------------------

  /** k bytes on, modulo 2^24. */
  function Offset(a: Address, k: nat): Address { if k == 0 then a else Offset(a, k - 1) + 1 }

  lemma OffsetFollows(a: Address, k: nat)
    ensures Offset(a, k + 1) == Following(Offset(a, k))
  {
    FollowingAdds(Offset(a, k));
    hide Following;
  }

  lemma NoOffset(a: Address)
    ensures Offset(a, 0) == a
  {}

  lemma FollowingAdds(a: Address)
    ensures Following(a) == a + 1
  {}

  /** n bytes from a on, wrapping at the end of the address space. */
  function Stream(m: Contents, a: Address, n: nat): seq<bv8> {
    if n == 0 then [] else Stream(m, a, n - 1) + [m(Offset(a, n - 1))]
  }

  predicate Wide(cmd: bv8) { cmd == 0xbb || cmd == 0xeb }
  predicate ReadCommand(cmd: bv8) { cmd == 0x03 || Wide(cmd) }
  function InputMode(cmd: bv8): Mode { if cmd == 0xbb then DualRead else if cmd == 0xeb then QuadRead else Spi }
  function OutputMode(cmd: bv8): Mode { if cmd == 0xbb then DualWrite else if cmd == 0xeb then QuadWrite else Spi }

  /** Powered up, at the start of a transaction, no dummy cycle left over. */
  predicate Ready(f: Flash) {
    f.poweredUp && f.dummycount == 0 && f.bitcount == 0 && f.bytecount == 0 && f.mode == Spi
  }

  /** The command is known and the address comes next. */
  predicate AwaitsAddress(f: Flash, cmd: bv8) {
    && f.poweredUp && f.dummycount == 0 && f.bitcount == 0 && f.bytecount == 1
    && f.cmd == cmd && f.mode == InputMode(cmd)
  }

  /** Byte m(a) is ready to be read, and the following ones after it. */
  predicate Streaming(m: Contents, f: Flash, cmd: bv8, a: Address) {
    && f.poweredUp && f.dummycount == 0 && f.bitcount == 0 && f.cmd == cmd && f.mode == OutputMode(cmd)
    && f.bytecount >= (if cmd == 0x03 then 4 else 5)
    && f.buffer == m(a) && f.addr == Following(a)
  }

  function HighByte(a: Address): bv8 { (a >> 16) as bv8 }
  function MiddleByte(a: Address): bv8 { ((a >> 8) & 0xff) as bv8 }
  function LowByte(a: Address): bv8 { (a & 0xff) as bv8 }

  function SendAddress(m: Contents, f: Flash, a: Address): Flash {
    Send(m, Send(m, Send(m, f, HighByte(a)), MiddleByte(a)), LowByte(a))
  }

  /** Address, then for the wide commands the mode byte and eight dummy clocks. */
  function Locate(m: Contents, f: Flash, a: Address, modeByte: bv8, host: nat -> bv4): Flash {
    var g := SendAddress(m, f, a);
    if f.cmd == 0x03 then g else Dummies(m, Send(m, g, modeByte), host, 8)
  }

  function ReadBytes(m: Contents, f: Flash, hosts: nat -> (nat -> bv4), n: nat): (Flash, seq<bv8>) {
    if n == 0 then (f, []) else
      var (g, bs) := ReadBytes(m, f, hosts, n - 1);
      var (h, b) := Receive(m, g, hosts(n));
      (h, bs + [b])
  }

  /** Each address byte replaces its own part of the address. */
  lemma AddressParts(a: Address, b: bv8)
    ensures HighByte(Upper(a, b)) == b && MiddleByte(Upper(a, b)) == MiddleByte(a) && LowByte(Upper(a, b)) == LowByte(a)
    ensures HighByte(Middle(a, b)) == HighByte(a) && MiddleByte(Middle(a, b)) == b
            && LowByte(Middle(a, b)) == LowByte(a)
    ensures HighByte(Lower(a, b)) == HighByte(a) && MiddleByte(Lower(a, b)) == MiddleByte(a)
            && LowByte(Lower(a, b)) == b
  {}

  lemma AddressAssembled(x: Address, a: Address)
    ensures Lower(Middle(Upper(x, HighByte(a)), MiddleByte(a)), LowByte(a)) == a
  {}

  lemma CommandTaken(m: Contents, f: Flash, cmd: bv8)
    requires f.poweredUp && f.dummycount == 0 && f.bitcount == 0 && f.bytecount == 1 && f.mode == Spi
             && f.buffer == cmd && ReadCommand(cmd)
    ensures var g := Action(m, f); AwaitsAddress(g, cmd) && g.xip == f.xip
  {
    hide Upper, Middle, Lower;
  }

  lemma AddressTaken(m: Contents, f: Flash, cmd: bv8, a: Address)
    requires AwaitsAddress(f, cmd) && ReadCommand(cmd)
    ensures var g := SendAddress(m, f, a);
            && g.xip == f.xip && g.poweredUp && g.dummycount == 0 && g.bitcount == 0 && g.bytecount == 4
              && g.cmd == cmd && g.mode == f.mode
            && (cmd == 0x03 ==> Streaming(m, g, cmd, a))
            && (cmd != 0x03 ==> g.addr == a)
  {
    hide Upper, Middle, Lower, Following, HighByte, MiddleByte, LowByte, Send;
    SendByte(m, f, HighByte(a));
    var f1 := Send(m, f, HighByte(a));
    AddressAction(m, f.(buffer := HighByte(a), bytecount := 2));
    SendByte(m, f1, MiddleByte(a));
    var f2 := Send(m, f1, MiddleByte(a));
    AddressAction(m, f1.(buffer := MiddleByte(a), bytecount := 3));
    SendByte(m, f2, LowByte(a));
    AddressAction(m, f2.(buffer := LowByte(a), bytecount := 4));
    AddressAssembled(f.addr, a);
    hide Action;
  }

  lemma AddressAction(m: Contents, f: Flash)
    requires f.poweredUp && ReadCommand(f.cmd) && 2 <= f.bytecount <= 4
    ensures Action(m, f) == if f.cmd == 0x03 && f.bytecount == 4 then LoadNext(m, AddressByte(f)) else AddressByte(f)
  {
    hide Upper, Middle, Lower, Following;
  }

  lemma ModeTaken(m: Contents, f: Flash, modeByte: bv8)
    requires f.poweredUp && f.dummycount == 0 && f.bitcount == 0 && f.bytecount == 4 && Wide(f.cmd)
             && f.mode == InputMode(f.cmd)
    ensures var g := Send(m, f, modeByte);
            g == f.(bytecount := 5, xip := if modeByte == 0xa5 then f.cmd else 0,
                    mode := OutputMode(f.cmd), dummycount := LATENCY,
                    buffer := m(f.addr), addr := Following(f.addr))
  {
    hide Following, Send;
    SendByte(m, f, modeByte);
  }

  lemma {:induction false} DummiesPass(m: Contents, f: Flash, host: nat -> bv4, n: nat)
    requires f.dummycount == n
    ensures Dummies(m, f, host, n) == f.(dummycount := 0)
    decreases n
  {
    hide Lines, ByteDone, ShiftIn;
    if n > 0 {
      DummiesPass(m, Clock(m, f, host(n)), host, n - 1);
    }
  }

  lemma LocateStreams(m: Contents, f: Flash, cmd: bv8, a: Address, modeByte: bv8, host: nat -> bv4)
    requires AwaitsAddress(f, cmd) && ReadCommand(cmd)
    ensures var g := Locate(m, f, a, modeByte, host);
            Streaming(m, g, cmd, a) && g.xip == if cmd == 0x03 then f.xip else if modeByte == 0xa5 then cmd else 0
  {
    hide Send, SendAddress, Dummies, Following;
    AddressTaken(m, f, cmd, a);
    var g := SendAddress(m, f, a);
    if cmd != 0x03 {
      ModeTaken(m, g, modeByte);
      DummiesPass(m, Send(m, g, modeByte), host, 8);
    }
  }

  lemma NextByte(m: Contents, f: Flash, cmd: bv8, a: Address, host: nat -> bv4)
    requires ReadCommand(cmd) && Streaming(m, f, cmd, a)
    ensures var (g, b) := Receive(m, f, host); b == m(a) && Streaming(m, g, cmd, Following(a)) && g.xip == f.xip
  {
    hide Following, Receive, Upper, Middle, Lower, Leftover;
    ReceiveByte(m, f, host);
  }

  lemma {:induction false} BytesRead(m: Contents, f: Flash, cmd: bv8, a: Address, hosts: nat -> (nat -> bv4), n: nat)
    requires ReadCommand(cmd) && Streaming(m, f, cmd, a)
    ensures var (g, bs) := ReadBytes(m, f, hosts, n);
            bs == Stream(m, a, n) && Streaming(m, g, cmd, Offset(a, n)) && g.xip == f.xip
  {
    hide Streaming, Following, Receive, ReadCommand, Offset;
    if n == 0 {
      NoOffset(a);
    } else {
      BytesRead(m, f, cmd, a, hosts, n - 1);
      NextByte(m, ReadBytes(m, f, hosts, n - 1).0, cmd, Offset(a, n - 1), hosts(n));
      OffsetFollows(a, n - 1);
    }
  }

  /** A read of address a returns memory from a on, for any number of bytes and
      whatever the host drives meanwhile. */
  lemma ReadReturnsMemory(m: Contents, f: Flash, cmd: bv8, a: Address, modeByte: bv8, host: nat -> bv4,
    hosts: nat -> (nat -> bv4), n: nat)
    requires Ready(f) && f.xip == 0 && ReadCommand(cmd)
    ensures ReadBytes(m, Locate(m, Send(m, Select(m, f), cmd), a, modeByte, host), hosts, n).1 == Stream(m, a, n)
  {
    hide Send, Locate, Streaming, ReadBytes, Stream;
    SendByte(m, f, cmd);
    CommandTaken(m, f.(buffer := cmd, bytecount := 1), cmd);
    LocateStreams(m, Send(m, f, cmd), cmd, a, modeByte, host);
    BytesRead(m, Locate(m, Send(m, f, cmd), a, modeByte, host), cmd, a, hosts, n);
    hide Action;
  }

  lemma StreamingState(m: Contents, f: Flash, cmd: bv8, a: Address)
    requires Streaming(m, f, cmd, a)
    ensures f.poweredUp && f.dummycount == 0 && f.cmd == cmd
  {
    hide Following;
  }

  /** Any transaction longer than eight clocks keeps continuous read armed. */
  lemma {:induction false} NineClocks(c: Counters, lines: seq<bv4>)
    ensures CountAll(c, lines).clocks >= if c.clocks + |lines| < 9 then c.clocks + |lines| else 9
    ensures c.clocks <= 9 ==> CountAll(c, lines).clocks <= 9
    decreases |lines|
  {
    if lines != [] { NineClocks(c, lines[..|lines| - 1]); }
  }

  function CountAll(c: Counters, lines: seq<bv4>): Counters {
    if lines == [] then c else CountReset(CountAll(c, lines[..|lines| - 1]), lines[|lines| - 1])
  }

  // --- Continuous read ---------------------------------------------------------------------

  /** The lines, as the rising edges see them, while a byte is sent and while n clocks
      are given. */
  function SendLines(m: Contents, f: Flash, b: bv8, n: nat): (ls: seq<bv4>)
    ensures |ls| == n
    decreases n
  {
    if n == 0 then [] else
      var host := Leading(f.mode, b);
      [Lines(f, host)] + SendLines(m, Clock(m, f, host), Remaining(f.mode, b), n - 1)
  }

  function ClockLines(m: Contents, f: Flash, host: nat -> bv4, n: nat): (ls: seq<bv4>)
    ensures |ls| == n
    decreases n
  {
    if n == 0 then [] else [Lines(f, host(n))] + ClockLines(m, Clock(m, f, host(n)), host, n - 1)
  }

  function ByteLines(m: Contents, f: Flash, b: bv8): (ls: seq<bv4>) { SendLines(m, f, b, ClocksPerByte(f.mode)) }

  function AddressLines(m: Contents, f: Flash, a: Address): seq<bv4> {
    var g := Send(m, f, HighByte(a));
    ByteLines(m, f, HighByte(a)) + ByteLines(m, g, MiddleByte(a)) + ByteLines(m, Send(m, g, MiddleByte(a)), LowByte(a))
  }

  function ReadLines(m: Contents, f: Flash, hosts: nat -> (nat -> bv4), n: nat): seq<bv4> {
    if n == 0 then [] else
      var g := ReadBytes(m, f, hosts, n - 1).0;
      ReadLines(m, f, hosts, n - 1) + ClockLines(m, g, hosts(n), ClocksPerByte(g.mode))
  }

  /** A wide read: address, mode byte, number of bytes, what the host drives in the
      dummy cycles and while it reads, and the order of the two blocks at the end. */
  datatype Request = Request(
    a: Address, modeByte: bv8, n: nat, host: nat -> bv4, hosts: nat -> (nat -> bv4), counted: bool)

  /** From the address phase to the end of the last byte. */
  function Answer(m: Contents, f: Flash, q: Request): (Flash, seq<bv8>) {
    ReadBytes(m, Locate(m, f, q.a, q.modeByte, q.host), q.hosts, q.n)
  }

  function AnswerLines(m: Contents, f: Flash, q: Request): seq<bv4> {
    var g := SendAddress(m, f, q.a);
    var h := Send(m, g, q.modeByte);
    AddressLines(m, f, q.a) + ByteLines(m, g, q.modeByte) + ClockLines(m, h, q.host, 8)
    + ReadLines(m, Dummies(m, h, q.host, 8), q.hosts, q.n)
  }

  /** A transaction that sends its command, and one that continues after mode byte A5,
      each with the reset counters of its own lines. */
  function FullRead(m: Contents, f: Flash, cmd: bv8, q: Request): (Flash, seq<bv8>) {
    var g := Send(m, Select(m, f), cmd);
    var (h, bs) := Answer(m, g, q);
    var lines := ByteLines(m, Select(m, f), cmd) + AnswerLines(m, g, q);
    (Deselect(h, CountAll(Counters(0, 0), lines), q.counted), bs)
  }

  function ContinuedRead(m: Contents, f: Flash, q: Request): (Flash, seq<bv8>) {
    var g := Select(m, f);
    var (h, bs) := Answer(m, g, q);
    (Deselect(h, CountAll(Counters(0, 0), AnswerLines(m, g, q)), q.counted), bs)
  }

  function ContinuedReads(m: Contents, f: Flash, qs: seq<Request>): (Flash, seq<seq<bv8>>) {
    if qs == [] then (f, []) else
      var (g, bss) := ContinuedReads(m, f, qs[..|qs| - 1]);
      var (h, bs) := ContinuedRead(m, g, qs[|qs| - 1]);
      (h, bss + [bs])
  }

  function Streams(m: Contents, qs: seq<Request>): seq<seq<bv8>> {
    if qs == [] then [] else Streams(m, qs[..|qs| - 1]) + [Stream(m, qs[|qs| - 1].a, qs[|qs| - 1].n)]
  }

  /** Between transactions, ready to continue command cmd. */
  predicate Resumable(f: Flash, cmd: bv8) { Ready(f) && f.xip == cmd }

  predicate Continues(qs: seq<Request>) { forall k :: 0 <= k < |qs| ==> qs[k].modeByte == 0xa5 }

  /** Such a transaction is never the eight clocks of a mode-bit reset: its address,
      mode byte and dummy cycles alone take 16 clocks or more. */
  lemma LongEnough(m: Contents, f: Flash, cmd: bv8, q: Request, before: seq<bv4>)
    requires Wide(cmd) && AwaitsAddress(f, cmd)
    ensures CountAll(Counters(0, 0), before + AnswerLines(m, f, q)).clocks == 9
  {
    hide Send, SendAddress, Dummies, ReadLines, CountAll, CountReset, SendLines, Upper, Middle, Lower;
    NineClocks(Counters(0, 0), before + AnswerLines(m, f, q));
    assert |ClockLines(m, Send(m, SendAddress(m, f, q.a), q.modeByte), q.host, 8)| == 8;
    assert |ByteLines(m, f, HighByte(q.a))| >= 2;
  }

  lemma AnswerStreams(m: Contents, f: Flash, cmd: bv8, q: Request)
    requires Wide(cmd) && AwaitsAddress(f, cmd)
    ensures var (g, bs) := Answer(m, f, q);
            && bs == Stream(m, q.a, q.n) && g.poweredUp && g.dummycount == 0
            && g.xip == if q.modeByte == 0xa5 then cmd else 0
  {
    hide Locate, Streaming, ReadBytes, Stream, AwaitsAddress;
    LocateStreams(m, f, cmd, q.a, q.modeByte, q.host);
    var g := Locate(m, f, q.a, q.modeByte, q.host);
    BytesRead(m, g, cmd, q.a, q.hosts, q.n);
    StreamingState(m, ReadBytes(m, g, q.hosts, q.n).0, cmd, Offset(q.a, q.n));
  }

  lemma DeselectResumes(f: Flash, c: Counters, counted: bool)
    requires f.poweredUp && f.dummycount == 0 && c.clocks == 9
    ensures Ready(Deselect(f, c, counted)) && Deselect(f, c, counted).xip == f.xip
  {}

  lemma FullReadStreams(m: Contents, f: Flash, cmd: bv8, q: Request)
    requires Ready(f) && f.xip == 0 && Wide(cmd)
    ensures var (g, bs) := FullRead(m, f, cmd, q);
            bs == Stream(m, q.a, q.n) && Ready(g) && g.xip == if q.modeByte == 0xa5 then cmd else 0
  {
    hide Send, Answer, AnswerLines, Stream, ByteLines, Deselect, CountAll;
    SendByte(m, f, cmd);
    CommandTaken(m, f.(buffer := cmd, bytecount := 1), cmd);
    var g := Send(m, f, cmd);
    hide Action;
    AnswerStreams(m, g, cmd, q);
    LongEnough(m, g, cmd, q, ByteLines(m, f, cmd));
    DeselectResumes(Answer(m, g, q).0, CountAll(Counters(0, 0), ByteLines(m, f, cmd) + AnswerLines(m, g, q)),
      q.counted);
  }

  lemma ContinuedReadStreams(m: Contents, f: Flash, cmd: bv8, q: Request)
    requires Resumable(f, cmd) && Wide(cmd)
    ensures var (g, bs) := ContinuedRead(m, f, q);
            bs == Stream(m, q.a, q.n) && Ready(g) && g.xip == if q.modeByte == 0xa5 then cmd else 0
  {
    hide Answer, AnswerLines, Stream, Deselect, CountAll;
    CommandTaken(m, f.(buffer := cmd, bitcount := 0, bytecount := 1), cmd);
    var g := Select(m, f);
    hide Action;
    AnswerStreams(m, g, cmd, q);
    LongEnough(m, g, cmd, q, []);
    assert [] + AnswerLines(m, g, q) == AnswerLines(m, g, q);
    DeselectResumes(Answer(m, g, q).0, CountAll(Counters(0, 0), AnswerLines(m, g, q)), q.counted);
  }

  lemma {:induction false} ChainStreams(m: Contents, f: Flash, cmd: bv8, qs: seq<Request>)
    requires Resumable(f, cmd) && Wide(cmd) && Continues(qs)
    ensures var (g, bss) := ContinuedReads(m, f, qs); bss == Streams(m, qs) && Resumable(g, cmd)
  {
    hide ContinuedRead, Stream, Ready;
    if qs != [] {
      ChainStreams(m, f, cmd, qs[..|qs| - 1]);
      ContinuedReadStreams(m, ContinuedReads(m, f, qs[..|qs| - 1]).0, cmd, qs[|qs| - 1]);
    }
  }

  /** After a full command with mode byte A5, any number of transactions may start at
      their address, as long as each mode byte before the last one is A5; each returns
      what a full command would, whatever the host drives and whichever of the two
      blocks comes first at the end of a transaction. */
  lemma ContinuousReadReturnsMemory(m: Contents, f: Flash, cmd: bv8, first: Request, qs: seq<Request>, last: Request)
    requires Ready(f) && f.xip == 0 && Wide(cmd) && first.modeByte == 0xa5 && Continues(qs)
    ensures var (g, bs) := FullRead(m, f, cmd, first);
            && bs == Stream(m, first.a, first.n)
            && ContinuedReads(m, g, qs + [last]).1 == Streams(m, qs + [last])
            && ContinuedRead(m, ContinuedReads(m, g, qs).0, last).1 == FullRead(m, f, cmd, last).1
  {
    hide FullRead, ContinuedRead, Stream, Ready;
    FullReadStreams(m, f, cmd, first);
    FullReadStreams(m, f, cmd, last);
    var g := FullRead(m, f, cmd, first).0;
    ChainStreams(m, g, cmd, qs);
    ContinuedReadStreams(m, ContinuedReads(m, g, qs).0, cmd, last);
    assert (qs + [last])[..|qs|] == qs;
  }
}
