/** The core as the RTL writes it.  Each block of registers is computed by
    assignments in which a later one overrides an earlier one, reading only the
    values from before the clock edge; Tick then updates the object at once. */
module Cpu {
  import opened Words
  import opened Decoder
  import opened Execute
  import opened Machine
  import opened Core
  import opened Invariant
  import opened Refinement

  /** Program counter registers. */
  method PcBlock(s: State, x: In) returns (pcReg: Word, inc: bool)
    ensures pcReg == NextPcReg(s, x) && inc == NextInc(s, x)
  {
    hide FetchPc, JumpValid, FetchFire, S0Ready, S1Ready, FetchValid;
    pcReg, inc := s.f.pcReg, s.f.inc;
    if JumpValid(s) || S1Ready(s, x) { inc := false; }
    if FetchFire(s, x) { inc := true; }
    if !FetchValid(s) && S0Ready(s, x) { inc := false; }
    if s.f.booted && (S0Ready(s, x) || JumpValid(s) || S1Ready(s, x)) { pcReg := FetchPc(s, x); }
  }

  /** Fetch stage 1 with the pending and discard counters. */
  method CounterBlock(s: State, x: In) returns (s1Valid: bool, pending: bv3, discard: bv3)
    ensures s1Valid == NextStage1(s, x) && pending == NextPending(s, x) && discard == NextDiscard(s, x)
  {
    hide ExternalFlush, PopFire, PopValid, S1Ready, S0Halt, FetchValid, CmdFire, Bit;
    s1Valid := s.f.s1Valid;
    if ExternalFlush(s) { s1Valid := false; }
    if S1Ready(s, x) { s1Valid := FetchValid(s) && !S0Halt(s, x); }
    pending := s.f.pending + Bit(CmdFire(s, x)) - Bit(PopFire(s, x));
    discard := s.f.discard - Bit(PopValid(s, x) && s.f.discard != 0);
    if ExternalFlush(s) { discard := s.f.pending - Bit(PopFire(s, x)); }
  }

  /** StreamFifoLowLatency with its one entry. */
  method FifoBlock(s: State, x: In) returns (risingOccupancy: bool, entry: Word)
    ensures risingOccupancy == NextFetch(s, x).fifoFull && entry == NextFetch(s, x).fifoInst
  {
    hide PopFire, NextPcReg, NextInc, NextStage1, NextPending, NextDiscard, CmdReady, CanEmit, FetchValid, FetchPc,
      Align;
    risingOccupancy, entry := s.f.fifoFull, s.f.fifoInst;
    var pushing := RspValid(s, x) && !s.f.fifoFull;
    var popping := PopFire(s, x);
    if pushing != popping { risingOccupancy := pushing; }
    if pushing { entry := x.iData; }
  }

  /** Instruction-bus command register, with the blocks above. */
  method FetchBlock(s: State, x: In) returns (f: Fetch)
    ensures f == NextFetch(s, x)
  {
    hide PopFire, Pushing, NextPcReg, NextInc, NextStage1, NextPending, NextDiscard, CmdReady, CanEmit, FetchValid,
      FetchPc, Align;
    var pcReg, inc := PcBlock(s, x);
    var s1Valid, pending, discard := CounterBlock(s, x);
    var risingOccupancy, entry := FifoBlock(s, x);
    var busValid, busPc := s.f.busValid, s.f.busPc;
    if CmdReady(s, x) { busValid := FetchValid(s) && CanEmit(s, x); }
    if CmdReady(s, x) { busPc := Align(FetchPc(s, x)); }
    assert pcReg == NextFetch(s, x).pcReg;
    assert inc == NextFetch(s, x).inc;
    assert s1Valid == NextFetch(s, x).s1Valid;
    assert discard == NextFetch(s, x).discard;
    assert busValid == NextFetch(s, x).busValid && busPc == NextFetch(s, x).busPc;
    f := Fetch(pcReg, inc, true, s1Valid, pending, discard, risingOccupancy, entry, busValid, busPc);
  }

  /** Injector in front of decode and the register-file read ports. */
  method DecodeBlock(s: State, x: In) returns (d: DecodeStage)
    ensures d == NextDecode(s, x)
  {
    hide DStuck, DRemove, ExternalFlush, JoinValid, Rs1, Rs2, PopInst;
    var valid, pc, inst := s.d.valid, s.d.pc, s.d.inst;
    if DRemove(s) { valid := false; }
    if !DStuck(s, x) { valid := JoinValid(s, x) && !ExternalFlush(s); }
    if !DStuck(s, x) { pc, inst := s.f.pcReg, PopInst(s, x); }
    d := DecodeStage(valid, pc, inst, s.regs(Rs1(Anticipated(s, x))), s.regs(Rs2(Anticipated(s, x))));
  }

  method ExecuteBlock(s: State, x: In) returns (e: ExecuteStage)
    ensures e == NextExecute(s, x)
  {
    hide DStuck, EStuck, MStuck, DRemove, ERemove, ShiftBusy, ShiftDone, ShiftAmplitude;
    var isActive, amplitude := ShifterBlock(s, x);
    var valid, pc, inst, rs1, rs2 := s.e.valid, s.e.pc, s.e.inst, s.e.rs1, s.e.rs2;
    if !EStuck(s, x) || ERemove(s) { valid := false; }
    if !DStuck(s, x) && !DRemove(s) { valid := s.d.valid; }
    if !EStuck(s, x) { pc, inst, rs1, rs2 := s.d.pc, s.d.inst, s.d.port1, s.d.port2; }
    e := ExecuteStage(valid, pc, inst, rs1, rs2, isActive, amplitude);
  }

  /** Shifter registers; a removed instruction stops the shift. */
  method ShifterBlock(s: State, x: In) returns (isActive: bool, amplitude: bv5)
    ensures isActive == NextShiftActive(s, x) && amplitude == NextAmplitude(s, x)
  {
    hide MStuck, ERemove, ShiftBusy, ShiftDone, ShiftAmplitude;
    isActive, amplitude := s.e.shiftActive, s.e.amplitude;
    if ShiftBusy(s) && !MStuck(s, x) {
      isActive := true;
      if ShiftDone(s) { isActive := false; }
      amplitude := ShiftAmplitude(s) - 1;
    }
    if ERemove(s) { isActive := false; }
  }

  method MemoryBlock(s: State, x: In) returns (m: MemoryStage)
    ensures m == NextMemory(s, x)
  {
    hide EStuck, MStuck, ERemove, MRemove, EResult, EAlignFault, EAddress, BranchDo, BranchTarget, AddressLow;
    var valid := s.m.valid;
    if !MStuck(s, x) || MRemove(s) { valid := false; }
    if !EStuck(s, x) && !ERemove(s) { valid := s.e.valid; }
    m := s.m.(valid := valid);
    if !MStuck(s, x) {
      m := MemoryStage(valid, s.e.pc, s.e.inst, EResult(s),
                       BranchDo(s.e.inst, s.e.pc, s.e.rs1, s.e.rs2), BranchTarget(s.e.inst, s.e.pc, s.e.rs1),
                       EAlignFault(s), AddressLow(EAddress(s)));
    }
  }

  /** writeBack never stalls; its program counter holds while an exception waits in it. */
  method WriteBackBlock(s: State, x: In) returns (w: WriteBackStage)
    ensures w == NextWriteBack(s, x)
  {
    hide MStuck, MRemove;
    var valid, pc := false, s.w.pc;
    if !MStuck(s, x) && !MRemove(s) { valid := s.m.valid; }
    if !s.t.excW { pc := s.m.pc; }
    w := WriteBackStage(valid, pc, s.m.inst, s.m.result, x.dData, s.m.addressLow);
  }

  /** Register-file write port. */
  method RegisterFileBlock(s: State) returns (regs: RegFile)
    ensures regs == NextRegs(s)
  {
    hide WData, WritesRd, Rd, WriteReg;
    regs := s.regs;
    if s.boot {
      regs := WriteReg(regs, 0, 0);
    } else if s.w.valid && WritesRd(s.w.inst) {
      regs := WriteReg(regs, Rd(s.w.inst), WData(s));
    }
  }

  /** The fields of each writable CSR, selected by its address. */
  method CsrWriteBlock(was: Csrs, a: bv12, v: Word) returns (c: Csrs)
    ensures c == CsrStore(was, a, v)
  {
    c := was;
    if a == 0x300 { c := c.(mpp := ((v >> 11) & 3) as bv2, mpie := v & 0x80 != 0, mie := v & 8 != 0); }
    if a == 0x304 { c := c.(meie := v & 0x800 != 0, mtie := v & 0x80 != 0, msie := v & 8 != 0); }
    if a == 0xbc0 { c := c.(irqMask := v); }
    if a == 0x305 { c := c.(mtvecBase := (v >> 2) as bv30); }
    if a == 0x341 { c := c.(mepc := v); }
  }

  /** Trap entry, trap return and CSR instructions, later ones overriding. */
  method CsrBlock(s: State, x: In) returns (c: Csrs)
    ensures c == NextCsr(s, x)
  {
    hide TrapNow, XretInW, IsMret, CsrWriteEnable, CsrWriteValue, CsrAddress, TrapCause, CsrStore;
    c := s.csr;
    if TrapNow(s) {
      c := c.(mie := false, mpie := s.csr.mie, mpp := 3, mcauseInterrupt := !s.t.hadException,
        mcauseCode := TrapCause(s), mepc := s.w.pc);
      if s.t.hadException { c := c.(mtval := s.t.badAddr); }
    }
    assert c == CsrAfterTrap(s);
    if XretInW(s) && IsMret(s.w.inst) { c := c.(mpp := 0, mie := s.csr.mpie, mpie := true); }
    assert c == CsrAfterReturn(s);
    if CsrWriteEnable(s, x) { c := CsrWriteBlock(c, CsrAddress(s.e.inst), CsrWriteValue(s)); }
  }

  /** The exception context; the oldest stage's fault wins. */
  method ExceptionContextBlock(s: State) returns (code: bv4, badAddr: Word)
    ensures code == NextCode(s) && badAddr == NextBadAddr(s)
  {
    hide DecodeException, SelfException, MException, MemoryException, IsStore;
    code, badAddr := s.t.code, s.t.badAddr;
    if DecodeException(s) { code, badAddr := 2, s.d.inst; }
    if SelfException(s) { code, badAddr := 11, s.e.inst; }
    if MException(s) {
      code := if MemoryException(s) then (if IsStore(s.m.inst) then 6 else 4) else 0;
      badAddr := if MemoryException(s) then s.m.result else s.m.branchTarget;
    }
  }

  /** Exceptions move down the pipeline with their stage. */
  method ExceptionBlock(s: State, x: In) returns (excD: bool, excE: bool, excM: bool)
    ensures excD == NextExcD(s, x) && excE == NextExcE(s, x) && excM == NextExcM(s, x)
  {
    hide DStuck, EStuck, MStuck, ExcValidD, ExcValidE, ExcValidM;
    if !DStuck(s, x) { excD := false; } else { excD := ExcValidD(s); }
    if !EStuck(s, x) { excE := ExcValidD(s) && !DStuck(s, x); } else { excE := ExcValidE(s); }
    if !MStuck(s, x) { excM := ExcValidE(s) && !EStuck(s, x); } else { excM := ExcValidM(s); }
  }

  /** Interrupt selection. */
  method InterruptBlock(s: State) returns (irqValid: bool, irqCode: bv4)
    ensures irqValid == NextIrqValid(s) && irqCode == NextIrqCode(s)
  {
    hide InterruptJump, TimerPending, SoftwarePending, ExternalPending;
    irqValid, irqCode := false, s.t.irqCode;
    if s.csr.mie {
      if TimerPending(s) { irqValid, irqCode := true, 7; }
      if SoftwarePending(s) { irqValid, irqCode := true, 3; }
      if ExternalPending(s) { irqValid, irqCode := true, 11; }
    }
    if InterruptJump(s) { irqValid := false; }
  }

  /** The pipeline liberator reports the stages drained ahead of an interrupt. */
  method LiberatorBlock(s: State, x: In) returns (pcValid0: bool, pcValid1: bool, pcValid2: bool)
    ensures pcValid0 == NextPcValid0(s, x) && pcValid1 == NextPcValid1(s, x) && pcValid2 == NextPcValid2(s)
  {
    hide EStuck, MStuck, LiberatorActive, DRemove;
    pcValid0, pcValid1, pcValid2 := s.t.pcValid0, s.t.pcValid1, s.t.pcValid2;
    if LiberatorActive(s) {
      if !EStuck(s, x) { pcValid0 := true; }
      if !MStuck(s, x) { pcValid1 := s.t.pcValid0; }
      pcValid2 := s.t.pcValid1;
    }
    if !LiberatorActive(s) || DRemove(s) { pcValid0, pcValid1, pcValid2 := false, false, false; }
  }

  /** Software-interrupt input, which a write to mip overrides for one cycle. */
  method SoftwareBlock(s: State, x: In) returns (msip: bool)
    ensures msip == NextMsip(s, x)
  {
    hide CsrWriteEnable, CsrAddress, CsrWriteValue;
    msip := x.softwareInterrupt;
    if CsrWriteEnable(s, x) && CsrAddress(s.e.inst) == 0x344 { msip := CsrWriteValue(s) & 8 != 0; }
  }

  /** The trap unit's registers, from the blocks above. */
  method TrapBlock(s: State, x: In) returns (t: TrapUnit)
    ensures t == NextTrap(s, x)
  {
    hide NextExcD, NextExcE, NextExcM, NextCode, NextBadAddr, NextIrqValid, NextIrqCode, NextPcValid0, NextPcValid1,
      NextPcValid2, NextMsip,
      ExcValidM, MStuck;
    var excD, excE, excM := ExceptionBlock(s, x);
    var code, badAddr := ExceptionContextBlock(s);
    var irqValid, irqCode := InterruptBlock(s);
    var pcValid0, pcValid1, pcValid2 := LiberatorBlock(s, x);
    var msip := SoftwareBlock(s, x);
    t := TrapUnit(excD, excE, excM, ExcValidM(s) && !MStuck(s, x), code, badAddr, s.t.excW,
                  irqValid, irqCode, pcValid0, pcValid1, pcValid2,
                  s.csr.irqMask & s.t.irqLines != 0, x.timerInterrupt, msip, x.externalInterrupts);
  }

  /** Half-pipe register of the data bus. */
  method DataBusBlock(s: State, x: In) returns (b: DataBus)
    ensures b == NextBus(s, x)
  {
    hide DCmdValid, IsStore, EAddress, StoreData, Size;
    var valid := s.bus.valid;
    if DCmdValid(s, x) { valid := true; }
    if s.bus.valid && x.dAck { valid := false; }
    b := s.bus.(valid := valid);
    if !s.bus.valid {
      b := DataBus(valid, IsStore(s.e.inst), EAddress(s), StoreData(Size(s.e.inst), s.e.rs2), Size(s.e.inst));
    }
  }

  /** All blocks, each reading only the old registers. */
  method Clock(s: State, x: In) returns (n: State)
    ensures n == Next(s, x)
  {
    hide NextFetch, NextDecode, NextExecute, NextMemory, NextWriteBack, NextRegs, NextCsr, NextTrap, NextBus,
      WritesRd, Rd;
    var f := FetchBlock(s, x);
    var d := DecodeBlock(s, x);
    var e := ExecuteBlock(s, x);
    var m := MemoryBlock(s, x);
    var w := WriteBackBlock(s, x);
    var regs := RegisterFileBlock(s);
    var c := CsrBlock(s, x);
    var t := TrapBlock(s, x);
    var b := DataBusBlock(s, x);
    n := State(false, regs, c, f, d, e, m, w, WriteBackBuffer(s.w.valid && WritesRd(s.w.inst), Rd(s.w.inst)), t, b);
  }

  /** The registers with a reset value take it, the program counter takes the reset
      vector, and the others keep their contents. */
  method ResetBlock(s: State, externalResetVector: Word) returns (n: State)
    ensures Reset(n) && n.f.pcReg == externalResetVector && n.regs == s.regs
    ensures n.csr.mtvecBase == s.csr.mtvecBase && n.csr.mepc == s.csr.mepc && n.csr.mtval == s.csr.mtval
  {
    var f := Fetch(externalResetVector, false, false, false, 0, 0, false, s.f.fifoInst, false, s.f.busPc);
    var t := s.t.(excD := false, excE := false, excM := false, excW := false, hadException := false,
                  irqValid := false, pcValid0 := false, pcValid1 := false, pcValid2 := false);
    var c := s.csr.(mie := false, mpie := false, mpp := 3, meie := false, mtie := false, msie := false, irqMask := 0);
    n := State(true, s.regs, c, f, s.d.(valid := false), s.e.(valid := false, shiftActive := false),
               s.m.(valid := false), s.w.(valid := false), s.wb.(valid := false), t, s.bus.(valid := false));
  }

  class VexRiscv {
    var boot: bool
    var regFile: RegFile
    var csr: Csrs
    var fetch: Fetch
    var decode: DecodeStage
    var execute: ExecuteStage
    var memory: MemoryStage
    var writeBack: WriteBackStage
    var writeBackBuffer: WriteBackBuffer
    var trap: TrapUnit
    var halfPipe: DataBus

    function Snapshot(): State
      reads this
    {
      State(boot, regFile, csr, fetch, decode, execute, memory, writeBack, writeBackBuffer, trap, halfPipe)
    }

    /** A clock edge in reset. */
    method ResetEdge(externalResetVector: Word)
      modifies this
      ensures Reset(Snapshot()) && fetch.pcReg == externalResetVector && regFile == old(regFile)
    {
      hide Reset;
      var n := ResetBlock(Snapshot(), externalResetVector);
      boot, csr := n.boot, n.csr;
      fetch, decode, execute, memory, writeBack := n.f, n.d, n.e, n.m, n.w;
      writeBackBuffer, trap, halfPipe := n.wb, n.t, n.bus;
    }

    /** One rising clock edge out of reset. */
    method Tick(x: In)
      modifies this
      ensures Snapshot() == Next(old(Snapshot()), x)
    {
      hide Next;
      var n := Clock(Snapshot(), x);
      boot, regFile, csr := n.boot, n.regs, n.csr;
      fetch, decode, execute, memory, writeBack := n.f, n.d, n.e, n.m, n.w;
      writeBackBuffer, trap, halfPipe := n.wb, n.t, n.bus;
    }

    /** From reset, a run of the object executes what the sequential machine
        executes, in step with it. */
    method Run(imem: Memory, xs: seq<In>)
      requires Reset(Snapshot()) && Environment(imem, Snapshot(), xs)
      modifies this
      ensures var s := old(Snapshot());
              && Snapshot() == After(s, xs)
              && Inv(imem, Machine.Run(imem, Boot(s), Events(s, xs)), Snapshot(), Transactions(s, xs))
    {
      hide Next, Reset, Environment, Inv, Snapshot, Boot, Events, Transactions;
      ghost var s := Snapshot();
      var i := 0;
      while i < |xs|
        invariant 0 <= i <= |xs|
        invariant Snapshot() == After(s, xs[..i])
      {
        Tick(xs[i]);
        assert xs[..i + 1][..i] == xs[..i];
        i := i + 1;
      }
      assert xs[..|xs|] == xs;
      RunInv(imem, s, xs);
    }
  }
}
