/** The VexRiscv core with the plain instruction bus, clock by clock, with the
    debug module idle.  State holds the registers, In the wires sampled at the
    clock edge, and Next is one rising edge out of reset.  Signals are named as
    in the RTL with the plugin prefix dropped.

    Control bits that the RTL registers next to an instruction under the same
    enable are recomputed here from the instruction of that stage. */
module Core {
  import opened Words
  import opened Decoder
  import opened Execute
  import opened Machine

  // --- Registers ------------------------------------------------------------

  /** Program counter, fetch stage 1, pending and discard counters, response
      FIFO and instruction-bus command register. */
  datatype Fetch = Fetch(
    pcReg: Word, inc: bool, booted: bool, s1Valid: bool,
    pending: bv3, discard: bv3,
    fifoFull: bool, fifoInst: Word,
    busValid: bool, busPc: Word)

  /** port1 and port2 are the output registers of the two register-file read ports. */
  datatype DecodeStage = DecodeStage(valid: bool, pc: Word, inst: Word, port1: Word, port2: Word)

  datatype ExecuteStage = ExecuteStage(
    valid: bool, pc: Word, inst: Word, rs1: Word, rs2: Word,
    shiftActive: bool, amplitude: bv5)

  datatype MemoryStage = MemoryStage(
    valid: bool, pc: Word, inst: Word, result: Word,
    branchDo: bool, branchTarget: Word, alignFault: bool, addressLow: bv2)

  datatype WriteBackStage = WriteBackStage(
    valid: bool, pc: Word, inst: Word, result: Word, readData: Word, addressLow: bv2)

  /** Register-file write of the previous cycle, remembered by the hazard unit. */
  datatype WriteBackBuffer = WriteBackBuffer(valid: bool, address: RegIndex)

  datatype TrapUnit = TrapUnit(
    excD: bool, excE: bool, excM: bool, excW: bool, code: bv4, badAddr: Word, hadException: bool,
    irqValid: bool, irqCode: bv4, pcValid0: bool, pcValid1: bool, pcValid2: bool,
    meip: bool, mtip: bool, msip: bool, irqLines: Word)

  /** Half-pipe register of the data bus. */
  datatype DataBus = DataBus(valid: bool, wr: bool, address: Word, data: Word, size: bv2)

  datatype State = State(
    boot: bool, regs: RegFile, csr: Csrs,
    f: Fetch, d: DecodeStage, e: ExecuteStage, m: MemoryStage, w: WriteBackStage,
    wb: WriteBackBuffer, t: TrapUnit, bus: DataBus)

  /** Wires driven from outside in one cycle.  undefined stands for the jump
      target that the RTL leaves unknown for SRET. */
  datatype In = In(
    iAck: bool, iData: Word, dAck: bool, dData: Word,
    timerInterrupt: bool, softwareInterrupt: bool, externalInterrupts: Word,
    undefined: Word)

  /** The state left by a clock edge in reset; everything not named is arbitrary. */
  predicate Reset(s: State) {
    && s.boot
    && !s.f.inc && !s.f.booted && !s.f.s1Valid && s.f.pending == 0 && s.f.discard == 0
    && !s.f.fifoFull && !s.f.busValid
    && !s.d.valid && !s.e.valid && !s.e.shiftActive && !s.m.valid && !s.w.valid && !s.wb.valid
    && !s.t.excD && !s.t.excE && !s.t.excM && !s.t.excW && !s.t.hadException
    && !s.t.irqValid && !s.t.pcValid0 && !s.t.pcValid1 && !s.t.pcValid2
    && !s.csr.mie && !s.csr.mpie && s.csr.mpp == 3
    && !s.csr.meie && !s.csr.mtie && !s.csr.msie && s.csr.irqMask == 0
    && !s.bus.valid
  }

  // --- Flushes and traps ----------------------------------------------------

  predicate DecodeException(s: State) { s.d.valid && !Legal(s.d.inst) }
  predicate SelfException(s: State) { s.e.valid && Env(s.e.inst) == EnvEcall }
  predicate BranchJump(s: State) { s.m.valid && s.m.branchDo }
  predicate BranchException(s: State) { BranchJump(s) && Bit1(s.m.branchTarget) }
  predicate MemoryException(s: State) { s.m.valid && IsMem(s.m.inst) && s.m.alignFault }
  predicate MException(s: State) { BranchException(s) || MemoryException(s) }

  predicate InterruptJump(s: State) {
    s.t.irqValid && s.t.pcValid2 && !(s.t.excE || s.t.excM || s.t.excW) && !s.t.hadException
  }
  predicate TrapNow(s: State) { s.t.hadException || InterruptJump(s) }
  predicate XretInW(s: State) { s.w.valid && Env(s.w.inst) == EnvXret }

  predicate WFlushNext(s: State) { TrapNow(s) || XretInW(s) }
  predicate MFlushNext(s: State) { BranchJump(s) || MException(s) }
  predicate EFlushNext(s: State) { SelfException(s) }
  predicate DFlushNext(s: State) { DecodeException(s) }
  predicate MFlushed(s: State) { WFlushNext(s) }
  predicate EFlushed(s: State) { WFlushNext(s) || MFlushNext(s) }
  predicate DFlushed(s: State) { EFlushed(s) || EFlushNext(s) }
  predicate ExternalFlush(s: State) { DFlushed(s) || DFlushNext(s) }

  predicate DRemove(s: State) { DecodeException(s) || DFlushed(s) }
  predicate ERemove(s: State) { SelfException(s) || EFlushed(s) }
  predicate MRemove(s: State) { MException(s) || MFlushed(s) }

  predicate ExcValidD(s: State) { (s.t.excD || DecodeException(s)) && !DFlushed(s) }
  predicate ExcValidE(s: State) { (s.t.excE || SelfException(s)) && !EFlushed(s) }
  predicate ExcValidM(s: State) { (s.t.excM || MException(s)) && !MFlushed(s) }

  // --- Stalls ---------------------------------------------------------------

  predicate DRspReady(s: State, x: In) { s.bus.valid && !s.bus.wr && x.dAck }

  predicate MStuck(s: State, x: In) {
    s.m.valid && IsMem(s.m.inst) && !IsStore(s.m.inst) && !DRspReady(s, x)
  }

  function ESrc1(s: State): Word { Src1(s.e.inst, s.e.rs1) }
  function ESrc2(s: State): Word { Src2(s.e.inst, s.e.pc, s.e.rs2) }
  function EAddress(s: State): Word { Address(s.e.inst, s.e.pc, s.e.rs1, s.e.rs2) }
  predicate EAlignFault(s: State) { AlignFault(Size(s.e.inst), EAddress(s)) }

  predicate ShiftBusy(s: State) {
    s.e.valid && Shift(s.e.inst) != ShiftNone && Amount(ESrc2(s)) != 0
  }
  function ShiftAmplitude(s: State): bv5 {
    if s.e.shiftActive then s.e.amplitude else Amount(ESrc2(s))
  }
  predicate ShiftDone(s: State) { ShiftAmplitude(s) & 0x1e == 0 }
  function ShiftInput(s: State): Word { if s.e.shiftActive then s.m.result else ESrc1(s) }

  predicate EHaltItself(s: State) {
    || (s.e.valid && IsMem(s.e.inst) && s.bus.valid && !EAlignFault(s))
    || (ShiftBusy(s) && !ShiftDone(s))
    || (s.e.valid && IsCsr(s.e.inst) && (s.w.valid || s.m.valid))
  }
  predicate EStuck(s: State, x: In) { EHaltItself(s) || MStuck(s, x) }

  predicate Writer(valid: bool, inst: Word, r: RegIndex) { valid && WritesRd(inst) && Rd(inst) == r }

  /** An older instruction, or the write of the previous cycle, targets register r. */
  predicate Hazard(s: State, r: RegIndex) {
    || (s.wb.valid && s.wb.address == r)
    || Writer(s.w.valid, s.w.inst, r)
    || Writer(s.m.valid, s.m.inst, r)
    || Writer(s.e.valid, s.e.inst, r)
  }
  predicate HazardStall(s: State) {
    s.d.valid && ((UsesRs1(s.d.inst) && Hazard(s, Rs1(s.d.inst))) || (UsesRs2(s.d.inst) && Hazard(s, Rs2(s.d.inst))))
  }
  predicate LiberatorActive(s: State) { s.t.irqValid && s.d.valid }
  predicate XretInFlight(s: State) {
    || (s.w.valid && Env(s.w.inst) == EnvXret)
    || (s.m.valid && Env(s.m.inst) == EnvXret)
    || (s.e.valid && Env(s.e.inst) == EnvXret)
  }
  predicate DHalt(s: State) { HazardStall(s) || LiberatorActive(s) || XretInFlight(s) }
  predicate DStuck(s: State, x: In) { DHalt(s) || EStuck(s, x) || MStuck(s, x) }

  // --- Fetch ----------------------------------------------------------------

  predicate JumpValid(s: State) { TrapNow(s) || XretInW(s) || BranchJump(s) }

  /** The CSR unit's target takes precedence over a branch, and within it MRET's
      over a trap's. */
  function JumpTarget(s: State, x: In): Word {
    if XretInW(s) && IsMret(s.w.inst) then s.csr.mepc
    else if TrapNow(s) then TrapVector(s.csr)
    else if XretInW(s) then x.undefined
    else s.m.branchTarget
  }

  predicate FetcherHalt(s: State) {
    s.t.excW || ExcValidM(s) || ExcValidE(s) || ExcValidD(s) || TrapNow(s) || XretInW(s)
  }

  predicate RspValid(s: State, x: In) { s.f.busValid && x.iAck }
  predicate PopValid(s: State, x: In) { s.f.fifoFull || RspValid(s, x) }
  function PopInst(s: State, x: In): Word { if s.f.fifoFull then s.f.fifoInst else x.iData }
  predicate RspOutValid(s: State, x: In) { PopValid(s, x) && s.f.discard == 0 }
  predicate JoinValid(s: State, x: In) { s.f.s1Valid && RspOutValid(s, x) }
  predicate JoinFire(s: State, x: In) { JoinValid(s, x) && !DStuck(s, x) }
  predicate PopFire(s: State, x: In) {
    PopValid(s, x) && (JoinFire(s, x) || s.f.discard != 0 || ExternalFlush(s))
  }
  predicate Pushing(s: State, x: In) { RspValid(s, x) && !s.f.fifoFull }

  predicate S1Ready(s: State, x: In) { if s.f.s1Valid then JoinFire(s, x) else !DStuck(s, x) }
  predicate CmdReady(s: State, x: In) { !s.f.busValid || x.iAck }
  predicate CanEmit(s: State, x: In) { S1Ready(s, x) && s.f.pending != 7 }
  predicate FetchValid(s: State) { !FetcherHalt(s) && s.f.booted }
  predicate CmdFire(s: State, x: In) { FetchValid(s) && CanEmit(s, x) && CmdReady(s, x) }
  predicate S0Halt(s: State, x: In) { FetchValid(s) && (!CanEmit(s, x) || !CmdReady(s, x)) }
  predicate S0Ready(s: State, x: In) { S1Ready(s, x) && !S0Halt(s, x) }
  predicate FetchFire(s: State, x: In) { FetchValid(s) && S0Ready(s, x) }

  function FetchPc(s: State, x: In): Word {
    Align(if JumpValid(s) then JumpTarget(s, x) else Plus(s.f.pcReg, if s.f.inc then 4 else 0))
  }

  function Bit(b: bool): bv3 { if b then 1 else 0 }

  function NextPending(s: State, x: In): bv3 {
    s.f.pending + Bit(CmdFire(s, x)) - Bit(PopFire(s, x))
  }

  function NextDiscard(s: State, x: In): bv3 {
    if ExternalFlush(s) then s.f.pending - Bit(PopFire(s, x))
    else s.f.discard - Bit(PopValid(s, x) && s.f.discard != 0)
  }

  function NextPcReg(s: State, x: In): Word {
    if s.f.booted && (S0Ready(s, x) || JumpValid(s) || S1Ready(s, x)) then FetchPc(s, x) else s.f.pcReg
  }

  predicate NextInc(s: State, x: In) {
    if !FetchValid(s) && S0Ready(s, x) then false
    else if FetchFire(s, x) then true
    else if JumpValid(s) || S1Ready(s, x) then false
    else s.f.inc
  }

  predicate NextStage1(s: State, x: In) {
    if S1Ready(s, x) then FetchValid(s) && !S0Halt(s, x)
    else if ExternalFlush(s) then false
    else s.f.s1Valid
  }

  function NextFetch(s: State, x: In): Fetch {
    var f := s.f;
    Fetch(
      NextPcReg(s, x), NextInc(s, x), true, NextStage1(s, x), NextPending(s, x), NextDiscard(s, x),
      if Pushing(s, x) != PopFire(s, x) then Pushing(s, x) else f.fifoFull,
      if Pushing(s, x) then x.iData else f.fifoInst,
      if CmdReady(s, x) then FetchValid(s) && CanEmit(s, x) else f.busValid,
      if CmdReady(s, x) then Align(FetchPc(s, x)) else f.busPc)
  }

  // --- Pipeline stages ------------------------------------------------------

  /** The instruction whose registers are read at this edge. */
  function Anticipated(s: State, x: In): Word { if DStuck(s, x) then s.d.inst else PopInst(s, x) }

  function NextDecode(s: State, x: In): DecodeStage {
    var stuck := DStuck(s, x);
    DecodeStage(
      if !stuck then JoinValid(s, x) && !ExternalFlush(s) else if DRemove(s) then false else s.d.valid,
      if !stuck then s.f.pcReg else s.d.pc,
      Anticipated(s, x),
      s.regs(Rs1(Anticipated(s, x))),
      s.regs(Rs2(Anticipated(s, x))))
  }

  predicate Shifting(s: State, x: In) { ShiftBusy(s) && !MStuck(s, x) }

  predicate NextShiftActive(s: State, x: In) {
    if ERemove(s) then false else if Shifting(s, x) then !ShiftDone(s) else s.e.shiftActive
  }

  function NextAmplitude(s: State, x: In): bv5 {
    if Shifting(s, x) then ShiftAmplitude(s) - 1 else s.e.amplitude
  }

  function NextExecute(s: State, x: In): ExecuteStage {
    var stuck := EStuck(s, x);
    ExecuteStage(
      if !DStuck(s, x) && !DRemove(s) then s.d.valid else if !stuck || ERemove(s) then false else s.e.valid,
      if stuck then s.e.pc else s.d.pc,
      if stuck then s.e.inst else s.d.inst,
      if stuck then s.e.rs1 else s.d.port1,
      if stuck then s.e.rs2 else s.d.port2,
      NextShiftActive(s, x),
      NextAmplitude(s, x))
  }

  function PinsNow(s: State): Pins { Pins(s.t.meip, s.t.mtip, s.t.msip, s.t.irqLines) }

  function EResult(s: State): Word {
    if s.e.valid && IsCsr(s.e.inst) then CsrRead(s.csr, PinsNow(s), CsrAddress(s.e.inst))
    else if ShiftBusy(s) then ShiftOne(Shift(s.e.inst), ShiftInput(s))
    else AluOut(s.e.inst, ESrc1(s), ESrc2(s))
  }

  function NextMemory(s: State, x: In): MemoryStage {
    var valid := if !EStuck(s, x) && !ERemove(s) then s.e.valid
                 else if !MStuck(s, x) || MRemove(s) then false else s.m.valid;
    if MStuck(s, x) then s.m.(valid := valid)
    else MemoryStage(
        valid, s.e.pc, s.e.inst, EResult(s),
        BranchDo(s.e.inst, s.e.pc, s.e.rs1, s.e.rs2), BranchTarget(s.e.inst, s.e.pc, s.e.rs1),
        EAlignFault(s), AddressLow(EAddress(s)))
  }

  function NextWriteBack(s: State, x: In): WriteBackStage {
    WriteBackStage(
      !MStuck(s, x) && !MRemove(s) && s.m.valid,
      if s.t.excW then s.w.pc else s.m.pc,
      s.m.inst, s.m.result, x.dData, s.m.addressLow)
  }

  // --- Register file --------------------------------------------------------

  function WData(s: State): Word {
    if s.w.valid && IsMem(s.w.inst) then FormatLoad(s.w.inst, s.w.readData, s.w.addressLow) else s.w.result
  }

  /** In the first cycle out of reset register 0 is cleared. */
  function NextRegs(s: State): RegFile {
    if s.boot then WriteReg(s.regs, 0, 0)
    else if s.w.valid && WritesRd(s.w.inst) then WriteReg(s.regs, Rd(s.w.inst), WData(s))
    else s.regs
  }

  function NextBuffer(s: State): WriteBackBuffer {
    WriteBackBuffer(s.w.valid && WritesRd(s.w.inst), Rd(s.w.inst))
  }

  // --- CSR and trap unit ----------------------------------------------------

  predicate CsrWriteEnable(s: State, x: In) {
    s.e.valid && IsCsr(s.e.inst) && CsrWriteOp(s.e.inst) && !EStuck(s, x)
  }
  function CsrWriteValue(s: State): Word {
    CsrWriteData(s.e.inst, CsrRead(s.csr, PinsNow(s), CsrAddress(s.e.inst)), ESrc1(s))
  }
  function TrapCause(s: State): bv4 { if s.t.hadException then s.t.code else s.t.irqCode }

  function CsrAfterTrap(s: State): Csrs {
    if TrapNow(s) then
      var c := TrapEntry(s.csr, !s.t.hadException, TrapCause(s), s.w.pc);
      if s.t.hadException then c.(mtval := s.t.badAddr) else c
    else s.csr
  }

  function CsrAfterReturn(s: State): Csrs {
    if XretInW(s) && IsMret(s.w.inst) then
      CsrAfterTrap(s).(mpp := 0, mie := s.csr.mpie, mpie := true)
    else CsrAfterTrap(s)
  }

  function NextCsr(s: State, x: In): Csrs {
    if CsrWriteEnable(s, x) then CsrStore(CsrAfterReturn(s), CsrAddress(s.e.inst), CsrWriteValue(s))
    else CsrAfterReturn(s)
  }

  predicate TimerPending(s: State) { s.t.mtip && s.csr.mtie }
  predicate SoftwarePending(s: State) { s.t.msip && s.csr.msie }
  predicate ExternalPending(s: State) { s.t.meip && s.csr.meie }
  predicate AnyPending(s: State) { TimerPending(s) || SoftwarePending(s) || ExternalPending(s) }

  predicate LiberatorClear(s: State) { !LiberatorActive(s) || DRemove(s) }

  predicate NextExcD(s: State, x: In) { DStuck(s, x) && ExcValidD(s) }
  predicate NextExcE(s: State, x: In) { if !EStuck(s, x) then ExcValidD(s) && !DStuck(s, x) else ExcValidE(s) }
  predicate NextExcM(s: State, x: In) { if !MStuck(s, x) then ExcValidE(s) && !EStuck(s, x) else ExcValidM(s) }

  function NextCode(s: State): bv4 {
    if MException(s) then (if MemoryException(s) then (if IsStore(s.m.inst) then 6 else 4) else 0)
    else if SelfException(s) then 11
    else if DecodeException(s) then 2
    else s.t.code
  }

  function NextBadAddr(s: State): Word {
    if MException(s) then (if MemoryException(s) then s.m.result else s.m.branchTarget)
    else if SelfException(s) then s.e.inst
    else if DecodeException(s) then s.d.inst
    else s.t.badAddr
  }

  predicate NextIrqValid(s: State) { !InterruptJump(s) && s.csr.mie && AnyPending(s) }

  function NextIrqCode(s: State): bv4 {
    if s.csr.mie && AnyPending(s) then
      if ExternalPending(s) then 11 else if SoftwarePending(s) then 3 else 7
    else s.t.irqCode
  }

  predicate NextPcValid0(s: State, x: In) { !LiberatorClear(s) && (!EStuck(s, x) || s.t.pcValid0) }
  predicate NextPcValid1(s: State, x: In) {
    !LiberatorClear(s) && (if !MStuck(s, x) then s.t.pcValid0 else s.t.pcValid1)
  }
  predicate NextPcValid2(s: State) { !LiberatorClear(s) && s.t.pcValid1 }

  predicate NextMsip(s: State, x: In) {
    if CsrWriteEnable(s, x) && CsrAddress(s.e.inst) == 0x344 then HasBit(CsrWriteValue(s), 8)
    else x.softwareInterrupt
  }

  function NextTrap(s: State, x: In): TrapUnit {
    TrapUnit(
      NextExcD(s, x), NextExcE(s, x), NextExcM(s, x), ExcValidM(s) && !MStuck(s, x),
      NextCode(s), NextBadAddr(s), s.t.excW,
      NextIrqValid(s), NextIrqCode(s), NextPcValid0(s, x), NextPcValid1(s, x), NextPcValid2(s),
      HasBit(s.csr.irqMask, s.t.irqLines), x.timerInterrupt, NextMsip(s, x), x.externalInterrupts)
  }

  // --- Data bus -------------------------------------------------------------

  predicate DCmdValid(s: State, x: In) {
    s.e.valid && IsMem(s.e.inst) && !MStuck(s, x) && !EFlushed(s) && !EAlignFault(s)
  }

  function NextBus(s: State, x: In): DataBus {
    var b := s.bus;
    var valid := if b.valid && x.dAck then false else if DCmdValid(s, x) then true else b.valid;
    if b.valid then b.(valid := valid)
    else DataBus(valid, IsStore(s.e.inst), EAddress(s), StoreData(Size(s.e.inst), s.e.rs2), Size(s.e.inst))
  }

  // --- One clock ------------------------------------------------------------

  function Next(s: State, x: In): State {
    State(false, NextRegs(s), NextCsr(s, x),
          NextFetch(s, x), NextDecode(s, x), NextExecute(s, x), NextMemory(s, x), NextWriteBack(s, x),
          NextBuffer(s), NextTrap(s, x), NextBus(s, x))
  }

  /** The bus transactions that complete in this cycle. */
  function Completed(s: State, x: In): seq<Txn> {
    if s.bus.valid && x.dAck then [TxnOf(s.bus.wr, s.bus.size, s.bus.address, s.bus.data, x.dData)] else []
  }
}
