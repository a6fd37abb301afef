/** The invariant that ties a core state to the architectural state of the
    sequential machine, and the choice of sequential event for each cycle. */
module Invariant {
  import opened Words
  import opened Decoder
  import opened Execute
  import opened Machine
  import opened Core

  type Memory = Word -> Word

  // --- What is in flight ----------------------------------------------------

  predicate QuietD(s: State) { !s.d.valid && !s.t.excD && !s.f.s1Valid }
  predicate QuietE(s: State) { !s.e.valid && !s.t.excE && QuietD(s) }
  predicate QuietM(s: State) { !s.m.valid && !s.t.excM && QuietE(s) }
  predicate QuietW(s: State) { !s.w.valid && !s.t.excW && QuietM(s) }

  /** A pending exception occupies the stage of the faulting instruction and
      nothing younger is in the pipeline. */
  predicate ExceptionAlone(s: State) {
    && (s.t.excD ==> !s.d.valid && !s.f.s1Valid)
    && (s.t.excE ==> !s.e.valid && QuietD(s))
    && (s.t.excM ==> !s.m.valid && QuietE(s))
    && (s.t.excW ==> !s.w.valid && QuietM(s))
    && (s.t.hadException ==> QuietW(s))
  }

  /** Nothing follows a return into execute. */
  predicate ReturnAlone(s: State) {
    && (s.m.valid && Env(s.m.inst) == EnvXret ==> !s.e.valid && !s.t.excE)
    && (XretInW(s) ==> !s.m.valid && !s.t.excM && !s.e.valid && !s.t.excE)
  }

  predicate BootQuiet(s: State) {
    && (s.boot <==> !s.f.booted)
    && (s.boot ==> !s.f.inc && QuietW(s) && !s.t.hadException && !s.bus.valid)
  }

  predicate TokensOk(s: State) { ExceptionAlone(s) && ReturnAlone(s) && BootQuiet(s) }

  predicate NoToken(s: State) {
    !s.t.excD && !s.t.excE && !s.t.excM && !s.t.excW && !s.t.hadException
  }

  // --- Fetch bookkeeping ----------------------------------------------------

  /** pending counts the command register plus the FIFO, which are never both
      full; discard counts the responses nobody waits for. */
  predicate FetchBook(s: State) {
    && !(s.f.busValid && s.f.fifoFull)
    && (s.f.s1Valid ==> s.f.booted && s.f.inc && (s.f.busValid || s.f.fifoFull))
    && (!s.f.s1Valid ==> !s.f.fifoFull)
    && s.f.pending == Bit(s.f.busValid || s.f.fifoFull)
    && s.f.discard == Bit(s.f.busValid && !s.f.s1Valid)
  }

  predicate FetchData(imem: Memory, s: State) {
    s.f.s1Valid ==>
      && Aligned(s.f.pcReg)
      && (s.f.busValid ==> s.f.busPc == s.f.pcReg)
      && (s.f.fifoFull ==> s.f.fifoInst == imem(s.f.pcReg))
  }

  predicate InstructionsOk(imem: Memory, s: State) {
    && (s.d.valid ==> s.d.inst == imem(s.d.pc))
    && (s.e.valid ==> s.e.inst == imem(s.e.pc) && Legal(s.e.inst))
    && (s.m.valid ==> s.m.inst == imem(s.m.pc) && Legal(s.m.inst) && Env(s.m.inst) != EnvEcall)
    && (s.w.valid ==> s.w.inst == imem(s.w.pc) && Legal(s.w.inst) && Env(s.w.inst) != EnvEcall)
  }

  // --- Program order --------------------------------------------------------

  function Op1(a: Arch, i: Word): Word { a.regs(Rs1(i)) }
  function Op2(a: Arch, i: Word): Word { a.regs(Rs2(i)) }

  function AfterW(a: Arch, s: State): Word {
    if s.w.valid then NextPc(s.w.inst, s.w.pc, Op1(a, s.w.inst), Op2(a, s.w.inst)) else a.pc
  }
  function AfterM(a: Arch, s: State): Word { if s.m.valid then Plus(s.m.pc, 4) else AfterW(a, s) }
  function AfterE(a: Arch, s: State): Word { if s.e.valid then Plus(s.e.pc, 4) else AfterM(a, s) }
  function AfterD(a: Arch, s: State): Word { if s.d.valid then Plus(s.d.pc, 4) else AfterE(a, s) }
  function AfterS(a: Arch, s: State): Word { if s.f.s1Valid then Plus(s.f.pcReg, 4) else AfterD(a, s) }

  /** The address the fetch unit requests next if nothing redirects it. */
  function StreamPc(s: State): Word { Align(Plus(s.f.pcReg, if s.f.inc then 4 else 0)) }

  /** Each occupied stage holds the successor of the next older one. */
  predicate ChainOk(a: Arch, s: State) {
    && Aligned(a.pc)
    && (s.w.valid || s.t.excW || s.t.hadException ==> s.w.pc == a.pc)
    && (s.m.valid || s.t.excM ==> s.m.pc == AfterW(a, s))
    && (s.e.valid || s.t.excE ==> s.e.pc == AfterM(a, s))
    && (!XretInW(s) ==>
          && (s.d.valid || s.t.excD ==> s.d.pc == AfterE(a, s))
          && (s.f.s1Valid ==> s.f.pcReg == AfterD(a, s))
          && (NoToken(s) ==> StreamPc(s) == AfterS(a, s)))
  }

  // --- Values ---------------------------------------------------------------

  /** None of the registers instruction i reads is written by the given stage. */
  predicate Free(i: Word, valid: bool, inst: Word) {
    && (UsesRs1(i) ==> !Writer(valid, inst, Rs1(i)))
    && (UsesRs2(i) ==> !Writer(valid, inst, Rs2(i)))
  }

  ghost predicate RegsOk(a: Arch, s: State) {
    && a.regs == (if s.boot then WriteReg(s.regs, 0, 0) else s.regs)
    && a.regs(0) == 0
  }

  predicate PortsOk(a: Arch, s: State) {
    s.d.valid ==>
      && (s.d.port1 == a.regs(Rs1(s.d.inst)) || (s.wb.valid && s.wb.address == Rs1(s.d.inst)))
      && (s.d.port2 == a.regs(Rs2(s.d.inst)) || (s.wb.valid && s.wb.address == Rs2(s.d.inst)))
  }

  predicate ExecuteOk(a: Arch, s: State) {
    s.e.valid ==>
      && (UsesRs1(s.e.inst) ==> s.e.rs1 == Op1(a, s.e.inst))
      && (UsesRs2(s.e.inst) ==> s.e.rs2 == Op2(a, s.e.inst))
      && Free(s.e.inst, s.m.valid, s.m.inst)
      && Free(s.e.inst, s.w.valid, s.w.inst)
  }

  predicate MemoryOk(a: Arch, s: State) {
    s.m.valid ==>
      var i, pc, x, y := s.m.inst, s.m.pc, Op1(a, s.m.inst), Op2(a, s.m.inst);
      && Free(i, s.w.valid, s.w.inst)
      && s.m.branchDo == BranchDo(i, pc, x, y)
      && (s.m.branchDo ==> s.m.branchTarget == BranchTarget(i, pc, x))
      && (IsMem(i) ==> s.m.result == Address(i, pc, x, y)
                       && s.m.alignFault == AlignFault(Size(i), s.m.result)
                       && s.m.addressLow == AddressLow(s.m.result))
      && (WritesRd(i) && !IsMem(i) && !IsCsr(i) ==> s.m.result == ExecuteResult(i, pc, x, y))
  }

  predicate WriteBackOk(a: Arch, s: State) {
    s.w.valid ==>
      var i, pc, x, y := s.w.inst, s.w.pc, Op1(a, s.w.inst), Op2(a, s.w.inst);
      && TrapOf(i, pc, x, y) == NoTrap
      && (IsMem(i) ==> s.w.addressLow == AddressLow(Address(i, pc, x, y)))
      && (WritesRd(i) && !IsMem(i) && !IsCsr(i) ==> s.w.result == ExecuteResult(i, pc, x, y))
  }

  /** A partly done shift keeps its intermediate value in the memory stage's
      result register, and the memory stage is then empty. */
  predicate ShiftOk(s: State) {
    s.e.shiftActive ==>
      && ShiftBusy(s) && !s.m.valid && s.e.amplitude != 0
      && ShiftBy(Shift(s.e.inst), s.m.result, s.e.amplitude)
         == ShiftBy(Shift(s.e.inst), ESrc1(s), Amount(ESrc2(s)))
  }

  // --- CSRs -----------------------------------------------------------------

  /** Some pins that explain a value read from a CSR. */
  function PinsOf(v: Word): Pins { Pins(v & 0x800 != 0, v & 0x80 != 0, v & 8 != 0, v) }

  /** The effect of a CSR instruction waiting in a later stage is already in the registers. */
  predicate CsrPending(a: Arch, s: State, i: Word, result: Word) {
    && s.csr == CsrAfter(a.csr, PinsOf(result), i, Op1(a, i))
    && result == CsrRead(a.csr, PinsOf(result), CsrAddress(i))
  }

  predicate CsrOk(a: Arch, s: State) {
    if s.w.valid && IsCsr(s.w.inst) then CsrPending(a, s, s.w.inst, s.w.result) && !(s.m.valid && IsCsr(s.m.inst))
    else if s.m.valid && IsCsr(s.m.inst) then !s.w.valid && CsrPending(a, s, s.m.inst, s.m.result)
    else s.csr == a.csr
  }

  // --- Exceptions and interrupts --------------------------------------------

  predicate StaticTrap(i: Word, code: bv4, value: Word) {
    value == i && (if !Legal(i) then code == 2 else Env(i) == EnvEcall && code == 11)
  }

  predicate ContextOk(imem: Memory, a: Arch, s: State) {
    var c, v := s.t.code, s.t.badAddr;
    && (s.t.excD ==> StaticTrap(imem(s.d.pc), c, v))
    && (s.t.excE ==> StaticTrap(imem(s.e.pc), c, v))
    && (s.t.excM ==>
          var i := imem(s.m.pc);
          || StaticTrap(i, c, v)
          || (Legal(i) && Free(i, s.w.valid, s.w.inst) && TrapOf(i, s.m.pc, Op1(a, i), Op2(a, i)) == Trap(c, v)))
    && (s.t.excW || s.t.hadException ==>
          var i := imem(s.w.pc);
          TrapOf(i, s.w.pc, Op1(a, i), Op2(a, i)) == Trap(c, v))
  }

  /** The liberator's flags count the stages already drained ahead of decode. */
  predicate LiberatorOk(s: State) {
    && (s.t.pcValid0 ==> s.d.valid && !s.e.valid && s.e.pc == s.d.pc)
    && (s.t.pcValid1 ==> s.t.pcValid0 && !s.m.valid && s.m.pc == s.d.pc
                         && (s.t.irqValid ==> InterruptEnabled(s.csr, s.t.irqCode)))
    && (s.t.pcValid2 ==> s.t.pcValid1 && !s.w.valid && s.w.pc == s.d.pc)
  }

  // --- Data bus -------------------------------------------------------------

  predicate LoadWaiting(s: State) {
    s.m.valid && IsMem(s.m.inst) && !IsStore(s.m.inst) && !s.m.alignFault
  }

  predicate BusOk(s: State) {
    && (s.bus.valid && !s.bus.wr <==> LoadWaiting(s))
    && (LoadWaiting(s) ==> s.bus.address == s.m.result && s.bus.size == Size(s.m.inst))
  }

  function Posted(s: State): seq<Txn> {
    if s.bus.valid && s.bus.wr then [TxnOf(true, s.bus.size, s.bus.address, s.bus.data, 0)] else []
  }
  function WTxn(a: Arch, s: State): seq<Txn> {
    if s.w.valid && IsMem(s.w.inst) then
      [TxnFor(s.w.inst, s.w.pc, Op1(a, s.w.inst), Op2(a, s.w.inst), s.w.readData)]
    else []
  }
  function MTxn(a: Arch, s: State): seq<Txn> {
    if s.m.valid && IsMem(s.m.inst) && IsStore(s.m.inst) && !s.m.alignFault then
      [TxnFor(s.m.inst, s.m.pc, Op1(a, s.m.inst), Op2(a, s.m.inst), 0)]
    else []
  }

  /** Transactions completed on the bus, plus a store still posted, are those of
      the retired instructions followed by those of writeBack and memory. */
  predicate LogOk(a: Arch, s: State, done: seq<Txn>) {
    done + Posted(s) == a.log + WTxn(a, s) + MTxn(a, s)
  }

  ghost predicate Inv(imem: Memory, a: Arch, s: State, done: seq<Txn>) {
    && TokensOk(s) && FetchBook(s) && FetchData(imem, s) && InstructionsOk(imem, s) && ChainOk(a, s)
    && RegsOk(a, s) && PortsOk(a, s) && ExecuteOk(a, s) && MemoryOk(a, s) && WriteBackOk(a, s)
    && ShiftOk(s) && CsrOk(a, s) && ContextOk(imem, a, s) && LiberatorOk(s)
    && BusOk(s) && LogOk(a, s, done)
  }

  // --- Environment and matching event ---------------------------------------

  /** The instruction bus answers with the contents of instruction memory. */
  predicate ImemAnswers(imem: Memory, s: State, x: In) { RspValid(s, x) ==> x.iData == imem(s.f.busPc) }

  /** The sequential event that a core cycle stands for: an instruction leaving
      writeBack, an exception reaching the trap unit, an interrupt, or nothing. */
  function EventsOf(s: State, x: In): seq<Event> {
    if s.w.valid then [Exec(s.w.readData, PinsOf(s.w.result), x.undefined)]
    else if s.t.hadException then [Exec(0, PinsOf(0), 0)]
    else if InterruptJump(s) then [Interrupt(s.t.irqCode)]
    else []
  }

  function Advance(imem: Memory, a: Arch, s: State, x: In): Arch {
    Run(imem, a, EventsOf(s, x))
  }
}
