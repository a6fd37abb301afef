/** The sequential reference machine: one instruction, trap or interrupt at a
    time, with no pipeline.  It uses the same combinational decode and data path
    as the core; Isa.dfy and IsaMatch.dfy show what those compute. */
module Machine {
  import opened Words
  import opened Decoder
  import opened Execute

  type RegFile = RegIndex -> Word

  function WriteReg(regs: RegFile, rd: RegIndex, v: Word): RegFile {
    (r: RegIndex) => if r == rd then v else regs(r)
  }

  // --- Control and status registers -----------------------------------------

  datatype Csrs = Csrs(
    mie: bool, mpie: bool, mpp: bv2,                       // mstatus
    meie: bool, mtie: bool, msie: bool,                    // mie
    mtvecBase: bv30,
    mepc: Word,
    mcauseInterrupt: bool, mcauseCode: bv4,
    mtval: Word,
    irqMask: Word)                                         // custom CSR 0xbc0

  /** The asynchronous inputs a CSR read can observe. */
  datatype Pins = Pins(meip: bool, mtip: bool, msip: bool, irqLines: Word)

  function Flag(b: bool, mask: Word): Word { if b then mask else 0 }

  function StatusWord(mpp: bv2, mpie: bool, mie: bool): Word { ((mpp as Word) << 11) | Flag(mpie, 0x80) | Flag(mie, 8) }
  function LinesWord(external: bool, timer: bool, software: bool): Word {
    Flag(external, 0x800) | Flag(timer, 0x80) | Flag(software, 8)
  }
  function CauseWord(interrupt: bool, code: bv4): Word { Flag(interrupt, 0x80000000) | (code as Word) }
  function VectorWord(base: bv30): Word { (base as Word) << 2 }

  function Mstatus(c: Csrs): Word { StatusWord(c.mpp, c.mpie, c.mie) }
  function Mie(c: Csrs): Word { LinesWord(c.meie, c.mtie, c.msie) }
  function Mip(p: Pins): Word { LinesWord(p.meip, p.mtip, p.msip) }
  function Mcause(c: Csrs): Word { CauseWord(c.mcauseInterrupt, c.mcauseCode) }
  function Masked(mask: Word, lines: Word): Word { mask & lines }

  function CsrRead(c: Csrs, p: Pins, a: bv12): Word {
    if a == 0x300 then Mstatus(c)
    else if a == 0x344 then Mip(p)
    else if a == 0x304 then Mie(c)
    else if a == 0x341 then c.mepc
    else if a == 0x342 then Mcause(c)
    else if a == 0x343 then c.mtval
    else if a == 0xbc0 then c.irqMask
    else if a == 0xfc0 then Masked(c.irqMask, p.irqLines)
    else 0
  }

  /** False for the set and clear forms with an x0 or zero-immediate operand. */
  predicate CsrWriteOp(i: Word) {
    !((i >> 13) & 3 == 1 && Rs1(i) == 0) && !((i >> 13) & 3 == 3 && Rs1(i) == 0)
  }

  function CsrWriteData(i: Word, old_: Word, src1: Word): Word {
    if i & 0x2000 == 0 then src1
    else if i & 0x1000 != 0 then old_ & !src1
    else old_ | src1
  }

  predicate HasBit(v: Word, mask: Word) { v & mask != 0 }
  function PrivilegeOf(v: Word): bv2 { ((v >> 11) & 3) as bv2 }
  function BaseOf(v: Word): bv30 { (v >> 2) as bv30 }

  function CsrStore(c: Csrs, a: bv12, v: Word): Csrs {
    if a == 0x300 then c.(mpp := PrivilegeOf(v), mpie := HasBit(v, 0x80), mie := HasBit(v, 8))
    else if a == 0x304 then c.(meie := HasBit(v, 0x800), mtie := HasBit(v, 0x80), msie := HasBit(v, 8))
    else if a == 0xbc0 then c.(irqMask := v)
    else if a == 0x305 then c.(mtvecBase := BaseOf(v))
    else if a == 0x341 then c.(mepc := v)
    else c
  }

  /** The registers after a CSR instruction with operand rs1. */
  function CsrAfter(c: Csrs, p: Pins, i: Word, rs1: Word): Csrs {
    if CsrWriteOp(i) then
      CsrStore(c, CsrAddress(i), CsrWriteData(i, CsrRead(c, p, CsrAddress(i)), Src1(i, rs1)))
    else c
  }

  function TrapEntry(c: Csrs, interrupt: bool, code: bv4, epc: Word): Csrs {
    c.(mie := false, mpie := c.mie, mpp := 3,
       mcauseInterrupt := interrupt, mcauseCode := code, mepc := epc)
  }

  function TrapVector(c: Csrs): Word { VectorWord(c.mtvecBase) }

  function TrapReturn(c: Csrs): Csrs {
    c.(mpp := 0, mie := c.mpie, mpie := true)
  }

  predicate IsMret(i: Word) { (i >> 28) & 3 == 3 }

  // --- Traps ----------------------------------------------------------------

  datatype Trap = NoTrap | Trap(code: bv4, value: Word)

  predicate Misaligned(i: Word, pc: Word, rs1: Word, rs2: Word) {
    IsMem(i) && AlignFault(Size(i), Address(i, pc, rs1, rs2))
  }

  /** The synchronous exception raised by an instruction, if any. */
  function TrapOf(i: Word, pc: Word, rs1: Word, rs2: Word): Trap {
    if !Legal(i) then Trap(2, i)
    else if Env(i) == EnvEcall then Trap(11, i)
    else if Misaligned(i, pc, rs1, rs2) then
      Trap(if IsStore(i) then 6 else 4, Address(i, pc, rs1, rs2))
    else if BranchDo(i, pc, rs1, rs2) && Bit1(BranchTarget(i, pc, rs1)) then
      Trap(0, BranchTarget(i, pc, rs1))
    else NoTrap
  }

  // --- Bus transactions -----------------------------------------------------

  datatype Txn =
    | Read(wordAddress: Word, lanes: bv4, data: Word)
    | Write(wordAddress: Word, lanes: bv4, data: Word)

  function TxnOf(wr: bool, size: bv2, address: Word, storeData: Word, response: Word): Txn {
    if wr then Write(WordOf(address), Lanes(true, size, address), storeData)
    else Read(WordOf(address), Lanes(false, size, address), response)
  }

  /** The bus activity of a memory instruction that does not trap. */
  function TxnFor(i: Word, pc: Word, rs1: Word, rs2: Word, response: Word): Txn {
    TxnOf(IsStore(i), Size(i), Address(i, pc, rs1, rs2), StoreData(Size(i), rs2), response)
  }

  // --- One step -------------------------------------------------------------

  datatype Arch = Arch(pc: Word, regs: RegFile, csr: Csrs, log: seq<Txn>)

  /** What the environment contributes to a step.  The fields of Exec matter only
      to a load, to a CSR read, and to SRET (whose target the core leaves undefined). */
  datatype Event =
    | Exec(response: Word, pins: Pins, undefined: Word)
    | Interrupt(code: bv4)

  function Operand1(a: Arch, i: Word): Word { a.regs(Rs1(i)) }
  function Operand2(a: Arch, i: Word): Word { a.regs(Rs2(i)) }

  function RdValue(i: Word, pc: Word, rs1: Word, rs2: Word, csrValue: Word, response: Word): Word {
    if IsMem(i) then FormatLoad(i, response, AddressLow(Address(i, pc, rs1, rs2)))
    else if IsCsr(i) then csrValue
    else ExecuteResult(i, pc, rs1, rs2)
  }

  function NextPc(i: Word, pc: Word, rs1: Word, rs2: Word): Word {
    if BranchDo(i, pc, rs1, rs2) then BranchTarget(i, pc, rs1) else Plus(pc, 4)
  }

  function Retire(a: Arch, i: Word, e: Event): Arch
    requires e.Exec?
  {
    var x, y := Operand1(a, i), Operand2(a, i);
    var regs' := if WritesRd(i)
                 then WriteReg(a.regs, Rd(i), RdValue(i, a.pc, x, y, CsrRead(a.csr, e.pins, CsrAddress(i)), e.response))
                 else a.regs;
    var log' := if IsMem(i) then a.log + [TxnFor(i, a.pc, x, y, e.response)] else a.log;
    if Env(i) == EnvXret then
      if IsMret(i) then Arch(Align(a.csr.mepc), regs', TrapReturn(a.csr), log')
      else Arch(Align(e.undefined), regs', a.csr, log')
    else
      Arch(NextPc(i, a.pc, x, y), regs', if IsCsr(i) then CsrAfter(a.csr, e.pins, i, x) else a.csr, log')
  }

  function TakeTrap(a: Arch, t: Trap): Arch
    requires t.Trap?
  {
    a.(pc := TrapVector(a.csr), csr := TrapEntry(a.csr, false, t.code, a.pc).(mtval := t.value))
  }

  function TakeInterrupt(a: Arch, code: bv4): Arch {
    a.(pc := TrapVector(a.csr), csr := TrapEntry(a.csr, true, code, a.pc))
  }

  /** Executes one instruction word, or traps on it. */
  function Perform(a: Arch, i: Word, e: Event): Arch
    requires e.Exec?
  {
    var t := TrapOf(i, a.pc, Operand1(a, i), Operand2(a, i));
    if t.Trap? then TakeTrap(a, t) else Retire(a, i, e)
  }

  function Step(imem: Word -> Word, a: Arch, e: Event): Arch {
    match e
    case Interrupt(code) => TakeInterrupt(a, code)
    case Exec(_, _, _) => Perform(a, imem(a.pc), e)
  }

  /** An interrupt may be taken only while enabled. */
  predicate InterruptEnabled(c: Csrs, code: bv4) {
    c.mie && ((code == 7 && c.mtie) || (code == 3 && c.msie) || (code == 11 && c.meie))
  }

  function Run(imem: Word -> Word, a: Arch, es: seq<Event>): Arch {
    if es == [] then a
    else Step(imem, Run(imem, a, es[..|es| - 1]), es[|es| - 1])
  }
}
