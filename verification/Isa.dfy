/** RV32I with the Zicsr instructions and MRET, as the RISC-V Unprivileged ISA
    (chapters 2 and 9) and the Privileged Architecture (machine mode) describe
    them: instruction formats, their meaning, CSRs as words, and a byte-addressed
    memory.  From the model of the core it takes the type of the interrupt pins and
    nothing else. */
module Isa {
  import opened Words
  import Machine

  type RegIndex = bv5

  // --- Instructions ---------------------------------------------------------

  datatype Condition = Eq | Ne | Lt | Ge | Ltu | Geu
  datatype LoadKind = Lb | Lh | Lw | Lbu | Lhu
  datatype StoreKind = Sb | Sh | Sw
  datatype AluOp = Add | Sub | Sll | Slt | Sltu | Xor | Srl | Sra | Or | And
  datatype CsrOp = Swap | Set | Clear
  datatype CsrSource = Register(r: RegIndex) | Immediate(u: bv5)

  datatype Instr =
    | Lui(rd: RegIndex, imm: Word)
    | Auipc(rd: RegIndex, imm: Word)
    | Jal(rd: RegIndex, imm: Word)
    | Jalr(rd: RegIndex, rs1: RegIndex, imm: Word)
    | BranchIf(cond: Condition, rs1: RegIndex, rs2: RegIndex, imm: Word)
    | Load(lk: LoadKind, rd: RegIndex, rs1: RegIndex, imm: Word)
    | Store(sk: StoreKind, rs1: RegIndex, rs2: RegIndex, imm: Word)
    | OpImm(op: AluOp, rd: RegIndex, rs1: RegIndex, imm: Word)
    | Op(op: AluOp, rd: RegIndex, rs1: RegIndex, rs2: RegIndex)
    | CsrAccess(cop: CsrOp, rd: RegIndex, src: CsrSource, csr: bv12)
    | Fence
    | Wfi
    | Ecall
    | Mret

  datatype Option<T> = None | Some(value: T)

  // --- Formats --------------------------------------------------------------

  function Opcode(w: Word): Word { w & 0x7f }
  function F3(w: Word): Word { (w >> 12) & 7 }
  function F7(w: Word): Word { w >> 25 }
  function Dest(w: Word): RegIndex { ((w & 0xf80) >> 7) as RegIndex }
  function Source1(w: Word): RegIndex { ((w & 0xf8000) >> 15) as RegIndex }
  function Source2(w: Word): RegIndex { ((w & 0x1f00000) >> 20) as RegIndex }
  function CsrField(w: Word): bv12 { ((w & 0xfff00000) >> 20) as bv12 }

  /** Sign extension of a field whose sign bit has the given weight. */
  function SignExtend(v: Word, sign: Word): Word { if v & sign != 0 then v | !(sign - 1) else v }

  function IImm(w: Word): Word { SignExtend(w >> 20, 0x800) }
  function SImm(w: Word): Word { SignExtend(((w >> 25) << 5) | ((w >> 7) & 0x1f), 0x800) }
  function BImm(w: Word): Word {
    SignExtend(
      (((w >> 31) & 1) << 12) | (((w >> 7) & 1) << 11) | (((w >> 25) & 0x3f) << 5) | (((w >> 8) & 0xf) << 1),
      0x1000)
  }
  function UImm(w: Word): Word { (w >> 12) << 12 }
  function JBits(w: Word): Word {
    (((w >> 31) & 1) << 20) | (((w >> 12) & 0xff) << 12) | (((w >> 20) & 1) << 11) | (((w >> 21) & 0x3ff) << 1)
  }
  function JImm(w: Word): Word { SignExtend(JBits(w), 0x100000) }

  function DecodeBranch(w: Word): Option<Condition> {
    if F3(w) == 0 then Some(Eq) else if F3(w) == 1 then Some(Ne)
    else if F3(w) == 4 then Some(Lt) else if F3(w) == 5 then Some(Ge)
    else if F3(w) == 6 then Some(Ltu) else if F3(w) == 7 then Some(Geu)
    else None
  }

  function DecodeLoad(w: Word): Option<LoadKind> {
    if F3(w) == 0 then Some(Lb) else if F3(w) == 1 then Some(Lh) else if F3(w) == 2 then Some(Lw)
    else if F3(w) == 4 then Some(Lbu) else if F3(w) == 5 then Some(Lhu)
    else None
  }

  function DecodeStore(w: Word): Option<StoreKind> {
    if F3(w) == 0 then Some(Sb) else if F3(w) == 1 then Some(Sh) else if F3(w) == 2 then Some(Sw)
    else None
  }

  function DecodeOpImm(w: Word): Option<AluOp> {
    if F3(w) == 0 then Some(Add) else if F3(w) == 2 then Some(Slt) else if F3(w) == 3 then Some(Sltu)
    else if F3(w) == 4 then Some(Xor) else if F3(w) == 6 then Some(Or) else if F3(w) == 7 then Some(And)
    else if F3(w) == 1 && F7(w) == 0 then Some(Sll)
    else if F3(w) == 5 && F7(w) == 0 then Some(Srl)
    else if F3(w) == 5 && F7(w) == 0x20 then Some(Sra)
    else None
  }

  function DecodeOp(w: Word): Option<AluOp> {
    if F7(w) == 0 then
      if F3(w) == 0 then Some(Add) else if F3(w) == 1 then Some(Sll) else if F3(w) == 2 then Some(Slt)
      else if F3(w) == 3 then Some(Sltu) else if F3(w) == 4 then Some(Xor) else if F3(w) == 5 then Some(Srl)
      else if F3(w) == 6 then Some(Or) else Some(And)
    else if F7(w) == 0x20 then
      if F3(w) == 0 then Some(Sub) else if F3(w) == 5 then Some(Sra) else None
    else None
  }

  function DecodeCsr(w: Word): Option<Instr> {
    var src := if F3(w) < 4 then Register(Source1(w)) else Immediate(Source1(w));
    if F3(w) & 3 == 1 then Some(CsrAccess(Swap, Dest(w), src, CsrField(w)))
    else if F3(w) & 3 == 2 then Some(CsrAccess(Set, Dest(w), src, CsrField(w)))
    else if F3(w) & 3 == 3 then Some(CsrAccess(Clear, Dest(w), src, CsrField(w)))
    else None
  }

  /** None for every word outside the instruction set above. */
  function Decode(w: Word): Option<Instr> {
    if Opcode(w) == 0x37 then Some(Lui(Dest(w), UImm(w)))
    else if Opcode(w) == 0x17 then Some(Auipc(Dest(w), UImm(w)))
    else if Opcode(w) == 0x6f then Some(Jal(Dest(w), JImm(w)))
    else if Opcode(w) == 0x67 then
      if F3(w) == 0 then Some(Jalr(Dest(w), Source1(w), IImm(w))) else None
    else if Opcode(w) == 0x63 then
      (match DecodeBranch(w) case None => None case Some(c) => Some(BranchIf(c, Source1(w), Source2(w), BImm(w))))
    else if Opcode(w) == 0x03 then
      (match DecodeLoad(w) case None => None case Some(k) => Some(Load(k, Dest(w), Source1(w), IImm(w))))
    else if Opcode(w) == 0x23 then
      (match DecodeStore(w) case None => None case Some(k) => Some(Store(k, Source1(w), Source2(w), SImm(w))))
    else if Opcode(w) == 0x13 then
      (match DecodeOpImm(w) case None => None case Some(op) => Some(OpImm(op, Dest(w), Source1(w), IImm(w))))
    else if Opcode(w) == 0x33 then
      (match DecodeOp(w) case None => None case Some(op) => Some(Op(op, Dest(w), Source1(w), Source2(w))))
    else if Opcode(w) == 0x0f then
      if F3(w) <= 1 then Some(Fence) else None
    else if Opcode(w) == 0x73 then
      if w == 0x00000073 then Some(Ecall)
      else if w == 0x30200073 then Some(Mret)
      else if w == 0x10500073 then Some(Wfi)
      else DecodeCsr(w)
    else None
  }

  // --- Meaning --------------------------------------------------------------

  type Bytes = Word -> bv8
  type Regs = RegIndex -> Word

  /** Register x0 always reads as zero. */
  function X(regs: Regs, r: RegIndex): Word { if r == 0 then 0 else regs(r) }

  function SetX(regs: Regs, r: RegIndex, v: Word): Regs {
    if r == 0 then regs else (q: RegIndex) => if q == r then v else regs(q)
  }

  predicate SignedLess(a: Word, b: Word) { a ^ 0x80000000 < b ^ 0x80000000 }

  function ShiftRightArithmetic(a: Word, n: bv5): Word {
    if a & 0x80000000 != 0 then Invert(ShiftRight(Invert(a), n)) else ShiftRight(a, n)
  }

  function ShiftAmount(b: Word): bv5 { (b & 0x1f) as bv5 }

  function Compute(op: AluOp, a: Word, b: Word): Word {
    match op
    case Add => Plus(a, b)
    case Sub => Minus(a, b)
    case Sll => ShiftLeft(a, ShiftAmount(b))
    case Slt => if SignedLess(a, b) then 1 else 0
    case Sltu => if a < b then 1 else 0
    case Xor => a ^ b
    case Srl => ShiftRight(a, ShiftAmount(b))
    case Sra => ShiftRightArithmetic(a, ShiftAmount(b))
    case Or => a | b
    case And => a & b
  }

  predicate Holds(c: Condition, a: Word, b: Word) {
    match c
    case Eq => a == b
    case Ne => a != b
    case Lt => SignedLess(a, b)
    case Ge => !SignedLess(a, b)
    case Ltu => a < b
    case Geu => !(a < b)
  }

  function Half(m: Bytes, a: Word): Word { (m(a) as Word) | ((m(Plus(a, 1)) as Word) << 8) }

  function LoadValue(k: LoadKind, m: Bytes, a: Word): Word {
    match k
    case Lb => SignExtend(m(a) as Word, 0x80)
    case Lbu => m(a) as Word
    case Lh => SignExtend(Half(m, a), 0x8000)
    case Lhu => Half(m, a)
    case Lw => Half(m, a) | (Half(m, Plus(a, 2)) << 16)
  }

  function PutByte(m: Bytes, a: Word, v: bv8): Bytes { (b: Word) => if b == a then v else m(b) }
  function ByteOf(v: Word, n: bv5): bv8 { ((v >> n) & 0xff) as bv8 }

  function StoreValue(k: StoreKind, m: Bytes, a: Word, v: Word): Bytes {
    match k
    case Sb => PutByte(m, a, ByteOf(v, 0))
    case Sh => PutByte(PutByte(m, a, ByteOf(v, 0)), Plus(a, 1), ByteOf(v, 8))
    case Sw =>
      PutByte(PutByte(PutByte(PutByte(m, a, ByteOf(v, 0)), Plus(a, 1), ByteOf(v, 8)), Plus(a, 2), ByteOf(v, 16)),
        Plus(a, 3), ByteOf(v, 24))
  }

  predicate LoadAligned(k: LoadKind, a: Word) {
    match k
    case Lw => a & 3 == 0
    case Lh => a & 1 == 0
    case Lhu => a & 1 == 0
    case _ => true
  }

  predicate StoreAligned(k: StoreKind, a: Word) {
    match k
    case Sw => a & 3 == 0
    case Sh => a & 1 == 0
    case Sb => true
  }

  // --- Control and status registers -----------------------------------------

  /** mtvec holds a direct vector; irqMask is the custom CSR 0xbc0. */
  datatype CsrFile = CsrFile(
    mstatus: Word, mie: Word, mtvec: Word, mepc: Word, mcause: Word, mtval: Word, irqMask: Word)

  const MIE: Word := 0x8
  const MPIE: Word := 0x80
  const MPP: Word := 0x1800

  function Mip(p: Machine.Pins): Word {
    (if p.msip then 1 << 3 else 0) | (if p.mtip then 1 << 7 else 0) | (if p.meip then 1 << 11 else 0)
  }

  /** Unimplemented CSRs, and mtvec, read as zero. */
  function ReadCsr(c: CsrFile, p: Machine.Pins, a: bv12): Word {
    if a == 0x300 then c.mstatus
    else if a == 0x304 then c.mie
    else if a == 0x341 then c.mepc
    else if a == 0x342 then c.mcause
    else if a == 0x343 then c.mtval
    else if a == 0x344 then Mip(p)
    else if a == 0xbc0 then c.irqMask
    else if a == 0xfc0 then c.irqMask & p.irqLines
    else 0
  }

  /** mstatus keeps MPP, MPIE and MIE, mie the three machine-level enables; mcause, mtval
      and unimplemented CSRs ignore writes. */
  function WriteCsr(c: CsrFile, a: bv12, v: Word): CsrFile {
    if a == 0x300 then c.(mstatus := v & 0x1888)
    else if a == 0x304 then c.(mie := v & 0x888)
    else if a == 0x305 then c.(mtvec := v & 0xfffffffc)
    else if a == 0x341 then c.(mepc := v)
    else if a == 0xbc0 then c.(irqMask := v)
    else c
  }

  /** Machine mode is entered with interrupts disabled and the enable bit stacked. */
  function Enter(c: CsrFile, cause: Word, epc: Word): CsrFile {
    c.(mstatus := MPP | (if c.mstatus & MIE != 0 then MPIE else 0), mcause := cause, mepc := epc)
  }

  /** The enable bit is unstacked. */
  function Leave(c: CsrFile): CsrFile {
    c.(mstatus := MPIE | (if c.mstatus & MPIE != 0 then MIE else 0))
  }

  /** Software, timer and external interrupts have codes 3, 7 and 11, their bits in mie. */
  predicate InterruptAllowed(c: CsrFile, code: bv4) {
    c.mstatus & MIE != 0 && (code == 3 || code == 7 || code == 11) && c.mie & (1 << (code as bv5)) != 0
  }

  // --- One step -------------------------------------------------------------

  datatype Hart = Hart(pc: Word, regs: Regs, csr: CsrFile, mem: Bytes)

  function Trapped(h: Hart, code: bv4, value: Word): Hart {
    h.(pc := h.csr.mtvec, csr := Enter(h.csr, code as Word, h.pc).(mtval := value))
  }

  function Advance(h: Hart, rd: RegIndex, v: Word): Hart {
    h.(pc := Plus(h.pc, 4), regs := SetX(h.regs, rd, v))
  }

  /** A jump to an address that is not word aligned traps and leaves no link. */
  function JumpTo(h: Hart, target: Word, rd: RegIndex): Hart {
    if target & 2 != 0 then Trapped(h, 0, target)
    else h.(pc := target, regs := SetX(h.regs, rd, Plus(h.pc, 4)))
  }

  function EvenAddress(a: Word): Word { a & 0xfffffffe }
  function WordAddress(a: Word): Word { a & 0xfffffffc }

  function CsrNew(op: CsrOp, old_: Word, v: Word): Word {
    match op
    case Swap => v
    case Set => old_ | v
    case Clear => old_ & !v
  }

  /** Set and clear with x0 or a zero immediate do not write. */
  function CsrStep(h: Hart, p: Machine.Pins, op: CsrOp, rd: RegIndex, src: CsrSource, a: bv12): Hart {
    var v := match src case Register(r) => X(h.regs, r) case Immediate(u) => u as Word;
    var isZero := match src case Register(r) => r == 0 case Immediate(u) => u == 0;
    var was := ReadCsr(h.csr, p, a);
    var h' := Advance(h, rd, was);
    if op != Swap && isZero then h' else h'.(csr := WriteCsr(h.csr, a, CsrNew(op, was, v)))
  }

  function Exec(h: Hart, i: Instr, p: Machine.Pins): Hart {
    match i
    case Lui(rd, imm) => Advance(h, rd, imm)
    case Auipc(rd, imm) => Advance(h, rd, Plus(h.pc, imm))
    case Jal(rd, imm) => JumpTo(h, Plus(h.pc, imm), rd)
    case Jalr(rd, rs1, imm) => JumpTo(h, EvenAddress(Plus(X(h.regs, rs1), imm)), rd)
    case BranchIf(c, rs1, rs2, imm) =>
      if Holds(c, X(h.regs, rs1), X(h.regs, rs2)) then JumpTo(h, Plus(h.pc, imm), 0) else Advance(h, 0, 0)
    case Load(k, rd, rs1, imm) =>
      var a := Plus(X(h.regs, rs1), imm);
      if LoadAligned(k, a) then Advance(h, rd, LoadValue(k, h.mem, a)) else Trapped(h, 4, a)
    case Store(k, rs1, rs2, imm) =>
      var a := Plus(X(h.regs, rs1), imm);
      if StoreAligned(k, a) then Advance(h, 0, 0).(mem := StoreValue(k, h.mem, a, X(h.regs, rs2)))
      else Trapped(h, 6, a)
    case OpImm(op, rd, rs1, imm) => Advance(h, rd, Compute(op, X(h.regs, rs1), imm))
    case Op(op, rd, rs1, rs2) => Advance(h, rd, Compute(op, X(h.regs, rs1), X(h.regs, rs2)))
    case CsrAccess(op, rd, src, a) => CsrStep(h, p, op, rd, src, a)
    case Fence => Advance(h, 0, 0)
    case Wfi => Advance(h, 0, 0)
    case Ecall => Trapped(h, 11, 0x73)
    case Mret => h.(pc := WordAddress(h.csr.mepc), csr := Leave(h.csr))
  }

  /** One instruction word.  A word outside the instruction set is an illegal
      instruction (cause 2, the word itself as trap value). */
  function StepWord(h: Hart, w: Word, p: Machine.Pins): Hart {
    match Decode(w)
    case None => Trapped(h, 2, w)
    case Some(i) => Exec(h, i, p)
  }

  function StepInterrupt(h: Hart, code: bv4): Hart {
    h.(pc := h.csr.mtvec, csr := Enter(h.csr, 0x80000000 | (code as Word), h.pc))
  }
}
