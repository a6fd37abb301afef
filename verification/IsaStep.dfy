/** Every step of the sequential machine is a step of an RV32I hart. */
module IsaStep {
  import opened Words
  import opened Decoder
  import opened Execute
  import opened Machine
  import opened Isa
  import opened IsaMatch
  import opened Ram
  import opened DecoderFacts

  // --- Relation -------------------------------------------------------------

  ghost predicate SameMemory(m: Bytes, n: Bytes) { forall b: Word :: m(b) == n(b) }

  ghost predicate SameRegs(f: RegFile, g: Regs) { forall r: Isa.RegIndex :: f(r) == g(r) }

  /** The CSRs as the words that software sees. */
  function Pack(c: Csrs): CsrFile {
    CsrFile(Mstatus(c), Mie(c), TrapVector(c), c.mepc, Mcause(c), c.mtval, c.irqMask)
  }

  /** The machine's bus log, replayed over the initial RAM, is the hart's memory. */
  ghost predicate Related(m0: Bytes, a: Arch, h: Hart) {
    && a.pc == h.pc && Aligned(h.pc)
    && SameRegs(a.regs, h.regs) && h.regs(0) == 0
    && h.csr == Pack(a.csr)
    && SameMemory(Replay(m0, a.log), h.mem)
  }

  // --- Fields and CSRs ------------------------------------------------------

  lemma FieldsAgree(w: Word)
    ensures Dest(w) == Rd(w) && Source1(w) == Rs1(w) && Source2(w) == Rs2(w) && CsrField(w) == CsrAddress(w)
  {}

  lemma AddressesAgree(a: Word)
    ensures EvenAddress(a) == ClearBit0(a) && WordAddress(a) == Align(a)
  {}

  lemma TestsBit1(a: Word)
    ensures a & 2 != 0 <==> Bit1(a)
  {}

  lemma TestsBit31(a: Word)
    ensures a & 0x80000000 != 0 <==> Bit31(a)
  {}

  lemma PackRead(c: Csrs, p: Pins, a: bv12)
    ensures ReadCsr(Pack(c), p, a) == CsrRead(c, p, a)
  {}

  lemma StatusRead(v: Word)
    ensures StatusWord(PrivilegeOf(v), HasBit(v, 0x80), HasBit(v, 8)) == v & 0x1888
  {}

  lemma EnableRead(v: Word)
    ensures LinesWord(HasBit(v, 0x800), HasBit(v, 0x80), HasBit(v, 8)) == v & 0x888
  {}

  lemma VectorRead(v: Word)
    ensures VectorWord(BaseOf(v)) == v & 0xfffffffc
  {}

  lemma PackWrite(c: Csrs, a: bv12, v: Word)
    ensures WriteCsr(Pack(c), a, v) == Pack(CsrStore(c, a, v))
  {
    StatusRead(v);
    EnableRead(v);
    VectorRead(v);
    PackOthers(c, a, v);
    hide StatusWord, LinesWord, CauseWord, VectorWord, HasBit, PrivilegeOf, BaseOf;
  }

  lemma PackOthers(c: Csrs, a: bv12, v: Word)
    ensures var d := CsrStore(c, a, v);
            && (a != 0x300 ==> d.mpp == c.mpp && d.mpie == c.mpie && d.mie == c.mie)
            && (a != 0x304 ==> d.meie == c.meie && d.mtie == c.mtie && d.msie == c.msie)
            && (a != 0x305 ==> d.mtvecBase == c.mtvecBase)
            && d.mepc == (if a == 0x341 then v else c.mepc) && d.irqMask == (if a == 0xbc0 then v else c.irqMask)
            && d.mtval == c.mtval && d.mcauseInterrupt == c.mcauseInterrupt && d.mcauseCode == c.mcauseCode
  {
    hide HasBit, PrivilegeOf, BaseOf;
  }

  lemma PackValue(c: Csrs, v: Word)
    ensures Pack(c.(mtval := v)) == Pack(c).(mtval := v)
  {
    hide StatusWord, LinesWord, CauseWord, VectorWord;
  }

  lemma StatusBits(mpp: bv2, mpie: bool, mie: bool)
    ensures StatusWord(mpp, mpie, mie) & MPIE != 0 <==> mpie
    ensures StatusWord(mpp, mpie, mie) & MIE != 0 <==> mie
  {}

  lemma EntryStatus(mie: bool)
    ensures StatusWord(3, mie, false) == MPP | (if mie then MPIE else 0)
  {}

  lemma ReturnStatus(mpie: bool)
    ensures StatusWord(0, true, mpie) == MPIE | (if mpie then MIE else 0)
  {}

  lemma PackEntry(c: Csrs, interrupt: bool, code: bv4, epc: Word)
    ensures Pack(TrapEntry(c, interrupt, code, epc))
            == Enter(Pack(c), if interrupt then 0x80000000 | (code as Word) else code as Word, epc)
  {
    StatusBits(c.mpp, c.mpie, c.mie);
    EntryStatus(c.mie);
    hide StatusWord, LinesWord, VectorWord;
  }

  lemma PackReturn(c: Csrs)
    ensures Pack(TrapReturn(c)) == Leave(Pack(c))
  {
    StatusBits(c.mpp, c.mpie, c.mie);
    ReturnStatus(c.mpie);
    hide StatusWord, LinesWord, VectorWord, CauseWord;
  }

  /** The machine's interrupt enables are the ISA's. */
  lemma EnabledMeans(c: Csrs, code: bv4)
    ensures InterruptEnabled(c, code) <==> InterruptAllowed(Pack(c), code)
  {}

  // --- Results --------------------------------------------------------------

  lemma ShiftByNothing(s1: Word)
    ensures ShiftLeft(s1, 0) == s1 && ShiftRight(s1, 0) == s1 && Invert(ShiftRight(Invert(s1), 0)) == s1
  {}

  lemma ShiftMatches(op: AluOp, w: Word, pc: Word, x: Word, y: Word)
    requires OpControls(op, w) && (op == Sll || op == Srl || op == Sra)
    ensures ExecuteResult(w, pc, x, y) == Compute(op, Src1(w, x), Src2(w, pc, y))
  {
    hide Alu, UsesSubLess, SrcAddZero, Shift, Src1, Src2, Minus, Plus, ShiftLeft, ShiftRight, Invert, Bit31, Amount,
      ShiftAmount;
    ShiftByNothing(Src1(w, x));
    TestsBit31(Src1(w, x));
    SameAmount(Src2(w, pc, y));
  }

  lemma SameAmount(b: Word)
    ensures Amount(b) == ShiftAmount(b)
  {}

  lemma AluMatches(op: AluOp, w: Word, s1: Word, s2: Word)
    requires OpControls(op, w) && op != Sll && op != Srl && op != Sra
    ensures AluOut(w, s1, s2) == Compute(op, s1, s2)
  {
    hide Alu, UsesSubLess, SrcAddZero, Shift, LessUnsigned, Bitwise, Minus, Plus, Less, SignedLess;
    if op == Slt || op == Sltu { LessMatches(w, s1, s2); }
  }

  lemma NotShifted(w: Word, pc: Word, x: Word, y: Word)
    requires Shift(w) == ShiftNone
    ensures ExecuteResult(w, pc, x, y) == AluOut(w, Src1(w, x), Src2(w, pc, y))
  {
    hide Shift, AluOut, Src1, Src2;
  }

  /** The execute stage computes the operation that its control bits select. */
  lemma ResultMatches(op: AluOp, w: Word, pc: Word, x: Word, y: Word)
    requires OpControls(op, w)
    ensures ExecuteResult(w, pc, x, y) == Compute(op, Src1(w, x), Src2(w, pc, y))
  {
    hide Alu, UsesSubLess, SrcAddZero, Shift, LessUnsigned, Bitwise, Src1, Src2, Compute, ExecuteResult, AluOut;
    if op == Sll || op == Srl || op == Sra {
      ShiftMatches(op, w, pc, x, y);
    } else {
      AluMatches(op, w, Src1(w, x), Src2(w, pc, y));
      NotShifted(w, pc, x, y);
    }
  }

  lemma PassResult(w: Word, pc: Word, x: Word, y: Word)
    requires PassControls(w) && Shift(w) == ShiftNone
    ensures ExecuteResult(w, pc, x, y) == Src1(w, x)
  {
    hide Alu, UsesSubLess, SrcAddZero, Shift, Src1, Src2;
  }

  // --- Machine steps by class -------------------------------------------------

  /** A computational instruction writes its result and moves on. */
  lemma PlainStep(a: Arch, w: Word, e: Event)
    requires Plain(w) && RegfileWriteBit(w) && e.Exec?
    ensures Perform(a, w, e)
            == Arch(Plus(a.pc, 4), WriteX(a.regs, Rd(w), ExecuteResult(w, a.pc, Operand1(a, w), Operand2(a, w))), a.csr,
              a.log)
  {
    hide Legal, IsMem, IsCsr, Env, Branch, RegfileWriteBit, Rd, ExecuteResult, Rs1, Rs2, Plus;
  }

  /** The machine's register write; register 0 is not written. */
  function WriteX(regs: RegFile, r: Isa.RegIndex, v: Word): RegFile { if r == 0 then regs else WriteReg(regs, r, v) }

  lemma Registers(f: RegFile, g: Regs, r: Isa.RegIndex)
    requires SameRegs(f, g) && g(0) == 0
    ensures X(g, r) == f(r)
  {}

  lemma SameWrite(f: RegFile, g: Regs, r: Isa.RegIndex, v: Word)
    requires SameRegs(f, g) && g(0) == 0
    ensures SameRegs(WriteX(f, r, v), SetX(g, r, v)) && SetX(g, r, v)(0) == 0
  {}

  lemma ComputeStep(m0: Bytes, a: Arch, h: Hart, w: Word, e: Event)
    requires Related(m0, a, h) && Plain(w) && RegfileWriteBit(w) && e.Exec?
    ensures Related(m0, Perform(a, w, e), Isa.Advance(h, Rd(w), ExecuteResult(w, a.pc, a.regs(Rs1(w)), a.regs(Rs2(w)))))
  {
    PlainStep(a, w, e);
    NextAligned(a.pc);
    SameWrite(a.regs, h.regs, Rd(w), ExecuteResult(w, a.pc, a.regs(Rs1(w)), a.regs(Rs2(w))));
    hide Perform, Plain, RegfileWriteBit, Rd, ExecuteResult, Rs1, Rs2, Plus, SameMemory, SameRegs, WriteX, SetX,
      Pack, Aligned,
      Replay;
  }

  lemma NextAligned(pc: Word)
    requires Aligned(pc)
    ensures Aligned(Plus(pc, 4))
  {}

  // --- Meaning by class -------------------------------------------------------

  lemma UpperMeans(h: Hart, w: Word, p: Pins)
    ensures Opcode(w) == 0x37 ==> StepWord(h, w, p) == Isa.Advance(h, Rd(w), UImm(w))
    ensures Opcode(w) == 0x17 ==> StepWord(h, w, p) == Isa.Advance(h, Rd(w), Plus(h.pc, UImm(w)))
  {
    FieldsAgree(w);
    hide Opcode, F3, Rd, Rs1, Rs2, Dest, Source1, Source2, CsrField, UImm, IImm, JImm, BImm, SImm, DecodeBranch,
      DecodeLoad, DecodeStore, DecodeOpImm,
      DecodeOp, DecodeCsr,
      JumpTo, Isa.Advance, X, Plus, ClearBit0, Holds, LoadAligned, LoadValue, StoreAligned, StoreValue, Trapped,
        Compute, CsrStep, Align, Leave, EvenAddress, WordAddress;
  }

  lemma ArithmeticMeans(h: Hart, w: Word, p: Pins)
    ensures Opcode(w) == 0x13 && DecodeOpImm(w).Some? ==>
              StepWord(h, w, p) == Isa.Advance(h, Rd(w), Compute(DecodeOpImm(w).value, X(h.regs, Rs1(w)), IImm(w)))
    ensures Opcode(w) == 0x33 && DecodeOp(w).Some? ==>
              StepWord(h, w, p) == Isa.Advance(h, Rd(w),
                Compute(DecodeOp(w).value, X(h.regs, Rs1(w)), X(h.regs, Rs2(w))))
  {
    FieldsAgree(w);
    hide Opcode, F3, Rd, Rs1, Rs2, Dest, Source1, Source2, CsrField, UImm, IImm, JImm, BImm, SImm, DecodeBranch,
      DecodeLoad, DecodeStore, DecodeOpImm,
      DecodeOp, DecodeCsr,
      JumpTo, Isa.Advance, X, Plus, ClearBit0, Holds, LoadAligned, LoadValue, StoreAligned, StoreValue, Trapped,
        Compute, CsrStep, Align, Leave, EvenAddress, WordAddress;
  }

  lemma JumpMeans(h: Hart, w: Word, p: Pins)
    ensures Opcode(w) == 0x6f ==> StepWord(h, w, p) == JumpTo(h, Plus(h.pc, JImm(w)), Rd(w))
    ensures Opcode(w) == 0x67 && F3(w) == 0 ==>
              StepWord(h, w, p) == JumpTo(h, ClearBit0(Plus(X(h.regs, Rs1(w)), IImm(w))), Rd(w))
  {
    FieldsAgree(w);
    AddressesAgree(Plus(X(h.regs, Rs1(w)), IImm(w)));
    hide Opcode, F3, Rd, Rs1, Rs2, Dest, Source1, Source2, CsrField, UImm, IImm, JImm, BImm, SImm, DecodeBranch,
      DecodeLoad, DecodeStore, DecodeOpImm,
      DecodeOp, DecodeCsr,
      JumpTo, Isa.Advance, X, Plus, ClearBit0, Holds, LoadAligned, LoadValue, StoreAligned, StoreValue, Trapped,
        Compute, CsrStep, Align, Leave, EvenAddress, WordAddress;
  }

  lemma BranchMeans(h: Hart, w: Word, p: Pins)
    requires Opcode(w) == 0x63 && DecodeBranch(w).Some?
    ensures StepWord(h, w, p) ==
            if Holds(DecodeBranch(w).value, X(h.regs, Rs1(w)), X(h.regs, Rs2(w))) then JumpTo(h, Plus(h.pc, BImm(w)), 0)
            else Isa.Advance(h, 0, 0)
  {
    FieldsAgree(w);
    hide Opcode, F3, Rd, Rs1, Rs2, Dest, Source1, Source2, CsrField, UImm, IImm, JImm, BImm, SImm, DecodeBranch,
      DecodeLoad, DecodeStore, DecodeOpImm,
      DecodeOp, DecodeCsr,
      JumpTo, Isa.Advance, X, Plus, ClearBit0, Holds, LoadAligned, LoadValue, StoreAligned, StoreValue, Trapped,
        Compute, CsrStep, Align, Leave, EvenAddress, WordAddress;
  }

  lemma LoadMeans(h: Hart, w: Word, p: Pins)
    requires Opcode(w) == 0x03 && DecodeLoad(w).Some?
    ensures var a := Plus(X(h.regs, Rs1(w)), IImm(w));
            StepWord(h, w, p) ==
            if LoadAligned(DecodeLoad(w).value, a) then Isa.Advance(h, Rd(w), LoadValue(DecodeLoad(w).value, h.mem, a))
            else Trapped(h, 4, a)
  {
    FieldsAgree(w);
    hide Opcode, F3, Rd, Rs1, Rs2, Dest, Source1, Source2, CsrField, UImm, IImm, JImm, BImm, SImm, DecodeBranch,
      DecodeLoad, DecodeStore, DecodeOpImm,
      DecodeOp, DecodeCsr,
      JumpTo, Isa.Advance, X, Plus, ClearBit0, Holds, LoadAligned, LoadValue, StoreAligned, StoreValue, Trapped,
        Compute, CsrStep, Align, Leave, EvenAddress, WordAddress;
  }

  lemma StoreMeans(h: Hart, w: Word, p: Pins)
    requires Opcode(w) == 0x23 && DecodeStore(w).Some?
    ensures var a := Plus(X(h.regs, Rs1(w)), SImm(w));
            StepWord(h, w, p) ==
            if StoreAligned(DecodeStore(w).value, a) then
              Isa.Advance(h, 0, 0).(mem := StoreValue(DecodeStore(w).value, h.mem, a, X(h.regs, Rs2(w))))
            else Trapped(h, 6, a)
  {
    FieldsAgree(w);
    hide Opcode, F3, Rd, Rs1, Rs2, Dest, Source1, Source2, CsrField, UImm, IImm, JImm, BImm, SImm, DecodeBranch,
      DecodeLoad, DecodeStore, DecodeOpImm,
      DecodeOp, DecodeCsr,
      JumpTo, Isa.Advance, X, Plus, ClearBit0, Holds, LoadAligned, LoadValue, StoreAligned, StoreValue, Trapped,
        Compute, CsrStep, Align, Leave, EvenAddress, WordAddress;
  }

  // --- Hart steps by class ------------------------------------------------------

  lemma UpperResult(w: Word, pc: Word, x: Word, y: Word)
    ensures Opcode(w) == 0x37 ==> ExecuteResult(w, pc, x, y) == UImm(w)
    ensures Opcode(w) == 0x17 ==> ExecuteResult(w, pc, x, y) == Plus(pc, UImm(w))
  {
    hide Opcode, Plain, RegfileWriteBit, PassControls, AddControls, UImm, Plus, Src1Sel, Src2Sel, Shift, ExecuteResult;
    UpperControls(w);
    ImmIMatches(w);
    if Opcode(w) == 0x37 {
      PassResult(w, pc, x, y);
    } else if Opcode(w) == 0x17 {
      ResultMatches(Add, w, pc, x, y);
      PlusCommutes(pc, UImm(w));
    }
  }

  lemma UpperMatches(m0: Bytes, a: Arch, h: Hart, w: Word, e: Event)
    requires Related(m0, a, h) && e.Exec? && (Opcode(w) == 0x37 || Opcode(w) == 0x17)
    ensures Related(m0, Perform(a, w, e), StepWord(h, w, e.pins))
  {
    hide Opcode, StepWord, Related, Perform, Plain, RegfileWriteBit, PassControls, Rd, Rs1, Rs2, UImm, Plus, Src1Sel,
      Src2Sel, Shift, AddControls, ExecuteResult, Isa.Advance;
    UpperControls(w);
    UpperMeans(h, w, e.pins);
    RelatedParts(m0, a, h);
    UpperResult(w, a.pc, a.regs(Rs1(w)), a.regs(Rs2(w)));
    ComputeStep(m0, a, h, w, e);
  }

  lemma PlusCommutes(x: Word, y: Word)
    ensures Plus(x, y) == Plus(y, x)
  {}

  lemma RelatedParts(m0: Bytes, a: Arch, h: Hart)
    requires Related(m0, a, h)
    ensures a.pc == h.pc && SameRegs(a.regs, h.regs) && h.csr == Pack(a.csr) && h.regs(0) == 0 && Aligned(h.pc)
  {
    hide SameMemory, Replay, SameRegs, Pack;
  }

  lemma OpImmMatches(m0: Bytes, a: Arch, h: Hart, w: Word, e: Event)
    requires Related(m0, a, h) && e.Exec? && Opcode(w) == 0x13 && DecodeOpImm(w).Some?
    ensures Related(m0, Perform(a, w, e), StepWord(h, w, e.pins))
  {
    hide Opcode, StepWord, DecodeOpImm, Related, Perform, Plain, RegfileWriteBit, OpControls, Rd, Rs1, Rs2, IImm,
      ImmI, Compute, Src1Sel, Src2Sel, Isa.Advance;
    OpImmPlain(w);
    OpImmControls(w);
    ArithmeticMeans(h, w, e.pins);
    ComputeStep(m0, a, h, w, e);
    RelatedParts(m0, a, h);
    ImmIMatches(w);
    ResultMatches(DecodeOpImm(w).value, w, a.pc, a.regs(Rs1(w)), a.regs(Rs2(w)));
    Registers(a.regs, h.regs, Rs1(w));
  }

  lemma OpMatches(m0: Bytes, a: Arch, h: Hart, w: Word, e: Event)
    requires Related(m0, a, h) && e.Exec? && Opcode(w) == 0x33 && DecodeOp(w).Some?
    ensures Related(m0, Perform(a, w, e), StepWord(h, w, e.pins))
  {
    hide Opcode, StepWord, DecodeOp, Related, Perform, Plain, RegfileWriteBit, OpControls, Rd, Rs1, Rs2, Compute,
      Src1Sel, Src2Sel, Isa.Advance;
    OpRegControls(w);
    ArithmeticMeans(h, w, e.pins);
    ComputeStep(m0, a, h, w, e);
    RelatedParts(m0, a, h);
    ResultMatches(DecodeOp(w).value, w, a.pc, a.regs(Rs1(w)), a.regs(Rs2(w)));
    Registers(a.regs, h.regs, Rs1(w));
    Registers(a.regs, h.regs, Rs2(w));
  }

  // --- Traps, jumps and branches ----------------------------------------------

  /** No effect on memory, CSRs or privilege. */
  predicate Inert(w: Word) { Legal(w) && !IsMem(w) && !IsCsr(w) && Env(w) == EnvNone }

  lemma TrapRelated(m0: Bytes, a: Arch, h: Hart, t: Trap)
    requires Related(m0, a, h) && t.Trap?
    ensures Related(m0, TakeTrap(a, t), Trapped(h, t.code, t.value))
  {
    hide SameMemory, Replay, SameRegs, TrapVector, TrapEntry, Enter, Mstatus, Mie, Mcause, Aligned;
    VectorAligned(a.csr);
    PackEntry(a.csr, false, t.code, a.pc);
    PackValue(TrapEntry(a.csr, false, t.code, a.pc), t.value);
  }

  lemma JumpStep(a: Arch, w: Word, e: Event, t: Word)
    requires Inert(w) && e.Exec? && t == BranchTarget(w, a.pc, Operand1(a, w))
    requires BranchDo(w, a.pc, Operand1(a, w), Operand2(a, w))
    ensures Bit1(t) ==> Perform(a, w, e) == TakeTrap(a, Trap(0, t))
    ensures !Bit1(t) ==>
              Perform(a, w, e) == Arch(t, if WritesRd(w)
                then WriteReg(a.regs, Rd(w), ExecuteResult(w, a.pc, Operand1(a, w), Operand2(a, w)))
                else a.regs, a.csr, a.log)
  {
    hide Legal, IsMem, IsCsr, Env, WritesRd, Rd, ExecuteResult, Rs1, Rs2, BranchTarget, BranchDo, Bit1, TakeTrap;
  }

  lemma JumpRelated(m0: Bytes, a: Arch, h: Hart, w: Word, e: Event, rd: RegIndex, t: Word)
    requires Related(m0, a, h) && Inert(w) && e.Exec? && t == BranchTarget(w, a.pc, Operand1(a, w))
    requires BranchDo(w, a.pc, Operand1(a, w), Operand2(a, w))
    requires rd == (if RegfileWriteBit(w) then Rd(w) else 0)
    requires RegfileWriteBit(w) ==> ExecuteResult(w, a.pc, Operand1(a, w), Operand2(a, w)) == Plus(a.pc, 4)
    ensures Related(m0, Perform(a, w, e), JumpTo(h, t, rd))
  {
    hide Inert, Perform, BranchDo, BranchTarget, Bit1, RegfileWriteBit, Rd, Rs1, Rs2, ExecuteResult, Plus, Aligned,
      SameMemory, SameRegs, WriteReg, SetX, Pack, Replay, TakeTrap, Trapped;
    TestsBit1(t);
    SameWrite(a.regs, h.regs, rd, Plus(a.pc, 4));
    JumpStep(a, w, e, t);
    TargetAligned(w, a.pc, Operand1(a, w));
    TrapRelated(m0, a, h, Trap(0, t));
  }

  lemma QuietStep(a: Arch, w: Word, e: Event)
    requires Inert(w) && !WritesRd(w) && e.Exec?
    requires !BranchDo(w, a.pc, Operand1(a, w), Operand2(a, w))
    ensures Perform(a, w, e) == a.(pc := Plus(a.pc, 4))
  {
    hide Legal, IsMem, IsCsr, Env, WritesRd, Rd, ExecuteResult, Rs1, Rs2, BranchTarget, BranchDo, Bit1, Plus;
  }

  lemma QuietRelated(m0: Bytes, a: Arch, h: Hart, w: Word, e: Event)
    requires Related(m0, a, h) && Inert(w) && !WritesRd(w) && e.Exec?
    requires !BranchDo(w, a.pc, Operand1(a, w), Operand2(a, w))
    ensures Related(m0, Perform(a, w, e), Isa.Advance(h, 0, 0))
  {
    hide Inert, Perform, WritesRd, BranchDo, Rs1, Rs2, Plus, Aligned, SameMemory, SameRegs, Pack, Replay;
    QuietStep(a, w, e);
    NextAligned(a.pc);
  }

  predicate Even(v: Word) { v & 1 == 0 }

  lemma LowBitOfSum(a: Word, b: Word)
    ensures (a + b) & 1 == (a ^ b) & 1
  {}

  lemma EvenSum(a: Word, b: Word)
    requires a & 1 == 0 && b & 1 == 0
    ensures Even(Plus(a, b))
  {
    LowBitOfSum(a, b);
    assert Plus(a, b) == a + b;
    hide Plus;
    EvenXor(a, b);
  }

  lemma EvenXor(a: Word, b: Word)
    requires a & 1 == 0 && b & 1 == 0
    ensures (a ^ b) & 1 == 0
  {}

  lemma EvenClear(v: Word)
    requires Even(v)
    ensures ClearBit0(v) == v
  {}

  lemma AlignedIsEven(a: Word)
    requires Aligned(a)
    ensures a & 1 == 0
  {}

  lemma EvenTarget(pc: Word, imm: Word)
    requires Aligned(pc) && Even(imm)
    ensures ClearBit0(Plus(pc, imm)) == Plus(pc, imm)
  {
    hide Plus, ClearBit0, Aligned;
    AlignedIsEven(pc);
    EvenSum(pc, imm);
    EvenClear(Plus(pc, imm));
  }

  lemma EvenOffsets(w: Word)
    ensures Even(ImmJ(w)) && Even(ImmB(w))
  {}

  lemma TargetByKind(w: Word, pc: Word, x: Word)
    ensures Branch(w) == BranchJal ==> BranchTarget(w, pc, x) == ClearBit0(Plus(pc, ImmJ(w)))
    ensures Branch(w) == BranchJalr ==> BranchTarget(w, pc, x) == ClearBit0(Plus(x, ImmI(w)))
    ensures Branch(w) == BranchB ==> BranchTarget(w, pc, x) == ClearBit0(Plus(pc, ImmB(w)))
  {
    hide Branch, ClearBit0, Plus, ImmJ, ImmB, ImmI;
  }

  lemma JumpTarget(w: Word, pc: Word, x: Word)
    requires Aligned(pc)
    ensures Branch(w) == BranchJal ==> BranchTarget(w, pc, x) == Plus(pc, JImm(w))
    ensures Branch(w) == BranchJalr ==> BranchTarget(w, pc, x) == ClearBit0(Plus(x, IImm(w)))
    ensures Branch(w) == BranchB ==> BranchTarget(w, pc, x) == Plus(pc, BImm(w))
  {
    hide Branch, BranchTarget, ClearBit0, Plus, Aligned, Even, ImmJ, ImmB, ImmI, JImm, BImm, IImm, UImm;
    TargetByKind(w, pc, x);
    EvenOffsets(w);
    EvenTarget(pc, ImmJ(w));
    EvenTarget(pc, ImmB(w));
    ImmJMatches(w);
    ImmBMatches(w);
    ImmIMatches(w);
  }

  lemma LinkResult(w: Word, pc: Word, x: Word, y: Word)
    requires Opcode(w) == 0x6f || (Opcode(w) == 0x67 && F3(w) == 0)
    ensures ExecuteResult(w, pc, x, y) == Plus(pc, 4)
  {
    hide Opcode, F3, AddControls, Src1Sel, Src2Sel, Plus, ExecuteResult;
    JumpControls(w);
    ResultMatches(Add, w, pc, x, y);
    PlusCommutes(pc, 4);
  }

  lemma JumpDecides(w: Word, pc: Word, x: Word, y: Word)
    requires Opcode(w) == 0x6f || (Opcode(w) == 0x67 && F3(w) == 0)
    ensures Inert(w) && RegfileWriteBit(w) && Branch(w) == (if Opcode(w) == 0x6f then BranchJal else BranchJalr)
    ensures BranchDo(w, pc, x, y)
  {
    hide Opcode, F3, Legal, IsMem, IsCsr, Env, RegfileWriteBit, Branch, Src1, Src2;
    if Opcode(w) == 0x6f { JalClass(w); } else { JalrClass(w); }
  }

  lemma JumpMatches(m0: Bytes, a: Arch, h: Hart, w: Word, e: Event)
    requires Related(m0, a, h) && e.Exec? && (Opcode(w) == 0x6f || (Opcode(w) == 0x67 && F3(w) == 0))
    ensures Related(m0, Perform(a, w, e), StepWord(h, w, e.pins))
  {
    hide Opcode, F3, StepWord, Related, Perform, Inert, RegfileWriteBit, Branch, Rd, Rs1, Rs2, Plus, ClearBit0, JImm,
      IImm, ExecuteResult, JumpTo, BranchTarget, BranchDo;
    var x, y := Operand1(a, w), Operand2(a, w);
    JumpDecides(w, a.pc, x, y);
    JumpMeans(h, w, e.pins);
    RelatedParts(m0, a, h);
    LinkResult(w, a.pc, x, y);
    JumpTarget(w, a.pc, x);
    Registers(a.regs, h.regs, Rs1(w));
    JumpRelated(m0, a, h, w, e, Rd(w), BranchTarget(w, a.pc, x));
  }

  lemma TakenMatches(w: Word, s1: Word, s2: Word)
    requires Opcode(w) == 0x63 && DecodeBranch(w).Some?
    ensures BranchTaken(w, s1, s2) == Holds(DecodeBranch(w).value, s1, s2)
  {
    hide Opcode, Legal, IsMem, IsCsr, Env, RegfileWriteBit, Branch, Src1Sel, Src2Sel, UsesSubLess, LessUnsigned,
      Less, SignedLess, F3, Funct3;
    BranchControls(w);
    SameFunct3(w);
    LessMatches(w, s1, s2);
  }

  lemma SameFunct3(w: Word)
    requires DecodeBranch(w).Some?
    ensures F3(w) == 0 ==> Funct3(w) == 0
    ensures F3(w) == 1 ==> Funct3(w) == 1
    ensures F3(w) == 4 || F3(w) == 6 ==> Funct3(w) > 1 && Funct3(w) & 5 != 5
    ensures F3(w) == 5 || F3(w) == 7 ==> Funct3(w) > 1 && Funct3(w) & 5 == 5
    ensures F3(w) == 0 || F3(w) == 1 || F3(w) == 4 || F3(w) == 5 || F3(w) == 6 || F3(w) == 7
  {}

  lemma BranchDecides(w: Word, pc: Word, x: Word, y: Word)
    requires Opcode(w) == 0x63 && DecodeBranch(w).Some?
    ensures Inert(w) && !RegfileWriteBit(w) && Branch(w) == BranchB
    ensures BranchDo(w, pc, x, y) == Holds(DecodeBranch(w).value, x, y)
  {
    hide Opcode, F3, Funct3, DecodeBranch, Legal, IsMem, IsCsr, Env, RegfileWriteBit, Branch, BranchTaken, Holds,
      Src1Sel, Src2Sel, UsesSubLess, LessUnsigned;
    BranchControls(w);
    TakenMatches(w, x, y);
  }

  lemma BranchMatches(m0: Bytes, a: Arch, h: Hart, w: Word, e: Event)
    requires Related(m0, a, h) && e.Exec? && Opcode(w) == 0x63 && DecodeBranch(w).Some?
    ensures Related(m0, Perform(a, w, e), StepWord(h, w, e.pins))
  {
    hide Opcode, DecodeBranch, StepWord, Related, Perform, Inert, RegfileWriteBit, Branch, Rd, Rs1, Rs2, Plus, BImm,
      ExecuteResult, JumpTo, BranchTarget, BranchDo, Holds, Isa.Advance;
    var x, y := Operand1(a, w), Operand2(a, w);
    BranchDecides(w, a.pc, x, y);
    BranchMeans(h, w, e.pins);
    RelatedParts(m0, a, h);
    JumpTarget(w, a.pc, x);
    Registers(a.regs, h.regs, Rs1(w));
    Registers(a.regs, h.regs, Rs2(w));
    if BranchDo(w, a.pc, x, y) {
      JumpRelated(m0, a, h, w, e, 0, Plus(a.pc, BImm(w)));
    } else {
      QuietRelated(m0, a, h, w, e);
    }
  }

  // --- Loads and stores -------------------------------------------------------

  lemma MemoryAddress(w: Word, pc: Word, x: Word, y: Word)
    requires AddControls(w) && Src1Sel(w) == Src1Rs
    ensures Src2Sel(w) == Src2Imi ==> Address(w, pc, x, y) == Plus(x, IImm(w))
    ensures Src2Sel(w) == Src2Ims ==> Address(w, pc, x, y) == Plus(x, SImm(w))
  {
    hide Alu, UsesSubLess, SrcAddZero, Shift, Src1Sel, Src2Sel, Plus, Minus, ImmI, ImmS, IImm, SImm, UImm;
    ImmIMatches(w);
    ImmSMatches(w);
  }

  lemma LoadKindMatches(w: Word, a: Word)
    requires DecodeLoad(w).Some?
    ensures KindOf(w, DecodeLoad(w).value)
    ensures LoadAligned(DecodeLoad(w).value, a) == !AlignFault(Size(w), a)
  {}

  lemma StoreKindMatches(w: Word, a: Word)
    requires DecodeStore(w).Some?
    ensures StoreSize(DecodeStore(w).value) == Size(w)
    ensures StoreAligned(DecodeStore(w).value, a) == !AlignFault(Size(w), a)
  {}

  lemma LogGrows(m0: Bytes, log: seq<Txn>, t: Txn)
    ensures Replay(m0, log + [t]) == Apply(Replay(m0, log), t)
    ensures IsRam(m0, log + [t]) ==> Answers(Replay(m0, log), t)
  {
    hide Apply, Answers;
    assert (log + [t])[..|log|] == log;
  }

  lemma SameLoad(k: LoadKind, m: Bytes, n: Bytes, a: Word)
    requires SameMemory(m, n)
    ensures LoadValue(k, m, a) == LoadValue(k, n, a)
  {
    hide SignExtend, Plus;
  }

  lemma SameStore(k: StoreKind, m: Bytes, n: Bytes, a: Word, v: Word)
    requires SameMemory(m, n)
    ensures SameMemory(StoreValue(k, m, a, v), StoreValue(k, n, a, v))
  {
    hide ByteOf, Plus;
  }

  lemma StoreApplies(k: StoreKind, m: Bytes, a: Word, v: Word)
    requires StoreAligned(k, a)
    ensures SameMemory(Apply(m, StoreTxn(k, a, v)), StoreValue(k, m, a, v))
  {
    hide Apply, StoreTxn, StoreValue, StoreAligned;
    forall b: Word ensures Apply(m, StoreTxn(k, a, v))(b) == StoreValue(k, m, a, v)(b) {
      StoreMatches(k, m, a, v, b);
    }
  }

  lemma LoadStep(a: Arch, w: Word, e: Event)
    requires LoadWord(w) && e.Exec?
    ensures var ad := Address(w, a.pc, Operand1(a, w), Operand2(a, w));
            Perform(a, w, e) ==
            if AlignFault(Size(w), ad) then TakeTrap(a, Trap(4, ad))
            else Arch(Plus(a.pc, 4), WriteX(a.regs, Rd(w), FormatLoad(w, e.response, AddressLow(ad))), a.csr,
                      a.log + [Read(WordOf(ad), 15, e.response)])
  {
    hide Legal, IsMem, IsStore, IsCsr, Env, Branch, RegfileWriteBit, Rd, Rs1, Rs2, Plus, Address, AlignFault,
      FormatLoad, AddressLow, Size, Src1, Src2, StoreData, TakeTrap;
  }

  lemma StoreStep(a: Arch, w: Word, e: Event)
    requires Legal(w) && IsMem(w) && IsStore(w) && !IsCsr(w) && Env(w) == EnvNone && !RegfileWriteBit(w)
             && Branch(w) == BranchInc
    requires e.Exec?
    ensures var ad, v := Address(w, a.pc, Operand1(a, w), Operand2(a, w)), Operand2(a, w);
            Perform(a, w, e) ==
            if AlignFault(Size(w), ad) then TakeTrap(a, Trap(6, ad))
            else Arch(Plus(a.pc, 4), a.regs, a.csr,
                      a.log + [Write(WordOf(ad), Lanes(true, Size(w), ad), StoreData(Size(w), v))])
  {
    hide Legal, IsMem, IsStore, IsCsr, Env, Branch, RegfileWriteBit, Rd, Rs1, Rs2, Plus, Address, AlignFault,
      FormatLoad, Lanes, Size, Src1, Src2, StoreData, TakeTrap;
  }

  lemma LoadMemory(m0: Bytes, a: Arch, h: Hart, w: Word, k: LoadKind, ad: Word, response: Word)
    requires Related(m0, a, h) && KindOf(w, k) && LoadAligned(k, ad)
    requires IsRam(m0, a.log + [Read(WordOf(ad), 15, response)])
    ensures FormatLoad(w, response, AddressLow(ad)) == LoadValue(k, h.mem, ad)
    ensures Replay(m0, a.log + [Read(WordOf(ad), 15, response)]) == Replay(m0, a.log)
  {
    hide KindOf, LoadAligned, AlignFault, Size, FormatLoad, AddressLow, LoadValue, SameMemory, Replay,
      IsRam, Answers, Aligned;
    var m := Replay(m0, a.log);
    LogGrows(m0, a.log, Read(WordOf(ad), 15, response));
    LoadMatches(w, k, m, ad, response);
    SameLoad(k, m, h.mem, ad);
  }

  lemma AdvanceRelated(m0: Bytes, a: Arch, h: Hart, rd: RegIndex, v: Word, log: seq<Txn>, mem: Bytes)
    requires Related(m0, a, h) && SameMemory(Replay(m0, log), mem)
    ensures Related(m0, Arch(Plus(a.pc, 4), WriteX(a.regs, rd, v), a.csr, log), Isa.Advance(h, rd, v).(mem := mem))
  {
    hide SameMemory, SameRegs, WriteX, SetX, Pack, Replay, Plus, Aligned;
    NextAligned(a.pc);
    SameWrite(a.regs, h.regs, rd, v);
  }

  lemma RelatedMemory(m0: Bytes, a: Arch, h: Hart)
    requires Related(m0, a, h)
    ensures SameMemory(Replay(m0, a.log), h.mem)
  {
    hide SameMemory, Replay, Aligned;
  }

  lemma NoWrite(h: Hart, rd: RegIndex, v: Word)
    ensures Isa.Advance(h, rd, v).(mem := h.mem) == Isa.Advance(h, rd, v)
    ensures SetX(h.regs, 0, v) == h.regs
  {}

  predicate LoadWord(w: Word) {
    && Legal(w) && IsMem(w) && !IsStore(w) && !IsCsr(w) && Env(w) == EnvNone && RegfileWriteBit(w)
      && Branch(w) == BranchInc
  }

  lemma LoadParts(w: Word, pc: Word, x: Word, y: Word)
    requires Opcode(w) == 0x03 && DecodeLoad(w).Some?
    ensures LoadWord(w) && Address(w, pc, x, y) == Plus(x, IImm(w))
    ensures LoadAligned(DecodeLoad(w).value, Plus(x, IImm(w))) == !AlignFault(Size(w), Plus(x, IImm(w)))
  {
    hide Opcode, DecodeLoad, Legal, IsMem, IsStore, IsCsr, Env, RegfileWriteBit, Branch, Plus, IImm, Address,
      AlignFault, Size, LoadAligned, AddControls, Src1Sel, Src2Sel;
    LoadControls(w);
    MemoryAddress(w, pc, x, y);
    LoadKindMatches(w, Plus(x, IImm(w)));
  }

  /** A word with the control bits of a load of kind k is that load. */
  lemma LoadRelated(m0: Bytes, a: Arch, h: Hart, w: Word, k: LoadKind, ad: Word, e: Event)
    requires Related(m0, a, h) && e.Exec? && LoadWord(w) && KindOf(w, k) && IsRam(m0, Perform(a, w, e).log)
    requires ad == Address(w, a.pc, Operand1(a, w), Operand2(a, w)) && LoadAligned(k, ad) == !AlignFault(Size(w), ad)
    ensures Related(m0, Perform(a, w, e),
                    if LoadAligned(k, ad) then Isa.Advance(h, Rd(w), LoadValue(k, h.mem, ad)) else Trapped(h, 4, ad))
  {
    hide Related, WordOf, SetX, Isa.Advance, KindOf, Perform, LoadWord, Rd, Rs1, Rs2, Plus, Address, AlignFault, Size,
      FormatLoad, AddressLow, LoadValue, LoadAligned, TakeTrap, Trapped, SameMemory, Replay, IsRam;
    RelatedParts(m0, a, h);
    LoadStep(a, w, e);
    if LoadAligned(k, ad) {
      LoadMemory(m0, a, h, w, k, ad, e.response);
      RelatedMemory(m0, a, h);
      var v := LoadValue(k, h.mem, ad);
      NoWrite(h, Rd(w), v);
      AdvanceRelated(m0, a, h, Rd(w), v, a.log + [Read(WordOf(ad), 15, e.response)], h.mem);
    } else {
      TrapRelated(m0, a, h, Trap(4, ad));
    }
  }

  lemma LoadMatchesIsa(m0: Bytes, a: Arch, h: Hart, w: Word, e: Event)
    requires Related(m0, a, h) && e.Exec? && Opcode(w) == 0x03 && DecodeLoad(w).Some?
    requires IsRam(m0, Perform(a, w, e).log)
    ensures Related(m0, Perform(a, w, e), StepWord(h, w, e.pins))
  {
    hide Related, Isa.Advance, X, Opcode, DecodeLoad, StepWord, Perform, LoadWord, KindOf, Rd, Rs1, Rs2, Plus,
      IImm, Address, AlignFault, Size, LoadValue, LoadAligned, Trapped, IsRam;
    var ad := Plus(X(h.regs, Rs1(w)), IImm(w));
    LoadMeans(h, w, e.pins);
    RelatedParts(m0, a, h);
    Registers(a.regs, h.regs, Rs1(w));
    LoadParts(w, a.pc, Operand1(a, w), Operand2(a, w));
    LoadKindMatches(w, ad);
    LoadRelated(m0, a, h, w, DecodeLoad(w).value, ad, e);
  }

  lemma StoreMemory(m0: Bytes, a: Arch, h: Hart, w: Word, ad: Word, v: Word)
    requires Related(m0, a, h) && DecodeStore(w).Some? && StoreAligned(DecodeStore(w).value, ad)
    ensures SameMemory(Replay(m0, a.log + [Write(WordOf(ad), Lanes(true, Size(w), ad), StoreData(Size(w), v))]),
                       StoreValue(DecodeStore(w).value, h.mem, ad, v))
  {
    hide DecodeStore, StoreAligned, AlignFault, Size, Lanes, StoreData, StoreValue, Apply, Replay, Aligned;
    var k, m := DecodeStore(w).value, Replay(m0, a.log);
    LogGrows(m0, a.log, StoreTxn(k, ad, v));
    StoreKindMatches(w, ad);
    StoreApplies(k, m, ad, v);
    SameStore(k, m, h.mem, ad, v);
  }

  lemma StoreMatchesIsa(m0: Bytes, a: Arch, h: Hart, w: Word, e: Event)
    requires Related(m0, a, h) && e.Exec? && Opcode(w) == 0x23 && DecodeStore(w).Some?
    ensures Related(m0, Perform(a, w, e), StepWord(h, w, e.pins))
  {
    hide Related, WordOf, SetX, Isa.Advance, X, Opcode, DecodeStore, StepWord, Perform, Legal, IsMem, IsStore, IsCsr,
      Env, RegfileWriteBit, Branch, Rd, Rs1, Rs2, Plus, SImm, Address, AlignFault, Size, Lanes, StoreData,
      StoreValue, StoreAligned, AddControls, Src1Sel, Src2Sel, TakeTrap, Trapped, SameMemory, Replay, Aligned;
    var ad := Plus(X(h.regs, Rs1(w)), SImm(w));
    StoreControls(w);
    StoreMeans(h, w, e.pins);
    RelatedParts(m0, a, h);
    Registers(a.regs, h.regs, Rs1(w));
    Registers(a.regs, h.regs, Rs2(w));
    MemoryAddress(w, a.pc, Operand1(a, w), Operand2(a, w));
    StoreKindMatches(w, ad);
    StoreStep(a, w, e);
    if StoreAligned(DecodeStore(w).value, ad) {
      StoreMemory(m0, a, h, w, ad, Operand2(a, w));
      NoWrite(h, 0, 0);
      AdvanceRelated(m0, a, h, 0, 0, a.log + [Write(WordOf(ad), Lanes(true, Size(w), ad),
        StoreData(Size(w), Operand2(a, w)))],
                     StoreValue(DecodeStore(w).value, h.mem, ad, Operand2(a, w)));
    } else {
      TrapRelated(m0, a, h, Trap(6, ad));
    }
  }

  // --- System instructions ------------------------------------------------------

  function CsrOperation(w: Word): CsrOp { if F3(w) & 3 == 1 then Swap else if F3(w) & 3 == 2 then Set else Clear }

  lemma CsrMeans(h: Hart, w: Word, p: Pins)
    requires Opcode(w) == 0x73 && F3(w) & 3 != 0
    ensures StepWord(h, w, p) == CsrStep(h, p, CsrOperation(w), Rd(w),
                                         if F3(w) < 4 then Register(Rs1(w)) else Immediate(Rs1(w)), CsrAddress(w))
  {
    FieldsAgree(w);
    CsrIsNotSystem(w);
    hide Opcode, Rd, Rs1, Rs2, Dest, Source1, Source2, CsrField, UImm, IImm, JImm, BImm, SImm, DecodeBranch,
      DecodeLoad, DecodeStore, DecodeOpImm,
      DecodeOp, CsrAddress,
      JumpTo, Isa.Advance, X, Plus, ClearBit0, Holds, LoadAligned, LoadValue, StoreAligned, StoreValue, Trapped,
        Compute, CsrStep, Align, Leave, EvenAddress, WordAddress;
  }

  lemma CsrIsNotSystem(w: Word)
    requires F3(w) & 3 != 0
    ensures w != 0x73 && w != 0x30200073 && w != 0x10500073
  {}

  lemma SystemDecoded()
    ensures Decode(0x73) == Some(Ecall) && Decode(0x30200073) == Some(Mret) && Decode(0x10500073) == Some(Wfi)
  {
    SystemOpcode(0x73);
    SystemOpcode(0x30200073);
    SystemOpcode(0x10500073);
    hide Opcode, F3, Dest, Source1, Source2, CsrField, UImm, IImm, JImm, BImm, SImm, DecodeBranch, DecodeLoad,
      DecodeStore, DecodeOpImm, DecodeOp, DecodeCsr;
  }

  lemma FenceDecoded(w: Word)
    requires Opcode(w) == 0x0f && F3(w) <= 1
    ensures Decode(w) == Some(Isa.Fence)
  {
    hide Opcode, F3, Dest, Source1, Source2, CsrField, UImm, IImm, JImm, BImm, SImm, DecodeBranch, DecodeLoad,
      DecodeStore, DecodeOpImm, DecodeOp, DecodeCsr;
  }

  lemma EcallMeans(h: Hart, p: Pins)
    ensures StepWord(h, 0x73, p) == Trapped(h, 11, 0x73)
  {
    SystemDecoded();
    hide Opcode, F3, Decode, Isa.Advance, Trapped, Align, Leave, EvenAddress, WordAddress, X, Plus, JumpTo, CsrStep,
      Compute, Holds, LoadAligned, LoadValue, StoreAligned, StoreValue;
  }

  lemma MretMeans(h: Hart, p: Pins)
    ensures StepWord(h, 0x30200073, p) == h.(pc := Align(h.csr.mepc), csr := Leave(h.csr))
  {
    AddressesAgree(h.csr.mepc);
    SystemDecoded();
    hide Opcode, F3, Decode, Isa.Advance, Trapped, Align, Leave, EvenAddress, WordAddress, X, Plus, JumpTo, CsrStep,
      Compute, Holds, LoadAligned, LoadValue, StoreAligned, StoreValue;
  }

  lemma QuietMeans(h: Hart, w: Word, p: Pins)
    requires Decode(w) == Some(Wfi) || Decode(w) == Some(Isa.Fence)
    ensures StepWord(h, w, p) == Isa.Advance(h, 0, 0)
  {
    hide Opcode, F3, Decode, Isa.Advance, Trapped, Align, Leave, EvenAddress, WordAddress, X, Plus, JumpTo, CsrStep,
      Compute, Holds, LoadAligned, LoadValue, StoreAligned, StoreValue;
  }

  lemma SystemOpcode(w: Word)
    ensures w == 0x73 || w == 0x30200073 || w == 0x10500073 ==> Opcode(w) == 0x73
  {}

  // --- CSR instructions -----------------------------------------------------------

  lemma CsrPerform(a: Arch, w: Word, e: Event)
    requires Legal(w) && !IsMem(w) && IsCsr(w) && Env(w) == EnvNone && RegfileWriteBit(w) && Branch(w) == BranchInc
    requires e.Exec?
    ensures Perform(a, w, e)
            == Arch(Plus(a.pc, 4), WriteX(a.regs, Rd(w), CsrRead(a.csr, e.pins, CsrAddress(w))),
                    CsrAfter(a.csr, e.pins, w, Operand1(a, w)), a.log)
  {
    hide Legal, IsMem, IsCsr, Env, Branch, RegfileWriteBit, Rd, Rs1, Rs2, Plus, CsrRead, CsrAddress, CsrAfter;
  }

  lemma CsrFields(w: Word, was: Word, v: Word)
    requires F3(w) & 3 != 0
    ensures CsrWriteOp(w) == !(CsrOperation(w) != Swap && Rs1(w) == 0)
    ensures CsrWriteData(w, was, v) == CsrNew(CsrOperation(w), was, v)
  {}

  lemma ImmediateField(w: Word)
    ensures (w >> 15) & 0x1f == Rs1(w) as Word
  {}

  lemma CsrOperand(w: Word, x: Word)
    requires Opcode(w) == 0x73 && F3(w) & 3 != 0
    ensures Src1(w, x) == if F3(w) < 4 then x else Rs1(w) as Word
  {
    hide Opcode, Src1Sel, Legal, IsMem, IsCsr, Env, Branch, RegfileWriteBit;
    CsrControls(w);
    ImmediateField(w);
  }

  lemma CsrMatchesIsa(m0: Bytes, a: Arch, h: Hart, w: Word, e: Event)
    requires Related(m0, a, h) && e.Exec? && Opcode(w) == 0x73 && F3(w) & 3 != 0
    ensures Related(m0, Perform(a, w, e), StepWord(h, w, e.pins))
  {
    CsrFacts(m0, a, h, w, e);
    RelatedMemory(m0, a, h);
    var v := CsrRead(a.csr, e.pins, CsrAddress(w));
    NoWrite(h, Rd(w), v);
    AdvanceRelated(m0, a, h, Rd(w), v, a.log, h.mem);
    CsrRelated(m0, Arch(Plus(a.pc, 4), WriteX(a.regs, Rd(w), v), a.csr, a.log), Isa.Advance(h, Rd(w), v),
      CsrAfter(a.csr, e.pins, w, Operand1(a, w)));
    hide CsrAfter, StepWord, Perform, Related, CsrRead, CsrAddress, Opcode, F3, Rd, WriteX, SetX, Plus, Pack;
  }

  lemma CsrRelated(m0: Bytes, a: Arch, h: Hart, c: Csrs)
    requires Related(m0, a, h)
    ensures Related(m0, a.(csr := c), h.(csr := Pack(c)))
  {
    hide SameMemory, SameRegs, Pack, Replay, Aligned;
  }

  /** The hart writes the CSR value the machine writes. */
  lemma CsrFacts(m0: Bytes, a: Arch, h: Hart, w: Word, e: Event)
    requires Related(m0, a, h) && e.Exec? && Opcode(w) == 0x73 && F3(w) & 3 != 0
    ensures var v, c := CsrRead(a.csr, e.pins, CsrAddress(w)), CsrAfter(a.csr, e.pins, w, Operand1(a, w));
            && StepWord(h, w, e.pins) == Isa.Advance(h, Rd(w), v).(csr := Pack(c))
            && Perform(a, w, e) == Arch(Plus(a.pc, 4), WriteX(a.regs, Rd(w), v), c, a.log)
  {
    hide Related, Opcode, StepWord, Perform, Legal, IsMem, IsCsr, Env, Branch, RegfileWriteBit, F3, Rd, Rs1, Rs2,
      Plus, CsrRead, CsrAddress, CsrStore, CsrWriteOp, CsrWriteData, CsrNew, CsrOperation, Src1, SetX, WriteX, Pack,
        ReadCsr,
      WriteCsr, SameRegs;
    var x, was := Operand1(a, w), CsrRead(a.csr, e.pins, CsrAddress(w));
    RelatedParts(m0, a, h);
    CsrControls(w);
    CsrPerform(a, w, e);
    CsrMeans(h, w, e.pins);
    Registers(a.regs, h.regs, Rs1(w));
    CsrOperand(w, x);
    CsrFields(w, was, Src1(w, x));
    PackRead(a.csr, e.pins, CsrAddress(w));
    PackWrite(a.csr, CsrAddress(w), CsrNew(CsrOperation(w), was, Src1(w, x)));
  }

  // --- Environment instructions and illegal words -----------------------------------

  lemma EcallPerform(a: Arch, e: Event)
    requires e.Exec?
    ensures Perform(a, 0x73, e) == TakeTrap(a, Trap(11, 0x73))
  {
    SystemControls(0x73);
    hide Legal, IsMem, IsCsr, Env, WritesRd, Branch, Rd, Rs1, Rs2, TakeTrap, BranchDo, Misaligned;
  }

  lemma MretPerform(a: Arch, e: Event)
    requires e.Exec?
    ensures Perform(a, 0x30200073, e) == Arch(Align(a.csr.mepc), a.regs, TrapReturn(a.csr), a.log)
  {
    SystemControls(0x30200073);
    hide Legal, IsMem, IsCsr, Env, WritesRd, Branch, Rd, Rs1, Rs2, IsMret, Src1, Src2, TrapReturn, Align;
  }

  lemma IllegalPerform(a: Arch, w: Word, e: Event)
    requires e.Exec? && !Legal(w)
    ensures Perform(a, w, e) == TakeTrap(a, Trap(2, w))
  {
    hide Legal, Env, BranchDo, Misaligned, Rs1, Rs2, TakeTrap;
  }

  lemma MretRelated(m0: Bytes, a: Arch, h: Hart)
    requires Related(m0, a, h)
    ensures Related(m0, Arch(Align(a.csr.mepc), a.regs, TrapReturn(a.csr), a.log),
            h.(pc := Align(h.csr.mepc), csr := Leave(h.csr)))
  {
    hide SameMemory, SameRegs, Replay, TrapReturn, Leave, Mstatus, Mie, Mcause, TrapVector, Aligned, Align;
    AlignFacts(a.csr.mepc);
    PackReturn(a.csr);
  }

  lemma SystemMatchesIsa(m0: Bytes, a: Arch, h: Hart, w: Word, e: Event)
    requires Related(m0, a, h) && e.Exec?
    requires w == 0x73 || w == 0x30200073 || w == 0x10500073 || (Opcode(w) == 0x0f && F3(w) <= 1)
    ensures Related(m0, Perform(a, w, e), StepWord(h, w, e.pins))
  {
    SystemControls(w);
    SystemDecoded();
    if w == 0x73 {
      EcallMeans(h, e.pins);
      EcallPerform(a, e);
      TrapRelated(m0, a, h, Trap(11, 0x73));
    } else if w == 0x30200073 {
      MretMeans(h, e.pins);
      MretPerform(a, e);
      MretRelated(m0, a, h);
    } else {
      if w != 0x10500073 { FenceDecoded(w); }
      QuietMeans(h, w, e.pins);
      QuietRelated(m0, a, h, w, e);
      hide Related, Perform, StepWord, Decode, Opcode, F3, Legal, IsMem, IsCsr, Env, WritesRd, Branch, IsMret,
        Isa.Advance;
    }
    hide Related, Perform, StepWord, Decode, Legal, IsMem, IsCsr, Env, WritesRd, Branch, IsMret, Trapped, TakeTrap,
      TrapReturn, Leave,
      Align, Isa.Advance;
  }

  lemma IllegalMatchesIsa(m0: Bytes, a: Arch, h: Hart, w: Word, e: Event)
    requires Related(m0, a, h) && e.Exec? && Decode(w).None? && !Legal(w)
    ensures Related(m0, Perform(a, w, e), StepWord(h, w, e.pins))
  {
    hide Related, Legal, Decode, Perform, TakeTrap, Trapped;
    IllegalPerform(a, w, e);
    TrapRelated(m0, a, h, Trap(2, w));
  }

  // --- Every instruction word ---------------------------------------------------------

  /** The words the core's decoder accepts although RV32I does not define them. */
  predicate Accepted(w: Word) { Decode(w).None? && Legal(w) }

  lemma DecodedClasses(w: Word)
    requires Decode(w).Some?
    ensures || Opcode(w) == 0x37 || Opcode(w) == 0x17 || Opcode(w) == 0x6f || (Opcode(w) == 0x67 && F3(w) == 0)
            || (Opcode(w) == 0x63 && DecodeBranch(w).Some?) || (Opcode(w) == 0x03 && DecodeLoad(w).Some?)
            || (Opcode(w) == 0x23 && DecodeStore(w).Some?) || (Opcode(w) == 0x13 && DecodeOpImm(w).Some?)
            || (Opcode(w) == 0x33 && DecodeOp(w).Some?) || (Opcode(w) == 0x0f && F3(w) <= 1)
            || w == 0x73 || w == 0x30200073 || w == 0x10500073 || (Opcode(w) == 0x73 && F3(w) & 3 != 0)
  {
    hide Opcode, F3, Rd, Rs1, Rs2, UImm, IImm, JImm, BImm, SImm, DecodeBranch, DecodeLoad, DecodeStore, DecodeOpImm,
      DecodeOp, CsrAddress;
  }

  /** One word executed by the machine is that word executed by the hart. */
  lemma WordMatchesIsa(m0: Bytes, a: Arch, h: Hart, w: Word, e: Event)
    requires Related(m0, a, h) && e.Exec? && !Accepted(w)
    requires IsRam(m0, Perform(a, w, e).log)
    ensures Related(m0, Perform(a, w, e), StepWord(h, w, e.pins))
  {
    hide Related, Perform, StepWord, Legal, Decode, Opcode, F3, DecodeBranch, DecodeLoad, DecodeStore, DecodeOpImm,
      DecodeOp, IsRam;
    if Decode(w).None? {
      IllegalMatchesIsa(m0, a, h, w, e);
    } else {
      DecodedClasses(w);
      if
      case Opcode(w) == 0x37 || Opcode(w) == 0x17 => UpperMatches(m0, a, h, w, e);
      case Opcode(w) == 0x6f || (Opcode(w) == 0x67 && F3(w) == 0) => JumpMatches(m0, a, h, w, e);
      case Opcode(w) == 0x63 && DecodeBranch(w).Some? => BranchMatches(m0, a, h, w, e);
      case Opcode(w) == 0x03 && DecodeLoad(w).Some? => LoadMatchesIsa(m0, a, h, w, e);
      case Opcode(w) == 0x23 && DecodeStore(w).Some? => StoreMatchesIsa(m0, a, h, w, e);
      case Opcode(w) == 0x13 && DecodeOpImm(w).Some? => OpImmMatches(m0, a, h, w, e);
      case Opcode(w) == 0x33 && DecodeOp(w).Some? => OpMatches(m0, a, h, w, e);
      case Opcode(w) == 0x73 && F3(w) & 3 != 0 => CsrMatchesIsa(m0, a, h, w, e);
      case w == 0x73 || w == 0x30200073 || w == 0x10500073 || (Opcode(w) == 0x0f && F3(w) <= 1) =>
        SystemMatchesIsa(m0, a, h, w, e);
    }
  }

  lemma InterruptMatchesIsa(m0: Bytes, a: Arch, h: Hart, code: bv4)
    requires Related(m0, a, h)
    ensures Related(m0, TakeInterrupt(a, code), StepInterrupt(h, code))
  {
    hide SameMemory, SameRegs, Replay, TrapVector, TrapEntry, Enter, Mstatus, Mie, Mcause, Aligned;
    VectorAligned(a.csr);
    PackEntry(a.csr, true, code, a.pc);
  }

  // --- What the legality masks accept ---------------------------------------------------

  /** SRET, EBREAK, the unsigned word load and shifts by an immediate with bit 25 set. */
  predicate Extra(w: Word) {
    || w == 0x10200073 || w == 0x00100073
    || (Opcode(w) == 0x03 && F3(w) == 6)
    || (Opcode(w) == 0x13 && ((F7(w) == 1 && (F3(w) == 1 || F3(w) == 5)) || (F7(w) == 0x21 && F3(w) == 5)))
  }

  lemma DecodedIsLegal(w: Word)
    requires Decode(w).Some?
    ensures Legal(w)
  {
    hide Decode, Opcode, F3, DecodeBranch, DecodeLoad, DecodeStore, DecodeOpImm, DecodeOp, Legal, IsMem, IsStore,
      IsCsr, Env, RegfileWriteBit, Branch,
      WritesRd, Src1Sel, Src2Sel, IsMret;
    DecodedClasses(w);
    if
    case Opcode(w) == 0x37 || Opcode(w) == 0x17 => UpperClass(w);
    case Opcode(w) == 0x6f => JalClass(w);
    case Opcode(w) == 0x67 && F3(w) == 0 => JalrClass(w);
    case Opcode(w) == 0x63 && DecodeBranch(w).Some? => BranchLegal(w);
    case Opcode(w) == 0x03 && DecodeLoad(w).Some? => LoadLegal(w);
    case Opcode(w) == 0x23 && DecodeStore(w).Some? => StoreLegal(w);
    case Opcode(w) == 0x13 && DecodeOpImm(w).Some? => OpImmLegal(w);
    case Opcode(w) == 0x33 && DecodeOp(w).Some? => OpRegLegal(w);
    case Opcode(w) == 0x73 && F3(w) & 3 != 0 => CsrLegal(w);
    case w == 0x73 || w == 0x30200073 || w == 0x10500073 || (Opcode(w) == 0x0f && F3(w) <= 1) => SystemControls(w);
  }

  lemma ExtraLoadLegal(w: Word)
    requires Opcode(w) == 0x03 && F3(w) == 6
    ensures Legal(w)
  {}

  lemma ExtraLeftLegal(w: Word)
    requires Opcode(w) == 0x13 && F7(w) == 1 && F3(w) == 1
    ensures Legal(w)
  {}

  lemma ExtraLogicalLegal(w: Word)
    requires Opcode(w) == 0x13 && F7(w) == 1 && F3(w) == 5
    ensures Legal(w)
  {}

  lemma ExtraArithmeticLegal(w: Word)
    requires Opcode(w) == 0x13 && F7(w) == 0x21 && F3(w) == 5
    ensures Legal(w)
  {}

  lemma ExtraSystemLegal(w: Word)
    requires w == 0x10200073 || w == 0x00100073
    ensures Legal(w)
  {}

  lemma ExtraLegal(w: Word)
    requires Extra(w)
    ensures Legal(w)
  {
    hide Opcode, F3, F7, Legal;
    if w == 0x10200073 || w == 0x00100073 {
      ExtraSystemLegal(w);
    } else if Opcode(w) == 0x03 {
      ExtraLoadLegal(w);
    } else if F3(w) == 1 {
      ExtraLeftLegal(w);
    } else if F7(w) == 1 {
      ExtraLogicalLegal(w);
    } else {
      ExtraArithmeticLegal(w);
    }
  }

  lemma ExtraUndecoded(w: Word)
    requires Extra(w)
    ensures Decode(w).None?
  {
    hide Rd, Rs1, Rs2, UImm, IImm, JImm, BImm, SImm, DecodeBranch, DecodeStore, DecodeOp, CsrAddress;
  }

  lemma ExtraIsAccepted(w: Word)
    requires Extra(w)
    ensures Accepted(w)
  {
    hide Extra, Legal, Decode;
    ExtraLegal(w);
    ExtraUndecoded(w);
  }

  lemma LegalOpcodes(w: Word)
    requires Legal(w)
    ensures var o := Opcode(w);
            o == 0x03 || o == 0x0f || o == 0x13 || o == 0x17 || o == 0x23 || o == 0x33 || o == 0x37 || o == 0x63
              || o == 0x67 || o == 0x6f || o == 0x73
  {}

  lemma LegalLoads(w: Word)
    requires Legal(w) && Opcode(w) == 0x03
    ensures DecodeLoad(w).Some? || F3(w) == 6
  {}

  lemma LegalShifts(w: Word)
    requires Legal(w) && Opcode(w) == 0x13
    ensures DecodeOpImm(w).Some? || (F7(w) == 1 && (F3(w) == 1 || F3(w) == 5)) || (F7(w) == 0x21 && F3(w) == 5)
  {}

  lemma LegalSystem(w: Word)
    requires Legal(w) && Opcode(w) == 0x73
    ensures F3(w) & 3 != 0 || w == 0x73 || w == 0x30200073 || w == 0x10500073 || w == 0x10200073 || w == 0x00100073
  {}

  lemma LegalStores(w: Word)
    requires Legal(w) && Opcode(w) == 0x23
    ensures DecodeStore(w).Some?
  {}

  lemma OpFields(w: Word)
    requires Legal(w) && Opcode(w) == 0x33
    ensures F7(w) == 0 || (F7(w) == 0x20 && (F3(w) == 0 || F3(w) == 5))
  {}

  lemma LegalOps(w: Word)
    requires Legal(w) && Opcode(w) == 0x33
    ensures DecodeOp(w).Some?
  {
    hide Legal, Opcode, F3, F7;
    OpFields(w);
  }

  lemma LegalTransfers(w: Word)
    requires Legal(w)
    ensures Opcode(w) == 0x0f ==> F3(w) <= 1
    ensures Opcode(w) == 0x67 ==> F3(w) == 0
    ensures Opcode(w) == 0x63 ==> DecodeBranch(w).Some?
  {}

  lemma UndecodedClasses(w: Word)
    requires Decode(w).None?
    ensures Opcode(w) != 0x37 && Opcode(w) != 0x17 && Opcode(w) != 0x6f
    ensures Opcode(w) == 0x67 ==> F3(w) != 0
    ensures Opcode(w) == 0x63 ==> DecodeBranch(w).None?
    ensures Opcode(w) == 0x03 ==> DecodeLoad(w).None?
    ensures Opcode(w) == 0x23 ==> DecodeStore(w).None?
    ensures Opcode(w) == 0x13 ==> DecodeOpImm(w).None?
    ensures Opcode(w) == 0x33 ==> DecodeOp(w).None?
    ensures Opcode(w) == 0x0f ==> F3(w) > 1
    ensures Opcode(w) == 0x73 ==> F3(w) & 3 == 0 && w != 0x73 && w != 0x30200073 && w != 0x10500073
  {
    LowFunct3(w);
    hide Opcode, F3, Rd, Rs1, Rs2, UImm, IImm, JImm, BImm, SImm, DecodeBranch, DecodeLoad, DecodeStore, DecodeOpImm,
      DecodeOp, CsrAddress;
  }

  lemma LowFunct3(w: Word)
    ensures F3(w) & 3 == 0 || F3(w) & 3 == 1 || F3(w) & 3 == 2 || F3(w) & 3 == 3
  {}

  lemma AcceptedIsExtra(w: Word)
    requires Accepted(w)
    ensures Extra(w)
  {
    hide Opcode, F3, F7, Decode, Legal, DecodeBranch, DecodeLoad, DecodeStore, DecodeOpImm, DecodeOp;
    UndecodedClasses(w);
    LegalOpcodes(w);
    if Opcode(w) == 0x03 {
      LegalLoads(w);
    } else if Opcode(w) == 0x13 {
      LegalShifts(w);
    } else if Opcode(w) == 0x73 {
      LegalSystem(w);
    } else if Opcode(w) == 0x23 {
      LegalStores(w);
    } else if Opcode(w) == 0x33 {
      LegalOps(w);
    } else {
      LegalTransfers(w);
    }
  }

  /** The legality check agrees with the instruction set except on exactly these words. */
  lemma LegalExactly(w: Word)
    ensures Legal(w) <==> Decode(w).Some? || Extra(w)
  {
    hide Legal, Decode, Extra;
    if Decode(w).Some? {
      DecodedIsLegal(w);
    } else if Legal(w) {
      AcceptedIsExtra(w);
    } else if Extra(w) {
      ExtraIsAccepted(w);
    }
  }
}
