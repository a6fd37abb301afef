/** The encodings that the core accepts beyond RV32I, and what it makes of them: with
    them, every instruction word has a meaning and every step of the sequential
    machine is a step of the hart. */
module IsaExtra {
  import opened Words
  import opened Decoder
  import opened Execute
  import opened Machine
  import opened Isa
  import opened IsaMatch
  import opened Ram
  import opened DecoderFacts
  import opened IsaStep

  predicate WordLoad(w: Word) { Opcode(w) == 0x03 && F3(w) == 6 }

  predicate LongShift(w: Word) {
    Opcode(w) == 0x13 && ((F7(w) == 1 && (F3(w) == 1 || F3(w) == 5)) || (F7(w) == 0x21 && F3(w) == 5))
  }

  function ShiftKind(w: Word): AluOp { if F3(w) == 1 then Sll else if F7(w) == 1 then Srl else Sra }

  /** One instruction word as the core executes it.  EBREAK does nothing, SRET jumps
      to an unknown address, the unsigned word load is LW, and bit 25 of an immediate
      shift is ignored. */
  function StepAccepted(h: Hart, w: Word, p: Pins, undefined: Word): Hart {
    if w == 0x00100073 then Isa.Advance(h, 0, 0)
    else if w == 0x10200073 then h.(pc := WordAddress(undefined))
    else if WordLoad(w) then Isa.Exec(h, Load(Lw, Dest(w), Source1(w), IImm(w)), p)
    else if LongShift(w) then Isa.Exec(h, OpImm(ShiftKind(w), Dest(w), Source1(w), IImm(w)), p)
    else StepWord(h, w, p)
  }

  lemma ExtraCases(w: Word)
    ensures Extra(w) <==> w == 0x00100073 || w == 0x10200073 || WordLoad(w) || LongShift(w)
  {
    hide Opcode, F3, F7;
  }

  /** Words of the instruction set keep their meaning. */
  lemma StrictStep(h: Hart, w: Word, p: Pins, undefined: Word)
    requires !Accepted(w)
    ensures StepAccepted(h, w, p, undefined) == StepWord(h, w, p)
  {
    hide Legal, Decode, Extra, WordLoad, LongShift, StepWord;
    if Extra(w) { ExtraIsAccepted(w); }
    ExtraCases(w);
  }

  // --- The unsigned word load -------------------------------------------------

  lemma WordLoadParts(w: Word, pc: Word, x: Word, y: Word)
    requires WordLoad(w)
    ensures LoadWord(w) && KindOf(w, Lw) && Address(w, pc, x, y) == Plus(x, IImm(w))
    ensures LoadAligned(Lw, Plus(x, IImm(w))) == !AlignFault(Size(w), Plus(x, IImm(w)))
  {
    WordLoadSize(w);
    ExtraLoadLegal(w);
    LoadClass(w);
    hide Opcode, F3, Legal, IsMem, IsStore, IsCsr, Env, RegfileWriteBit, Branch, Plus, IImm, Address, Size, AddControls,
      Src1Sel, Src2Sel;
    MemoryAddress(w, pc, x, y);
  }

  lemma WordLoadSize(w: Word)
    requires WordLoad(w)
    ensures Size(w) == 2
  {}

  lemma WordLoadMatches(m0: Bytes, a: Arch, h: Hart, w: Word, e: Event)
    requires Related(m0, a, h) && e.Exec? && WordLoad(w) && IsRam(m0, Perform(a, w, e).log)
    ensures Related(m0, Perform(a, w, e), Isa.Exec(h, Load(Lw, Dest(w), Source1(w), IImm(w)), e.pins))
  {
    FieldsAgree(w);
    hide Related, Dest, Source1,  Isa.Advance, X, WordLoad, Perform, LoadWord, KindOf, Rd, Rs1, Rs2, Plus, IImm,
      Address, AlignFault,
      Size,
      LoadValue, LoadAligned, Trapped, IsRam;
    RelatedParts(m0, a, h);
    Registers(a.regs, h.regs, Rs1(w));
    WordLoadParts(w, a.pc, Operand1(a, w), Operand2(a, w));
    LoadRelated(m0, a, h, w, Lw, Plus(X(h.regs, Rs1(w)), IImm(w)), e);
  }

  // --- Immediate shifts with bit 25 -------------------------------------------

  lemma LongShiftControls(w: Word)
    requires LongShift(w)
    ensures OpControls(ShiftKind(w), w) && Src1Sel(w) == Src1Rs && Src2Sel(w) == Src2Imi
  {}

  lemma LongShiftPlain(w: Word)
    requires LongShift(w)
    ensures Plain(w) && RegfileWriteBit(w)
  {
    LongShiftLegal(w);
    OpImmClass(w);
    hide Opcode, F3, F7, Legal, IsMem, IsCsr, Env, Branch, RegfileWriteBit;
  }

  lemma LongShiftLegal(w: Word)
    requires LongShift(w)
    ensures Legal(w)
  {
    ExtraCases(w);
    ExtraLegal(w);
    hide Extra, Legal, LongShift;
  }

  lemma LongShiftMatches(m0: Bytes, a: Arch, h: Hart, w: Word, e: Event)
    requires Related(m0, a, h) && e.Exec? && LongShift(w)
    ensures Related(m0, Perform(a, w, e), Isa.Exec(h, OpImm(ShiftKind(w), Dest(w), Source1(w), IImm(w)), e.pins))
  {
    FieldsAgree(w);
    hide Dest, Source1, LongShift, ShiftKind, Related, Perform, Plain, RegfileWriteBit, OpControls, Rd, Rs1, Rs2,
      IImm, ImmI, Compute,
      Src1Sel, Src2Sel, Isa.Advance;
    LongShiftPlain(w);
    LongShiftControls(w);
    ComputeStep(m0, a, h, w, e);
    RelatedParts(m0, a, h);
    ImmIMatches(w);
    ResultMatches(ShiftKind(w), w, a.pc, a.regs(Rs1(w)), a.regs(Rs2(w)));
    Registers(a.regs, h.regs, Rs1(w));
  }

  // --- EBREAK and SRET --------------------------------------------------------

  lemma EbreakControls()
    ensures var w := 0x00100073; Inert(w) && !WritesRd(w) && Branch(w) == BranchInc
  {}

  lemma SretControls()
    ensures var w := 0x10200073;
            Legal(w) && !IsMem(w) && !IsCsr(w) && !WritesRd(w) && Branch(w) == BranchInc && Env(w) == EnvXret
              && !IsMret(w)
  {}

  lemma SretPerform(a: Arch, e: Event)
    requires e.Exec?
    ensures Perform(a, 0x10200073, e) == a.(pc := Align(e.undefined))
  {
    SretControls();
    hide Legal, IsMem, IsCsr, Env, WritesRd, Branch, Rd, Rs1, Rs2, IsMret, Src1, Src2, Align;
  }

  lemma BranchlessIsNotTaken(w: Word, pc: Word, x: Word, y: Word)
    requires Branch(w) == BranchInc
    ensures !BranchDo(w, pc, x, y)
  {
    hide Branch, Src1, Src2;
  }

  // --- Every word -------------------------------------------------------------

  /** Every instruction word, in the instruction set or not, does on the machine what
      it does on the hart. */
  lemma EveryWordMatches(m0: Bytes, a: Arch, h: Hart, w: Word, e: Event)
    requires Related(m0, a, h) && e.Exec? && IsRam(m0, Perform(a, w, e).log)
    ensures Related(m0, Perform(a, w, e), StepAccepted(h, w, e.pins, e.undefined))
  {
    hide Related, Perform, StepWord, Legal, Decode, Extra, WordLoad, LongShift, IsRam, Isa.Exec, Isa.Advance, Inert,
      WritesRd,
      Branch, BranchDo, Rd, Rs1, Rs2, Dest, Source1, IImm, Align, WordAddress;
    ExtraCases(w);
    if w == 0x00100073 {
      EbreakControls();
      BranchlessIsNotTaken(w, a.pc, Operand1(a, w), Operand2(a, w));
      QuietRelated(m0, a, h, w, e);
    } else if w == 0x10200073 {
      SretPerform(a, e);
      SretRelated(m0, a, h, e.undefined);
    } else if WordLoad(w) {
      WordLoadMatches(m0, a, h, w, e);
    } else if LongShift(w) {
      LongShiftMatches(m0, a, h, w, e);
    } else {
      LegalExactly(w);
      WordMatchesIsa(m0, a, h, w, e);
    }
  }

  lemma SretRelated(m0: Bytes, a: Arch, h: Hart, t: Word)
    requires Related(m0, a, h)
    ensures Related(m0, a.(pc := Align(t)), h.(pc := WordAddress(t)))
  {
    AlignFacts(t);
    AddressesAgree(t);
    hide SameMemory, SameRegs, Pack, Replay, Align, Aligned, WordAddress;
  }
}
