/** When decode waits: exactly for the registers that its instruction reads and that
    an older one has still to write, for a recorded interrupt, and for a return. */
module Hazards {
  import opened Words
  import opened Decoder
  import opened Machine
  import opened Core
  import opened Invariant
  import opened Isa
  import opened IsaMatch
  import opened IsaStep
  import opened IsaExtra
  import CoreTheorems

  // --- Registers of an instruction --------------------------------------------

  predicate ReadsFirst(i: Instr) {
    i.Jalr? || i.BranchIf? || i.Load? || i.Store? || i.OpImm? || i.Op? || (i.CsrAccess? && i.src.Register?)
  }
  predicate ReadsSecond(i: Instr) { i.BranchIf? || i.Store? || i.Op? }
  predicate Writes(i: Instr) { !(i.BranchIf? || i.Store? || i.Fence? || i.Wfi? || i.Ecall? || i.Mret?) }

  /** The same for every word the core executes: the word load and the long shifts read
      rs1 and write rd, EBREAK and SRET touch no register. */
  predicate WordReadsFirst(w: Word) {
    match Decode(w) case Some(i) => ReadsFirst(i) case None => WordLoad(w) || LongShift(w)
  }
  predicate WordReadsSecond(w: Word) { match Decode(w) case Some(i) => ReadsSecond(i) case None => false }
  predicate WordWrites(w: Word) {
    match Decode(w) case Some(i) => Writes(i) case None => WordLoad(w) || LongShift(w)
  }

  // --- Control bits by opcode ---------------------------------------------------

  predicate NoRegisterOpcode(o: Word) { o == 0x37 || o == 0x17 || o == 0x6f || o == 0x0f }
  predicate OneRegisterOpcode(o: Word) { o == 0x67 || o == 0x03 || o == 0x13 }
  predicate TwoRegisterOpcode(o: Word) { o == 0x63 || o == 0x23 || o == 0x33 }

  lemma NoOperands(w: Word)
    requires NoRegisterOpcode(Opcode(w))
    ensures !UsesRs1(w) && !UsesRs2(w) && RegfileWriteBit(w) == (Opcode(w) != 0x0f)
  {}

  lemma OneOperand(w: Word)
    requires OneRegisterOpcode(Opcode(w))
    ensures UsesRs1(w) && !UsesRs2(w) && RegfileWriteBit(w)
  {}

  lemma TwoOperands(w: Word)
    requires TwoRegisterOpcode(Opcode(w))
    ensures UsesRs1(w) && UsesRs2(w) && RegfileWriteBit(w) == (Opcode(w) == 0x33)
  {}

  lemma CsrOperands(w: Word)
    requires Opcode(w) == 0x73 && F3(w) & 3 != 0
    ensures !UsesRs2(w) && (UsesRs1(w) <==> F3(w) < 4) && RegfileWriteBit(w)
  {}

  predicate SystemWord(w: Word) {
    w == 0x73 || w == 0x30200073 || w == 0x10500073 || w == 0x10200073 || w == 0x00100073
  }

  lemma SystemOperands(w: Word)
    requires SystemWord(w)
    ensures !UsesRs1(w) && !UsesRs2(w) && !WritesRd(w) && Opcode(w) == 0x73 && F3(w) & 3 == 0
  {}

  // --- Kinds by opcode ------------------------------------------------------------

  lemma CsrKind(w: Word)
    requires Opcode(w) == 0x73 && Decode(w).Some? && F3(w) & 3 != 0
    ensures !WordReadsSecond(w) && WordWrites(w) && (WordReadsFirst(w) <==> F3(w) < 4)
  {
    SystemWords(w);
    hide Opcode, F3, Dest, Source1, Source2, CsrField, UImm, IImm, JImm, BImm, SImm, DecodeBranch, DecodeLoad,
      DecodeStore, DecodeOpImm, DecodeOp, WordLoad, LongShift;
  }

  lemma SystemWords(w: Word)
    requires F3(w) & 3 != 0
    ensures w != 0x73 && w != 0x30200073 && w != 0x10500073
  {}

  lemma SystemKind(w: Word)
    requires w == 0x73 || w == 0x30200073 || w == 0x10500073
    ensures Decode(w).Some? && !WordReadsFirst(w) && !WordReadsSecond(w) && !WordWrites(w)
  {
    SystemDecoded();
    hide Decode, WordLoad, LongShift;
  }

  lemma OtherKinds(w: Word)
    requires Opcode(w) != 0x73 && Decode(w).Some?
    ensures var o := Opcode(w);
            && (WordReadsSecond(w) <==> TwoRegisterOpcode(o))
            && (WordReadsFirst(w) <==> TwoRegisterOpcode(o) || OneRegisterOpcode(o))
            && (!WordReadsFirst(w) ==> NoRegisterOpcode(o))
            && (WordWrites(w) <==> o != 0x0f && o != 0x63 && o != 0x23)
  {
    hide Opcode, F3, Dest, Source1, Source2, CsrField, UImm, IImm, JImm, BImm, SImm, DecodeBranch, DecodeLoad,
      DecodeStore, DecodeOpImm, DecodeOp, DecodeCsr, WordLoad, LongShift;
  }

  lemma ExtraKinds(w: Word)
    requires Extra(w)
    ensures Decode(w).None? && !WordReadsSecond(w)
    ensures WordReadsFirst(w) <==> WordLoad(w) || LongShift(w)
    ensures WordWrites(w) <==> WordLoad(w) || LongShift(w)
  {
    ExtraUndecoded(w);
    hide Decode, Extra, WordLoad, LongShift;
  }

  lemma ExtraOpcodes(w: Word)
    ensures WordLoad(w) || LongShift(w) ==> OneRegisterOpcode(Opcode(w))
    ensures SystemWord(w) ==> Opcode(w) == 0x73 && !WordLoad(w) && !LongShift(w)
  {
    if SystemWord(w) { SystemOperands(w); }
    hide Opcode, F3, F7, SystemWord;
  }

  // --- The decoder's view -----------------------------------------------------------

  lemma DecodedOperands(w: Word)
    requires Decode(w).Some?
    ensures UsesRs1(w) == WordReadsFirst(w) && UsesRs2(w) == WordReadsSecond(w)
    ensures WritesRd(w) == (WordWrites(w) && Rd(w) != 0)
  {
    hide Opcode, F3, Decode, UsesRs1, UsesRs2, RegfileWriteBit, Rd, WordReadsFirst, WordReadsSecond, WordWrites;
    if w == 0x73 || w == 0x30200073 || w == 0x10500073 {
      SystemOperands(w);
      SystemKind(w);
    } else if Opcode(w) == 0x73 {
      DecodedSystem(w);
      CsrOperands(w);
      CsrKind(w);
    } else {
      OtherKinds(w);
      if
      case TwoRegisterOpcode(Opcode(w)) => TwoOperands(w);
      case OneRegisterOpcode(Opcode(w)) => OneOperand(w);
      case !WordReadsFirst(w) => NoOperands(w);
    }
  }

  lemma DecodedSystem(w: Word)
    requires Decode(w).Some? && Opcode(w) == 0x73 && w != 0x73 && w != 0x30200073 && w != 0x10500073
    ensures F3(w) & 3 != 0
  {
    DecodedClasses(w);
    hide Decode, Opcode, F3, DecodeBranch, DecodeLoad, DecodeStore, DecodeOpImm, DecodeOp;
  }

  lemma ExtraOperands(w: Word)
    requires Extra(w)
    ensures UsesRs1(w) == WordReadsFirst(w) && UsesRs2(w) == WordReadsSecond(w)
    ensures WritesRd(w) == (WordWrites(w) && Rd(w) != 0)
  {
    hide Opcode, F3, F7, Decode, Extra, UsesRs1, UsesRs2, RegfileWriteBit, Rd, WordReadsFirst, WordReadsSecond,
      WordWrites, WordLoad, LongShift;
    ExtraKinds(w);
    ExtraCases(w);
    ExtraOpcodes(w);
    if WordLoad(w) || LongShift(w) { OneOperand(w); } else { SystemOperands(w); }
  }

  /** The hazard unit knows of each word exactly the registers it reads and writes. */
  lemma OperandsExactly(w: Word)
    requires Legal(w)
    ensures UsesRs1(w) == WordReadsFirst(w) && UsesRs2(w) == WordReadsSecond(w)
    ensures WritesRd(w) == (WordWrites(w) && Dest(w) != 0) && Rd(w) == Dest(w)
    ensures Rs1(w) == Source1(w) && Rs2(w) == Source2(w)
  {
    hide Legal, Decode, Extra, UsesRs1, UsesRs2, WritesRd, Rd, WordReadsFirst, WordReadsSecond, WordWrites;
    FieldsAgree(w);
    LegalExactly(w);
    if Decode(w).Some? { DecodedOperands(w); } else { ExtraOperands(w); }
  }

  lemma ReturnBits(w: Word)
    requires Legal(w)
    ensures Env(w) == EnvXret <==> w == 0x30200073 || w == 0x10200073
  {}

  // --- Waiting ------------------------------------------------------------------------

  /** An occupied stage holds an instruction that writes register r. */
  predicate Pending(valid: bool, w: Word, r: Isa.RegIndex) { valid && WordWrites(w) && Dest(w) == r && r != 0 }

  /** Register r has still to be written by an older instruction, or was in the cycle before. */
  predicate Awaited(s: State, r: Isa.RegIndex) {
    || Pending(s.e.valid, s.e.inst, r) || Pending(s.m.valid, s.m.inst, r) || Pending(s.w.valid, s.w.inst, r)
    || (s.wb.valid && s.wb.address == r)
  }

  predicate Returning(valid: bool, w: Word) { valid && (w == 0x30200073 || w == 0x10200073) }

  lemma WriterIs(valid: bool, w: Word, r: Isa.RegIndex)
    requires valid ==> Legal(w)
    ensures Writer(valid, w, r) == Pending(valid, w, r)
    ensures (valid && Env(w) == EnvXret) == Returning(valid, w)
  {
    if valid {
      OperandsExactly(w);
      ReturnBits(w);
    }
    hide Legal, Env, WritesRd, Rd, WordWrites, Dest;
  }

  lemma HazardIs(s: State, r: Isa.RegIndex)
    requires (s.e.valid ==> Legal(s.e.inst)) && (s.m.valid ==> Legal(s.m.inst)) && (s.w.valid ==> Legal(s.w.inst))
    ensures Hazard(s, r) == Awaited(s, r)
    ensures XretInFlight(s)
            == (Returning(s.e.valid, s.e.inst) || Returning(s.m.valid, s.m.inst) || Returning(s.w.valid, s.w.inst))
  {
    WriterIs(s.e.valid, s.e.inst, r);
    WriterIs(s.m.valid, s.m.inst, r);
    WriterIs(s.w.valid, s.w.inst, r);
    hide Legal, Env, Writer, Pending, Returning;
  }

  /** Decode holds a legal instruction back exactly for an operand still to be written,
      a recorded interrupt, or an older return. */
  lemma WaitsExactly(imem: Memory, a: Arch, s: State, done: seq<Txn>)
    requires CoreTheorems.Reached(imem, a, s, done) && s.d.valid && Legal(s.d.inst)
    ensures var w := s.d.inst;
            DHalt(s) <==>
              || (WordReadsFirst(w) && Awaited(s, Source1(w)))
              || (WordReadsSecond(w) && Awaited(s, Source2(w)))
              || s.t.irqValid
              || Returning(s.e.valid, s.e.inst) || Returning(s.m.valid, s.m.inst) || Returning(s.w.valid, s.w.inst)
  {
    hide Inv, Legal, UsesRs1, UsesRs2, Rs1, Rs2, Hazard, XretInFlight, Awaited, Returning, WordReadsFirst,
      WordReadsSecond,
      Source1, Source2, CoreTheorems.Reached;
    CoreTheorems.ReachedInv(imem, a, s, done);
    OccupantsLegal(imem, a, s, done);
    OperandsExactly(s.d.inst);
    HazardIs(s, Source1(s.d.inst));
    HazardIs(s, Source2(s.d.inst));
  }

  lemma OccupantsLegal(imem: Memory, a: Arch, s: State, done: seq<Txn>)
    requires Inv(imem, a, s, done)
    ensures (s.e.valid ==> Legal(s.e.inst)) && (s.m.valid ==> Legal(s.m.inst)) && (s.w.valid ==> Legal(s.w.inst))
  {
    hide Legal, Env, TokensOk, LiberatorOk, FetchBook, ChainOk, LogOk, FetchData, BusOk, ShiftOk, ExecuteOk, PortsOk,
      RegsOk, MemoryOk, WriteBackOk, CsrOk, ContextOk;
  }
}
