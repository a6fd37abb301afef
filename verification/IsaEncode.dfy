/** The instruction formats of RV32I read backwards: an encoder written from the
    format tables, and the proof that Decode is its inverse on every word. */
module IsaEncode {
  import opened Words
  import opened Isa

  // --- Formats --------------------------------------------------------------

  function RType(op: Word, f3: Word, f7: Word, rd: RegIndex, rs1: RegIndex, rs2: RegIndex): Word {
    (f7 << 25) | ((rs2 as Word) << 20) | ((rs1 as Word) << 15) | (f3 << 12) | ((rd as Word) << 7) | op
  }

  function IType(op: Word, f3: Word, rd: RegIndex, rs1: RegIndex, imm: Word): Word {
    (imm << 20) | ((rs1 as Word) << 15) | (f3 << 12) | ((rd as Word) << 7) | op
  }

  function SType(op: Word, f3: Word, rs1: RegIndex, rs2: RegIndex, imm: Word): Word {
    ((imm & 0xfe0) << 20) | ((rs2 as Word) << 20) | ((rs1 as Word) << 15) | (f3 << 12) | ((imm & 0x1f) << 7) | op
  }

  function BType(op: Word, f3: Word, rs1: RegIndex, rs2: RegIndex, imm: Word): Word {
    ((imm & 0x1000) << 19) | ((imm & 0x7e0) << 20) | ((rs2 as Word) << 20) | ((rs1 as Word) << 15) | (f3 << 12)
    | ((imm & 0x1e) << 7) | ((imm & 0x800) >> 4) | op
  }

  function UType(op: Word, rd: RegIndex, imm: Word): Word { imm | ((rd as Word) << 7) | op }

  function JType(op: Word, rd: RegIndex, imm: Word): Word {
    ((imm & 0x100000) << 11) | ((imm & 0x7fe) << 20) | ((imm & 0x800) << 9) | (imm & 0xff000)
    | ((rd as Word) << 7) | op
  }

  // --- Immediates that fit their field ----------------------------------------

  predicate Signed12(v: Word) { SignExtend(v & 0xfff, 0x800) == v }
  predicate Signed13(v: Word) { v & 1 == 0 && SignExtend(v & 0x1fff, 0x1000) == v }
  predicate Signed21(v: Word) { v & 1 == 0 && SignExtend(v & 0x1fffff, 0x100000) == v }
  predicate Upper20(v: Word) { v & 0xfff == 0 }

  // --- Function codes -----------------------------------------------------------

  function ConditionCode(c: Condition): Word {
    match c case Eq => 0 case Ne => 1 case Lt => 4 case Ge => 5 case Ltu => 6 case Geu => 7
  }

  function LoadCode(k: LoadKind): Word { match k case Lb => 0 case Lh => 1 case Lw => 2 case Lbu => 4 case Lhu => 5 }

  function StoreCode(k: StoreKind): Word { match k case Sb => 0 case Sh => 1 case Sw => 2 }

  function AluCode(op: AluOp): Word {
    match op
    case Add => 0 case Sub => 0 case Sll => 1 case Slt => 2 case Sltu => 3
    case Xor => 4 case Srl => 5 case Sra => 5 case Or => 6 case And => 7
  }

  function AluVariant(op: AluOp): Word { if op == Sub || op == Sra then 0x20 else 0 }

  function CsrCode(op: CsrOp, src: CsrSource): Word {
    (match op case Swap => 1 case Set => 2 case Clear => 3) + (if src.Register? then 0 else 4)
  }

  function SourceField(src: CsrSource): bv5 { match src case Register(r) => r case Immediate(u) => u }

  // --- Instructions ---------------------------------------------------------

  /** A shift amount lies below the variant bits, and there is no immediate SUB. */
  predicate OpImmFits(op: AluOp, imm: Word) {
    match op
    case Sub => false
    case Sll => imm < 32
    case Srl => imm < 32
    case Sra => imm ^ 0x400 < 32
    case _ => Signed12(imm)
  }

  predicate WellFormed(i: Instr) {
    match i
    case Lui(_, imm) => Upper20(imm)
    case Auipc(_, imm) => Upper20(imm)
    case Jal(_, imm) => Signed21(imm)
    case Jalr(_, _, imm) => Signed12(imm)
    case BranchIf(_, _, _, imm) => Signed13(imm)
    case Load(_, _, _, imm) => Signed12(imm)
    case Store(_, _, _, imm) => Signed12(imm)
    case OpImm(op, _, _, imm) => OpImmFits(op, imm)
    case _ => true
  }

  function Encode(i: Instr): Word {
    match i
    case Lui(rd, imm) => UType(0x37, rd, imm)
    case Auipc(rd, imm) => UType(0x17, rd, imm)
    case Jal(rd, imm) => JType(0x6f, rd, imm)
    case Jalr(rd, rs1, imm) => IType(0x67, 0, rd, rs1, imm)
    case BranchIf(c, rs1, rs2, imm) => BType(0x63, ConditionCode(c), rs1, rs2, imm)
    case Load(k, rd, rs1, imm) => IType(0x03, LoadCode(k), rd, rs1, imm)
    case Store(k, rs1, rs2, imm) => SType(0x23, StoreCode(k), rs1, rs2, imm)
    case OpImm(op, rd, rs1, imm) => IType(0x13, AluCode(op), rd, rs1, imm)
    case Op(op, rd, rs1, rs2) => RType(0x33, AluCode(op), AluVariant(op), rd, rs1, rs2)
    case CsrAccess(op, rd, src, a) => IType(0x73, CsrCode(op, src), rd, SourceField(src), a as Word)
    case Fence => 0x0000000f
    case Wfi => 0x10500073
    case Ecall => 0x00000073
    case Mret => 0x30200073
  }

  // --- Fields of a format -----------------------------------------------------

  lemma UFields(op: Word, rd: RegIndex, imm: Word)
    requires op < 0x80 && Upper20(imm)
    ensures var w := UType(op, rd, imm); Opcode(w) == op && Dest(w) == rd && UImm(w) == imm
  {}

  lemma JFields(op: Word, rd: RegIndex, imm: Word)
    requires op < 0x80 && Signed21(imm)
    ensures var w := JType(op, rd, imm); Opcode(w) == op && Dest(w) == rd && JImm(w) == imm
  {}

  lemma IFields(op: Word, f3: Word, rd: RegIndex, rs1: RegIndex, imm: Word)
    requires op < 0x80 && f3 < 8
    ensures var w := IType(op, f3, rd, rs1, imm);
            Opcode(w) == op && F3(w) == f3 && Dest(w) == rd && Source1(w) == rs1
  {}

  lemma IImmediate(op: Word, f3: Word, rd: RegIndex, rs1: RegIndex, imm: Word)
    requires op < 0x80 && f3 < 8
    ensures var w := IType(op, f3, rd, rs1, imm);
            (Signed12(imm) ==> IImm(w) == imm) && F7(w) == (imm & 0xfff) >> 5
            && CsrField(w) as Word == imm & 0xfff
  {}

  lemma SFields(op: Word, f3: Word, rs1: RegIndex, rs2: RegIndex, imm: Word)
    requires op < 0x80 && f3 < 8 && Signed12(imm)
    ensures var w := SType(op, f3, rs1, rs2, imm);
            Opcode(w) == op && F3(w) == f3 && Source1(w) == rs1 && Source2(w) == rs2 && SImm(w) == imm
  {}

  lemma BFields(op: Word, f3: Word, rs1: RegIndex, rs2: RegIndex, imm: Word)
    requires op < 0x80 && f3 < 8 && Signed13(imm)
    ensures var w := BType(op, f3, rs1, rs2, imm);
            Opcode(w) == op && F3(w) == f3 && Source1(w) == rs1 && Source2(w) == rs2 && BImm(w) == imm
  {}

  lemma RFields(op: Word, f3: Word, f7: Word, rd: RegIndex, rs1: RegIndex, rs2: RegIndex)
    requires op < 0x80 && f3 < 8 && f7 < 0x80
    ensures var w := RType(op, f3, f7, rd, rs1, rs2);
            Opcode(w) == op && F3(w) == f3 && F7(w) == f7 && Dest(w) == rd && Source1(w) == rs1 && Source2(w) == rs2
  {}

  // --- Words from their fields --------------------------------------------------

  lemma UWord(w: Word)
    ensures UType(Opcode(w), Dest(w), UImm(w)) == w && Upper20(UImm(w))
  {}

  lemma PositiveFits(u: Word)
    requires u & 0xfff00001 == 0
    ensures Signed21(SignExtend(u, 0x100000))
  {}

  lemma NegativeFits(u: Word)
    requires u & 0xfff00001 == 0x100000
    ensures Signed21(SignExtend(u, 0x100000))
  {}

  lemma SignBit(u: Word)
    requires u & 0xffe00001 == 0
    ensures u & 0xfff00001 == 0 || u & 0xfff00001 == 0x100000
  {}

  lemma JRange(w: Word)
    ensures JBits(w) & 0xffe00001 == 0
  {}

  lemma JFits(w: Word)
    ensures Signed21(JImm(w))
  {
    JRange(w);
    SignBit(JBits(w));
    if JBits(w) & 0xfff00001 == 0 { PositiveFits(JBits(w)); } else { NegativeFits(JBits(w)); }
    hide SignExtend, Signed21, JBits;
  }

  lemma JNegative(w: Word)
    requires w & 0x80000000 != 0
    ensures JType(Opcode(w), Dest(w), JImm(w)) == w
  {}

  lemma JPositive(w: Word)
    requires w & 0x80000000 == 0
    ensures JType(Opcode(w), Dest(w), JImm(w)) == w
  {}

  lemma JWord(w: Word)
    ensures JType(Opcode(w), Dest(w), JImm(w)) == w && Signed21(JImm(w))
  {
    JFits(w);
    if w & 0x80000000 != 0 { JNegative(w); } else { JPositive(w); }
    hide JType, Signed21, JImm, Opcode, F3, Dest, Source1, Source2;
  }
  lemma IWord(w: Word)
    ensures IType(Opcode(w), F3(w), Dest(w), Source1(w), IImm(w)) == w && Signed12(IImm(w))
  {}

  lemma CsrWord(w: Word)
    ensures IType(Opcode(w), F3(w), Dest(w), Source1(w), CsrField(w) as Word) == w
  {}

  lemma SFits(w: Word)
    ensures Signed12(SImm(w))
  {}

  lemma SNegative(w: Word)
    requires w & 0x80000000 != 0
    ensures SType(Opcode(w), F3(w), Source1(w), Source2(w), SImm(w)) == w
  {}

  lemma SPositive(w: Word)
    requires w & 0x80000000 == 0
    ensures SType(Opcode(w), F3(w), Source1(w), Source2(w), SImm(w)) == w
  {}

  lemma SWord(w: Word)
    ensures SType(Opcode(w), F3(w), Source1(w), Source2(w), SImm(w)) == w && Signed12(SImm(w))
  {
    SFits(w);
    if w & 0x80000000 != 0 { SNegative(w); } else { SPositive(w); }
    hide SType, Signed12, SImm, Opcode, F3, Dest, Source1, Source2;
  }
  lemma BFits(w: Word)
    ensures Signed13(BImm(w))
  {}

  lemma BNegative(w: Word)
    requires w & 0x80000000 != 0
    ensures BType(Opcode(w), F3(w), Source1(w), Source2(w), BImm(w)) == w
  {}

  lemma BPositive(w: Word)
    requires w & 0x80000000 == 0
    ensures BType(Opcode(w), F3(w), Source1(w), Source2(w), BImm(w)) == w
  {}

  lemma BWord(w: Word)
    ensures BType(Opcode(w), F3(w), Source1(w), Source2(w), BImm(w)) == w && Signed13(BImm(w))
  {
    BFits(w);
    if w & 0x80000000 != 0 { BNegative(w); } else { BPositive(w); }
    hide BType, Signed13, BImm, Opcode, F3, Dest, Source1, Source2;
  }
  lemma RWord(w: Word)
    ensures RType(Opcode(w), F3(w), F7(w), Dest(w), Source1(w), Source2(w)) == w
  {}

  // --- Function codes of a word -------------------------------------------------

  lemma BranchCode(w: Word)
    ensures forall c :: F3(w) == ConditionCode(c) ==> DecodeBranch(w) == Some(c)
    ensures DecodeBranch(w).Some? ==> F3(w) == ConditionCode(DecodeBranch(w).value)
  {
    hide F3;
  }

  lemma LoadFunction(w: Word)
    ensures forall k :: F3(w) == LoadCode(k) ==> DecodeLoad(w) == Some(k)
    ensures DecodeLoad(w).Some? ==> F3(w) == LoadCode(DecodeLoad(w).value)
  {
    hide F3;
  }

  lemma StoreFunction(w: Word)
    ensures forall k :: F3(w) == StoreCode(k) ==> DecodeStore(w) == Some(k)
    ensures DecodeStore(w).Some? ==> F3(w) == StoreCode(DecodeStore(w).value)
  {
    hide F3;
  }

  lemma OpFunction(w: Word)
    ensures forall op :: F3(w) == AluCode(op) && F7(w) == AluVariant(op) ==> DecodeOp(w) == Some(op)
    ensures DecodeOp(w).Some? ==> F3(w) == AluCode(DecodeOp(w).value) && F7(w) == AluVariant(DecodeOp(w).value)
  {
    hide F3, F7;
    ThreeBits(w);
  }

  lemma ThreeBits(w: Word)
    ensures F3(w) < 8
    ensures F3(w) == 0 || F3(w) == 1 || F3(w) == 2 || F3(w) == 3 || F3(w) == 4 || F3(w) == 5 || F3(w) == 6 || F3(w) == 7
  {}

  /** Where the immediate of an OP-IMM word ends up, its upper bits are F7. */
  lemma OpImmVariant(op: AluOp, imm: Word)
    requires OpImmFits(op, imm)
    ensures Signed12(imm)
    ensures op == Sll || op == Srl ==> (imm & 0xfff) >> 5 == 0
    ensures op == Sra ==> (imm & 0xfff) >> 5 == 0x20
  {}

  lemma OpImmEncodes(w: Word, op: AluOp)
    requires F3(w) == AluCode(op) && op != Sub
    requires op == Sll || op == Srl ==> F7(w) == 0
    requires op == Sra ==> F7(w) == 0x20
    ensures DecodeOpImm(w) == Some(op)
  {
    hide F3, F7;
  }

  lemma OpImmDecodes(w: Word)
    requires DecodeOpImm(w).Some?
    ensures var op := DecodeOpImm(w).value;
            && op != Sub && F3(w) == AluCode(op)
            && (op == Sll || op == Srl ==> F7(w) == 0) && (op == Sra ==> F7(w) == 0x20)
  {
    hide F3, F7;
  }

  lemma ShiftField(w: Word)
    ensures F7(w) == 0 ==> IImm(w) < 32
    ensures F7(w) == 0x20 ==> IImm(w) ^ 0x400 < 32
  {}

  lemma CsrFunction(w: Word, op: CsrOp, src: CsrSource)
    requires F3(w) == CsrCode(op, src) && Source1(w) == SourceField(src)
    ensures DecodeCsr(w) == Some(CsrAccess(op, Dest(w), src, CsrField(w)))
    ensures F3(w) & 3 != 0
  {
    hide F3, Source1, Dest, CsrField;
  }

  lemma CsrFunctionOf(w: Word)
    requires DecodeCsr(w).Some?
    ensures var i := DecodeCsr(w).value;
            && i.CsrAccess? && i.rd == Dest(w) && i.csr == CsrField(w) && SourceField(i.src) == Source1(w)
            && F3(w) == CsrCode(i.cop, i.src)
  {
    hide F3, Source1, Dest, CsrField;
    ThreeBits(w);
  }

  lemma SystemWords(w: Word)
    requires F3(w) & 3 != 0
    ensures w != 0x73 && w != 0x30200073 && w != 0x10500073
  {}

  // --- Decoding what was encoded --------------------------------------------------

  lemma UpperRound(i: Instr)
    requires (i.Lui? || i.Auipc? || i.Jal?) && WellFormed(i)
    ensures Decode(Encode(i)) == Some(i)
  {
    match i
    case Lui(rd, imm) => UFields(0x37, rd, imm);
    case Auipc(rd, imm) => UFields(0x17, rd, imm);
    case Jal(rd, imm) => JFields(0x6f, rd, imm);
    hide UType, JType, Opcode, F3, Dest, Source1, Source2, UImm, JImm, IImm, SImm, BImm, Upper20, Signed21,
      DecodeBranch, DecodeLoad, DecodeStore, DecodeOpImm, DecodeOp, DecodeCsr;
  }

  lemma ImmediateRound(i: Instr)
    requires (i.Jalr? || i.Load? || i.OpImm?) && WellFormed(i)
    ensures Decode(Encode(i)) == Some(i)
  {
    var w := Encode(i);
    match i {
      case Jalr(rd, rs1, imm) => IFields(0x67, 0, rd, rs1, imm); IImmediate(0x67, 0, rd, rs1, imm);
      case Load(k, rd, rs1, imm) =>
        LoadCodeSmall(k);
        IFields(0x03, LoadCode(k), rd, rs1, imm);
        IImmediate(0x03, LoadCode(k), rd, rs1, imm);
        LoadFunction(w);
      case OpImm(op, rd, rs1, imm) =>
        AluCodeSmall(op);
        IFields(0x13, AluCode(op), rd, rs1, imm);
        IImmediate(0x13, AluCode(op), rd, rs1, imm);
        OpImmVariant(op, imm);
        OpImmEncodes(w, op);
    }
    hide IType, Opcode, F3, F7, Dest, Source1, Source2, CsrField, UImm, JImm, IImm, SImm, BImm, Signed12,
      DecodeBranch, DecodeLoad, DecodeStore, DecodeOpImm, DecodeOp, DecodeCsr, AluCode, LoadCode;
  }

  lemma LoadCodeSmall(k: LoadKind)
    ensures LoadCode(k) < 8
  {}

  lemma AluCodeSmall(op: AluOp)
    ensures AluCode(op) < 8 && AluVariant(op) < 0x80
  {}

  lemma ConditionCodeSmall(c: Condition)
    ensures ConditionCode(c) < 8
  {}

  lemma StoreCodeSmall(k: StoreKind)
    ensures StoreCode(k) < 8
  {}

  lemma CsrCodeSmall(op: CsrOp, src: CsrSource)
    ensures CsrCode(op, src) < 8
  {}

  lemma CsrFieldRange(a: bv12)
    ensures (a as Word) & 0xfff == a as Word
  {}

  lemma SameCsr(a: bv12, b: bv12)
    requires a as Word == b as Word
    ensures a == b
  {}

  lemma RegisterRound(i: Instr)
    requires (i.BranchIf? || i.Store? || i.Op?) && WellFormed(i)
    ensures Decode(Encode(i)) == Some(i)
  {
    var w := Encode(i);
    match i {
      case BranchIf(c, rs1, rs2, imm) =>
        ConditionCodeSmall(c);
        BFields(0x63, ConditionCode(c), rs1, rs2, imm);
        BranchCode(w);
      case Store(k, rs1, rs2, imm) =>
        StoreCodeSmall(k);
        SFields(0x23, StoreCode(k), rs1, rs2, imm);
        StoreFunction(w);
      case Op(op, rd, rs1, rs2) =>
        AluCodeSmall(op);
        RFields(0x33, AluCode(op), AluVariant(op), rd, rs1, rs2);
        OpFunction(w);
    }
    hide BType, SType, RType, Opcode, F3, F7, Dest, Source1, Source2, CsrField, UImm, JImm, IImm, SImm, BImm, Signed12,
      Signed13, DecodeBranch, DecodeLoad, DecodeStore, DecodeOpImm, DecodeOp, DecodeCsr, AluCode, AluVariant, StoreCode,
      ConditionCode;
  }

  lemma CsrRound(i: Instr)
    requires i.CsrAccess?
    ensures Decode(Encode(i)) == Some(i)
  {
    var w := Encode(i);
    CsrCodeSmall(i.cop, i.src);
    IFields(0x73, CsrCode(i.cop, i.src), i.rd, SourceField(i.src), i.csr as Word);
    IImmediate(0x73, CsrCode(i.cop, i.src), i.rd, SourceField(i.src), i.csr as Word);
    CsrFieldRange(i.csr);
    SameCsr(CsrField(w), i.csr);
    CsrFunction(w, i.cop, i.src);
    SystemWords(w);
    hide IType, Opcode, F3, F7, Dest, Source1, Source2, CsrField, UImm, JImm, IImm, SImm, BImm, Signed12,
      DecodeBranch, DecodeLoad, DecodeStore, DecodeOpImm, DecodeOp, DecodeCsr, CsrCode, SourceField;
  }

  lemma SystemRound(i: Instr)
    requires i.Fence? || i.Wfi? || i.Ecall? || i.Mret?
    ensures Decode(Encode(i)) == Some(i)
  {
    SystemOpcodes();
    hide Opcode, F3, F7, Dest, Source1, Source2, CsrField, UImm, JImm, IImm, SImm, BImm, Signed12,
      DecodeBranch, DecodeLoad, DecodeStore, DecodeOpImm, DecodeOp, DecodeCsr;
  }

  lemma SystemOpcodes()
    ensures Opcode(0x73) == 0x73 && Opcode(0x30200073) == 0x73 && Opcode(0x10500073) == 0x73
    ensures Opcode(0xf) == 0xf && F3(0xf) == 0
  {}

  /** Every instruction has an encoding that decodes to it. */
  lemma DecodeEncode(i: Instr)
    requires WellFormed(i)
    ensures Decode(Encode(i)) == Some(i)
  {
    hide WellFormed, Decode, Encode;
    if
    case i.Lui? || i.Auipc? || i.Jal? => UpperRound(i);
    case i.Jalr? || i.Load? || i.OpImm? => ImmediateRound(i);
    case i.BranchIf? || i.Store? || i.Op? => RegisterRound(i);
    case i.CsrAccess? => CsrRound(i);
    case i.Fence? || i.Wfi? || i.Ecall? || i.Mret? => SystemRound(i);
  }

  // --- Encoding what was decoded ----------------------------------------------------

  lemma OpImmWord(w: Word)
    requires DecodeOpImm(w).Some?
    ensures OpImmFits(DecodeOpImm(w).value, IImm(w)) && F3(w) == AluCode(DecodeOpImm(w).value)
  {
    OpImmDecodes(w);
    ShiftField(w);
    IWord(w);
    hide F3, F7, IImm, IType, Opcode, Dest, Source1, Signed12, DecodeOpImm, AluCode;
  }

  /** The word is the encoding of its instruction; only FENCE has fields that the
      meaning ignores. */
  predicate Rebuilt(w: Word)
    requires Decode(w).Some?
  {
    var i := Decode(w).value;
    WellFormed(i) && (i.Fence? || Encode(i) == w)
  }

  lemma UpperWord(w: Word)
    requires Decode(w).Some? && (Opcode(w) == 0x37 || Opcode(w) == 0x17 || Opcode(w) == 0x6f)
    ensures Rebuilt(w)
  {
    UWord(w);
    JWord(w);
    hide UType, JType, IType, SType, BType, RType, Opcode, F3, F7, Dest, Source1, Source2, CsrField, UImm, JImm, IImm,
      SImm, BImm, Signed12, Signed13, Signed21, Upper20, OpImmFits, DecodeBranch, DecodeLoad, DecodeStore, DecodeOpImm,
      DecodeOp, DecodeCsr, AluCode, AluVariant, StoreCode, LoadCode, ConditionCode, CsrCode, SourceField;
  }

  lemma ImmediateWord(w: Word)
    requires Decode(w).Some? && (Opcode(w) == 0x67 || Opcode(w) == 0x03 || Opcode(w) == 0x13)
    ensures Rebuilt(w)
  {
    IWord(w);
    LoadFunction(w);
    if DecodeOpImm(w).Some? { OpImmWord(w); }
    hide UType, JType, IType, SType, BType, RType, Opcode, F3, F7, Dest, Source1, Source2, CsrField, UImm, JImm, IImm,
      SImm, BImm, Signed12, Signed13, Signed21, Upper20, OpImmFits, DecodeBranch, DecodeLoad, DecodeStore, DecodeOpImm,
      DecodeOp, DecodeCsr, AluCode, AluVariant, StoreCode, LoadCode, ConditionCode, CsrCode, SourceField;
  }

  lemma RegisterWord(w: Word)
    requires Decode(w).Some? && (Opcode(w) == 0x63 || Opcode(w) == 0x23 || Opcode(w) == 0x33)
    ensures Rebuilt(w)
  {
    SWord(w);
    BWord(w);
    RWord(w);
    BranchCode(w);
    StoreFunction(w);
    OpFunction(w);
    hide UType, JType, IType, SType, BType, RType, Opcode, F3, F7, Dest, Source1, Source2, CsrField, UImm, JImm, IImm,
      SImm, BImm, Signed12, Signed13, Signed21, Upper20, OpImmFits, DecodeBranch, DecodeLoad, DecodeStore, DecodeOpImm,
      DecodeOp, DecodeCsr, AluCode, AluVariant, StoreCode, LoadCode, ConditionCode, CsrCode, SourceField;
  }

  lemma SystemWord(w: Word)
    requires Decode(w).Some? && (Opcode(w) == 0x0f || Opcode(w) == 0x73)
    ensures Rebuilt(w)
  {
    CsrWord(w);
    if DecodeCsr(w).Some? { CsrFunctionOf(w); }
    hide UType, JType, IType, SType, BType, RType, Opcode, F3, F7, Dest, Source1, Source2, CsrField, UImm, JImm, IImm,
      SImm, BImm, Signed12, Signed13, Signed21, Upper20, OpImmFits, DecodeBranch, DecodeLoad, DecodeStore, DecodeOpImm,
      DecodeOp, DecodeCsr, AluCode, AluVariant, StoreCode, LoadCode, ConditionCode, CsrCode, SourceField;
  }

  lemma DecodedOpcodes(w: Word)
    requires Decode(w).Some?
    ensures var o := Opcode(w);
            o == 0x37 || o == 0x17 || o == 0x6f || o == 0x67 || o == 0x03 || o == 0x13 || o == 0x63 || o == 0x23
              || o == 0x33 || o == 0x0f || o == 0x73
  {
    hide UType, JType, IType, SType, BType, RType, Opcode, F3, F7, Dest, Source1, Source2, CsrField, UImm, JImm, IImm,
      SImm, BImm, Signed12, Signed13, Signed21, Upper20, OpImmFits, DecodeBranch, DecodeLoad, DecodeStore, DecodeOpImm,
      DecodeOp, DecodeCsr, AluCode, AluVariant, StoreCode, LoadCode, ConditionCode, CsrCode, SourceField;
  }

  /** Every word that decodes is the encoding of its instruction. */
  lemma EncodeDecode(w: Word)
    requires Decode(w).Some?
    ensures Rebuilt(w)
  {
    hide Rebuilt, Decode, Opcode;
    DecodedOpcodes(w);
    if
    case Opcode(w) == 0x37 || Opcode(w) == 0x17 || Opcode(w) == 0x6f => UpperWord(w);
    case Opcode(w) == 0x67 || Opcode(w) == 0x03 || Opcode(w) == 0x13 => ImmediateWord(w);
    case Opcode(w) == 0x63 || Opcode(w) == 0x23 || Opcode(w) == 0x33 => RegisterWord(w);
    case Opcode(w) == 0x0f || Opcode(w) == 0x73 => SystemWord(w);
  }
}
