/** The decoder and data path compute RV32I: for every word of the instruction
    set the control bits select, and the data path computes, what the ISA says. */
module IsaMatch {
  import opened Words
  import opened Decoder
  import opened Execute
  import opened Machine
  import opened Isa
  import opened DecoderFacts

  // --- Comparison through the subtractor --------------------------------------

  predicate Below(a: Word, b: Word) { a < b }
  predicate Negative(a: Word, b: Word) { (a - b) & 0x80000000 != 0 }
  predicate SameSign(a: Word, b: Word) { (a ^ b) & 0x80000000 == 0 }
  predicate NextDiffers(a: Word, b: Word) { (a ^ b) & 0x40000000 != 0 }
  predicate Bit30(x: Word) { x & 0x40000000 != 0 }

  /** Below equal sign bits, the next bit decides the comparison unless it agrees too. */
  lemma CompareStep(a: Word, b: Word)
    requires SameSign(a, b)
    ensures Below(a, b) == if NextDiffers(a, b) then Bit30(b) else Below(a << 1, b << 1)
  {}

  /** It decides the sign of the difference in the same way. */
  lemma SignStep(a: Word, b: Word)
    requires SameSign(a, b)
    ensures Negative(a, b) == if NextDiffers(a, b) then Bit30(b) else Negative(a << 1, b << 1)
  {}

  /** The low positions marked by n have been shifted out. */
  predicate Cleared(a: Word, b: Word, n: Word) { n & (n + 1) == 0 && (a | b) & n == 0 }

  lemma NextCleared(a: Word, b: Word, n: Word)
    requires Cleared(a, b, n) && n != 0xffffffff
    ensures Cleared(a << 1, b << 1, (n << 1) | 1) && !((n << 1) | 1) < !n
  {}

  lemma NextSign(a: Word, b: Word)
    ensures NextDiffers(a, b) == !SameSign(a << 1, b << 1)
  {}

  lemma LastCleared(a: Word, b: Word)
    requires Cleared(a, b, 0xffffffff)
    ensures !Below(a, b) && !Negative(a, b)
  {}

  lemma {:induction false} BorrowFrom(a: Word, b: Word, n: Word)
    requires SameSign(a, b) && Cleared(a, b, n)
    ensures Below(a, b) == Negative(a, b)
    decreases !n
  {
    hide Below, Negative, SameSign, NextDiffers, Bit30, Cleared;
    if n == 0xffffffff {
      LastCleared(a, b);
    } else {
      CompareStep(a, b);
      SignStep(a, b);
      if !NextDiffers(a, b) {
        NextCleared(a, b, n);
        NextSign(a, b);
        BorrowFrom(a << 1, b << 1, (n << 1) | 1);
      }
    }
  }

  lemma SignsAgree(a: Word, b: Word)
    ensures Cleared(a, b, 0) && SameSign(a, b) == (Bit31(a) == Bit31(b))
  {}

  lemma SignNames(a: Word, b: Word)
    ensures Negative(a, b) == Bit31(Minus(a, b))
  {}

  /** For words with equal sign bits the sign of the difference is the comparison. */
  lemma BorrowIsLess(a: Word, b: Word)
    requires Bit31(a) == Bit31(b)
    ensures Below(a, b) == Bit31(Minus(a, b))
  {
    hide Below, Negative, SameSign, Cleared, Bit31, Minus;
    SignsAgree(a, b);
    BorrowFrom(a, b, 0);
    SignNames(a, b);
  }


  lemma SignCases(a: Word, b: Word)
    ensures Bit31(a) != Bit31(b) ==> (a < b) == Bit31(b) && SignedLess(a, b) == Bit31(a)
    ensures Bit31(a) == Bit31(b) ==> SignedLess(a, b) == (a < b)
  {}

  lemma LessMatches(w: Word, a: Word, b: Word)
    requires UsesSubLess(w)
    ensures Less(w, a, b) == if LessUnsigned(w) then a < b else SignedLess(a, b)
  {
    hide Minus, SignedLess, Bit31, UsesSubLess, SrcAddZero, LessUnsigned;
    SignCases(a, b);
    if Bit31(a) == Bit31(b) {
      BorrowIsLess(a, b);
      assert Below(a, b) == (a < b);
    }
  }

  // --- Immediates -----------------------------------------------------------

  lemma ImmIMatches(w: Word)
    ensures ImmI(w) == IImm(w) && w & 0xfffff000 == UImm(w)
  {}

  lemma ImmSMatches(w: Word)
    ensures ImmS(w) == SImm(w)
  {}

  lemma ImmBMatches(w: Word)
    ensures ImmB(w) == BImm(w)
  {}

  lemma ImmJNegative(w: Word)
    requires w & 0x80000000 != 0
    ensures ImmJ(w) == JImm(w)
  {}

  lemma ImmJPositive(w: Word)
    requires w & 0x80000000 == 0
    ensures ImmJ(w) == JImm(w)
  {}

  lemma ImmJMatches(w: Word)
    ensures ImmJ(w) == JImm(w)
  {
    hide ImmJ, JImm;
    if w & 0x80000000 != 0 {
      ImmJNegative(w);
    } else {
      ImmJPositive(w);
    }
  }

  // --- Control bits by instruction class ------------------------------------

  /** Neither memory, CSR, branch nor environment instruction. */
  predicate Plain(w: Word) {
    Legal(w) && !IsMem(w) && !IsCsr(w) && Env(w) == EnvNone && Branch(w) == BranchInc
  }

  predicate AddControls(w: Word) { Alu(w) == AluAddSub && !UsesSubLess(w) && !SrcAddZero(w) && Shift(w) == ShiftNone }
  predicate PassControls(w: Word) { Alu(w) == AluAddSub && !UsesSubLess(w) && SrcAddZero(w) }

  predicate OpControls(op: AluOp, w: Word) {
    match op
    case Add => AddControls(w)
    case Sub => Alu(w) == AluAddSub && UsesSubLess(w) && Shift(w) == ShiftNone
    case Slt => Alu(w) == AluSlt && UsesSubLess(w) && !LessUnsigned(w) && Shift(w) == ShiftNone
    case Sltu => Alu(w) == AluSlt && UsesSubLess(w) && LessUnsigned(w) && Shift(w) == ShiftNone
    case Xor => Alu(w) == AluBitwise && Bitwise(w) == BitwiseXor && Shift(w) == ShiftNone
    case Or => Alu(w) == AluBitwise && Bitwise(w) == BitwiseOr && Shift(w) == ShiftNone
    case And => Alu(w) == AluBitwise && Bitwise(w) == BitwiseAnd && Shift(w) == ShiftNone
    case Sll => PassControls(w) && Shift(w) == ShiftSll
    case Srl => PassControls(w) && Shift(w) == ShiftSrl
    case Sra => PassControls(w) && Shift(w) == ShiftSra
  }

  lemma LuiLegal(w: Word)
    requires Opcode(w) == 0x37
    ensures Legal(w)
  {}

  lemma AuipcLegal(w: Word)
    requires Opcode(w) == 0x17
    ensures Legal(w)
  {}

  lemma UpperQuiet(w: Word)
    requires Opcode(w) == 0x37 || Opcode(w) == 0x17
    ensures !IsMem(w) && !IsCsr(w) && RegfileWriteBit(w)
  {}

  lemma UpperFlow(w: Word)
    requires Opcode(w) == 0x37 || Opcode(w) == 0x17
    ensures Env(w) == EnvNone && Branch(w) == BranchInc
  {}

  lemma UpperClass(w: Word)
    requires Opcode(w) == 0x37 || Opcode(w) == 0x17
    ensures Legal(w) && !IsMem(w) && !IsCsr(w) && Env(w) == EnvNone && Branch(w) == BranchInc && RegfileWriteBit(w)
  {
    hide Opcode, Legal, IsMem, IsCsr, Env, Branch, RegfileWriteBit;
    if Opcode(w) == 0x37 { LuiLegal(w); } else { AuipcLegal(w); }
    UpperQuiet(w);
    UpperFlow(w);
  }

  lemma LuiControls(w: Word)
    requires Opcode(w) == 0x37
    ensures PassControls(w) && Shift(w) == ShiftNone && Src1Sel(w) == Src1Imu
  {}

  lemma AuipcControls(w: Word)
    requires Opcode(w) == 0x17
    ensures AddControls(w) && Src1Sel(w) == Src1Imu && Src2Sel(w) == Src2Pc
  {}

  lemma UpperControls(w: Word)
    ensures Opcode(w) == 0x37 ==>
              && Plain(w) && RegfileWriteBit(w) && PassControls(w) && Shift(w) == ShiftNone
              && Src1Sel(w) == Src1Imu
    ensures Opcode(w) == 0x17 ==>
              && Plain(w) && RegfileWriteBit(w) && AddControls(w)
              && Src1Sel(w) == Src1Imu && Src2Sel(w) == Src2Pc
  {
    hide Opcode, Legal, IsMem, IsCsr, Env, Branch, RegfileWriteBit, PassControls, AddControls, Shift, Src1Sel, Src2Sel;
    if Opcode(w) == 0x37 {
      UpperClass(w);
      LuiControls(w);
    } else if Opcode(w) == 0x17 {
      UpperClass(w);
      AuipcControls(w);
    }
  }

  lemma OpImmLegal(w: Word)
    requires Opcode(w) == 0x13 && DecodeOpImm(w).Some?
    ensures Legal(w)
  {}

  lemma OpImmClass(w: Word)
    requires Opcode(w) == 0x13
    ensures !IsMem(w) && !IsCsr(w) && Env(w) == EnvNone && Branch(w) == BranchInc && RegfileWriteBit(w)
  {}

  lemma OpImmPlain(w: Word)
    requires Opcode(w) == 0x13 && DecodeOpImm(w).Some?
    ensures Plain(w) && RegfileWriteBit(w)
  {
    hide Opcode, DecodeOpImm, Legal, IsMem, IsCsr, Env, Branch, RegfileWriteBit;
    OpImmLegal(w);
    OpImmClass(w);
  }

  lemma OpImmControls(w: Word)
    requires Opcode(w) == 0x13 && DecodeOpImm(w).Some?
    ensures OpControls(DecodeOpImm(w).value, w) && Src1Sel(w) == Src1Rs && Src2Sel(w) == Src2Imi
  {}

  lemma OpRegLegal(w: Word)
    requires Opcode(w) == 0x33 && DecodeOp(w).Some?
    ensures Legal(w)
  {}

  lemma OpRegClass(w: Word)
    requires Opcode(w) == 0x33
    ensures !IsMem(w) && !IsCsr(w) && Env(w) == EnvNone && Branch(w) == BranchInc && RegfileWriteBit(w)
    ensures Src1Sel(w) == Src1Rs && Src2Sel(w) == Src2Rs
  {}

  lemma OpRegOperation(w: Word)
    requires Opcode(w) == 0x33 && DecodeOp(w).Some?
    ensures OpControls(DecodeOp(w).value, w)
  {}

  lemma OpRegControls(w: Word)
    requires Opcode(w) == 0x33 && DecodeOp(w).Some?
    ensures Plain(w) && RegfileWriteBit(w) && OpControls(DecodeOp(w).value, w) && Src1Sel(w) == Src1Rs
            && Src2Sel(w) == Src2Rs
  {
    hide Opcode, DecodeOp, Legal, IsMem, IsCsr, Env, Branch, RegfileWriteBit, OpControls, Src1Sel, Src2Sel;
    OpRegLegal(w);
    OpRegClass(w);
    OpRegOperation(w);
  }

  lemma JalClass(w: Word)
    requires Opcode(w) == 0x6f
    ensures Legal(w) && !IsMem(w) && !IsCsr(w) && Env(w) == EnvNone && RegfileWriteBit(w) && Branch(w) == BranchJal
  {}

  lemma JalrClass(w: Word)
    requires Opcode(w) == 0x67 && F3(w) == 0
    ensures Legal(w) && !IsMem(w) && !IsCsr(w) && Env(w) == EnvNone && RegfileWriteBit(w) && Branch(w) == BranchJalr
  {}

  lemma JumpControls(w: Word)
    requires Opcode(w) == 0x6f || (Opcode(w) == 0x67 && F3(w) == 0)
    ensures AddControls(w) && Src1Sel(w) == Src1PcIncrement && Src2Sel(w) == Src2Pc
  {}

  lemma BranchClass(w: Word)
    requires Opcode(w) == 0x63
    ensures !IsMem(w) && !IsCsr(w) && Env(w) == EnvNone && !RegfileWriteBit(w) && Branch(w) == BranchB
    ensures Src1Sel(w) == Src1Rs && Src2Sel(w) == Src2Rs && UsesSubLess(w)
  {}

  lemma BranchLegal(w: Word)
    requires Opcode(w) == 0x63 && DecodeBranch(w).Some?
    ensures Legal(w)
  {}

  lemma BranchSign(w: Word)
    requires Opcode(w) == 0x63 && F3(w) >= 4
    ensures LessUnsigned(w) == (F3(w) >= 6)
  {}

  lemma BranchControls(w: Word)
    requires Opcode(w) == 0x63 && DecodeBranch(w).Some?
    ensures Legal(w) && !IsMem(w) && !IsCsr(w) && Env(w) == EnvNone && !RegfileWriteBit(w) && Branch(w) == BranchB
    ensures Src1Sel(w) == Src1Rs && Src2Sel(w) == Src2Rs && UsesSubLess(w)
    ensures F3(w) >= 4 ==> LessUnsigned(w) == (F3(w) >= 6)
  {
    hide Opcode, F3, DecodeBranch, Legal, IsMem, IsCsr, Env, Branch, RegfileWriteBit, Src1Sel, Src2Sel, UsesSubLess,
      LessUnsigned;
    BranchClass(w);
    BranchLegal(w);
    if F3(w) >= 4 { BranchSign(w); }
  }

  lemma LoadLegal(w: Word)
    requires Opcode(w) == 0x03 && DecodeLoad(w).Some?
    ensures Legal(w)
  {}

  lemma LoadClass(w: Word)
    requires Opcode(w) == 0x03
    ensures IsMem(w) && !IsStore(w) && !IsCsr(w) && Env(w) == EnvNone && RegfileWriteBit(w) && Branch(w) == BranchInc
    ensures Src1Sel(w) == Src1Rs && Src2Sel(w) == Src2Imi && AddControls(w)
  {}

  lemma LoadControls(w: Word)
    requires Opcode(w) == 0x03 && DecodeLoad(w).Some?
    ensures Legal(w) && IsMem(w) && !IsStore(w) && !IsCsr(w) && Env(w) == EnvNone && RegfileWriteBit(w)
            && Branch(w) == BranchInc
    ensures Src1Sel(w) == Src1Rs && Src2Sel(w) == Src2Imi && AddControls(w)
  {
    hide Opcode, DecodeLoad, Legal, IsMem, IsStore, IsCsr, Env, Branch, RegfileWriteBit, Src1Sel, Src2Sel, AddControls;
    LoadLegal(w);
    LoadClass(w);
  }

  lemma StoreLegal(w: Word)
    requires Opcode(w) == 0x23 && DecodeStore(w).Some?
    ensures Legal(w)
  {}

  lemma StoreClass(w: Word)
    requires Opcode(w) == 0x23
    ensures IsMem(w) && IsStore(w) && !IsCsr(w) && Env(w) == EnvNone && !RegfileWriteBit(w) && Branch(w) == BranchInc
    ensures Src1Sel(w) == Src1Rs && Src2Sel(w) == Src2Ims && AddControls(w)
  {}

  lemma StoreControls(w: Word)
    requires Opcode(w) == 0x23 && DecodeStore(w).Some?
    ensures Legal(w) && IsMem(w) && IsStore(w) && !IsCsr(w) && Env(w) == EnvNone && !RegfileWriteBit(w)
            && Branch(w) == BranchInc
    ensures Src1Sel(w) == Src1Rs && Src2Sel(w) == Src2Ims && AddControls(w)
  {
    hide Opcode, DecodeStore, Legal, IsMem, IsStore, IsCsr, Env, Branch, RegfileWriteBit, Src1Sel, Src2Sel, AddControls;
    StoreLegal(w);
    StoreClass(w);
  }

  lemma CsrLegal(w: Word)
    requires Opcode(w) == 0x73 && F3(w) & 3 != 0
    ensures Legal(w)
  {}

  lemma CsrClass(w: Word)
    requires Opcode(w) == 0x73 && F3(w) & 3 != 0
    ensures !IsMem(w) && IsCsr(w) && Env(w) == EnvNone && RegfileWriteBit(w) && Branch(w) == BranchInc
  {}

  lemma CsrSource(w: Word)
    requires Opcode(w) == 0x73 && F3(w) & 3 != 0
    ensures Src1Sel(w) == if F3(w) < 4 then Src1Rs else Src1Urs1
  {}

  lemma CsrControls(w: Word)
    requires Opcode(w) == 0x73 && F3(w) & 3 != 0
    ensures Legal(w) && !IsMem(w) && IsCsr(w) && Env(w) == EnvNone && RegfileWriteBit(w) && Branch(w) == BranchInc
    ensures Src1Sel(w) == if F3(w) < 4 then Src1Rs else Src1Urs1
  {
    hide Opcode, F3, Legal, IsMem, IsCsr, Env, Branch, RegfileWriteBit, Src1Sel;
    CsrLegal(w);
    CsrClass(w);
    CsrSource(w);
  }

  lemma SystemControls(w: Word)
    requires w == 0x73 || w == 0x30200073 || w == 0x10500073 || (Opcode(w) == 0x0f && F3(w) <= 1)
    ensures Legal(w) && !IsMem(w) && !IsCsr(w) && !WritesRd(w) && Branch(w) == BranchInc
    ensures Env(w) == if w == 0x73 then EnvEcall else if w == 0x30200073 then EnvXret else EnvNone
    ensures w == 0x30200073 ==> IsMret(w)
  {}
}
