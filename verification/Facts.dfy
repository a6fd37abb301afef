/** Bit-level facts about the decoder and data path that the pipeline proof
    relies on.  Each is decided by bit-vector reasoning over all words. */
module DecoderFacts {
  import opened Words
  import opened Decoder
  import opened Execute
  import opened Machine

  /** Every legal word belongs to at most one of the exclusive classes. */
  predicate OneClass(i: Word) {
    && (IsMem(i) ==> Shift(i) == ShiftNone && Branch(i) == BranchInc && !IsCsr(i) && Env(i) == EnvNone
                     && UsesRs1(i) && (IsStore(i) ==> UsesRs2(i) && !WritesRd(i)))
    && (Shift(i) != ShiftNone ==> Branch(i) == BranchInc && !IsCsr(i) && Env(i) == EnvNone)
    && (Branch(i) != BranchInc ==> !IsCsr(i) && Env(i) == EnvNone)
    && (Env(i) != EnvNone ==> !IsCsr(i) && !WritesRd(i))
  }

  lemma LegalIsOneClass(i: Word)
    requires Legal(i)
    ensures OneClass(i)
  {}

  /** Two operand pairs that agree where the hazard unit looks. */
  predicate SameUsed(i: Word, x: Word, y: Word, x': Word, y': Word) {
    (UsesRs1(i) ==> x == x') && (UsesRs2(i) ==> y == y')
  }

  lemma BranchUses(i: Word)
    requires Legal(i)
    ensures Branch(i) == BranchB ==> UsesRs1(i) && UsesRs2(i)
    ensures Branch(i) == BranchJalr ==> UsesRs1(i)
  {}

  lemma FirstUse(i: Word)
    requires Legal(i) && Src1Sel(i) == Src1Rs && (WritesRd(i) || IsMem(i) || IsCsr(i) || Shift(i) != ShiftNone)
    ensures UsesRs1(i)
  {}

  lemma SecondUse(i: Word)
    requires Legal(i) && Src2Sel(i) == Src2Rs && ((WritesRd(i) && !IsCsr(i)) || IsMem(i) || Shift(i) != ShiftNone)
    ensures UsesRs2(i)
  {}

  lemma FirstFixed(i: Word, x: Word, x': Word)
    ensures Src1Sel(i) != Src1Rs || x == x' ==> Src1(i, x) == Src1(i, x')
  {
    hide Src1Sel;
  }

  lemma SecondFixed(i: Word, pc: Word, y: Word, y': Word)
    ensures Src2Sel(i) != Src2Rs || y == y' ==> Src2(i, pc, y) == Src2(i, pc, y')
  {
    hide Src2Sel, ImmI, ImmS;
  }

  lemma SourcesAgree(i: Word, pc: Word, x: Word, y: Word, x': Word, y': Word)
    requires Legal(i) && SameUsed(i, x, y, x', y')
    ensures WritesRd(i) || IsMem(i) || Branch(i) == BranchB || IsCsr(i) || Shift(i) != ShiftNone ==>
            Src1(i, x) == Src1(i, x')
    ensures (WritesRd(i) && !IsCsr(i)) || IsMem(i) || Branch(i) == BranchB || Shift(i) != ShiftNone ==>
            Src2(i, pc, y) == Src2(i, pc, y')
    ensures Branch(i) == BranchJalr ==> x == x'
  {
    hide Legal, UsesRs1, UsesRs2, WritesRd, IsMem, IsCsr, Shift, Branch, Src1Sel, Src2Sel, Src1, Src2;
    BranchUses(i);
    FirstFixed(i, x, x');
    SecondFixed(i, pc, y, y');
    if Src1Sel(i) == Src1Rs && (WritesRd(i) || IsMem(i) || IsCsr(i) || Shift(i) != ShiftNone) { FirstUse(i); }
    if Src2Sel(i) == Src2Rs && ((WritesRd(i) && !IsCsr(i)) || IsMem(i) || Shift(i) != ShiftNone) { SecondUse(i); }
  }

  lemma UnusedInBranch(i: Word, pc: Word, x: Word, y: Word, x': Word, y': Word)
    requires Legal(i) && SameUsed(i, x, y, x', y')
    ensures BranchDo(i, pc, x, y) == BranchDo(i, pc, x', y')
    ensures BranchDo(i, pc, x, y) ==> BranchTarget(i, pc, x) == BranchTarget(i, pc, x')
  {
    hide BranchTaken, BranchTarget, Src1, Src2, Branch, Legal, UsesRs1, UsesRs2, WritesRd, IsMem, Shift, IsCsr;
    SourcesAgree(i, pc, x, y, x', y');
    OnlyBNeedsOperands(i, Src1(i, x), Src2(i, pc, y), Src1(i, x'), Src2(i, pc, y'));
    TargetAgrees(i, pc, x, x');
  }

  lemma OnlyBNeedsOperands(i: Word, src1: Word, src2: Word, src1': Word, src2': Word)
    requires Branch(i) == BranchB ==> src1 == src1' && src2 == src2'
    ensures BranchTaken(i, src1, src2) == BranchTaken(i, src1', src2')
  {
    hide Less, Funct3, Branch;
  }

  lemma TargetAgrees(i: Word, pc: Word, x: Word, x': Word)
    requires Branch(i) == BranchJalr ==> x == x'
    ensures BranchTarget(i, pc, x) == BranchTarget(i, pc, x')
  {
    hide Branch, BranchOffset, Plus, ClearBit0;
  }

  lemma AddressAgrees(i: Word, pc: Word, x: Word, y: Word, x': Word, y': Word)
    requires Src1(i, x) == Src1(i, x') && Src2(i, pc, y) == Src2(i, pc, y')
    ensures Address(i, pc, x, y) == Address(i, pc, x', y') && ExecuteResult(i, pc, x, y) == ExecuteResult(i, pc, x', y')
  {
    hide Src1, Src2, AddSub, AluOut, ShiftBy, Amount, Shift;
  }

  lemma StoreUses(i: Word)
    requires Legal(i) && IsMem(i) && IsStore(i)
    ensures UsesRs2(i)
  {}

  lemma UnusedInData(i: Word, pc: Word, x: Word, y: Word, x': Word, y': Word)
    requires Legal(i) && SameUsed(i, x, y, x', y')
    ensures IsMem(i) ==> Address(i, pc, x, y) == Address(i, pc, x', y') && (IsStore(i) ==> y == y')
    ensures WritesRd(i) && !IsMem(i) && !IsCsr(i) ==> ExecuteResult(i, pc, x, y) == ExecuteResult(i, pc, x', y')
    ensures IsCsr(i) ==> Src1(i, x) == Src1(i, x')
    ensures Shift(i) != ShiftNone ==> Src1(i, x) == Src1(i, x') && Src2(i, pc, y) == Src2(i, pc, y')
  {
    hide Address, ExecuteResult, Src1, Src2, Branch, Legal, UsesRs1, UsesRs2, WritesRd, IsMem, IsStore, Shift, IsCsr;
    SourcesAgree(i, pc, x, y, x', y');
    if IsMem(i) && IsStore(i) { StoreUses(i); }
    if Src1(i, x) == Src1(i, x') && Src2(i, pc, y) == Src2(i, pc, y') { AddressAgrees(i, pc, x, y, x', y'); }
  }

  /** Operands the hazard unit does not look at cannot influence the instruction. */
  lemma UnusedInTrap(i: Word, pc: Word, x: Word, y: Word, x': Word, y': Word)
    requires Legal(i) ==> SameUsed(i, x, y, x', y')
    ensures TrapOf(i, pc, x, y) == TrapOf(i, pc, x', y')
  {
    hide BranchDo, BranchTarget, Bit1, Size, Address, AlignFault, Legal, IsMem, IsStore, IsCsr, WritesRd, UsesRs1,
      UsesRs2, Env, Shift, ExecuteResult, Src1, Src2;
    if Legal(i) {
      UnusedInBranch(i, pc, x, y, x', y');
      UnusedInData(i, pc, x, y, x', y');
    }
  }

  lemma MemoryResultIsAddress(i: Word, pc: Word, x: Word, y: Word)
    requires Legal(i) && IsMem(i)
    ensures AluOut(i, Src1(i, x), Src2(i, pc, y)) == Address(i, pc, x, y)
  {}

  lemma LeftStep(x: Word, n: bv5)
    requires n != 0
    ensures ShiftLeft(x << 1, n - 1) == ShiftLeft(x, n)
  {}

  lemma RightStep(x: Word, n: bv5)
    requires n != 0
    ensures ShiftRight(x >> 1, n - 1) == ShiftRight(x, n)
  {}

  lemma SignStep(x: Word)
    ensures Bit31(x) ==> Bit31(ShiftOne(ShiftSra, x))
    ensures !Bit31(x) ==> !Bit31(ShiftOne(ShiftSra, x)) && ShiftOne(ShiftSra, x) == x >> 1
  {}

  lemma InvertStep(x: Word)
    ensures !((x >> 1) | 0x80000000) == (!x) >> 1
  {}

  lemma ArithmeticStep(x: Word, n: bv5)
    requires n != 0
    ensures ShiftRight(Invert((x >> 1) | 0x80000000), n - 1) == ShiftRight(Invert(x), n)
  {
    InvertStep(x);
    RightStep(Invert(x), n);
    hide ShiftRight;
  }

  /** One iteration of the shifter leaves one position less to shift. */
  lemma ShiftStep(k: ShiftCtrl, x: Word, n: bv5)
    requires k != ShiftNone && n != 0
    ensures ShiftBy(k, ShiftOne(k, x), n - 1) == ShiftBy(k, x, n)
  {
    hide ShiftLeft, ShiftRight, Invert, Bit31;
    match k
    case ShiftSll => LeftStep(x, n);
    case ShiftSrl => RightStep(x, n);
    case ShiftSra =>
      SignStep(x);
      if Bit31(x) {
        ArithmeticStep(x, n);
      } else {
        RightStep(x, n);
      }
  }

  lemma LastShift(k: ShiftCtrl, x: Word, n: bv5)
    requires k != ShiftNone && n != 0 && n & 0x1e == 0
    ensures n == 1 && ShiftOne(k, x) == ShiftBy(k, x, n)
  {}

  lemma AlignFacts(a: Word)
    ensures Aligned(Align(a)) && Plus(a, 0) == a
    ensures Aligned(a) ==> Align(a) == a && Aligned(Plus(a, 4))
  {}

  lemma TargetAligned(i: Word, pc: Word, x: Word)
    ensures !Bit1(BranchTarget(i, pc, x)) ==> Aligned(BranchTarget(i, pc, x))
  {}

  lemma VectorAligned(c: Csrs)
    ensures Aligned(TrapVector(c))
  {}
}
