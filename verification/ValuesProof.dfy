/** Operands, results and memory addresses in the pipeline stay those of the
    sequential machine: the hazard unit and the iterative shifter. */
module ValuesProof {
  import opened Words
  import opened Decoder
  import opened Execute
  import opened Machine
  import opened Core
  import opened Invariant
  import opened DecoderFacts
  import opened ChainProof

  lemma RegChange(a: Arch, a': Arch, s: State, x: In, r: RegIndex)
    requires Advanced(a, a', s, x)
    ensures !s.boot && !Writer(s.w.valid, s.w.inst, r) ==> a'.regs(r) == s.regs(r) == a.regs(r)
    ensures !s.boot && Writer(s.w.valid, s.w.inst, r) ==> NextBuffer(s) == WriteBackBuffer(true, r)
  {
    hide Rd, WritesRd, WData, WFlushNext, AfterW, NextFetch, NextDecode, NextExecute, NextMemory, NextWriteBack,
      NextTrap, NextCsr, NextBus;
  }

  lemma PortsKept(a: Arch, a': Arch, s: State, x: In)
    requires TokensOk(s) && Advanced(a, a', s, x)
    ensures PortsOk(a', Next(s, x))
  {
    hide Advanced, Rs1, Rs2, Rd, WritesRd, Env, NextRegs, NextBuffer, NextFetch, NextExecute, NextMemory,
      NextWriteBack, NextTrap, NextCsr, NextBus, RspOutValid, DStuck, ExternalFlush, Anticipated;
    RegChange(a, a', s, x, Rs1(Anticipated(s, x)));
    RegChange(a, a', s, x, Rs2(Anticipated(s, x)));
  }

  /** Decode fires only with up-to-date operands. */
  lemma IssueOperands(a: Arch, a': Arch, s: State, x: In)
    requires Advanced(a, a', s, x) && PortsOk(a, s) && s.d.valid && !DHalt(s) && !s.boot
    ensures UsesRs1(s.d.inst) ==> s.d.port1 == Op1(a', s.d.inst)
    ensures UsesRs2(s.d.inst) ==> s.d.port2 == Op2(a', s.d.inst)
    ensures Free(s.d.inst, s.e.valid, s.e.inst) && Free(s.d.inst, s.m.valid, s.m.inst)
  {
    hide Advanced, Rs1, Rs2, Rd, WritesRd, UsesRs1, UsesRs2, XretInFlight, LiberatorActive, NextBuffer;
    RegChange(a, a', s, x, Rs1(s.d.inst));
    RegChange(a, a', s, x, Rs2(s.d.inst));
  }

  lemma ExecuteHeld(a: Arch, a': Arch, s: State, x: In)
    requires Advanced(a, a', s, x) && ExecuteOk(a, s) && s.e.valid && EStuck(s, x) && !ERemove(s)
    ensures NextExecute(s, x).inst == s.e.inst && NextExecute(s, x).rs1 == s.e.rs1 && NextExecute(s, x).rs2 == s.e.rs2
    ensures UsesRs1(s.e.inst) ==> s.e.rs1 == Op1(a', s.e.inst)
    ensures UsesRs2(s.e.inst) ==> s.e.rs2 == Op2(a', s.e.inst)
    ensures Free(s.e.inst, NextMemory(s, x).valid, NextMemory(s, x).inst)
    ensures Free(s.e.inst, NextWriteBack(s, x).valid, NextWriteBack(s, x).inst)
  {
    hide Advanced, Rs1, Rs2, Rd, WritesRd, UsesRs1, UsesRs2, EHaltItself, MStuck, ERemove, MRemove, EResult,
      BranchDo, BranchTarget, EAlignFault, EAddress, AddressLow, ShiftBusy, ShiftDone, ShiftAmplitude, DStuck, DRemove;
    OperandsKept(a, a', s, x, s.e.inst);
  }

  lemma ExecuteEntered(s: State, x: In, i: Word)
    requires Free(i, s.e.valid, s.e.inst) && Free(i, s.m.valid, s.m.inst) && !EStuck(s, x)
    ensures Free(i, NextMemory(s, x).valid, NextMemory(s, x).inst)
    ensures Free(i, NextWriteBack(s, x).valid, NextWriteBack(s, x).inst)
  {
    hide Rs1, Rs2, Rd, WritesRd, UsesRs1, UsesRs2, EHaltItself, MStuck, ERemove, MRemove, EResult, BranchDo,
      BranchTarget, EAlignFault, EAddress, AddressLow;
  }

  lemma ExecuteKept(a: Arch, a': Arch, s: State, x: In)
    requires TokensOk(s) && Advanced(a, a', s, x) && PortsOk(a, s) && ExecuteOk(a, s)
    ensures ExecuteOk(a', Next(s, x))
  {
    hide Advanced, PortsOk, Free, Rs1, Rs2, UsesRs1, UsesRs2, Env, DHalt, EHaltItself, MStuck, DRemove, ERemove,
      ShiftBusy, ShiftDone, ShiftAmplitude;
    hide NextRegs, NextBuffer, NextFetch, NextDecode, NextMemory, NextWriteBack, NextTrap, NextCsr, NextBus;
    if !DStuck(s, x) && !DRemove(s) && s.d.valid {
      IssueOperands(a, a', s, x);
      ExecuteEntered(s, x, s.d.inst);
    } else if s.e.valid && EStuck(s, x) && !ERemove(s) {
      ExecuteHeld(a, a', s, x);
    }
  }

  // --- Shifter --------------------------------------------------------------

  /** The value leaving execute for the register file. */
  lemma ExecuteValue(s: State, x: In)
    requires s.e.valid && Legal(s.e.inst) && !EStuck(s, x) && ShiftOk(s)
    ensures !IsCsr(s.e.inst) && !IsMem(s.e.inst) ==> EResult(s) == ExecuteResult(s.e.inst, s.e.pc, s.e.rs1, s.e.rs2)
    ensures IsMem(s.e.inst) ==> EResult(s) == EAddress(s)
  {
    hide IsCsr, IsMem, Shift, ShiftOne, ShiftBy, AluOut, Src1, Src2, Amount, Address, CsrRead, CsrAddress, Legal,
      MStuck, EAlignFault, UsesRs1, UsesRs2, Branch, Env, WritesRd, IsStore;
    LegalIsOneClass(s.e.inst);
    if IsMem(s.e.inst) {
      MemoryResultIsAddress(s.e.inst, s.e.pc, s.e.rs1, s.e.rs2);
    }
    if ShiftBusy(s) {
      LastShift(Shift(s.e.inst), ShiftInput(s), ShiftAmplitude(s));
    }
  }

  /** One unstalled cycle of a shift with more than one position left. */
  lemma ShiftProgress(s: State)
    requires ShiftBusy(s) && !ShiftDone(s) && ShiftOk(s)
    ensures ShiftAmplitude(s) - 1 != 0
    ensures ShiftBy(Shift(s.e.inst), ShiftOne(Shift(s.e.inst), ShiftInput(s)), ShiftAmplitude(s) - 1)
            == ShiftBy(Shift(s.e.inst), ESrc1(s), Amount(ESrc2(s)))
  {
    hide Shift, ShiftOne, ShiftBy, Src1, Src2, Amount;
    ShiftStep(Shift(s.e.inst), ShiftInput(s), ShiftAmplitude(s));
  }

  lemma ShiftKept(s: State, x: In)
    requires ShiftOk(s) && (s.e.valid ==> Legal(s.e.inst))
    ensures ShiftOk(Next(s, x))
  {
    hide Legal, Shift, ShiftOne, ShiftBy, Src1, Src2, Amount, ShiftDone, ShiftAmplitude, ShiftInput, IsMem, IsCsr,
      Branch, Env, EAlignFault, ERemove, DHalt, DRemove, MRemove, AluOut, BranchDo, BranchTarget, EAddress,
      AddressLow, IsStore, WritesRd, UsesRs1, UsesRs2, DRspReady;
    hide NextRegs, NextBuffer, NextFetch, NextDecode, NextWriteBack, NextTrap, NextCsr, NextBus;
    if ShiftBusy(s) {
      LegalIsOneClass(s.e.inst);
      if !ShiftDone(s) {
        ShiftProgress(s);
      }
    }
  }

  // --- Memory and writeBack ---------------------------------------------------

  /** Operands seen by an instruction entering memory. */
  lemma EnterMemory(a: Arch, a': Arch, s: State, x: In)
    requires Advanced(a, a', s, x) && ExecuteOk(a, s) && ShiftOk(s)
    requires s.e.valid && Legal(s.e.inst) && !EStuck(s, x)
    ensures var i, pc, y, z := s.e.inst, s.e.pc, Op1(a', s.e.inst), Op2(a', s.e.inst);
            && BranchDo(i, pc, s.e.rs1, s.e.rs2) == BranchDo(i, pc, y, z)
            && (BranchDo(i, pc, y, z) ==> BranchTarget(i, pc, s.e.rs1) == BranchTarget(i, pc, y))
            && (IsMem(i) ==> EResult(s) == EAddress(s) == Address(i, pc, y, z))
            && (WritesRd(i) && !IsMem(i) && !IsCsr(i) ==> EResult(s) == ExecuteResult(i, pc, y, z))
  {
    hide Advanced, Free, Rs1, Rs2, UsesRs1, UsesRs2, WritesRd, IsMem, IsCsr, IsStore, Legal, BranchDo, BranchTarget,
      EResult, Address, ExecuteResult, EStuck, ShiftOk, Src1, Src2, Shift;
    var i, pc := s.e.inst, s.e.pc;
    OperandsKept(a, a', s, x, i);
    UnusedInBranch(i, pc, s.e.rs1, s.e.rs2, Op1(a', i), Op2(a', i));
    UnusedInData(i, pc, s.e.rs1, s.e.rs2, Op1(a', i), Op2(a', i));
    ExecuteValue(s, x);
  }

  lemma HeldMemory(a: Arch, a': Arch, s: State, x: In)
    requires Advanced(a, a', s, x) && MemoryOk(a, s) && s.m.valid && Legal(s.m.inst)
    ensures var i, pc, y, z := s.m.inst, s.m.pc, Op1(a', s.m.inst), Op2(a', s.m.inst);
            && s.m.branchDo == BranchDo(i, pc, y, z)
            && (s.m.branchDo ==> s.m.branchTarget == BranchTarget(i, pc, y))
            && (IsMem(i) ==> s.m.result == Address(i, pc, y, z))
            && (WritesRd(i) && !IsMem(i) && !IsCsr(i) ==> s.m.result == ExecuteResult(i, pc, y, z))
  {
    hide Advanced, Free, Rs1, Rs2, UsesRs1, UsesRs2, WritesRd, IsMem, IsCsr, IsStore, Legal, BranchDo, BranchTarget,
      Address, AddressLow, AlignFault, Size, ExecuteResult, Src1, Src2, Shift;
    var i, pc := s.m.inst, s.m.pc;
    OperandsKept(a, a', s, x, i);
    UnusedInBranch(i, pc, Op1(a, i), Op2(a, i), Op1(a', i), Op2(a', i));
    UnusedInData(i, pc, Op1(a, i), Op2(a, i), Op1(a', i), Op2(a', i));
  }

  lemma MemoryKept(a: Arch, a': Arch, s: State, x: In)
    requires Advanced(a, a', s, x) && ExecuteOk(a, s) && ShiftOk(s) && MemoryOk(a, s)
    requires (s.e.valid ==> Legal(s.e.inst)) && (s.m.valid ==> Legal(s.m.inst))
    ensures MemoryOk(a', Next(s, x))
  {
    hide Advanced, ShiftOk, Free, Rs1, Rs2, WritesRd, IsMem, IsCsr, Legal, BranchDo, BranchTarget, EResult, EAddress,
      Address, AddressLow, AlignFault, Size, ExecuteResult, MStuck, MRemove, ERemove, EHaltItself;
    hide NextRegs, NextBuffer, NextFetch, NextDecode, NextExecute, NextTrap, NextCsr, NextBus;
    FreeOfNothing(s.m.inst, s.m.inst);
    if !EStuck(s, x) && !ERemove(s) && s.e.valid {
      EnterMemory(a, a', s, x);
      FreeOfNothing(s.e.inst, s.m.inst);
    } else if s.m.valid {
      HeldMemory(a, a', s, x);
    }
  }

  lemma FreeOfNothing(i: Word, inst: Word)
    ensures Free(i, false, inst)
  {}

  lemma WriteBackKept(a: Arch, a': Arch, s: State, x: In)
    requires TokensOk(s) && Advanced(a, a', s, x) && MemoryOk(a, s)
    requires s.m.valid ==> Legal(s.m.inst) && Env(s.m.inst) != EnvEcall
    ensures WriteBackOk(a', Next(s, x))
  {
    hide Advanced, Free, Rs1, Rs2, WritesRd, IsMem, IsCsr, IsStore, Legal, Env, BranchDo, BranchTarget, Address,
      AddressLow, AlignFault, Size, ExecuteResult, MStuck, Bit1, TrapNow, XretInW;
    hide NextRegs, NextBuffer, NextFetch, NextDecode, NextExecute, NextMemory, NextTrap, NextCsr, NextBus;
    if s.m.valid {
      HeldMemory(a, a', s, x);
    }
  }
}
