/** What one cycle does to the architectural state. */
module AdvanceProof {
  import opened Words
  import opened Decoder
  import opened Execute
  import opened Machine
  import opened Core
  import opened Invariant
  import opened DecoderFacts

  lemma OneEvent(imem: Memory, a: Arch, e: Event)
    ensures Run(imem, a, [e]) == Step(imem, a, e) && Run(imem, a, []) == a
  {
    hide Step;
    assert [e][..0] == [];
  }

  lemma RetireStep(imem: Memory, a: Arch, s: State, x: In)
    requires s.w.valid && s.w.pc == a.pc && s.w.inst == imem(s.w.pc) && WriteBackOk(a, s)
    ensures Advance(imem, a, s, x) == Retire(a, s.w.inst, Exec(s.w.readData, PinsOf(s.w.result), x.undefined))
  {
    hide TrapOf, Retire, IsMem, PinsOf, Rs1, Rs2, AddressLow, Address, WritesRd, IsCsr, ExecuteResult, InterruptJump,
      Run;
    OneEvent(imem, a, Exec(s.w.readData, PinsOf(s.w.result), x.undefined));
  }

  lemma RetiredValue(a: Arch, s: State)
    requires s.w.valid && WriteBackOk(a, s) && CsrOk(a, s) && WritesRd(s.w.inst) && s.w.pc == a.pc
    ensures RdValue(s.w.inst, a.pc, Op1(a, s.w.inst), Op2(a, s.w.inst),
                    CsrRead(a.csr, PinsOf(s.w.result), CsrAddress(s.w.inst)), s.w.readData) == WData(s)
  {
    hide TrapOf, PinsOf, Rs1, Rs2, AddressLow, Address, WritesRd, IsMem, IsCsr, ExecuteResult, FormatLoad, CsrRead,
      CsrAddress, CsrAfter;
  }

  lemma RetiredRegs(imem: Memory, a: Arch, s: State, x: In)
    requires s.w.valid && s.w.pc == a.pc && s.w.inst == imem(s.w.pc) && WriteBackOk(a, s) && CsrOk(a, s)
             && RegsOk(a, s) && !s.boot
    ensures RegsOk(Advance(imem, a, s, x), Next(s, x))
    ensures Advance(imem, a, s, x).log == a.log + WTxn(a, s)
    ensures Advance(imem, a, s, x).pc == if XretInW(s)
            then Align(if IsMret(s.w.inst) then a.csr.mepc else x.undefined) else AfterW(a, s)
  {
    hide TrapOf, PinsOf, Rs1, Rs2, AddressLow, Address, IsMem, IsCsr, ExecuteResult, FormatLoad, CsrRead, CsrAddress,
      CsrAfter, RdValue, WData, Env, IsMret, NextPc, TrapReturn, TxnFor, Advance, RegfileWriteBit;
    hide NextFetch, NextDecode, NextExecute, NextMemory, NextWriteBack, NextTrap, NextCsr, NextBuffer, NextBus;
    RetireStep(imem, a, s, x);
    if WritesRd(s.w.inst) {
      RetiredValue(a, s);
    }
  }

  /** Traps, returns and retirements exclude one another and leave no younger
      instruction past decode. */
  lemma Exclusive(s: State)
    requires TokensOk(s) && LiberatorOk(s)
    ensures TrapNow(s) ==> !s.w.valid && !s.m.valid && !s.e.valid && !s.t.excE && !s.t.excM && !s.t.excW
    ensures InterruptJump(s) ==> s.d.valid && NoToken(s) && s.w.pc == s.d.pc
    ensures XretInW(s) ==> !TrapNow(s) && !s.m.valid && !s.e.valid && !s.t.excE && !s.t.excM && !s.t.excW
  {
    hide Env, InterruptEnabled;
  }

  lemma NoRetire(imem: Memory, a: Arch, s: State, x: In)
    requires !s.w.valid
    ensures s.t.hadException ==> Advance(imem, a, s, x) == Step(imem, a, Exec(0, PinsOf(0), 0))
    ensures !s.t.hadException && InterruptJump(s) ==> Advance(imem, a, s, x) == TakeInterrupt(a, s.t.irqCode)
    ensures !TrapNow(s) ==> Advance(imem, a, s, x) == a
  {
    hide PinsOf, Run, TakeInterrupt;
    OneEvent(imem, a, Interrupt(s.t.irqCode));
    OneEvent(imem, a, Exec(0, PinsOf(0), 0));
    hide InterruptJump;
  }

  /** An exception that reaches the trap unit is the one the sequential machine
      raises at its current instruction. */
  lemma TrapStep(imem: Memory, a: Arch, s: State, x: In)
    requires s.t.hadException && !s.w.valid && s.w.pc == a.pc && ContextOk(imem, a, s)
    ensures Advance(imem, a, s, x) == TakeTrap(a, Trap(s.t.code, s.t.badAddr))
  {
    hide TrapOf, PinsOf, StaticTrap, Free, Rs1, Rs2, Legal, TakeTrap, Advance;
    NoRetire(imem, a, s, x);
  }

  /** The architectural effect of one cycle, apart from the CSRs. */
  lemma Summary(imem: Memory, a: Arch, s: State, x: In)
    requires TokensOk(s) && LiberatorOk(s) && InstructionsOk(imem, s) && ChainOk(a, s)
    requires RegsOk(a, s) && WriteBackOk(a, s) && CsrOk(a, s) && ContextOk(imem, a, s)
    ensures RegsOk(Advance(imem, a, s, x), Next(s, x))
    ensures Advance(imem, a, s, x).log == a.log + WTxn(a, s)
    ensures Advance(imem, a, s, x).pc == if WFlushNext(s) then Align(JumpTarget(s, x)) else AfterW(a, s)
  {
    hide TrapOf, StaticTrap, PinsOf, WriteReg, Free, TxnFor, NextPc, Legal, IsMem, IsMret, AfterM, AfterE, AfterD,
      AfterS, CsrPending, IsCsr, Env, Advance, Align, Plus, WritesRd, ExecuteResult, AddressLow, Address,
      InterruptEnabled, TrapVector;
    hide NextFetch, NextDecode, NextExecute, NextMemory, NextWriteBack, NextTrap, NextCsr, NextBuffer, NextBus;
    Exclusive(s);
    VectorAligned(s.csr);
    AlignFacts(TrapVector(s.csr));
    if s.w.valid {
      LegalIsOneClass(s.w.inst);
      RetiredRegs(imem, a, s, x);
    } else {
      NoRetire(imem, a, s, x);
      if s.t.hadException {
        TrapStep(imem, a, s, x);
      }
    }
  }

  // --- CSRs -----------------------------------------------------------------

  lemma PinsExplain(c: Csrs, p: Pins, i: Word, rs1: Word)
    ensures var v := CsrRead(c, p, CsrAddress(i));
            CsrRead(c, PinsOf(v), CsrAddress(i)) == v && CsrAfter(c, PinsOf(v), i, rs1) == CsrAfter(c, p, i, rs1)
  {
    ReadExplained(c, p, CsrAddress(i));
    hide CsrRead, CsrStore, CsrWriteData, CsrAddress, Src1, PinsOf, CsrWriteOp;
  }

  lemma ReadExplained(c: Csrs, p: Pins, a: bv12)
    ensures CsrRead(c, PinsOf(CsrRead(c, p, a)), a) == CsrRead(c, p, a)
  {
    hide Mstatus, Mie, Mcause, Mip, Masked, PinsOf;
    FlagBits(p);
    MaskTwice(c.irqMask, p.irqLines);
  }

  lemma FlagBits(p: Pins)
    ensures Mip(PinsOf(Mip(p))) == Mip(p)
  {}

  lemma MaskTwice(mask: Word, lines: Word)
    ensures Masked(mask, PinsOf(Masked(mask, lines)).irqLines) == Masked(mask, lines)
  {}

  /** A CSR instruction leaving execute finds the stages ahead empty. */
  lemma CsrIssue(a: Arch, s: State, x: In)
    requires s.e.valid && IsCsr(s.e.inst) && Legal(s.e.inst) && !EStuck(s, x) && !TrapNow(s) && !XretInW(s)
    requires ExecuteOk(a, s) && CsrOk(a, s)
    ensures !s.w.valid && !s.m.valid
    ensures EResult(s) == CsrRead(a.csr, PinsOf(EResult(s)), CsrAddress(s.e.inst))
    ensures NextCsr(s, x) == CsrAfter(a.csr, PinsOf(EResult(s)), s.e.inst, Op1(a, s.e.inst))
  {
    hide CsrRead, CsrStore, CsrWriteData, CsrAddress, CsrWriteOp, Src1, PinsOf, PinsNow, Free, Rs1, Rs2, ShiftBusy,
      AluOut, ESrc2, Legal, IsCsr, TrapNow, XretInW, EAlignFault, IsMem, MStuck, ShiftDone, UsesRs1, UsesRs2;
    PinsExplain(a.csr, PinsNow(s), s.e.inst, Op1(a, s.e.inst));
    UnusedInData(s.e.inst, s.e.pc, s.e.rs1, s.e.rs2,
                 if UsesRs1(s.e.inst) then s.e.rs1 else Op1(a, s.e.inst), s.e.rs2);
  }

  lemma CsrInMemory(a: Arch, s: State, x: In)
    requires TokensOk(s) && LiberatorOk(s) && MemoryOk(a, s)
    requires s.m.valid && Legal(s.m.inst) && IsCsr(s.m.inst)
    ensures !TrapNow(s) && !XretInW(s)
    ensures !MStuck(s, x) && !MRemove(s) && !(s.e.valid && IsCsr(s.e.inst) && !EStuck(s, x))
  {
    hide Free, Legal, IsCsr, IsMem, Address, AlignFault, AddressLow, ExecuteResult, BranchTarget, BranchTaken,
      Branch, Env, Src1, Src2, InterruptEnabled, EAlignFault, ShiftBusy, Bit1;
    Exclusive(s);
    LegalIsOneClass(s.m.inst);
    NoBranch(s.m.inst, s.m.pc, Op1(a, s.m.inst), Op2(a, s.m.inst));
  }

  lemma NoBranch(i: Word, pc: Word, x: Word, y: Word)
    requires Branch(i) == BranchInc
    ensures !BranchDo(i, pc, x, y)
  {
    hide Src1, Src2, Less, Branch;
  }

  /** With no CSR instruction on the way, the CSRs after the cycle are the
      architectural ones. */
  lemma CsrSettled(imem: Memory, a: Arch, s: State, x: In)
    requires TokensOk(s) && LiberatorOk(s) && InstructionsOk(imem, s) && ChainOk(a, s)
    requires WriteBackOk(a, s) && CsrOk(a, s) && ContextOk(imem, a, s)
    requires !(s.m.valid && IsCsr(s.m.inst)) && !(s.e.valid && IsCsr(s.e.inst) && !EStuck(s, x))
    ensures NextCsr(s, x) == Advance(imem, a, s, x).csr
  {
    hide TrapOf, StaticTrap, PinsOf, WriteReg, Free, TxnFor, NextPc, Legal, IsMem, IsMret, AfterD, AfterS, IsCsr,
      Env, Advance, Align, Plus, WritesRd, ExecuteResult, AddressLow, Address, InterruptEnabled, TrapVector,
      CsrAfter, CsrRead, EStuck, RdValue;
    Exclusive(s);
    if s.w.valid {
      LegalIsOneClass(s.w.inst);
      RetireStep(imem, a, s, x);
    } else {
      NoRetire(imem, a, s, x);
      if s.t.hadException {
        TrapStep(imem, a, s, x);
      }
    }
  }

  lemma CsrKept(imem: Memory, a: Arch, s: State, x: In)
    requires TokensOk(s) && LiberatorOk(s) && InstructionsOk(imem, s) && ChainOk(a, s)
    requires WriteBackOk(a, s) && MemoryOk(a, s) && ExecuteOk(a, s) && CsrOk(a, s) && ContextOk(imem, a, s)
    ensures CsrOk(Advance(imem, a, s, x), Next(s, x))
  {
    hide WriteBackOk, MemoryOk, ExecuteOk, ContextOk, ChainOk, LiberatorOk, Legal, IsCsr, IsMem, EResult, PinsOf,
      CsrAfter, CsrRead, CsrAddress, Advance, BranchTarget, BranchDo, EAlignFault, EAddress, AddressLow, Env,
      CsrWriteValue, CsrWriteOp, CsrStore;
    hide NextFetch, NextDecode, NextExecute, NextTrap, NextBuffer, NextBus, NextRegs, EHaltItself, MException,
      BranchJump, DRspReady;
    Exclusive(s);
    if s.m.valid && IsCsr(s.m.inst) {
      CsrInMemory(a, s, x);
      NoRetire(imem, a, s, x);
    } else if s.e.valid && IsCsr(s.e.inst) && !EStuck(s, x) {
      CsrIssue(a, s, x);
      NoRetire(imem, a, s, x);
      LegalIsOneClass(s.e.inst);
      EmptyMemoryQuiet(s);
    } else {
      CsrSettled(imem, a, s, x);
    }
  }

  lemma EmptyMemoryQuiet(s: State)
    requires !s.m.valid
    ensures !MFlushNext(s) && !MException(s)
  {}
}
