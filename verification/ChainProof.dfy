/** Program order is kept: every occupied stage still holds the successor of the
    next older one after a clock. */
module ChainProof {
  import opened Words
  import opened Decoder
  import opened Execute
  import opened Machine
  import opened Core
  import opened Invariant
  import opened DecoderFacts
  import opened AdvanceProof
  import opened FrontProof

  /** What Summary establishes about the next architectural state. */
  ghost predicate Advanced(a: Arch, a': Arch, s: State, x: In) {
    && RegsOk(a, s) && RegsOk(a', Next(s, x))
    && a'.pc == (if WFlushNext(s) then Align(JumpTarget(s, x)) else AfterW(a, s))
  }

  lemma OperandsKept(a: Arch, a': Arch, s: State, x: In, i: Word)
    requires Advanced(a, a', s, x) && Free(i, s.w.valid, s.w.inst)
    ensures SameUsed(i, Op1(a, i), Op2(a, i), Op1(a', i), Op2(a', i))
  {
    hide Rs1, Rs2, Rd, WritesRd, UsesRs1, UsesRs2, WData, WFlushNext, AfterW, NextFetch, NextDecode, NextExecute,
      NextMemory, NextWriteBack, NextTrap, NextCsr, NextBuffer, NextBus;
  }

  /** The successor of the instruction in memory, seen from the next state. */
  lemma MemorySuccessor(a: Arch, a': Arch, s: State, x: In)
    requires Advanced(a, a', s, x) && s.m.valid && Legal(s.m.inst) && MemoryOk(a, s)
    ensures NextPc(s.m.inst, s.m.pc, Op1(a', s.m.inst), Op2(a', s.m.inst))
            == if s.m.branchDo then s.m.branchTarget else Plus(s.m.pc, 4)
  {
    hide Advanced, Free, UsesRs1, UsesRs2, Legal, Plus, BranchDo, BranchTarget, IsMem, IsCsr, WritesRd, Address,
      AddressLow, AlignFault, Size, ExecuteResult, Rs1, Rs2;
    var i := s.m.inst;
    OperandsKept(a, a', s, x, i);
    UnusedInBranch(i, s.m.pc, Op1(a, i), Op2(a, i), Op1(a', i), Op2(a', i));
  }

  lemma AfterWKept(a: Arch, a': Arch, s: State, x: In)
    requires TokensOk(s) && Advanced(a, a', s, x) && !EFlushed(s) && (s.m.valid ==> Legal(s.m.inst)) && MemoryOk(a, s)
    ensures AfterW(a', Next(s, x)) == if MStuck(s, x) then AfterW(a, s) else AfterM(a, s)
  {
    hide MemoryOk, NextPc, Env, Rs1, Rs2, Plus, MStuck, Legal, TrapNow, XretInW, RegsOk, JumpTarget, Align,
      BranchException, MemoryException;
    hide NextFetch, NextDecode, NextExecute, NextMemory, NextTrap, NextCsr, NextBuffer, NextBus, NextRegs;
    if s.m.valid {
      MemorySuccessor(a, a', s, x);
    } else {
      NoMemoryNoStall(s, x);
    }
  }

  lemma NoMemoryNoStall(s: State, x: In)
    requires !s.m.valid
    ensures !MStuck(s, x)
  {}

  lemma AfterMKept(a: Arch, a': Arch, s: State, x: In)
    requires TokensOk(s) && Advanced(a, a', s, x) && !EFlushed(s) && (SelfException(s) ==> EStuck(s, x))
    requires (s.m.valid ==> Legal(s.m.inst)) && MemoryOk(a, s)
    ensures AfterM(a', Next(s, x)) == if EStuck(s, x) then AfterM(a, s) else AfterE(a, s)
  {
    AfterWKept(a, a', s, x);
    hide Advanced, TokensOk, AfterW, MemoryOk, NextPc, Rs1, Rs2, Plus, MStuck, Legal, EHaltItself, SelfException,
      EFlushed, MException, EResult, BranchDo, BranchTarget, EAlignFault, EAddress, AddressLow;
    hide NextFetch, NextDecode, NextExecute, NextWriteBack, NextTrap, NextCsr, NextBuffer, NextBus, NextRegs;
    assert MRemove(s) ==> EFlushed(s) by { RemoveFlushes(s); }
  }

  lemma RemoveFlushes(s: State)
    ensures MRemove(s) ==> EFlushed(s)
    ensures EFlushed(s) ==> DFlushed(s) && ERemove(s)
    ensures DFlushed(s) ==> DRemove(s) && ExternalFlush(s)
    ensures ERemove(s) ==> DFlushed(s)
  {
    hide MException, TrapNow, XretInW, SelfException, DecodeException, BranchJump;
  }

  lemma AfterEKept(a: Arch, a': Arch, s: State, x: In)
    requires TokensOk(s) && Advanced(a, a', s, x) && !DFlushed(s) && (DecodeException(s) ==> DStuck(s, x))
    requires (s.m.valid ==> Legal(s.m.inst)) && MemoryOk(a, s)
    ensures AfterE(a', Next(s, x)) == if DStuck(s, x) then AfterE(a, s) else AfterD(a, s)
  {
    RemoveFlushes(s);
    hide SelfException, EFlushed;
    SelfFlushes(s);
    AfterMKept(a, a', s, x);
    hide Advanced, TokensOk, AfterM, MemoryOk, Plus, MStuck, Legal, EHaltItself, DecodeException, DHalt, EStuck,
      ShiftBusy, ShiftDone, ShiftAmplitude;
    hide NextFetch, NextDecode, NextMemory, NextWriteBack, NextTrap, NextCsr, NextBuffer, NextBus, NextRegs;
    assert !DStuck(s, x) ==> !EStuck(s, x);
  }

  lemma SelfFlushes(s: State)
    ensures SelfException(s) ==> DFlushed(s)
  {
    hide SelfException;
  }

  lemma AfterDKept(a: Arch, a': Arch, s: State, x: In)
    requires TokensOk(s) && Advanced(a, a', s, x) && !ExternalFlush(s)
    requires (s.m.valid ==> Legal(s.m.inst)) && MemoryOk(a, s)
    ensures AfterD(a', Next(s, x)) ==
            if DStuck(s, x) then AfterD(a, s)
            else if JoinValid(s, x) then AfterS(a, s)
            else AfterD(a, s)
  {
    AfterEKept(a, a', s, x);
    hide Advanced, TokensOk, AfterE, MemoryOk, Plus, Legal, DStuck, DFlushed, DecodeException, RspOutValid,
      Anticipated, Rs1, Rs2;
    hide NextFetch, NextExecute, NextMemory, NextWriteBack, NextTrap, NextCsr, NextBuffer, NextBus, NextRegs;
  }

  // --- The links one cycle later ---------------------------------------------

  lemma LinkW(a: Arch, a': Arch, s: State, x: In)
    requires TokensOk(s) && LiberatorOk(s) && ChainOk(a, s) && Advanced(a, a', s, x)
    ensures var s' := Next(s, x);
            s'.w.valid || s'.t.excW || s'.t.hadException ==> s'.w.pc == a'.pc
  {
    hide NextPc, Env, Rs1, Rs2, Plus, MStuck, MException, JumpTarget, Align, AfterM, AfterE, AfterD, AfterS, RegsOk,
      InterruptEnabled;
    hide NextFetch, NextDecode, NextExecute, NextMemory, NextCsr, NextBuffer, NextBus, NextRegs;
    Exclusive(s);
    if !s.m.valid {
      EmptyMemory(s);
    }
  }

  lemma EmptyMemory(s: State)
    requires !s.m.valid
    ensures !MException(s)
  {}

  /** A taken branch never waits in memory. */
  lemma BranchNotStuck(a: Arch, s: State, x: In)
    requires BranchJump(s) && Legal(s.m.inst) && MemoryOk(a, s)
    ensures !MStuck(s, x) && !MemoryException(s)
  {
    hide Legal, Free, BranchTarget, Address, AddressLow, AlignFault, Size, ExecuteResult, Src1, Src2, WritesRd,
      IsCsr, IsMem, Rs1, Rs2, Shift, Env, UsesRs1, UsesRs2, IsStore, Branch, Less, Bit1;
    LegalIsOneClass(s.m.inst);
    if Branch(s.m.inst) == BranchInc {
      NoBranch(s.m.inst, s.m.pc, Op1(a, s.m.inst), Op2(a, s.m.inst));
    }
  }

  lemma LinkM(a: Arch, a': Arch, s: State, x: In)
    requires TokensOk(s) && LiberatorOk(s) && ChainOk(a, s) && Advanced(a, a', s, x)
    requires (s.m.valid ==> Legal(s.m.inst)) && MemoryOk(a, s)
    ensures var s' := Next(s, x);
            s'.m.valid || s'.t.excM ==> s'.m.pc == AfterW(a', s')
  {
    if !EFlushed(s) {
      AfterWKept(a, a', s, x);
    } else if BranchJump(s) {
      BranchNotStuck(a, s, x);
    }
    hide Advanced, LiberatorOk, MemoryOk, NextPc, Env, Rs1, Rs2, Plus, MStuck, EHaltItself, TrapNow, XretInW,
      SelfException, Bit1, IsMem, Legal, AfterE, AfterD, AfterS, EResult, BranchDo, BranchTarget, EAlignFault,
      EAddress, AddressLow, JumpTarget;
    hide NextFetch, NextDecode, NextExecute, NextCsr, NextBuffer, NextBus, NextRegs;
  }

  lemma LinkE(a: Arch, a': Arch, s: State, x: In)
    requires TokensOk(s) && LiberatorOk(s) && ChainOk(a, s) && Advanced(a, a', s, x)
    requires (s.m.valid ==> Legal(s.m.inst)) && MemoryOk(a, s)
    ensures var s' := Next(s, x);
            s'.e.valid || s'.t.excE ==> s'.e.pc == AfterM(a', s')
  {
    hide Advanced, LiberatorOk, MemoryOk, Env, Rs1, Rs2, MStuck, EHaltItself, EFlushed, IsMem, Legal, AfterM, AfterD,
      AfterS, Plus, ShiftBusy, ShiftDone, ShiftAmplitude, DHalt, MException, TrapNow, InterruptJump, XretInW, Align,
      Aligned;
    hide NextFetch, NextDecode, NextMemory, NextWriteBack, NextCsr, NextBuffer, NextBus, NextRegs;
    RemoveFlushes(s);
    ReturnFlushes(s);
    if !EFlushed(s) && (SelfException(s) ==> EStuck(s, x)) {
      AfterMKept(a, a', s, x);
    }
  }

  lemma LinkD(a: Arch, a': Arch, s: State, x: In)
    requires TokensOk(s) && LiberatorOk(s) && ChainOk(a, s) && Advanced(a, a', s, x)
    requires (s.m.valid ==> Legal(s.m.inst)) && MemoryOk(a, s)
    ensures var s' := Next(s, x);
            s'.d.valid || s'.t.excD ==> s'.d.pc == AfterE(a', s')
  {
    hide Advanced, LiberatorOk, MemoryOk, Env, Rs1, Rs2, MStuck, EStuck, SelfException, IsMem, Legal, AfterE, AfterS,
      Plus, DHalt, MException, InterruptJump, Anticipated, JoinValid, Align, Aligned;
    hide NextFetch, NextExecute, NextMemory, NextWriteBack, NextCsr, NextBuffer, NextBus, NextRegs;
    RemoveFlushes(s);
    ReturnFlushes(s);
    JoinNeedsStage(s, x);
    if !DFlushed(s) && (DecodeException(s) ==> DStuck(s, x)) {
      AfterEKept(a, a', s, x);
    }
  }

  lemma JoinNeedsStage(s: State, x: In)
    ensures JoinValid(s, x) ==> s.f.s1Valid
  {
    hide RspOutValid;
  }

  lemma ReturnFlushes(s: State)
    ensures XretInW(s) ==> EFlushed(s) && DFlushed(s) && ExternalFlush(s)
  {
    hide TrapNow, XretInW;
  }

  /** While nothing is flushed the fetch address continues the stream. */
  lemma StreamAddress(a: Arch, s: State, x: In)
    requires TokensOk(s) && ChainOk(a, s) && !ExternalFlush(s) && FetchValid(s)
    ensures FetchPc(s, x) == AfterS(a, s)
  {
    hide Env, AfterW, AfterM, AfterE, AfterD, AfterS, Plus, Align, Aligned, SelfException, DecodeException,
      MException, InterruptJump, XretInW;
    JumpFlushes(s);
    ReturnFlushes(s);
    QuietWhenFetching(s);
  }

  lemma QuietWhenFetching(s: State)
    requires TokensOk(s) && !ExternalFlush(s) && FetchValid(s)
    ensures NoToken(s)
  {
    hide Env, SelfException, DecodeException, MException, InterruptJump, XretInW, BranchJump;
  }

  lemma TokensMove(s: State, x: In)
    requires !ExternalFlush(s) && NoToken(Next(s, x))
    ensures NoToken(s)
  {
    hide SelfException, DecodeException, MException, InterruptJump, XretInW, BranchJump, DHalt, EHaltItself, MStuck;
    hide NextFetch, NextDecode, NextExecute, NextMemory, NextWriteBack, NextCsr, NextBuffer, NextBus, NextRegs;
  }

  lemma LinkFUnflushed(a: Arch, a': Arch, s: State, x: In)
    requires TokensOk(s) && ChainOk(a, s) && Advanced(a, a', s, x) && !ExternalFlush(s)
    requires (s.m.valid ==> Legal(s.m.inst)) && MemoryOk(a, s)
    ensures Next(s, x).f.s1Valid ==> Next(s, x).f.pcReg == AfterD(a', Next(s, x))
    ensures NoToken(Next(s, x)) ==> StreamPc(Next(s, x)) == AfterS(a', Next(s, x))
  {
    hide Advanced, MemoryOk, Legal, Env, AfterW, AfterM, AfterE, AfterD, Plus, Align, Aligned, XretInW, TrapNow,
      BranchJump, ExternalFlush, FetchPc, CmdReady, CanEmit, RspOutValid, FetcherHalt, DStuck, NextPending,
      NextDiscard, PopFire, Pushing, QuietW;
    hide NextDecode, NextExecute, NextMemory, NextWriteBack, NextTrap, NextCsr, NextBuffer, NextBus, NextRegs;
    AfterDKept(a, a', s, x);
    JumpFlushes(s);
    ReturnFlushes(s);
    FetchPcAligned(s, x);
    AlignFacts(FetchPc(s, x));
    AlignFacts(Plus(FetchPc(s, x), 4));
    if FetchValid(s) {
      StreamAddress(a, s, x);
    }
    if NoToken(Next(s, x)) {
      TokensMove(s, x);
      StreamAddressIdle(a, s, x);
      if !s.f.booted {
        BootAddress(s, x);
      }
    }
  }

  lemma BootAddress(s: State, x: In)
    requires !JumpValid(s) && !s.f.inc
    ensures FetchPc(s, x) == Align(Plus(s.f.pcReg, 0))
  {
    hide JumpValid, Plus, Align;
  }

  lemma StreamAddressIdle(a: Arch, s: State, x: In)
    requires TokensOk(s) && ChainOk(a, s) && !ExternalFlush(s) && NoToken(s)
    ensures FetchPc(s, x) == AfterS(a, s)
  {
    hide Env, AfterW, AfterM, AfterE, AfterD, AfterS, Plus, Align, Aligned, ExternalFlush, XretInW, JumpValid;
    JumpFlushes(s);
    ReturnFlushes(s);
  }

  lemma FlushEmpties(s: State, x: In)
    requires WFlushNext(s)
    ensures !NextWriteBack(s, x).valid && !NextMemory(s, x).valid && !NextExecute(s, x).valid && !NextDecode(s, x).valid
    ensures JumpValid(s)
  {
    hide TrapNow, XretInW, MFlushNext, EFlushNext, DFlushNext, MException, DecodeException, SelfException, DStuck,
      EStuck, MStuck,
      JoinValid, EResult, BranchDo, BranchTarget, EAlignFault, EAddress, ShiftBusy, Rs1, Rs2, Anticipated;
  }

  lemma NothingAhead(a: Arch, s: State)
    requires !s.w.valid && !s.m.valid && !s.e.valid && !s.d.valid
    ensures AfterD(a, s) == a.pc && AfterS(a, s) == if s.f.s1Valid then Plus(s.f.pcReg, 4) else a.pc
  {
    hide Plus, NextPc, Rs1, Rs2;
  }

  /** A trap or return restarts the stream at its target with an empty pipeline. */
  lemma LinkFTrap(a: Arch, a': Arch, s: State, x: In)
    requires TokensOk(s) && LiberatorOk(s) && Advanced(a, a', s, x) && WFlushNext(s)
    ensures Next(s, x).f.s1Valid ==> Next(s, x).f.pcReg == AfterD(a', Next(s, x))
    ensures NoToken(Next(s, x)) ==> StreamPc(Next(s, x)) == AfterS(a', Next(s, x))
  {
    hide TokensOk, LiberatorOk, Plus, Align, Aligned, WFlushNext, JumpTarget, JumpValid, RegsOk, AfterD, AfterS,
      NoToken;
    hide NextFetch, NextDecode, NextExecute, NextMemory, NextWriteBack, NextTrap, NextCsr, NextBuffer, NextBus,
      NextRegs;
    FlushEmpties(s, x);
    JumpIsBooted(s);
    RestartPc(s, x);
    NothingAhead(a', Next(s, x));
    AlignFacts(JumpTarget(s, x));
    AlignFacts(Align(JumpTarget(s, x)));
    AlignFacts(Plus(Align(JumpTarget(s, x)), 4));
  }

  lemma FlushWithoutJump(a: Arch, s: State, x: In)
    requires TokensOk(s) && LiberatorOk(s) && ExternalFlush(s) && !WFlushNext(s) && (BranchJump(s) ==> MException(s))
    ensures !NoToken(Next(s, x)) && !Next(s, x).f.s1Valid
  {
    hide Legal, Env, IsMem, IsStore, DRspReady, BranchException, XretInW, TrapNow, EHaltItself, DHalt,
      MemoryException, SelfException, DecodeException, InterruptEnabled, NextPending, NextDiscard, PopFire, Pushing,
      S1Ready, FetchPc, CmdReady, CanEmit;
    hide NextDecode, NextExecute, NextMemory, NextWriteBack, NextCsr, NextBuffer, NextBus, NextRegs;
  }

  /** A taken branch empties the younger stages and restarts the stream at its target. */
  lemma LinkFBranch(a: Arch, a': Arch, s: State, x: In)
    requires TokensOk(s) && LiberatorOk(s) && Advanced(a, a', s, x)
    requires BranchJump(s) && !MException(s) && (s.m.valid ==> Legal(s.m.inst)) && MemoryOk(a, s)
    ensures Next(s, x).f.s1Valid ==> Next(s, x).f.pcReg == AfterD(a', Next(s, x))
    ensures NoToken(Next(s, x)) ==> StreamPc(Next(s, x)) == AfterS(a', Next(s, x))
  {
    hide Advanced, MemoryOk, Legal, Env, Plus, Align, Aligned, NextPc, InterruptEnabled, CmdReady, CanEmit, DStuck,
      EHaltItself, MStuck, JoinValid, MException, SelfException, DecodeException, NextPending, NextDiscard, PopFire,
      Pushing, S1Ready, EResult, ShiftBusy, TrapNow, XretInW, Op1, Op2, IsMem, IsStore, DRspReady, FetcherHalt;
    hide NextTrap, NextCsr, NextBuffer, NextBus, NextRegs;
    Exclusive(s);
    BranchNotStuck(a, s, x);
    MemorySuccessor(a, a', s, x);
    BranchTargetAligned(a, s);
    BranchFetch(s, x);
    FetchPcAligned(s, x);
    AlignFacts(Plus(FetchPc(s, x), 4));
    AlignFacts(FetchPc(s, x));
    assert AfterD(a', Next(s, x)) == s.m.branchTarget;
  }

  lemma BranchTargetAligned(a: Arch, s: State)
    requires BranchJump(s) && !MException(s) && MemoryOk(a, s)
    ensures Align(s.m.branchTarget) == s.m.branchTarget
  {
    hide BranchTarget, Bit1, Aligned, Align, BranchDo, Free, Address, AddressLow, AlignFault, Size, ExecuteResult,
      WritesRd, IsCsr, IsMem, Rs1, Rs2;
    TargetAligned(s.m.inst, s.m.pc, Op1(a, s.m.inst));
    AlignFacts(s.m.branchTarget);
  }

  lemma BranchFetch(s: State, x: In)
    requires BranchJump(s) && !TrapNow(s) && !XretInW(s)
    ensures FetchPc(s, x) == Align(s.m.branchTarget)
  {
    hide TrapNow, XretInW, Align, Plus;
  }

  lemma ChainKept(a: Arch, a': Arch, s: State, x: In)
    requires TokensOk(s) && LiberatorOk(s) && ChainOk(a, s) && Advanced(a, a', s, x) && Aligned(a'.pc)
    requires (s.m.valid ==> Legal(s.m.inst)) && MemoryOk(a, s)
    ensures ChainOk(a', Next(s, x))
  {
    hide Next, Advanced, TokensOk, LiberatorOk, MemoryOk, Legal, Aligned, AfterW, AfterM, AfterE, AfterD, AfterS,
      StreamPc, NoToken, XretInW, ExternalFlush, WFlushNext, BranchJump, MException;
    LinkW(a, a', s, x);
    LinkM(a, a', s, x);
    LinkE(a, a', s, x);
    LinkD(a, a', s, x);
    if !ExternalFlush(s) {
      LinkFUnflushed(a, a', s, x);
    } else if WFlushNext(s) {
      LinkFTrap(a, a', s, x);
    } else if BranchJump(s) && !MException(s) {
      LinkFBranch(a, a', s, x);
    } else {
      FlushWithoutJump(a, s, x);
    }
  }
}
