/** Pending exceptions, interrupts and data-bus commands keep their parts of the
    invariant, and all parts together survive a clock. */
module TrapProof {
  import opened Words
  import opened Decoder
  import opened Execute
  import opened Machine
  import opened Core
  import opened Invariant
  import opened DecoderFacts
  import opened AdvanceProof
  import opened FrontProof
  import opened ChainProof
  import opened ValuesProof

  // --- Exceptions -----------------------------------------------------------

  lemma StaticTrapOf(i: Word, pc: Word, x: Word, y: Word, c: bv4, v: Word)
    requires StaticTrap(i, c, v)
    ensures TrapOf(i, pc, x, y) == Trap(c, v)
  {
    hide Legal, Env, Misaligned, BranchDo, BranchTarget, Bit1;
  }

  /** A pending exception in memory is unaffected by the older write in writeBack. */
  lemma TokenInMemory(imem: Memory, a: Arch, a': Arch, s: State, x: In)
    requires Advanced(a, a', s, x) && s.t.excM && ContextOk(imem, a, s)
    ensures var i := imem(s.m.pc);
            TrapOf(i, s.m.pc, Op1(a', i), Op2(a', i)) == Trap(s.t.code, s.t.badAddr)
  {
    hide Advanced, StaticTrap, Free, Legal, TrapOf, Rs1, Rs2, UsesRs1, UsesRs2;
    var i := imem(s.m.pc);
    if StaticTrap(i, s.t.code, s.t.badAddr) {
      StaticTrapOf(i, s.m.pc, Op1(a', i), Op2(a', i), s.t.code, s.t.badAddr);
    } else {
      OperandsKept(a, a', s, x, i);
      UnusedInTrap(i, s.m.pc, Op1(a, i), Op2(a, i), Op1(a', i), Op2(a', i));
    }
  }

  /** An exception raised in memory is the sequential machine's. */
  lemma RaisedInMemory(imem: Memory, a: Arch, a': Arch, s: State, x: In)
    requires Advanced(a, a', s, x) && MException(s) && MemoryOk(a, s)
    requires s.m.inst == imem(s.m.pc) && Legal(s.m.inst) && Env(s.m.inst) != EnvEcall
    ensures var i := imem(s.m.pc);
            Free(i, s.w.valid, s.w.inst)
            && TrapOf(i, s.m.pc, Op1(a', i), Op2(a', i)) == Trap(NextTrap(s, x).code, NextTrap(s, x).badAddr)
  {
    hide Advanced, Free, Rs1, Rs2, UsesRs1, UsesRs2, WritesRd, IsMem, IsCsr, IsStore, Legal, Env, BranchDo,
      BranchTarget, Address, AddressLow, AlignFault, Size, ExecuteResult, Bit1;
    HeldMemory(a, a', s, x);
  }

  /** The recorded cause stays that of the pending exception, or becomes that of
      an older one, which then is the only one pending. */
  lemma ContextStable(s: State, x: In)
    requires TokensOk(s)
    ensures (s.t.excD && !DFlushed(s)) || (s.t.excE && !EFlushed(s)) || (s.t.excM && !MFlushed(s)) || s.t.excW ==>
              NextTrap(s, x).code == s.t.code && NextTrap(s, x).badAddr == s.t.badAddr
  {
    hide Env, MemoryException, BranchException, TrapNow, XretInW, Legal, DHalt, EHaltItself, MStuck, AnyPending,
      BranchJump, InterruptJump;
    if !s.m.valid {
      EmptyMemory(s);
    }
  }

  lemma FrontContext(imem: Memory, a': Arch, s: State, x: In)
    requires TokensOk(s) && InstructionsOk(imem, s)
    requires s.t.excD ==> StaticTrap(imem(s.d.pc), s.t.code, s.t.badAddr)
    requires s.t.excE ==> StaticTrap(imem(s.e.pc), s.t.code, s.t.badAddr)
    ensures var c, v := NextTrap(s, x).code, NextTrap(s, x).badAddr;
            && (ExcValidD(s) ==> StaticTrap(imem(s.d.pc), c, v))
            && (ExcValidE(s) ==> StaticTrap(imem(s.e.pc), c, v))
  {
    hide MException, TrapNow, XretInW, Legal, DHalt, EHaltItself, MStuck, AnyPending, BranchJump, InterruptJump;
    ContextStable(s, x);
  }

  lemma BackContext(imem: Memory, a: Arch, a': Arch, s: State, x: In)
    requires TokensOk(s) && InstructionsOk(imem, s) && Advanced(a, a', s, x) && MemoryOk(a, s) && ContextOk(imem, a, s)
    ensures var c, v := NextTrap(s, x).code, NextTrap(s, x).badAddr;
            && (ExcValidM(s) ==> var i := imem(s.m.pc); TrapOf(i, s.m.pc, Op1(a', i), Op2(a', i)) == Trap(c, v))
            && (s.t.excW ==> var i := imem(s.w.pc); TrapOf(i, s.w.pc, Op1(a', i), Op2(a', i)) == Trap(c, v))
  {
    hide Advanced, TrapOf, Free, StaticTrap, MException, TrapNow, XretInW, Legal, Env, Rs1, Rs2, MemoryOk, UsesRs1,
      UsesRs2;
    hide NextTrap;
    ContextStable(s, x);
    if s.t.excM {
      TokenInMemory(imem, a, a', s, x);
    }
    if MException(s) {
      MExceptionValid(s);
      RaisedInMemory(imem, a, a', s, x);
    }
    if s.t.excW {
      RegsHeld(a, a', s, x);
    }
  }

  lemma MExceptionValid(s: State)
    ensures MException(s) ==> s.m.valid
  {}

  lemma RegsHeld(a: Arch, a': Arch, s: State, x: In)
    requires Advanced(a, a', s, x) && !s.w.valid
    ensures a'.regs == a.regs
  {
    hide WFlushNext, AfterW, WData, NextFetch, NextDecode, NextExecute, NextMemory, NextWriteBack, NextTrap, NextCsr,
      NextBuffer, NextBus;
  }

  /** Where a pending exception goes; its program counter goes with it. */
  lemma TokenPlaces(s: State, x: In)
    requires TokensOk(s)
    ensures NextTrap(s, x).excD ==> ExcValidD(s) && NextDecode(s, x).pc == s.d.pc
    ensures NextTrap(s, x).excE ==>
              (ExcValidD(s) && NextExecute(s, x).pc == s.d.pc) || (ExcValidE(s) && NextExecute(s, x).pc == s.e.pc)
    ensures NextTrap(s, x).excM ==>
              (ExcValidE(s) && NextMemory(s, x).pc == s.e.pc)
                || (ExcValidM(s) && MStuck(s, x) && NextMemory(s, x).pc == s.m.pc)
    ensures NextTrap(s, x).excW ==> ExcValidM(s) && NextWriteBack(s, x).pc == s.m.pc
    ensures NextTrap(s, x).hadException ==> s.t.excW && NextWriteBack(s, x).pc == s.w.pc
  {
    hide Env, DHalt, EHaltItself, IsMem, IsStore, DRspReady, ExcValidD, ExcValidE, MFlushed, BranchException,
      MemoryException, BranchJump, AnyPending, EResult, BranchDo, BranchTarget, EAlignFault, EAddress, AddressLow,
      ShiftBusy, ShiftDone, ShiftAmplitude, DRemove, ERemove, MRemove, XretInW, InterruptJump, LiberatorClear,
      CsrWriteEnable, JoinValid, Anticipated;
    if !s.m.valid {
      EmptyMemory(s);
    }
  }

  /** A misaligned load raises its exception while it stalls in memory. */
  lemma StalledContext(imem: Memory, a: Arch, a': Arch, s: State, x: In)
    requires TokensOk(s) && InstructionsOk(imem, s) && Advanced(a, a', s, x) && MemoryOk(a, s)
    requires ExcValidM(s) && MStuck(s, x)
    ensures Legal(imem(s.m.pc)) && Free(imem(s.m.pc), NextWriteBack(s, x).valid, NextWriteBack(s, x).inst)
  {
    hide Free, Legal, Env, IsMem, IsStore, DRspReady, MException, MFlushed, RegsOk, NextPc;
    FreeOfNothing(imem(s.m.pc), NextWriteBack(s, x).inst);
  }

  lemma ContextInFront(imem: Memory, a: Arch, a': Arch, s: State, x: In)
    requires TokensOk(s) && InstructionsOk(imem, s) && Advanced(a, a', s, x) && MemoryOk(a, s) && ContextOk(imem, a, s)
    ensures var s' := Next(s, x);
            && (s'.t.excD ==> StaticTrap(imem(s'.d.pc), s'.t.code, s'.t.badAddr))
            && (s'.t.excE ==> StaticTrap(imem(s'.e.pc), s'.t.code, s'.t.badAddr))
  {
    hide TokensOk, InstructionsOk, Advanced, TrapOf, Free, StaticTrap, ExcValidD, ExcValidE, ExcValidM, Legal, Op1,
      Op2, MemoryOk, MStuck, NextDecode, NextExecute, NextMemory, NextWriteBack, NextTrap, NextRegs, NextBuffer,
      NextFetch, NextCsr, NextBus;
    FrontContext(imem, a', s, x);
    TokenPlaces(s, x);
  }

  lemma ContextInBack(imem: Memory, a: Arch, a': Arch, s: State, x: In)
    requires TokensOk(s) && InstructionsOk(imem, s) && Advanced(a, a', s, x) && MemoryOk(a, s) && ContextOk(imem, a, s)
    ensures var s' := Next(s, x);
            s'.t.excW || s'.t.hadException ==>
              var i := imem(s'.w.pc);
              TrapOf(i, s'.w.pc, Op1(a', i), Op2(a', i)) == Trap(s'.t.code, s'.t.badAddr)
  {
    hide TokensOk, InstructionsOk, Advanced, TrapOf, Free, StaticTrap, ExcValidD, ExcValidE, ExcValidM, Legal, Op1,
      Op2, MemoryOk, MStuck, NextDecode, NextExecute, NextMemory, NextWriteBack, NextTrap, NextRegs, NextBuffer,
      NextFetch, NextCsr, NextBus;
    BackContext(imem, a, a', s, x);
    TokenPlaces(s, x);
  }

  lemma ContextInMemory(imem: Memory, a: Arch, a': Arch, s: State, x: In)
    requires TokensOk(s) && InstructionsOk(imem, s) && Advanced(a, a', s, x) && MemoryOk(a, s) && ContextOk(imem, a, s)
    ensures var s' := Next(s, x);
            s'.t.excM ==>
              var i, c, v := imem(s'.m.pc), s'.t.code, s'.t.badAddr;
              || StaticTrap(i, c, v)
              || (Legal(i) && Free(i, s'.w.valid, s'.w.inst)
                && TrapOf(i, s'.m.pc, Op1(a', i), Op2(a', i)) == Trap(c, v))
  {
    hide TokensOk, InstructionsOk, Advanced, TrapOf, Free, StaticTrap, ExcValidD, ExcValidE, ExcValidM, Legal, Op1,
      Op2, MemoryOk, MStuck, NextDecode, NextExecute, NextMemory, NextWriteBack, NextTrap, NextRegs, NextBuffer,
      NextFetch, NextCsr, NextBus;
    TokenPlaces(s, x);
    if ExcValidE(s) && NextMemory(s, x).pc == s.e.pc {
      FrontContext(imem, a', s, x);
    } else if ExcValidM(s) && MStuck(s, x) {
      BackContext(imem, a, a', s, x);
      StalledContext(imem, a, a', s, x);
    }
  }

  lemma ContextKept(imem: Memory, a: Arch, a': Arch, s: State, x: In)
    requires TokensOk(s) && InstructionsOk(imem, s) && Advanced(a, a', s, x) && MemoryOk(a, s) && ContextOk(imem, a, s)
    ensures ContextOk(imem, a', Next(s, x))
  {
    hide TokensOk, InstructionsOk, Advanced, TrapOf, Free, StaticTrap, Legal, Op1, Op2, MemoryOk, Next;
    ContextInFront(imem, a, a', s, x);
    ContextInMemory(imem, a, a', s, x);
    ContextInBack(imem, a, a', s, x);
  }
}
