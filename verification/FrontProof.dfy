/** The fetch unit and the movement of instructions and pending exceptions keep
    their parts of the invariant. */
module FrontProof {
  import opened Words
  import opened Decoder
  import opened Execute
  import opened Machine
  import opened Core
  import opened Invariant
  import opened DecoderFacts

  lemma JumpFlushes(s: State)
    ensures JumpValid(s) ==> ExternalFlush(s)
  {
    hide TrapNow, XretInW, BranchJump, MException, SelfException, DecodeException;
  }

  /** After a jump the fetch unit holds its target in stage 1 or requests it next. */
  lemma RestartPc(s: State, x: In)
    requires JumpValid(s) && s.f.booted
    ensures var f := NextFetch(s, x);
            f.pcReg == Align(JumpTarget(s, x)) && f.inc == f.s1Valid && !NextDecode(s, x).valid
  {
    JumpFlushes(s);
    hide TrapNow, XretInW, BranchJump, JumpTarget, FetcherHalt, DStuck, CanEmit, CmdReady, JoinFire, PopFire,
      Pushing, NextPending, NextDiscard, MException, Align, Plus, Rs1, Rs2, Anticipated, PopInst, SelfException,
      DecodeException;
  }

  lemma JumpIsBooted(s: State)
    requires TokensOk(s) && LiberatorOk(s) && JumpValid(s)
    ensures s.f.booted
  {
    hide Env, InterruptEnabled;
  }

  /** No fetch response is lost or counted twice. */
  lemma FetchBookKept(s: State, x: In)
    requires FetchBook(s)
    ensures FetchBook(Next(s, x))
  {
    hide DStuck, ExternalFlush, JumpValid, FetcherHalt, FetchPc, NextRegs, NextCsr, NextDecode, NextExecute,
      NextMemory, NextWriteBack, NextBuffer, NextTrap, NextBus, PopInst;
    JumpFlushes(s);
  }

  lemma FetchDataKept(imem: Memory, s: State, x: In)
    requires FetchBook(s) && FetchData(imem, s) && ImemAnswers(imem, s, x)
    ensures FetchData(imem, Next(s, x))
  {
    hide DStuck, ExternalFlush, JumpValid, FetcherHalt, FetchPc, Align, Aligned, NextRegs, NextCsr, NextDecode,
      NextExecute, NextMemory, NextWriteBack, NextBuffer, NextTrap, NextBus, PopInst;
    JumpFlushes(s);
    FetchPcAligned(s, x);
    FetchBookKept(s, x);
  }

  lemma FetchPcAligned(s: State, x: In)
    ensures Aligned(FetchPc(s, x)) && Align(FetchPc(s, x)) == FetchPc(s, x)
  {
    hide JumpValid, JumpTarget, Plus, Align, Aligned;
    var p := if JumpValid(s) then JumpTarget(s, x) else Plus(s.f.pcReg, if s.f.inc then 4 else 0);
    AlignFacts(p);
    AlignFacts(Align(p));
  }

  /** The word that joins with fetch stage 1 is the one at its address. */
  lemma JoinedWord(imem: Memory, s: State, x: In)
    requires FetchBook(s) && FetchData(imem, s) && ImemAnswers(imem, s, x) && JoinValid(s, x)
    ensures PopInst(s, x) == imem(s.f.pcReg)
  {
    hide Aligned;
  }

  lemma InstructionsKept(imem: Memory, s: State, x: In)
    requires TokensOk(s) && FetchBook(s) && FetchData(imem, s) && ImemAnswers(imem, s, x) && InstructionsOk(imem, s)
    ensures InstructionsOk(imem, Next(s, x))
  {
    hide EHaltItself, MStuck, DHalt, Legal, Env, PopInst, EFlushed, MRemove, JoinValid, ExternalFlush, EResult,
      EAlignFault, EAddress, BranchDo, BranchTarget, AddressLow, ShiftBusy, ShiftDone, ShiftAmplitude, Rs1, Rs2;
    hide NextRegs, NextCsr, NextFetch, NextBuffer, NextTrap, NextBus, FetchBook, FetchData;
    if JoinValid(s, x) {
      JoinedWord(imem, s, x);
    }
  }

  lemma ReturnIsNotMemory(i: Word)
    requires Legal(i) && Env(i) == EnvXret
    ensures !IsMem(i)
  {}

  lemma ExceptionsKept(s: State, x: In)
    requires ExceptionAlone(s)
    ensures ExceptionAlone(Next(s, x))
  {
    hide Legal, Env, IsMem, IsStore, DRspReady, HazardStall, LiberatorActive, EHaltItself, EResult, EAlignFault,
      EAddress, BranchDo, BranchTarget, AddressLow, ShiftBusy, ShiftDone, ShiftAmplitude, Rs1, Rs2, FetchPc, PopFire,
      PopValid, Pushing, InterruptJump;
    hide NextRegs, NextCsr, NextBuffer, NextBus, FetchBook, NextCode, NextBadAddr, NextIrqValid, NextIrqCode,
      NextPcValid0, NextPcValid1, NextPcValid2, NextMsip, NextPending, NextDiscard, NextPcReg;
  }

  lemma ReturnKept(s: State, x: In)
    requires TokensOk(s) && (s.m.valid ==> Legal(s.m.inst))
    ensures ReturnAlone(Next(s, x))
  {
    hide Legal, Env, IsMem, IsStore, DRspReady, HazardStall, LiberatorActive, EHaltItself, EResult, EAlignFault,
      EAddress, BranchDo, BranchTarget, AddressLow, ShiftBusy, ShiftDone, ShiftAmplitude, Rs1, Rs2, FetchPc, PopFire,
      PopValid, Pushing, InterruptJump;
    hide NextRegs, NextCsr, NextBuffer, NextBus, FetchBook, NextCode, NextBadAddr, NextIrqValid, NextIrqCode,
      NextPcValid0, NextPcValid1, NextPcValid2, NextMsip, NextPending, NextDiscard, NextPcReg;
    hide NextFetch;
    if s.m.valid && Env(s.m.inst) == EnvXret {
      ReturnIsNotMemory(s.m.inst);
    }
  }

  lemma BootKept(s: State, x: In)
    ensures BootQuiet(Next(s, x))
  {
    hide NextRegs, NextCsr, NextDecode, NextExecute, NextMemory, NextWriteBack, NextBuffer, NextTrap, NextBus,
      NextPcReg, NextInc, NextStage1, NextPending, NextDiscard, Pushing, PopFire, CmdReady, CanEmit, FetchValid,
      FetchPc;
  }

  lemma TokensKept(s: State, x: In)
    requires TokensOk(s) && (s.m.valid ==> Legal(s.m.inst))
    ensures TokensOk(Next(s, x))
  {
    hide ExceptionAlone, ReturnAlone, BootQuiet, Legal, Next;
    ExceptionsKept(s, x);
    ReturnKept(s, x);
    BootKept(s, x);
  }
}
