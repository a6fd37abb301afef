/** Interrupt draining and the data bus keep their parts of the invariant. */
module BusProof {
  import opened Words
  import opened Decoder
  import opened Execute
  import opened Machine
  import opened Core
  import opened Invariant
  import opened DecoderFacts
  import opened AdvanceProof
  import opened ChainProof
  import opened ValuesProof

  // --- Interrupts -----------------------------------------------------------

  /** While decode is held for an interrupt nothing is flushed and no CSR changes. */
  lemma LiberatorHolds(s: State, x: In)
    requires TokensOk(s) && LiberatorOk(s) && !LiberatorClear(s)
    ensures s.d.valid && DStuck(s, x) && !DRemove(s) && !TrapNow(s) && !XretInW(s) && !EFlushed(s) && !s.t.excW
    ensures s.t.pcValid0 ==> NextCsr(s, x) == s.csr && !EStuckAlone(s)
  {
    hide Env, Legal, MException, InterruptJump, BranchJump, SelfException, DecodeException, HazardStall,
      XretInFlight, EHaltItself, MStuck, InterruptEnabled, CsrStore, CsrWriteValue;
  }

  predicate EStuckAlone(s: State) { s.e.valid && EHaltItself(s) }

  lemma EmptyExecuteFree(s: State)
    requires !s.e.valid
    ensures !EHaltItself(s)
  {
    hide IsMem, IsCsr, EAlignFault, Shift;
  }

  lemma LiberatorKept(s: State, x: In)
    requires TokensOk(s) && LiberatorOk(s)
    ensures LiberatorOk(Next(s, x))
  {
    hide Env, Legal, MRemove, HazardStall, XretInFlight, EHaltItself, MStuck, EResult, BranchDo, BranchTarget,
      EAlignFault, EAddress, AddressLow, ShiftBusy, ShiftDone, ShiftAmplitude, CsrWriteEnable, CsrWriteValue,
      CsrStore, Anticipated, JoinValid, Rs1, Rs2, DStuck, DRemove, EFlushed, TrapNow, XretInW, InterruptJump, ERemove;
    hide NextRegs, NextBuffer, NextFetch, NextCsr, NextBus, LiberatorClear;
    if !LiberatorClear(s) {
      LiberatorHolds(s, x);
      StallsNeedStages(s, x);
      PendingEnabled(s, x);
    }
  }

  lemma StallsNeedStages(s: State, x: In)
    ensures !s.m.valid ==> !MStuck(s, x)
    ensures !s.e.valid && !s.m.valid ==> !EStuck(s, x)
    ensures EStuck(s, x) ==> DStuck(s, x)
  {
    if !s.e.valid {
      EmptyExecuteFree(s);
    }
    hide EHaltItself, DHalt;
  }

  /** A newly recorded interrupt is one that the current CSRs enable. */
  lemma PendingEnabled(s: State, x: In)
    ensures NextTrap(s, x).irqValid ==> InterruptEnabled(s.csr, NextTrap(s, x).irqCode)
  {
    hide InterruptJump, DStuck, EStuck, MStuck, ExcValidD, ExcValidE, ExcValidM, LiberatorClear, MException,
      MemoryException, SelfException, DecodeException, CsrWriteEnable, CsrWriteValue, IsStore;
  }

  // --- Data bus -------------------------------------------------------------

  /** A command leaves execute exactly when its instruction does. */
  lemma CommandMoves(s: State, x: In)
    requires s.e.valid && Legal(s.e.inst) && IsMem(s.e.inst) && !EAlignFault(s)
    ensures DCmdValid(s, x) && !s.bus.valid <==> !EStuck(s, x) && !ERemove(s)
  {
    hide Legal, IsMem, EAlignFault, MStuck, EFlushed, IsCsr, Shift, Branch, Env, IsStore, UsesRs1, UsesRs2, WritesRd,
      Amount;
    LegalIsOneClass(s.e.inst);
  }

  lemma BusKept(a: Arch, s: State, x: In)
    requires BusOk(s) && MemoryOk(a, s) && (s.e.valid ==> Legal(s.e.inst)) && (s.m.valid ==> Legal(s.m.inst))
             && ShiftOk(s)
    requires s.m.valid ==> !WFlushNext(s)
    ensures BusOk(Next(s, x))
  {
    hide Legal, IsMem, IsStore, MemoryOk, ShiftOk, EHaltItself, Shift, Branch, WritesRd, UsesRs1, UsesRs2, IsCsr,
      EFlushed, Env, EAlignFault, BranchDo, BranchTarget, AddressLow, EAddress, EResult, Size, StoreData, Bit1,
      WFlushNext, SelfException;
    hide NextRegs, NextBuffer, NextFetch, NextDecode, NextExecute, NextWriteBack, NextTrap, NextCsr;
    if s.e.valid && IsMem(s.e.inst) && !EAlignFault(s) {
      CommandMoves(s, x);
      if !EStuck(s, x) {
        ExecuteValue(s, x);
        LegalIsOneClass(s.e.inst);
      }
    }
    if BranchJump(s) {
      BranchNotStuck(a, s, x);
    }
  }

  /** Transactions of stores do not depend on any response. */
  lemma StoreTxn(i: Word, pc: Word, x: Word, y: Word, x': Word, y': Word, r: Word, r': Word)
    requires Legal(i) && IsMem(i) && SameUsed(i, x, y, x', y')
    ensures IsStore(i) ==> TxnFor(i, pc, x, y, r) == TxnFor(i, pc, x', y', r')
    ensures !IsStore(i) ==> TxnFor(i, pc, x, y, r) == TxnFor(i, pc, x', y', r)
  {
    hide Legal, IsMem, IsStore, UsesRs1, UsesRs2, Size, Address, StoreData, Lanes, WritesRd, IsCsr, ExecuteResult,
      Src1, Src2, Shift;
    UnusedInData(i, pc, x, y, x', y');
  }

  /** writeBack receives the transaction of the instruction leaving memory. */
  lemma LogIntoWriteBack(a: Arch, a': Arch, s: State, x: In)
    requires TokensOk(s) && Advanced(a, a', s, x) && MemoryOk(a, s) && BusOk(s)
    requires s.m.valid ==> Legal(s.m.inst) && !WFlushNext(s)
    ensures WTxn(a', Next(s, x)) == if LoadWaiting(s) && x.dAck then Completed(s, x) else MTxn(a, s)
  {
    hide Advanced, Legal, IsMem, IsStore, Free, Rs1, Rs2, Size, Address, AddressLow, AlignFault, StoreData, Lanes,
      BranchDo, BranchTarget, ExecuteResult, WritesRd, IsCsr, WFlushNext, Env, Bit1;
    hide NextRegs, NextBuffer, NextFetch, NextDecode, NextExecute, NextMemory, NextTrap, NextCsr, NextBus;
    if s.m.valid && IsMem(s.m.inst) {
      OperandsKept(a, a', s, x, s.m.inst);
      StoreTxn(s.m.inst, s.m.pc, Op1(a, s.m.inst), Op2(a, s.m.inst), Op1(a', s.m.inst), Op2(a', s.m.inst), 0, x.dData);
      HeldMemory(a, a', s, x);
    }
    if BranchJump(s) {
      BranchNotStuck(a, s, x);
      BranchIsNotMemory(a, s);
    }
  }

  lemma BranchIsNotMemory(a: Arch, s: State)
    requires BranchJump(s) && Legal(s.m.inst) && MemoryOk(a, s)
    ensures !IsMem(s.m.inst)
  {
    hide Legal, Free, BranchTarget, Address, AddressLow, AlignFault, Size, ExecuteResult, Src1, Src2, WritesRd,
      IsCsr, IsMem, Rs1, Rs2, Shift, Env, UsesRs1, UsesRs2, IsStore, Branch, Less, Bit1;
    LegalIsOneClass(s.m.inst);
    if Branch(s.m.inst) == BranchInc {
      NoBranch(s.m.inst, s.m.pc, Op1(a, s.m.inst), Op2(a, s.m.inst));
    }
  }

  /** A store entering memory is exactly one entering the half-pipe register. */
  lemma LogIntoMemory(a: Arch, a': Arch, s: State, x: In)
    requires Advanced(a, a', s, x) && ExecuteOk(a, s) && ShiftOk(s)
    requires s.e.valid ==> Legal(s.e.inst)
    ensures MTxn(a', Next(s, x)) == if s.bus.valid then [] else Posted(Next(s, x))
  {
    hide Advanced, ShiftOk, Legal, IsMem, IsStore, Free, Rs1, Rs2, Size, AddressLow, AlignFault, StoreData, Lanes,
      BranchDo, BranchTarget, ExecuteResult, WritesRd, IsCsr, EHaltItself, DRspReady, EFlushed, EResult, MRemove,
      SelfException, Src1, Src2, Shift, Env, Branch, UsesRs1, UsesRs2, Address;
    hide NextRegs, NextBuffer, NextFetch, NextDecode, NextExecute, NextWriteBack, NextTrap, NextCsr;
    if s.e.valid && IsMem(s.e.inst) {
      LegalIsOneClass(s.e.inst);
      OperandsKept(a, a', s, x, s.e.inst);
      UnusedInData(s.e.inst, s.e.pc, s.e.rs1, s.e.rs2, Op1(a', s.e.inst), Op2(a', s.e.inst));
      if !EAlignFault(s) {
        CommandMoves(s, x);
      }
    }
  }

  lemma LogKept(a: Arch, a': Arch, s: State, x: In, done: seq<Txn>)
    requires TokensOk(s) && LiberatorOk(s) && Advanced(a, a', s, x) && a'.log == a.log + WTxn(a, s)
    requires ExecuteOk(a, s) && MemoryOk(a, s) && ShiftOk(s) && BusOk(s) && LogOk(a, s, done)
    requires (s.e.valid ==> Legal(s.e.inst)) && (s.m.valid ==> Legal(s.m.inst))
    ensures LogOk(a', Next(s, x), done + Completed(s, x))
  {
    hide Advanced, ShiftOk, ExecuteOk, MemoryOk, Legal, IsMem, IsStore, WTxn, TxnFor, TxnOf, Size, Env,
      InterruptEnabled;
    hide NextRegs, NextBuffer, NextFetch, NextDecode, NextExecute, NextMemory, NextWriteBack, NextTrap, NextCsr;
    Exclusive(s);
    LogIntoWriteBack(a, a', s, x);
    LogIntoMemory(a, a', s, x);
    PostedAck(s, x);
    var p, c, p' := Posted(s), Completed(s, x), Posted(Next(s, x));
    var m, w', m' := MTxn(a, s), WTxn(a', Next(s, x)), MTxn(a', Next(s, x));
    assert done + c + p' == (done + p) + (if LoadWaiting(s) && x.dAck then c else m');
    assert w' + m' == m + (if LoadWaiting(s) && x.dAck then c else m');
    assert done + c + p' == a.log + WTxn(a, s) + m + (if LoadWaiting(s) && x.dAck then c else m');
  }

  lemma PostedAck(s: State, x: In)
    ensures s.bus.valid && s.bus.wr && x.dAck ==> Completed(s, x) == Posted(s)
    ensures s.bus.valid && x.dAck ==> Posted(Next(s, x)) == []
    ensures s.bus.valid && !x.dAck ==> Posted(Next(s, x)) == Posted(s) && Completed(s, x) == []
    ensures !s.bus.valid ==> Posted(s) == [] && Completed(s, x) == []
    ensures s.bus.valid && !s.bus.wr ==> Posted(s) == []
  {
    hide DCmdValid, Lanes, EAddress, StoreData, Size, IsStore;
    hide NextRegs, NextBuffer, NextFetch, NextDecode, NextExecute, NextMemory, NextWriteBack, NextTrap, NextCsr;
  }
}
