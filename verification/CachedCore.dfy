/** The core of VexRiscv_MinDebugCache: the same back end behind the cached fetch
    unit, whose stage 2 is the decode stage.  It refines the same sequential
    machine: each of its cycles is a cycle of the plain core from a suitable
    state of the plain fetch unit. */
module CachedCore {
  import opened Words
  import opened Decoder
  import opened Execute
  import opened Machine
  import opened Core
  import opened Invariant
  import opened DecoderFacts
  import opened AdvanceProof
  import opened ChainProof
  import opened FrontProof
  import opened CoreTheorems
  import Refinement
  import CoreIsa
  import Isa
  import IsaStep
  import Ram
  import LP = LatchedPins
  import F = CachedFetch
  import FP = CacheProof
  import FT = CacheTheorems

  // --- The core -------------------------------------------------------------------

  datatype Cpu = Cpu(
    boot: bool, regs: RegFile, csr: Csrs, fetch: F.State, port1: Word, port2: Word,
    e: ExecuteStage, m: MemoryStage, w: WriteBackStage,
    wb: WriteBackBuffer, t: TrapUnit, bus: DataBus)

  function DecodeNow(c: Cpu): DecodeStage {
    DecodeStage(F.OutputValid(c.fetch), c.fetch.p.s2Pc, c.fetch.p.s2Word, c.port1, c.port2)
  }

  /** Stage 1 holds an instruction that the cache has found. */
  predicate Found(f: F.State) { f.p.s1Valid && F.PortHit(f.p) && !F.Miss(f) }

  /** A plain fetch unit about to deliver, or to request, the same instruction. */
  function PlainFetch(f: F.State): Fetch {
    if Found(f) then
      Fetch(f.p.pcReg, true, f.p.booted, true, 1, 0, false, 0, true, f.p.pcReg)
    else
      Fetch(if F.Miss(f) then f.p.s2Pc else f.p.pcReg, if F.Miss(f) || f.p.s1Valid then false else f.p.inc, f.p.booted,
            false, 0, 0, false, 0, false, 0)
  }

  /** The core seen as a plain core. */
  function View(c: Cpu): State {
    State(c.boot, c.regs, c.csr, PlainFetch(c.fetch), DecodeNow(c), c.e, c.m, c.w, c.wb, c.t, c.bus)
  }

  /** The word on its way to decode. */
  function Incoming(c: Cpu): Word { if F.Miss(c.fetch) then c.fetch.p.s2Word else c.fetch.p.portWord }

  /** Inputs of the back end, with that word as the plain bus response. */
  function BackIn(c: Cpu, x: In): In { x.(iAck := true, iData := Incoming(c)) }

  /** FENCE.I in decode. */
  predicate FlushAll(i: Word) { i & 0x1048 == 0x1008 }

  /** What the fetch unit sees of the back end and of the instruction bus. */
  function FetchIn(c: Cpu, x: In): F.In {
    var s := View(c);
    F.In(DStuck(s, BackIn(c, x)), DRemove(s), DFlushNext(s), JumpValid(s), JumpTarget(s, x), FetcherHalt(s),
         s.d.valid && FlushAll(s.d.inst), x.iAck, x.iData)
  }

  function Next(c: Cpu, x: In): Cpu {
    var s, y := View(c), BackIn(c, x);
    var i := if DStuck(s, y) then s.d.inst else c.fetch.p.portWord;
    Cpu(false, NextRegs(s), NextCsr(s, y), F.Next(c.fetch, FetchIn(c, x)), s.regs(Rs1(i)), s.regs(Rs2(i)),
        NextExecute(s, y), NextMemory(s, y), NextWriteBack(s, y), NextBuffer(s), NextTrap(s, y), NextBus(s, y))
  }

  predicate Reset(c: Cpu) { Core.Reset(View(c)) && F.Reset(c.fetch) }

  /** An acknowledged instruction-bus transfer returns the addressed word. */
  predicate BusAnswers(imem: Memory, c: Cpu, x: In) {
    F.Transfer(c.fetch, FetchIn(c, x)) ==> x.iData == imem(F.BusAddress(c.fetch))
  }

  // --- Invariant --------------------------------------------------------------------

  /** Nothing waits in stage 1 behind a pending exception. */
  predicate Alone(c: Cpu) { c.fetch.p.s1Valid ==> NoToken(View(c)) }

  ghost predicate CInv(imem: Memory, a: Arch, c: Cpu, done: seq<Txn>) {
    && Inv(imem, a, View(c), done) && FP.Inv(imem, c.fetch) && FT.InOrder(c.fetch) && Alone(c)
  }

  lemma ResetCInv(imem: Memory, c: Cpu)
    requires Reset(c)
    ensures CInv(imem, Refinement.Boot(View(c)), c, [])
  {
    Refinement.BootInv(imem, View(c));
    FP.ResetInv(imem, c.fetch);
    hide Core.Reset, View, Inv, FP.Inv, F.Reset, FT.StreamPc, Aligned;
    FetchStart(c.fetch);
  }

  lemma FetchStart(f: F.State)
    requires F.Reset(f)
    ensures FT.InOrder(f) && !f.p.s1Valid
  {
    hide FT.StreamPc, Aligned;
  }

  // --- One clock ----------------------------------------------------------------------

  lemma ViewAnswers(imem: Memory, c: Cpu, x: In)
    requires FP.Inv(imem, c.fetch)
    ensures ImemAnswers(imem, View(c), BackIn(c, x))
  {
    hide FP.BurstOk, FP.LoaderOk, FP.LinesOk, FP.LoadingOk, Aligned, F.TagOf;
  }

  lemma FetchAllowed(imem: Memory, c: Cpu, x: In)
    requires BusAnswers(imem, c, x)
    ensures F.Allowed(imem, c.fetch, FetchIn(c, x))
  {
    hide F.Transfer, F.BusAddress, DStuck, JumpTarget, FetcherHalt, DRemove, DFlushNext, JumpValid, View;
    JumpRemoves(View(c));
  }

  /** The contract the fetch unit relies on. */
  lemma JumpRemoves(s: State)
    ensures JumpValid(s) ==> DRemove(s) && ExternalFlush(s)
    ensures DRemove(s) || DFlushNext(s) ==> ExternalFlush(s)
    ensures ExternalFlush(s) ==> DRemove(s)
  {
    hide TrapNow, XretInW, MException, SelfException, DecodeException, BranchJump;
  }

  lemma AloneKept(imem: Memory, a: Arch, c: Cpu, done: seq<Txn>, x: In)
    requires CInv(imem, a, c, done)
    ensures Alone(Next(c, x))
  {
    var s, y := View(c), BackIn(c, x);
    TokensRaised(s, y);
    FetchClosed(c, x);
    NextViewTokens(c, x);
    hide Next, View, BackIn, CInv, NextTrap, FetcherHalt, DRemove;
    CInvAlone(imem, a, c, done);
  }

  lemma CInvAlone(imem: Memory, a: Arch, c: Cpu, done: seq<Txn>)
    requires CInv(imem, a, c, done)
    ensures Alone(c)
  {
    hide View, Inv, FP.Inv, FT.InOrder;
  }

  /** A token in the next state comes from one in this state, or its cause halts
      and flushes the fetch unit. */
  lemma TokensRaised(s: State, x: In)
    ensures var t := NextTrap(s, x);
            t.excD || t.excE || t.excM || t.excW || t.hadException ==> FetcherHalt(s) && (!NoToken(s) || DRemove(s))
  {
    hide NextCode, NextBadAddr, NextIrqValid, NextIrqCode, NextPcValid0, NextPcValid1, NextPcValid2, NextMsip,
      DStuck, EStuck, MStuck,
      TrapNow, XretInW, MException, SelfException, DecodeException, BranchJump;
  }

  lemma NextViewTokens(c: Cpu, x: In)
    ensures View(Next(c, x)).t == NextTrap(View(c), BackIn(c, x))
  {
    hide View, NextTrap, F.Next, NextRegs, NextCsr, NextExecute, NextMemory, NextWriteBack, NextBuffer, NextBus, DStuck;
    assert Next(c, x).t == NextTrap(View(c), BackIn(c, x));
    ViewTokens(Next(c, x));
  }

  lemma ViewTokens(c: Cpu)
    ensures View(c).t == c.t
  {
    hide PlainFetch, DecodeNow;
  }

  /** Stage 1 fills only while the fetcher is not halted and keeps its contents only without a flush. */
  lemma FetchClosed(c: Cpu, x: In)
    ensures Next(c, x).fetch.p.s1Valid ==> !FetcherHalt(View(c)) || (c.fetch.p.s1Valid && !DRemove(View(c)))
  {
    hide View, NextTrap, NextRegs, NextCsr, NextExecute, NextMemory, NextWriteBack, NextBuffer, NextBus, DStuck,
      DRemove, FetcherHalt, DFlushNext, JumpValid, JumpTarget,
      F.FetchPc, F.NextLoader, F.NextBurst, F.NextTags, F.NextBank, F.PrefetchHalt, F.PortHit, F.Issue;
  }

  // --- Decode -----------------------------------------------------------------------------

  predicate SameDecode(d: DecodeStage, e: DecodeStage) {
    d.valid == e.valid && d.pc == e.pc && d.inst == e.inst && (d.valid ==> d == e)
  }

  lemma PlainDelivers(c: Cpu, x: In)
    ensures JoinValid(View(c), BackIn(c, x)) == Found(c.fetch) && PopInst(View(c), BackIn(c, x)) == Incoming(c)
    ensures View(c).f.pcReg == if F.Miss(c.fetch) then c.fetch.p.s2Pc else c.fetch.p.pcReg
    ensures View(c).d == DecodeNow(c) && View(c).regs == c.regs
  {
    hide F.PortHit, F.Miss, DecodeNow;
  }

  lemma DecodeStuck(c: Cpu, x: In)
    requires DStuck(View(c), BackIn(c, x))
    ensures SameDecode(DecodeNow(Next(c, x)), NextDecode(View(c), BackIn(c, x)))
  {
    PlainDelivers(c, x);
    hide View, BackIn, DStuck, DRemove, ExternalFlush, DFlushNext, JumpValid, JumpTarget, FetcherHalt, JoinValid,
      PopInst, Rs1, Rs2,
      NextTrap, NextRegs, NextCsr, NextExecute, NextMemory, NextWriteBack, NextBuffer, NextBus,
      F.FetchPc, F.NextLoader, F.NextBurst, F.NextTags, F.NextBank, F.PrefetchHalt, F.PortHit, F.FetchValid,
        F.Correction;
  }

  lemma DecodeMissed(c: Cpu, x: In)
    requires !DStuck(View(c), BackIn(c, x)) && F.Miss(c.fetch)
    ensures SameDecode(DecodeNow(Next(c, x)), NextDecode(View(c), BackIn(c, x)))
  {
    PlainDelivers(c, x);
    hide View, BackIn, DStuck, DRemove, ExternalFlush, DFlushNext, JumpValid, JumpTarget, FetcherHalt, JoinValid,
      PopInst, Rs1, Rs2,
      NextTrap, NextRegs, NextCsr, NextExecute, NextMemory, NextWriteBack, NextBuffer, NextBus,
      F.FetchPc, F.NextLoader, F.NextBurst, F.NextTags, F.NextBank, F.PrefetchHalt, F.PortHit, F.FetchValid,
        F.Correction;
  }

  lemma DecodeLoaded(imem: Memory, c: Cpu, x: In)
    requires !DStuck(View(c), BackIn(c, x)) && !F.Miss(c.fetch) && FP.StagesOk(imem, c.fetch)
    ensures SameDecode(DecodeNow(Next(c, x)), NextDecode(View(c), BackIn(c, x)))
  {
    PlainDelivers(c, x);
    JumpRemoves(View(c));
    hide View, BackIn, DStuck, DRemove, ExternalFlush, DFlushNext, JumpValid, JumpTarget, FetcherHalt, JoinValid,
      PopInst, Rs1, Rs2,
      NextTrap, NextRegs, NextCsr, NextExecute, NextMemory, NextWriteBack, NextBuffer, NextBus, Aligned,
      F.FetchPc, F.NextLoader, F.NextBurst, F.NextTags, F.NextBank, F.PrefetchHalt, F.PortHit, F.FetchValid,
        F.Correction;
  }

  lemma DecodeMatches(imem: Memory, c: Cpu, x: In)
    requires FP.Inv(imem, c.fetch)
    ensures SameDecode(DecodeNow(Next(c, x)), NextDecode(View(c), BackIn(c, x)))
  {
    hide View, BackIn, DStuck, F.Miss, SameDecode, Next, NextDecode, FP.BurstOk, FP.LoaderOk, FP.LinesOk,
      FP.LoadingOk, FP.StagesOk;
    if DStuck(View(c), BackIn(c, x)) {
      DecodeStuck(c, x);
    } else if F.Miss(c.fetch) {
      DecodeMissed(c, x);
    } else {
      DecodeLoaded(imem, c, x);
    }
  }

  // --- The next fetch address ----------------------------------------------------------------

  /** The address a plain fetch unit hands over next. */
  function Coming(f: Fetch): Word { if f.s1Valid then f.pcReg else Align(Plus(f.pcReg, if f.inc then 4 else 0)) }

  lemma ComingOfView(imem: Memory, c: Cpu)
    requires FP.Inv(imem, c.fetch) && FT.InOrder(c.fetch)
    ensures F.OutputValid(c.fetch) ==> Coming(PlainFetch(c.fetch)) == Plus(c.fetch.p.s2Pc, 4)
    ensures !F.OutputValid(c.fetch) ==> Coming(PlainFetch(c.fetch)) == FT.Expect(c.fetch)
  {
    hide Align, Aligned, Plus, FP.BurstOk, FP.LoaderOk, FP.LinesOk, FP.LoadingOk, F.PortHit;
    AlignFacts(c.fetch.p.pcReg);
    AlignFacts(c.fetch.p.s2Pc);
  }

  /** A plain fetch unit that neither jumps, flushes nor hands over keeps what is coming. */
  lemma ComingStays(s: State, x: In)
    requires FetchBook(s) && BootQuiet(s) && !JumpValid(s) && !ExternalFlush(s) && !JoinFire(s, x)
    requires s.f.s1Valid || (!s.f.busValid && !s.f.fifoFull)
    requires JoinValid(s, x) == s.f.s1Valid
    ensures Coming(NextFetch(s, x)) == Coming(s.f)
  {
    hide Align, Aligned, Plus, JumpValid, ExternalFlush, DStuck, FetcherHalt, JumpTarget, NextPending, NextDiscard,
      QuietW;
    AlignFacts(s.f.pcReg);
    AlignFacts(Align(Plus(s.f.pcReg, if s.f.inc then 4 else 0)));
    AlignFacts(Plus(s.f.pcReg, if s.f.inc then 4 else 0));
  }

  lemma ComingAfterJump(s: State, x: In)
    requires JumpValid(s) && s.f.booted
    ensures Coming(NextFetch(s, x)) == Align(JumpTarget(s, x))
  {
    hide Align, Aligned, Plus, JumpValid, JumpTarget, NextFetch, NextDecode;
    RestartPc(s, x);
    AlignFacts(JumpTarget(s, x));
    AlignFacts(Align(JumpTarget(s, x)));
  }

  lemma ComingIsNext(a: Arch, s: State)
    requires ChainOk(a, s) && NoToken(s) && !XretInW(s) && TokensOk(s)
    ensures Coming(s.f) == AfterD(a, s)
  {
    hide Align, Aligned, Plus, AfterD, AfterE, AfterM, AfterW, NoToken, XretInW;
  }

  // --- One clock, with the invariant ------------------------------------------------------------

  /** N is the plain core's next state; V is the view of the cached core's. */
  ghost predicate Matches(V: State, N: State) {
    V == N.(f := V.f, d := V.d) && SameDecode(V.d, N.d)
  }

  lemma NextMatches(imem: Memory, c: Cpu, x: In)
    requires FP.Inv(imem, c.fetch)
    ensures Matches(View(Next(c, x)), Core.Next(View(c), BackIn(c, x)))
  {
    hide DStuck, SameDecode, FP.Inv, FetchIn, F.Next, NextDecode, NextFetch, NextRegs, NextCsr, NextExecute,
      NextMemory, NextWriteBack, NextBuffer, NextTrap, NextBus,
      PlainFetch, DecodeNow, BackIn;
    DecodeMatches(imem, c, x);
  }

  /** The fetch unit's part of the invariant, for the plain fetch unit of a view. */
  ghost predicate FetchPart(imem: Memory, a: Arch, s: State) {
    && FetchBook(s) && FetchData(imem, s)
    && (s.f.s1Valid ==> NoToken(s) && !s.boot)
    && (s.boot <==> !s.f.booted)
    && !s.boot
    && (NoToken(s) && !XretInW(s) ==> Coming(s.f) == AfterD(a, s))
    && (s.f.s1Valid ==> s.f.inc && Aligned(s.f.pcReg))
  }

  lemma TransferTokens(imem: Memory, a: Arch, V: State, N: State)
    requires Matches(V, N) && TokensOk(N) && FetchPart(imem, a, V)
    ensures TokensOk(V)
  {
    hide Env, FetchBook, FetchData, Coming, AfterD, Aligned;
  }

  lemma TransferChain(imem: Memory, a: Arch, V: State, N: State)
    requires Matches(V, N) && ChainOk(a, N) && TokensOk(N) && FetchPart(imem, a, V)
    ensures ChainOk(a, V)
  {
    hide Env, FetchBook, FetchData, Aligned, Plus, Align, AfterW;
    AlignFacts(V.f.pcReg);
    AlignFacts(Plus(V.f.pcReg, 4));
    SameAfter(a, V, N);
    ReturnIsAlone(a, V, N);
  }

  lemma SameAfter(a: Arch, V: State, N: State)
    requires Matches(V, N)
    ensures AfterW(a, V) == AfterW(a, N) && AfterM(a, V) == AfterM(a, N) && AfterE(a, V) == AfterE(a, N)
            && AfterD(a, V) == AfterD(a, N)
  {
    hide Plus, NextPc, Rs1, Rs2;
  }

  lemma ReturnIsAlone(a: Arch, V: State, N: State)
    requires Matches(V, N)
    ensures XretInW(V) == XretInW(N) && NoToken(V) == NoToken(N)
  {
    hide Env;
  }

  lemma TransferValues(imem: Memory, a: Arch, V: State, N: State, done: seq<Txn>)
    requires Matches(V, N) && Inv(imem, a, N, done)
    ensures InstructionsOk(imem, V) && RegsOk(a, V) && PortsOk(a, V)
  {
    hide Legal, Env, TokensOk, FetchBook, FetchData, ChainOk, ExecuteOk, MemoryOk, WriteBackOk, ShiftOk, CsrOk,
      ContextOk, LiberatorOk, BusOk, LogOk, Rs1, Rs2;
  }

  lemma TransferStages(imem: Memory, a: Arch, V: State, N: State, done: seq<Txn>)
    requires Matches(V, N) && Inv(imem, a, N, done)
    ensures ExecuteOk(a, V) && MemoryOk(a, V) && WriteBackOk(a, V) && ShiftOk(V)
  {
    hide Legal, Env, TokensOk, FetchBook, FetchData, ChainOk, InstructionsOk, RegsOk, PortsOk, CsrOk, ContextOk,
      LiberatorOk, BusOk, LogOk, Rs1, Rs2,
      Free, BranchDo, BranchTarget, IsMem, IsCsr, WritesRd, Address, AlignFault, AddressLow, ExecuteResult, TrapOf,
        ShiftBy, Shift, Src1, Src2, Amount, UsesRs1, UsesRs2, Size;
  }

  lemma TransferTraps(imem: Memory, a: Arch, V: State, N: State, done: seq<Txn>)
    requires Matches(V, N) && Inv(imem, a, N, done)
    ensures CsrOk(a, V) && ContextOk(imem, a, V) && LiberatorOk(V)
  {
    hide Legal, Env, TokensOk, FetchBook, FetchData, ChainOk, InstructionsOk, RegsOk, PortsOk, ExecuteOk, MemoryOk,
      WriteBackOk, ShiftOk, BusOk, LogOk, Rs1, Rs2,
      Free, IsCsr, TrapOf, StaticTrap, CsrAfter, CsrRead, PinsOf, CsrAddress, InterruptEnabled;
  }

  lemma TransferBus(imem: Memory, a: Arch, V: State, N: State, done: seq<Txn>)
    requires Matches(V, N) && Inv(imem, a, N, done)
    ensures BusOk(V) && LogOk(a, V, done)
  {
    hide Legal, Env, TokensOk, FetchBook, FetchData, ChainOk, InstructionsOk, RegsOk, PortsOk, ExecuteOk, MemoryOk,
      WriteBackOk, ShiftOk, CsrOk, ContextOk, LiberatorOk, Rs1, Rs2,
      IsMem, IsStore, TxnFor, TxnOf, Size;
  }

  lemma TransferInv(imem: Memory, a: Arch, V: State, N: State, done: seq<Txn>)
    requires Matches(V, N) && Inv(imem, a, N, done) && FetchPart(imem, a, V)
    ensures Inv(imem, a, V, done)
  {
    InvParts(imem, a, N, done);
    TransferTokens(imem, a, V, N);
    TransferChain(imem, a, V, N);
    TransferValues(imem, a, V, N, done);
    TransferStages(imem, a, V, N, done);
    TransferTraps(imem, a, V, N, done);
    TransferBus(imem, a, V, N, done);
    hide Matches, TokensOk, FetchBook, FetchData, ChainOk, InstructionsOk, RegsOk, PortsOk, ExecuteOk, MemoryOk,
      WriteBackOk, ShiftOk, CsrOk, ContextOk, LiberatorOk, BusOk, LogOk,
      Coming, NoToken, XretInW, AfterD, Aligned;
  }

  /** A view's fetch unit is in order and holds the memory word it is about to hand over. */
  lemma ViewFetch(imem: Memory, c: Cpu)
    requires FP.Inv(imem, c.fetch) && FT.InOrder(c.fetch)
    ensures var s := View(c);
            && FetchBook(s) && FetchData(imem, s)
              && (s.f.s1Valid ==> s.f.inc && Aligned(s.f.pcReg) && c.fetch.p.s1Valid)
            && s.f.booted == c.fetch.p.booted
  {
    hide Aligned, Plus, Align, FP.BurstOk, FP.LoaderOk, FP.LinesOk, FP.LoadingOk, F.PortHit, FT.StreamPc, DecodeNow;
  }

  /** After a clock the fetch unit still asks for the successor of what decode holds. */
  lemma ComingKept(imem: Memory, a: Arch, a': Arch, c: Cpu, x: In, done: seq<Txn>, done': seq<Txn>)
    requires CInv(imem, a, c, done) && BusAnswers(imem, c, x)
    requires var N := Core.Next(View(c), BackIn(c, x));
             Inv(imem, a', N, done') && NoToken(N) && !XretInW(N)
    requires FP.Inv(imem, Next(c, x).fetch) && FT.InOrder(Next(c, x).fetch)
    ensures Coming(PlainFetch(Next(c, x).fetch)) == AfterD(a', Core.Next(View(c), BackIn(c, x)))
  {
    hide View, BackIn, Inv, FP.Inv, FT.InOrder, Core.Next, AfterE, TokensOk, ChainOk, NoToken, XretInW, PlainFetch,
      Coming, FT.Expect, F.OutputValid, Plus, FetchBook, FetchData, LiberatorOk,
      LogOk, InstructionsOk, BusOk, ShiftOk, ExecuteOk, PortsOk, RegsOk, MemoryOk, Alone, DRemove;
    var c', s, y := Next(c, x), View(c), BackIn(c, x);
    var N := Core.Next(s, y);
    DecodeMatches(imem, c, x);
    NextParts(s, y);
    InvParts(imem, a', N, done');
    ComingIsNext(a', N);
    ComingOfView(imem, c');
    if !N.d.valid {
      ComingElsewhere(imem, a, c, x, done, N);
    }
  }

  lemma ComingElsewhere(imem: Memory, a: Arch, c: Cpu, x: In, done: seq<Txn>, N: State)
    requires CInv(imem, a, c, done) && BusAnswers(imem, c, x)
    requires N == Core.Next(View(c), BackIn(c, x)) && NoToken(N) && !N.d.valid
    ensures FT.Expect(Next(c, x).fetch) == Coming(N.f)
  {
    var s, y := View(c), BackIn(c, x);
    InvParts(imem, a, s, done);
    NextParts(s, y);
    JumpRemoves(s);
    NextFetchIs(c, x);
    ViewBooted(c);
    hide Inv, FP.Inv, FT.InOrder, Core.Next, View, BackIn, Next, TokensOk, ChainOk, NoToken, XretInW, PlainFetch,
      Coming, FT.Expect, Plus, Align, FetchBook, FetchData, LiberatorOk, Matches,
      LogOk, InstructionsOk, BusOk, ShiftOk, ExecuteOk, PortsOk, RegsOk, MemoryOk, Alone, DRemove, JumpValid,
        ExternalFlush, JumpTarget, DStuck, F.Next, NextFetch, NextDecode, FetcherHalt, DFlushNext, DecodeNow,
        F.OutputValid;
    if JumpValid(s) {
      JumpIsBooted(s);
      ComingAfterJump(s, y);
      FT.ExpectAfterJump(c.fetch, FetchIn(c, x));
    } else if ExternalFlush(s) {
      FlushRaises(a, s, y);
    } else {
      NothingDelivered(imem, c, x);
      FT.ExpectMoves(c.fetch, FetchIn(c, x));
      ComingOfView(imem, c);
      QuietView(imem, c, x, s, y);
      ComingStays(s, y);
    }
  }

  lemma ViewBooted(c: Cpu)
    ensures View(c).f.booted == c.fetch.p.booted && View(c).f == PlainFetch(c.fetch) && View(c).d == DecodeNow(c)
  {
    hide F.PortHit, F.Miss, DecodeNow;
  }

  lemma NextFetchIs(c: Cpu, x: In)
    ensures Next(c, x).fetch == F.Next(c.fetch, FetchIn(c, x))
    ensures var s, i := View(c), FetchIn(c, x);
            && i.jump == JumpValid(s) && i.target == JumpTarget(s, BackIn(c, x)) && i.decodeRemove == DRemove(s)
            && i.decodeFlushNext == DFlushNext(s) && i.decodeStuck == DStuck(s, BackIn(c, x))
  {
    hide View, F.Next, NextRegs, NextCsr, NextExecute, NextMemory, NextWriteBack, NextBuffer, NextTrap, NextBus,
      DStuck, DRemove, DFlushNext, JumpValid, FetcherHalt,
      TrapNow, XretInW, IsMret, TrapVector;
  }

  lemma FlushRaises(a: Arch, s: State, x: In)
    requires TokensOk(s) && LiberatorOk(s) && ExternalFlush(s) && !JumpValid(s)
    ensures !NoToken(Core.Next(s, x))
  {
    hide TokensOk, LiberatorOk, ExternalFlush, TrapNow, XretInW, BranchJump, MException, NoToken, Core.Next;
    FlushWithoutJump(a, s, x);
  }

  /** With no flush and an empty next decode stage, nothing has been handed over. */
  lemma NothingDelivered(imem: Memory, c: Cpu, x: In)
    requires FP.Inv(imem, c.fetch) && !ExternalFlush(View(c)) && !NextDecode(View(c), BackIn(c, x)).valid
    ensures !JoinFire(View(c), BackIn(c, x))
    ensures F.OutputValid(c.fetch) ==> FT.Delivers(c.fetch, FetchIn(c, x))
  {
    PlainDelivers(c, x);
    JumpRemoves(View(c));
    NextFetchIs(c, x);
    hide View, BackIn, FP.Inv, ExternalFlush, DRemove, DStuck, F.OutputValid, JoinValid, Found, PopInst, Rs1, Rs2,
      FetchIn, Next;
  }

  lemma QuietView(imem: Memory, c: Cpu, x: In, s: State, y: In)
    requires s == View(c) && y == BackIn(c, x)
    ensures s.f.s1Valid || (!s.f.busValid && !s.f.fifoFull)
    ensures JoinValid(s, y) == s.f.s1Valid
  {
    hide F.PortHit, F.Miss, DecodeNow;
  }

  lemma CInvKept(imem: Memory, a: Arch, c: Cpu, done: seq<Txn>, x: In)
    requires CInv(imem, a, c, done) && BusAnswers(imem, c, x)
    ensures var s, y := View(c), BackIn(c, x);
            CInv(imem, Advance(imem, a, s, y), Next(c, x), done + Completed(s, y))
  {
    hide View, BackIn, Inv, FP.Inv, FT.InOrder, Next, Core.Next, Advance, Completed, BusAnswers, NoToken, XretInW,
      FetchBook, FetchData, Coming, AfterD, PlainFetch, Aligned, ImemAnswers, F.Next, Matches;
    var s, y, c' := View(c), BackIn(c, x), Next(c, x);
    var N, a', done' := Core.Next(s, y), Advance(imem, a, s, y), done + Completed(s, y);
    ViewAnswers(imem, c, x);
    Refinement.InvKept(imem, a, s, y, done);
    FetchAllowed(imem, c, x);
    FP.InvKept(imem, c.fetch, FetchIn(c, x));
    FetchRemoves(imem, c, x);
    FT.InOrderKept(c.fetch, FetchIn(c, x));
    NextFetchIs(c, x);
    AloneKept(imem, a, c, done, x);
    NextMatches(imem, c, x);
    ViewFetch(imem, c');
    ViewBooted(c');
    SameAfter(a', View(c'), N);
    ReturnIsAlone(a', View(c'), N);
    if NoToken(N) && !XretInW(N) {
      ComingKept(imem, a, a', c, x, done, done');
    }
    NotBooting(imem, c, x);
    TransferInv(imem, a', View(c'), N, done');
  }

  lemma FetchRemoves(imem: Memory, c: Cpu, x: In)
    ensures FetchIn(c, x).jump ==> FetchIn(c, x).decodeRemove
  {
    hide DStuck, JumpTarget, FetcherHalt, DRemove, DFlushNext, JumpValid, View;
    JumpRemoves(View(c));
  }

  lemma NotBooting(imem: Memory, c: Cpu, x: In)
    ensures !View(Next(c, x)).boot && Next(c, x).fetch.p.booted
  {
    NextFetchIs(c, x);
    FP.BootKept(imem, c.fetch, FetchIn(c, x));
    hide FetchIn, F.Next, NextRegs, NextCsr, NextExecute, NextMemory, NextWriteBack, NextBuffer, NextTrap, NextBus,
      DStuck, PlainFetch, DecodeNow;
  }

  // --- Runs -----------------------------------------------------------------------------------

  function After(c: Cpu, xs: seq<In>): Cpu {
    if xs == [] then c else Next(After(c, xs[..|xs| - 1]), xs[|xs| - 1])
  }

  function Events(c: Cpu, xs: seq<In>): seq<Event> {
    if xs == [] then [] else
      var b := After(c, xs[..|xs| - 1]);
      Events(c, xs[..|xs| - 1]) + EventsOf(View(b), BackIn(b, xs[|xs| - 1]))
  }

  function Transactions(c: Cpu, xs: seq<In>): seq<Txn> {
    if xs == [] then [] else
      var b := After(c, xs[..|xs| - 1]);
      Transactions(c, xs[..|xs| - 1]) + Completed(View(b), BackIn(b, xs[|xs| - 1]))
  }

  /** Instruction memory is constant and answers every burst; acknowledgements, load
      data and interrupt lines are unconstrained. */
  ghost predicate Environment(imem: Memory, c: Cpu, xs: seq<In>) {
    forall k :: 0 <= k < |xs| ==> BusAnswers(imem, After(c, xs[..k]), xs[k])
  }

  lemma PrefixEnvironment(imem: Memory, c: Cpu, xs: seq<In>)
    requires Environment(imem, c, xs) && xs != []
    ensures Environment(imem, c, xs[..|xs| - 1]) && BusAnswers(imem, After(c, xs[..|xs| - 1]), xs[|xs| - 1])
  {
    hide BusAnswers, After;
    var ys := xs[..|xs| - 1];
    assert forall k :: 0 <= k < |ys| ==> ys[..k] == xs[..k] && ys[k] == xs[k];
  }

  /** The cached core refines the sequential machine over every run: whatever the
      cache holds at reset, through misses, refills, flushes and jumps. */
  lemma {:induction false} CachedRunInv(imem: Memory, c: Cpu, xs: seq<In>)
    requires Reset(c) && Environment(imem, c, xs)
    ensures CInv(imem, Run(imem, Refinement.Boot(View(c)), Events(c, xs)), After(c, xs), Transactions(c, xs))
    decreases |xs|
  {
    hide Reset, CInv, Next, Completed, EventsOf, BusAnswers, Step, Refinement.Boot, Run, View, BackIn, Environment;
    if xs == [] {
      ResetCInv(imem, c);
      Refinement.RunNothing(imem, Refinement.Boot(View(c)));
    } else {
      var ys, x := xs[..|xs| - 1], xs[|xs| - 1];
      PrefixEnvironment(imem, c, xs);
      CachedRunInv(imem, c, ys);
      var a, b := Run(imem, Refinement.Boot(View(c)), Events(c, ys)), After(c, ys);
      CInvKept(imem, a, b, Transactions(c, ys), x);
      Refinement.RunAppend(imem, Refinement.Boot(View(c)), Events(c, ys), EventsOf(View(b), BackIn(b, x)));
    }
  }

  lemma CInvLog(imem: Memory, a: Arch, c: Cpu, done: seq<Txn>)
    requires CInv(imem, a, c, done)
    ensures LogOk(a, View(c), done)
  {
    InvParts(imem, a, View(c), done);
    hide View, Inv, FP.Inv, FT.InOrder, LogOk, TokensOk, LiberatorOk, FetchBook, ChainOk, FetchData, InstructionsOk,
      BusOk, ShiftOk, ExecuteOk, PortsOk, RegsOk, MemoryOk;
  }

  // --- Latched pins -----------------------------------------------------------------------------

  /** The pins latched for the last CSR access to leave execute. */
  function Latched(c: Cpu, xs: seq<In>): Pins {
    if xs == [] then Pins(false, false, false, 0) else
      var ys, x := xs[..|xs| - 1], xs[|xs| - 1];
      var b := After(c, ys);
      LP.Latch(View(b), BackIn(b, x), Latched(c, ys))
  }

  /** The events of a run, each with the pins that its instruction observed. */
  function LatchedEvents(c: Cpu, xs: seq<In>): seq<Event> {
    if xs == [] then [] else
      var ys, x := xs[..|xs| - 1], xs[|xs| - 1];
      var b := After(c, ys);
      LatchedEvents(c, ys) + LP.EventsWith(View(b), BackIn(b, x), Latched(c, ys))
  }

  lemma CachedReadKept(imem: Memory, a: Arch, c: Cpu, x: In, done: seq<Txn>, p: Pins)
    requires CInv(imem, a, c, done) && LP.ReadWith(a, c.m, c.w, p)
    ensures var s, y, c' := View(c), BackIn(c, x), Next(c, x);
            LP.ReadWith(Advance(imem, a, s, y), c'.m, c'.w, LP.Latch(s, y, p))
    ensures Run(imem, a, LP.EventsWith(View(c), BackIn(c, x), p)) == Advance(imem, a, View(c), BackIn(c, x))
  {
    hide Inv, FP.Inv, FT.InOrder, Alone, Core.Next, LP.ReadWith, LP.Latch, LP.EventsWith, Advance, Run, PlainFetch,
      DecodeNow, FetchIn,
      F.Next, NextMemory, NextWriteBack, BackIn, NextExecute, NextRegs, NextCsr, NextBuffer, NextTrap, NextBus, DStuck;
    var s, y := View(c), BackIn(c, x);
    LP.ReadKept(imem, a, s, y, done, p);
    LP.SameEffect(imem, a, s, y, done, p);
    NextParts(s, y);
  }

  lemma {:induction false} CachedLatchedRun(imem: Memory, c: Cpu, xs: seq<In>)
    requires Reset(c) && Environment(imem, c, xs)
    ensures var a := Run(imem, Refinement.Boot(View(c)), Events(c, xs));
            && Run(imem, Refinement.Boot(View(c)), LatchedEvents(c, xs)) == a
            && LP.ReadWith(a, After(c, xs).m, After(c, xs).w, Latched(c, xs))
    decreases |xs|
  {
    hide CInv, Environment, Next, EventsOf, LP.EventsWith, LP.Latch, Step, Refinement.Boot, LP.ReadWith, Run, View,
      BackIn, BusAnswers;
    if xs == [] {
      NothingRead(imem, c);
    } else {
      var ys, x := xs[..|xs| - 1], xs[|xs| - 1];
      PrefixEnvironment(imem, c, xs);
      CachedLatchedRun(imem, c, ys);
      CachedRunInv(imem, c, ys);
      var a, b, p := Run(imem, Refinement.Boot(View(c)), Events(c, ys)), After(c, ys), Latched(c, ys);
      CachedReadKept(imem, a, b, x, Transactions(c, ys), p);
      Refinement.RunAppend(imem, Refinement.Boot(View(c)), Events(c, ys), EventsOf(View(b), BackIn(b, x)));
      Refinement.RunAppend(imem, Refinement.Boot(View(c)), LatchedEvents(c, ys),
        LP.EventsWith(View(b), BackIn(b, x), p));
      hide Reset;
    }
  }

  lemma NothingRead(imem: Memory, c: Cpu)
    requires Reset(c)
    ensures LP.ReadWith(Run(imem, Refinement.Boot(View(c)), []), c.m, c.w, Pins(false, false, false, 0))
  {
    hide CsrRead, IsCsr, Run, PlainFetch, DecodeNow;
  }

  // --- The instruction set ----------------------------------------------------------------------

  /** The cached core executes RV32I. */
  lemma CachedCoreRefinesIsa(imem: Memory, m0: Isa.Bytes, c: Cpu, xs: seq<In>)
    requires Reset(c) && Environment(imem, c, xs) && Ram.IsRam(m0, Transactions(c, xs))
    ensures var es := LatchedEvents(c, xs);
            IsaStep.Related(m0, Run(imem, Refinement.Boot(View(c)), es),
              CoreIsa.HartRun(imem, CoreIsa.Hart0(View(c), m0), es))
  {
    hide Reset, Environment, CInv, LogOk, View, After, Events, LatchedEvents, Transactions, Refinement.Boot, Run,
      LP.ReadWith,
      CoreIsa.HartRun, CoreIsa.Hart0, Ram.IsRam, IsaStep.Related;
    var es := LatchedEvents(c, xs);
    var a := Run(imem, Refinement.Boot(View(c)), es);
    CachedLatchedRun(imem, c, xs);
    CachedRunInv(imem, c, xs);
    CInvLog(imem, a, After(c, xs), Transactions(c, xs));
    CoreIsa.RetiredIsRam(m0, a, View(After(c, xs)), Transactions(c, xs));
    CoreIsa.BootRelated(View(c), m0);
    CoreIsa.MachineIsHart(imem, m0, Refinement.Boot(View(c)), CoreIsa.Hart0(View(c), m0), es);
  }

  lemma EarlierRam(m0: Isa.Bytes, c: Cpu, xs: seq<In>)
    requires xs != [] && Ram.IsRam(m0, Transactions(c, xs))
    ensures Ram.IsRam(m0, Transactions(c, xs[..|xs| - 1]))
  {
    hide Ram.IsRam, Completed, After, View, BackIn;
    var log, k := Transactions(c, xs), |Transactions(c, xs[..|xs| - 1])|;
    CoreIsa.RamPrefix(m0, log, k);
    assert log[..k] == Transactions(c, xs[..|xs| - 1]);
  }

  lemma CachedCycle(imem: Memory, m0: Isa.Bytes, c: Cpu, xs: seq<In>, x: In)
    requires Reset(c) && Environment(imem, c, xs) && Ram.IsRam(m0, Transactions(c, xs))
    requires CoreIsa.Permitted(imem, CoreIsa.Hart0(View(c), m0), LatchedEvents(c, xs))
    ensures var b := After(c, xs);
            CoreIsa.Permitted(imem, CoreIsa.Hart0(View(c), m0),
              LatchedEvents(c, xs) + LP.EventsWith(View(b), BackIn(b, x), Latched(c, xs)))
  {
    hide Reset, Environment, Inv, View, FP.Inv, FT.InOrder, Alone, After, Events, LatchedEvents, Transactions,
      Refinement.Boot,
      Run, LP.EventsWith, LP.ReadWith, BackIn, CoreIsa.HartRun, CoreIsa.Hart0, CoreIsa.Permitted, Ram.IsRam,
      IsaStep.Related, Isa.InterruptAllowed;
    var b, es := After(c, xs), LatchedEvents(c, xs);
    var a, h := Run(imem, Refinement.Boot(View(c)), es), CoreIsa.HartRun(imem, CoreIsa.Hart0(View(c), m0), es);
    CachedCoreRefinesIsa(imem, m0, c, xs);
    CachedLatchedRun(imem, c, xs);
    CachedRunInv(imem, c, xs);
    CoreIsa.InterruptOfCycle(imem, m0, a, h, View(b), Transactions(c, xs), BackIn(b, x), Latched(c, xs));
    CoreIsa.OnePermitted(imem, CoreIsa.Hart0(View(c), m0), es, LP.EventsWith(View(b), BackIn(b, x), Latched(c, xs)));
  }

  /** And takes only interrupts that the hart has enabled. */
  lemma {:induction false} CachedInterruptsPermitted(imem: Memory, m0: Isa.Bytes, c: Cpu, xs: seq<In>)
    requires Reset(c) && Environment(imem, c, xs) && Ram.IsRam(m0, Transactions(c, xs))
    ensures CoreIsa.Permitted(imem, CoreIsa.Hart0(View(c), m0), LatchedEvents(c, xs))
    decreases |xs|
  {
    hide Reset, Environment, View, After, Transactions, LP.EventsWith, BackIn, CoreIsa.Hart0, CoreIsa.Permitted,
      Ram.IsRam;
    if xs == [] {
      CoreIsa.NothingPermitted(imem, CoreIsa.Hart0(View(c), m0));
    } else {
      var ys := xs[..|xs| - 1];
      PrefixEnvironment(imem, c, xs);
      EarlierRam(m0, c, xs);
      CachedInterruptsPermitted(imem, m0, c, ys);
      CachedCycle(imem, m0, c, ys, xs[|xs| - 1]);
    }
  }

  // --- Traps ------------------------------------------------------------------------------------

  lemma NextCsrIs(c: Cpu, x: In)
    ensures Next(c, x).csr == NextCsr(View(c), BackIn(c, x)) && c.regs == View(c).regs && c.t == View(c).t
  {
    hide FetchIn, F.Next, NextRegs, NextCsr, NextExecute, NextMemory, NextWriteBack, NextBuffer, NextTrap, NextBus,
      DStuck, PlainFetch, DecodeNow, BackIn;
  }

  /** Precise exceptions behind the cache as well. */
  lemma CachedPreciseExceptions(imem: Memory, c: Cpu, xs: seq<In>, x: In)
    requires Reset(c) && Environment(imem, c, xs) && After(c, xs).t.hadException
    ensures var b, a := After(c, xs), Run(imem, Refinement.Boot(View(c)), Events(c, xs));
            var i := imem(a.pc);
            var t := TrapOf(i, a.pc, Operand1(a, i), Operand2(a, i));
            && QuietW(View(b)) && b.regs == a.regs && Transactions(c, xs) + Posted(View(b)) == a.log
            && t.Trap?
            && Next(b, x).csr == a.csr.(mie := false, mpie := a.csr.mie, mpp := 3, mepc := a.pc,
                                        mcauseInterrupt := false, mcauseCode := t.code, mtval := t.value)
  {
    hide Reset, Environment, After, Inv, View, FP.Inv, FT.InOrder, Run, Refinement.Boot, Events, Transactions,
      QuietW, Posted, TrapOf, NextCsr, Next, BackIn;
    var b := After(c, xs);
    CachedRunInv(imem, c, xs);
    NextCsrIs(b, x);
    ExceptionState(imem, Run(imem, Refinement.Boot(View(c)), Events(c, xs)), View(b), Transactions(c, xs),
      BackIn(b, x));
  }

  /** And precise interrupts. */
  lemma CachedPreciseInterrupts(imem: Memory, c: Cpu, xs: seq<In>, x: In)
    requires Reset(c) && Environment(imem, c, xs) && InterruptJump(View(After(c, xs)))
    ensures var b, a := After(c, xs), Run(imem, Refinement.Boot(View(c)), Events(c, xs));
            && !b.e.valid && !b.m.valid && !b.w.valid && View(b).d.valid && View(b).d.pc == a.pc
            && b.regs == a.regs && Transactions(c, xs) + Posted(View(b)) == a.log
            && a.csr.mie
            && ((b.t.irqCode == 7 && a.csr.mtie) || (b.t.irqCode == 3 && a.csr.msie)
                || (b.t.irqCode == 11 && a.csr.meie))
            && Next(b, x).csr == a.csr.(mie := false, mpie := a.csr.mie, mpp := 3, mepc := a.pc,
                                        mcauseInterrupt := true, mcauseCode := b.t.irqCode)
  {
    hide Reset, Environment, After, Inv, FP.Inv, FT.InOrder, Run, Refinement.Boot, Events, Transactions, Posted,
      InterruptJump, NextCsr, Next, BackIn, PlainFetch, DecodeNow;
    var b := After(c, xs);
    CachedRunInv(imem, c, xs);
    NextCsrIs(b, x);
    InterruptState(imem, Run(imem, Refinement.Boot(View(c)), Events(c, xs)), View(b), Transactions(c, xs),
      BackIn(b, x));
  }
}
