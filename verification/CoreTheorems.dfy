/** What the refinement says about each part of the core, in every state it can
    reach: precise exceptions and interrupts, hazards, the fetch unit, the data
    bus and the shifter. */
module CoreTheorems {
  import opened Words
  import opened Decoder
  import opened Execute
  import opened Machine
  import opened Core
  import opened Invariant
  import opened DecoderFacts
  import opened AdvanceProof
  import opened FrontProof
  import opened ChainProof
  import opened ValuesProof
  import opened BusProof
  import opened Refinement

  /** s is reachable on instruction memory imem, a is what has retired on the way
      to it, and done the data-bus transactions completed. */
  ghost predicate Reached(imem: Memory, a: Arch, s: State, done: seq<Txn>) {
    exists s0: State, xs: seq<In> ::
      && Reset(s0) && Environment(imem, s0, xs)
      && a == Run(imem, Boot(s0), Events(s0, xs)) && s == After(s0, xs) && done == Transactions(s0, xs)
  }

  lemma ReachedInv(imem: Memory, a: Arch, s: State, done: seq<Txn>)
    requires Reached(imem, a, s, done)
    ensures Inv(imem, a, s, done)
  {
    hide Inv, Reset, Environment, Run, Boot, Events, After, Transactions;
    var s0: State, xs: seq<In> :|
      && Reset(s0) && Environment(imem, s0, xs)
      && a == Run(imem, Boot(s0), Events(s0, xs)) && s == After(s0, xs) && done == Transactions(s0, xs);
    RunInv(imem, s0, xs);
  }

  // --- Traps --------------------------------------------------------------------

  lemma ExceptionState(imem: Memory, a: Arch, s: State, done: seq<Txn>, x: In)
    requires Inv(imem, a, s, done) && s.t.hadException
    ensures QuietW(s) && s.regs == a.regs && done + Posted(s) == a.log && s.csr == a.csr && s.w.pc == a.pc
    ensures var i := imem(a.pc); TrapOf(i, a.pc, Operand1(a, i), Operand2(a, i)) == Trap(s.t.code, s.t.badAddr)
    ensures NextCsr(s, x) == a.csr.(mie := false, mpie := a.csr.mie, mpp := 3, mepc := a.pc,
                                    mcauseInterrupt := false, mcauseCode := s.t.code, mtval := s.t.badAddr)
    ensures JumpTarget(s, x) == (a.csr.mtvecBase as Word) << 2
  {
    hide FetchBook, FetchData, InstructionsOk, PortsOk, ExecuteOk, MemoryOk, WriteBackOk, ShiftOk, BusOk, LiberatorOk,
      TrapOf, IsMret, Env, IsMem, IsStore, IsCsr, Aligned, AfterM, AfterE, AfterD, AfterS, StreamPc, Posted, Rs1, Rs2,
        CsrStore, StaticTrap, InterruptEnabled, NextPc;
  }

  /** Precise exceptions.  When the trap unit acts, every older instruction has
      retired, the faulting instruction is the next in program order with its own
      cause and value, and nothing younger is in the pipeline or has written a
      register or used the bus.  mepc takes its address, mstatus stacks the interrupt
      enable, every other CSR field keeps its value, and the fetcher goes to mtvec. */
  lemma PreciseExceptions(imem: Memory, a: Arch, s: State, done: seq<Txn>, x: In)
    requires Reached(imem, a, s, done) && s.t.hadException
    ensures QuietW(s) && s.regs == a.regs && done + Posted(s) == a.log
    ensures var i := imem(a.pc);
            var t := TrapOf(i, a.pc, Operand1(a, i), Operand2(a, i));
            && t.Trap?
            && Next(s, x).csr == a.csr.(mie := false, mpie := a.csr.mie, mpp := 3, mepc := a.pc,
                                        mcauseInterrupt := false, mcauseCode := t.code, mtval := t.value)
    ensures JumpTarget(s, x) == (a.csr.mtvecBase as Word) << 2
  {
    hide Inv, Reached, QuietW, Posted, TrapOf, JumpTarget, NextCsr;
    ReachedInv(imem, a, s, done);
    ExceptionState(imem, a, s, done, x);
    NextParts(s, x);
  }

  lemma NextParts(s: State, x: In)
    ensures Next(s, x).csr == NextCsr(s, x) && Next(s, x).regs == NextRegs(s)
    ensures Next(s, x).d == NextDecode(s, x) && Next(s, x).e == NextExecute(s, x) && Next(s, x).m == NextMemory(s, x)
    ensures Next(s, x).w == NextWriteBack(s, x) && Next(s, x).f == NextFetch(s, x) && Next(s, x).bus == NextBus(s, x)
  {
    hide NextCsr, NextRegs, NextDecode, NextExecute, NextMemory, NextWriteBack, NextFetch, NextBus, NextTrap,
      NextBuffer;
  }

  lemma InterruptState(imem: Memory, a: Arch, s: State, done: seq<Txn>, x: In)
    requires Inv(imem, a, s, done) && InterruptJump(s)
    ensures !s.e.valid && !s.m.valid && !s.w.valid && s.d.valid && s.d.pc == a.pc
    ensures s.regs == a.regs && done + Posted(s) == a.log && s.csr == a.csr && s.w.pc == a.pc
    ensures InterruptEnabled(a.csr, s.t.irqCode)
    ensures NextCsr(s, x) == a.csr.(mie := false, mpie := a.csr.mie, mpp := 3, mepc := a.pc,
                                    mcauseInterrupt := true, mcauseCode := s.t.irqCode)
    ensures JumpTarget(s, x) == (a.csr.mtvecBase as Word) << 2
  {
    hide FetchBook, FetchData, InstructionsOk, PortsOk, ExecuteOk, MemoryOk, WriteBackOk, ShiftOk, BusOk, ContextOk,
      TrapOf, IsMret, Env, IsMem, IsStore, IsCsr, Aligned, AfterD, AfterS, StreamPc, Posted, Rs1, Rs2,
        CsrStore, StaticTrap, InterruptEnabled, NextPc, QuietW, QuietM, QuietE, QuietD;
    InterruptPlaces(s);
  }

  lemma InterruptPlaces(s: State)
    requires TokensOk(s) && LiberatorOk(s) && InterruptJump(s)
    ensures s.d.valid && !s.e.valid && !s.m.valid && !s.w.valid && !s.t.hadException && !s.boot
    ensures s.d.pc == s.w.pc && !s.t.excW && NoToken(s)
    ensures InterruptEnabled(s.csr, s.t.irqCode)
  {
    hide Env, InterruptEnabled;
  }

  /** Precise interrupts.  At every interrupt the later stages are empty, mepc takes
      the address of the first instruction not yet retired, which decode holds and
      drops, and the interrupt is enabled in that cycle by its own bit of mie. */
  lemma PreciseInterrupts(imem: Memory, a: Arch, s: State, done: seq<Txn>, x: In)
    requires Reached(imem, a, s, done) && InterruptJump(s)
    ensures !s.e.valid && !s.m.valid && !s.w.valid && s.d.valid && s.d.pc == a.pc
    ensures s.regs == a.regs && done + Posted(s) == a.log
    ensures var c, code := a.csr, s.t.irqCode;
            && c.mie && ((code == 7 && c.mtie) || (code == 3 && c.msie) || (code == 11 && c.meie))
            && Next(s, x).csr == c.(mie := false, mpie := c.mie, mpp := 3, mepc := a.pc,
                                    mcauseInterrupt := true, mcauseCode := code)
            && JumpTarget(s, x) == (c.mtvecBase as Word) << 2
    ensures !Next(s, x).d.valid && !Next(s, x).e.valid && !Next(s, x).m.valid && !Next(s, x).w.valid
    ensures Next(s, x).regs == a.regs
  {
    hide Inv, Reached, InterruptJump, Posted, JumpTarget, NextCsr;
    ReachedInv(imem, a, s, done);
    InterruptState(imem, a, s, done, x);
    InvParts(imem, a, s, done);
    InterruptClears(s, x);
    NextParts(s, x);
  }

  lemma InvParts(imem: Memory, a: Arch, s: State, done: seq<Txn>)
    requires Inv(imem, a, s, done)
    ensures TokensOk(s) && LiberatorOk(s) && FetchBook(s) && ChainOk(a, s) && LogOk(a, s, done)
    ensures FetchData(imem, s) && InstructionsOk(imem, s) && BusOk(s) && ShiftOk(s) && ExecuteOk(a, s)
            && PortsOk(a, s) && RegsOk(a, s)
    ensures MemoryOk(a, s)
  {
    hide TokensOk, LiberatorOk, FetchBook, ChainOk, LogOk, FetchData, InstructionsOk, BusOk, ShiftOk, ExecuteOk,
      PortsOk, RegsOk, MemoryOk, WriteBackOk, CsrOk, ContextOk;
  }

  lemma InterruptClears(s: State, x: In)
    requires TokensOk(s) && LiberatorOk(s) && InterruptJump(s)
    ensures !NextDecode(s, x).valid && !NextExecute(s, x).valid && !NextMemory(s, x).valid && !NextWriteBack(s, x).valid
    ensures NextRegs(s) == s.regs
  {
    hide Env, InterruptEnabled, InterruptJump, Legal, EResult, BranchDo, BranchTarget, ShiftBusy, XretInW,
      BranchJump, MException, SelfException, DecodeException, Rs1, Rs2, EAlignFault, MStuck, EStuck, DStuck;
    InterruptPlaces(s);
    assert TrapNow(s);
  }

  /** A CSR instruction writes mip in this cycle. */
  predicate WritesMip(s: State, x: In) { CsrWriteEnable(s, x) && CsrAddress(s.e.inst) == 0x344 }

  lemma PinsMove(s: State, x: In)
    ensures var t := Next(s, x).t;
            && t.irqLines == x.externalInterrupts && t.mtip == x.timerInterrupt
            && t.meip == HasBit(s.csr.irqMask, s.t.irqLines)
            && t.msip == if WritesMip(s, x) then HasBit(CsrWriteValue(s), 8) else x.softwareInterrupt
  {
    hide NextRegs, NextCsr, NextFetch, NextDecode, NextExecute, NextMemory, NextWriteBack, NextBuffer, NextBus;
    hide CsrWriteEnable, CsrWriteValue, NextExcD, NextExcE, NextExcM, NextCode, NextBadAddr, NextPcValid0,
      NextPcValid1, NextPcValid2, ExcValidM, MStuck, CsrAddress, NextIrqValid, NextIrqCode, HasBit;
  }

  /** The pins follow the lines: one register for the timer and software inputs, two
      and the mask of CSR 0xbc0 for the external ones.  A write to mip stands in for
      the software line. */
  lemma PinsFollowLines(s: State, y: In, x: In)
    ensures var r := Next(s, y);
            var t := Next(r, x).t;
            && t.mtip == x.timerInterrupt
            && t.meip == HasBit(r.csr.irqMask, y.externalInterrupts)
            && t.msip == if WritesMip(r, x) then HasBit(CsrWriteValue(r), 8) else x.softwareInterrupt
  {
    hide Next, WritesMip, CsrWriteValue, HasBit;
    PinsMove(s, y);
    PinsMove(Next(s, y), x);
  }

  /** No interrupt without a request, and the most urgent first.  The recorded cause
      was pending and enabled one cycle before: external over software over timer. */
  lemma InterruptPriority(s: State, x: In)
    requires InterruptJump(Next(s, x))
    ensures var external, software, timer := s.t.meip && s.csr.meie, s.t.msip && s.csr.msie, s.t.mtip && s.csr.mtie;
            && s.csr.mie && (external || software || timer)
            && Next(s, x).t.irqCode == if external then 11 else if software then 3 else 7
  {
    hide NextRegs, NextCsr, NextFetch, NextDecode, NextExecute, NextMemory, NextWriteBack, NextBuffer, NextBus;
    hide NextExcD, NextExcE, NextExcM, NextCode, NextBadAddr, NextPcValid0, NextPcValid1, NextPcValid2, ExcValidM,
      MStuck, NextMsip;
  }

  /** In terms of the lines: the interrupt taken is that of the line which was up,
      external ones three cycles before and the others two. */
  lemma InterruptWasRequested(s: State, z: In, y: In, x: In)
    requires InterruptJump(Next(Next(Next(s, z), y), x))
    ensures var was, now := Next(s, z).csr, Next(Next(s, z), y).csr;
            var code := Next(Next(Next(s, z), y), x).t.irqCode;
            var external := HasBit(was.irqMask, z.externalInterrupts) && now.meie;
            && now.mie && (external <==> code == 11)
            && (code == 7 ==> y.timerInterrupt && now.mtie)
            && (code == 3 ==>
                  && now.msie
                  && if WritesMip(Next(s, z), y) then HasBit(CsrWriteValue(Next(s, z)), 8) else y.softwareInterrupt)
            && (code == 7 || code == 3 || code == 11)
  {
    hide Next, InterruptJump, WritesMip, CsrWriteValue, HasBit;
    PinsFollowLines(s, z, y);
    InterruptPriority(Next(Next(s, z), y), x);
  }

  // --- Retirement -----------------------------------------------------------------

  /** The instruction in writeBack is the next one in program order, and its
      register write is the sequential machine's. */
  lemma RetiresInOrder(imem: Memory, a: Arch, s: State, done: seq<Txn>, x: In)
    requires Reached(imem, a, s, done) && ImemAnswers(imem, s, x) && s.w.valid
    ensures s.w.pc == a.pc && s.w.inst == imem(a.pc)
            && TrapOf(s.w.inst, a.pc, Operand1(a, s.w.inst), Operand2(a, s.w.inst)) == NoTrap
    ensures EventsOf(s, x) == [Exec(s.w.readData, PinsOf(s.w.result), x.undefined)]
    ensures Next(s, x).regs == Step(imem, a, EventsOf(s, x)[0]).regs
  {
    hide Inv, Reached, TrapOf, Next, Step, Run, PinsOf, ImemAnswers;
    ReachedInv(imem, a, s, done);
    InvKept(imem, a, s, x, done);
    OneEvent(imem, a, Exec(s.w.readData, PinsOf(s.w.result), x.undefined));
    NextBoot(s, x);
    RegsOf(imem, Advance(imem, a, s, x), Next(s, x), done + Completed(s, x));
    InWriteBack(imem, a, s, done);
  }

  lemma NextBoot(s: State, x: In)
    ensures !Next(s, x).boot
  {
    hide NextCsr, NextRegs, NextDecode, NextExecute, NextMemory, NextWriteBack, NextFetch, NextBus, NextTrap,
      NextBuffer;
  }

  lemma RegsOf(imem: Memory, a: Arch, s: State, done: seq<Txn>)
    requires Inv(imem, a, s, done) && !s.boot
    ensures s.regs == a.regs && s.regs(0) == 0
  {
    hide TokensOk, LiberatorOk, FetchBook, ChainOk, LogOk, FetchData, InstructionsOk, BusOk, ShiftOk, ExecuteOk,
      PortsOk, MemoryOk, WriteBackOk, CsrOk, ContextOk;
  }

  lemma InWriteBack(imem: Memory, a: Arch, s: State, done: seq<Txn>)
    requires Inv(imem, a, s, done) && s.w.valid
    ensures s.w.pc == a.pc && s.w.inst == imem(a.pc)
            && TrapOf(s.w.inst, a.pc, Operand1(a, s.w.inst), Operand2(a, s.w.inst)) == NoTrap
  {
    hide TokensOk, LiberatorOk, FetchBook, LogOk, FetchData, BusOk, ShiftOk, ExecuteOk, PortsOk, MemoryOk, CsrOk,
      ContextOk, RegsOk, TrapOf, Legal, Env, Aligned, AfterW, AfterM, AfterE, AfterD, AfterS, XretInW, Rs1, Rs2,
      IsMem, Address, AddressLow, IsCsr, WritesRd, ExecuteResult;
  }

  /** Once the core has booted, register 0 holds 0 forever. */
  lemma RegisterZero(imem: Memory, a: Arch, s: State, done: seq<Txn>)
    requires Reached(imem, a, s, done) && !s.boot
    ensures s.regs(0) == 0
  {
    hide Inv, Reached;
    ReachedInv(imem, a, s, done);
    RegsOf(imem, a, s, done);
  }

  // --- Hazards --------------------------------------------------------------------

  /** Whenever decode fires, each operand the instruction uses, read one cycle
      before, is the register's value after every older instruction: after the one
      retiring now, with no write to it left in execute or memory. */
  lemma HazardInterlock(imem: Memory, a: Arch, s: State, done: seq<Txn>, x: In)
    requires Reached(imem, a, s, done) && ImemAnswers(imem, s, x)
    requires s.d.valid && !DStuck(s, x)
    ensures UsesRs1(s.d.inst) ==> s.d.port1 == Next(s, x).regs(Rs1(s.d.inst))
    ensures UsesRs2(s.d.inst) ==> s.d.port2 == Next(s, x).regs(Rs2(s.d.inst))
    ensures Free(s.d.inst, s.e.valid, s.e.inst) && Free(s.d.inst, s.m.valid, s.m.inst)
  {
    hide Inv, Reached, Free, ImemAnswers, UsesRs1, UsesRs2, Rs1, Rs2, Next, Advance, Completed, DHalt, EStuck,
      MStuck, TokensOk, LiberatorOk, FetchBook, ChainOk, LogOk, FetchData, InstructionsOk, BusOk, ShiftOk, ExecuteOk,
      PortsOk, RegsOk, MemoryOk;
    ReachedInv(imem, a, s, done);
    InvParts(imem, a, s, done);
    InvKept(imem, a, s, x, done);
    AdvancedFromInv(imem, a, s, done, x);
    BootIsQuiet(s);
    IssueOperands(a, Advance(imem, a, s, x), s, x);
    NextBoot(s, x);
    RegsOf(imem, Advance(imem, a, s, x), Next(s, x), done + Completed(s, x));
  }

  lemma BootIsQuiet(s: State)
    requires TokensOk(s) && s.d.valid
    ensures !s.boot
  {
    hide Env;
  }

  lemma AdvancedFromInv(imem: Memory, a: Arch, s: State, done: seq<Txn>, x: In)
    requires Inv(imem, a, s, done)
    ensures Advanced(a, Advance(imem, a, s, x), s, x)
  {
    hide TokensOk, LiberatorOk, FetchBook, LogOk, FetchData, BusOk, ShiftOk, ExecuteOk, PortsOk, MemoryOk, CsrOk,
      ContextOk, RegsOk, ChainOk, WriteBackOk, InstructionsOk, Next, Advance, WFlushNext, JumpTarget, AfterW;
    Summary(imem, a, s, x);
    ChainFacts(a, s);
    PcAligned(imem, a, s, x);
  }

  // --- Fetch ------------------------------------------------------------------------

  /** The pending counter counts the bus register and the FIFO, the discard
      counter the responses nobody waits for; no response is lost for lack of
      room and no counter wraps. */
  lemma FetchBookkeeping(imem: Memory, a: Arch, s: State, done: seq<Txn>, x: In)
    requires Reached(imem, a, s, done)
    ensures s.f.pending == Bit(s.f.busValid) + Bit(s.f.fifoFull)
    ensures s.f.pending - s.f.discard == Bit(s.f.s1Valid) && s.f.discard <= s.f.pending <= 1
    ensures RspValid(s, x) ==> !s.f.fifoFull
    ensures PopFire(s, x) ==> s.f.pending != 0
    ensures CmdFire(s, x) ==> !DStuck(s, x)
  {
    hide Inv, Reached;
    ReachedInv(imem, a, s, done);
    InvParts(imem, a, s, done);
    hide TokensOk, LiberatorOk, ChainOk, LogOk, FetchData, InstructionsOk, BusOk, ShiftOk, ExecuteOk, PortsOk,
      RegsOk, MemoryOk;
  }

  /** What fetch delivers is the instruction at the delivered address, and that
      address follows the youngest instruction already in the pipeline. */
  lemma FetchStream(imem: Memory, a: Arch, s: State, done: seq<Txn>, x: In)
    requires Reached(imem, a, s, done) && ImemAnswers(imem, s, x)
    requires JoinFire(s, x) && !ExternalFlush(s)
    ensures var d := Next(s, x).d; d.valid && d.inst == imem(d.pc) && d.pc == AfterD(a, s)
  {
    hide Inv, Reached, ImemAnswers, AfterD, ExternalFlush, DStuck, PopInst, RspOutValid;
    ReachedInv(imem, a, s, done);
    InvParts(imem, a, s, done);
    JoinedWord(imem, s, x);
    NextParts(s, x);
    ReturnIsQuiet(s);
    hide TokensOk, LiberatorOk, LogOk, FetchData, FetchBook, InstructionsOk, BusOk, ShiftOk, ExecuteOk, PortsOk,
      RegsOk, MemoryOk, Next, Rs1, Rs2, DRemove, AfterW, AfterM, AfterE, AfterS, StreamPc, Aligned;
  }

  lemma ReturnIsQuiet(s: State)
    ensures XretInW(s) ==> ExternalFlush(s)
  {
    hide Env, TrapNow, MFlushNext, EFlushNext, DFlushNext;
  }

  /** After a jump the unit holds or requests next the word-aligned target, decode
      is empty, and everything still owed from before is on the discard counter. */
  lemma JumpRestartsStream(imem: Memory, a: Arch, s: State, done: seq<Txn>, x: In)
    requires Reached(imem, a, s, done) && ImemAnswers(imem, s, x) && JumpValid(s)
    ensures Next(s, x).f.s1Valid ==> Next(s, x).f.pcReg == Align(JumpTarget(s, x))
    ensures !Next(s, x).f.s1Valid ==> StreamPc(Next(s, x)) == Align(JumpTarget(s, x))
    ensures !Next(s, x).d.valid
    ensures Next(s, x).f.discard == Next(s, x).f.pending - Bit(Next(s, x).f.s1Valid)
  {
    hide Inv, Reached, ImemAnswers, TokensOk, LiberatorOk, ChainOk, LogOk, FetchData, InstructionsOk, BusOk, ShiftOk,
      ExecuteOk, PortsOk, RegsOk, MemoryOk, JumpValid, NextFetch, NextDecode, JumpTarget, Next, Align, Plus, Advance,
      Completed;
    ReachedInv(imem, a, s, done);
    InvParts(imem, a, s, done);
    JumpIsBooted(s);
    RestartPc(s, x);
    NextParts(s, x);
    AlignFacts(JumpTarget(s, x));
    AlignFacts(Align(JumpTarget(s, x)));
    FetchBookKept(s, x);
  }

  // --- Data bus -----------------------------------------------------------------------

  /** The bus log is the program's: completed transactions and a store still
      posted are those of the retired instructions, in order, then those of
      writeBack and memory; so no load or store is repeated, lost or reordered. */
  lemma DataBusLog(imem: Memory, a: Arch, s: State, done: seq<Txn>)
    requires Reached(imem, a, s, done)
    ensures done + Posted(s) == a.log + WTxn(a, s) + MTxn(a, s)
    ensures a.log <= done + Posted(s) && |done + Posted(s)| <= |a.log| + 2
  {
    hide Inv, Reached, Posted, TxnFor, IsMem, IsStore;
    ReachedInv(imem, a, s, done);
    InvParts(imem, a, s, done);
    hide TokensOk, LiberatorOk, ChainOk, FetchBook, FetchData, InstructionsOk, BusOk, ShiftOk, ExecuteOk, PortsOk,
      RegsOk, MemoryOk;
  }

  /** A read occupies the half-pipe register exactly while its own load waits in memory. */
  lemma ResponseMatchesLoad(imem: Memory, a: Arch, s: State, done: seq<Txn>, x: In)
    requires Reached(imem, a, s, done)
    ensures DRspReady(s, x) ==> s.m.valid && IsMem(s.m.inst) && !IsStore(s.m.inst) && !s.m.alignFault
                                && s.bus.address == s.m.result && s.bus.size == Size(s.m.inst)
    ensures LoadWaiting(s) ==> s.bus.valid && !s.bus.wr
  {
    hide Inv, Reached, IsMem, IsStore, Size;
    ReachedInv(imem, a, s, done);
    InvParts(imem, a, s, done);
    hide TokensOk, LiberatorOk, ChainOk, LogOk, FetchBook, FetchData, InstructionsOk, ShiftOk, ExecuteOk, PortsOk,
      RegsOk, MemoryOk;
  }

  // --- Shifter --------------------------------------------------------------------------

  /** No cycle of the run flushes the instruction in execute. */
  ghost predicate Undisturbed(s: State, xs: seq<In>) {
    forall k :: 0 <= k < |xs| ==> !ERemove(After(s, xs[..k]))
  }

  /** Cycles of a run in which the memory stage lets execute work. */
  function Working(s: State, xs: seq<In>): nat {
    if xs == [] then 0
    else Working(s, xs[..|xs| - 1]) + (if MStuck(After(s, xs[..|xs| - 1]), xs[|xs| - 1]) then 0 else 1)
  }

  /** Positions still to shift. */
  function Remaining(s: State): nat { ShiftAmplitude(s) as nat }

  /** The same instruction with the same operands is in execute. */
  predicate SameExecute(s: State, t: State) {
    t.e.valid && t.e.inst == s.e.inst && t.e.pc == s.e.pc && t.e.rs1 == s.e.rs1 && t.e.rs2 == s.e.rs2
  }

  lemma CountDown(n: bv5)
    ensures n != 0 ==> (n - 1) as nat == n as nat - 1
    ensures n as nat > 1 <==> n & 0x1e != 0
    ensures n as nat == 0 <==> n == 0
  {}

  lemma OneShift(s: State, x: In)
    requires s.e.valid && ShiftBusy(s) && (Remaining(s) > 1 || MStuck(s, x)) && !ERemove(s)
    ensures SameExecute(s, Next(s, x))
    ensures Remaining(Next(s, x)) == if MStuck(s, x) then Remaining(s) else Remaining(s) - 1
  {
    hide ERemove, Legal, Shift, Src1, Src2, Amount, Next, EResult, MRemove, DRemove, DHalt, MStuck, ShiftBy,
      ShiftInput, BranchDo, BranchTarget, ShiftBusy;
    NextParts(s, x);
    CountDown(ShiftAmplitude(s));
  }

  lemma SameShift(s: State, t: State)
    requires SameExecute(s, t) && ShiftBusy(s)
    ensures ShiftBusy(t) && ESrc1(t) == ESrc1(s) && ESrc2(t) == ESrc2(s)
  {
    hide Shift, Src1, Src2, Amount;
  }

  lemma {:induction false} ShiftRun(s: State, xs: seq<In>)
    requires s.e.valid && Legal(s.e.inst) && ShiftBusy(s) && !s.e.shiftActive && ShiftOk(s)
    requires Undisturbed(s, xs) && Working(s, xs) < Remaining(s)
    ensures SameExecute(s, After(s, xs)) && ShiftOk(After(s, xs))
    ensures Remaining(After(s, xs)) == Remaining(s) - Working(s, xs)
    decreases |xs|
  {
    hide ShiftBusy, ShiftOk, Remaining, ERemove, MStuck, Next, Legal, SameExecute;
    if xs == [] {
      Unchanged(s);
    } else {
      var ys, x := xs[..|xs| - 1], xs[|xs| - 1];
      assert forall k :: 0 <= k < |ys| ==> ys[..k] == xs[..k];
      ShiftRun(s, ys);
      var t := After(s, ys);
      SameShift(s, t);
      SameLegal(s, t);
      OneShift(t, x);
      ShiftKept(t, x);
      SameTwice(s, t, Next(t, x));
    }
  }

  lemma Unchanged(s: State)
    requires s.e.valid
    ensures SameExecute(s, s)
  {}

  lemma SameLegal(s: State, t: State)
    requires SameExecute(s, t) && Legal(s.e.inst)
    ensures t.e.valid && Legal(t.e.inst)
  {
    hide Legal;
  }

  lemma SameTwice(s: State, t: State, u: State)
    requires SameExecute(s, t) && SameExecute(t, u)
    ensures SameExecute(s, u)
  {}

  /** Whatever stalls are interleaved, a shift by a nonzero amount keeps execute
      occupied until its last working cycle, the amount-th, and then yields the
      mathematical shift. */
  lemma ShiftLatency(s: State, xs: seq<In>, x: In)
    requires s.e.valid && Legal(s.e.inst) && ShiftBusy(s) && !s.e.shiftActive && ShiftOk(s)
    requires Undisturbed(s, xs) && Working(s, xs) < Amount(ESrc2(s)) as nat
    ensures Working(s, xs) + 1 < Amount(ESrc2(s)) as nat ==> EStuck(After(s, xs), x)
    ensures Working(s, xs) + 1 == Amount(ESrc2(s)) as nat ==>
              !(ShiftBusy(After(s, xs)) && !ShiftDone(After(s, xs)))
              && EResult(After(s, xs)) == ShiftBy(Shift(s.e.inst), ESrc1(s), Amount(ESrc2(s)))
  {
    hide ShiftBusy, ShiftOk, Legal, SameExecute, ESrc1, ESrc2, Amount, EResult, ShiftBy, Shift, After, Working,
      Undisturbed, MStuck;
    var t := After(s, xs);
    ShiftRun(s, xs);
    SameShift(s, t);
    CountDown(ShiftAmplitude(t));
    if Working(s, xs) + 1 == Amount(ESrc2(s)) as nat {
      LastOfShift(s, t);
    }
  }

  lemma LastOfShift(s: State, t: State)
    requires SameExecute(s, t) && Legal(s.e.inst) && ShiftBusy(s) && ShiftOk(t) && Remaining(t) == 1
    ensures EResult(t) == ShiftBy(Shift(s.e.inst), ESrc1(s), Amount(ESrc2(s)))
  {
    hide Legal, Shift, Src1, Src2, Amount, CsrRead, AluOut, ShiftOne, ShiftBy, IsCsr;
    CountDown(ShiftAmplitude(t));
    OnlyOne(ShiftAmplitude(t));
    LegalIsOneClass(t.e.inst);
    LastShift(Shift(t.e.inst), ShiftInput(t), ShiftAmplitude(t));
  }

  lemma OnlyOne(n: bv5)
    requires n as nat == 1
    ensures n == 1
  {}
}
