/** The interrupt pins that a CSR access observes are those latched in the cycle in
    which it leaves execute.  A run's events can carry them without changing what the
    run means. */
module LatchedPins {
  import opened Words
  import opened Decoder
  import opened Execute
  import opened Machine
  import opened Core
  import opened Invariant
  import opened DecoderFacts
  import opened AdvanceProof
  import opened CoreTheorems
  import opened Refinement

  /** A CSR access moves from execute to memory. */
  predicate CsrIssues(s: State, x: In) { s.e.valid && IsCsr(s.e.inst) && !EStuck(s, x) && !ERemove(s) }

  /** The pins at the last such cycle. */
  function Latch(s: State, x: In, p: Pins): Pins { if CsrIssues(s, x) then PinsNow(s) else p }

  /** The event of a cycle, with the given pins. */
  function EventsWith(s: State, x: In, p: Pins): seq<Event> {
    if s.w.valid then [Exec(s.w.readData, p, x.undefined)]
    else if s.t.hadException then [Exec(0, p, 0)]
    else if InterruptJump(s) then [Interrupt(s.t.irqCode)]
    else []
  }

  /** A CSR access behind execute has read its register with these pins. */
  predicate ReadWith(a: Arch, m: MemoryStage, w: WriteBackStage, p: Pins) {
    && (w.valid && IsCsr(w.inst) ==> w.result == CsrRead(a.csr, p, CsrAddress(w.inst)))
    && (m.valid && IsCsr(m.inst) ==> m.result == CsrRead(a.csr, p, CsrAddress(m.inst)))
  }

  lemma LineBits(external: bool, timer: bool, software: bool)
    ensures var w := LinesWord(external, timer, software);
            && (w & 0x800 != 0 <==> external) && (w & 0x80 != 0 <==> timer) && (w & 0x8 != 0 <==> software)
            && w & 0xfffff777 == 0
  {}

  /** What a CSR access in execute reads of the pins: mip shows each at its own bit, and
      0xfc0 the lines under the mask. */
  lemma PinsAreRead(s: State)
    requires s.e.valid && IsCsr(s.e.inst)
    ensures CsrAddress(s.e.inst) == 0x344 ==>
              && (EResult(s) & 0x800 != 0 <==> s.t.meip) && (EResult(s) & 0x80 != 0 <==> s.t.mtip)
              && (EResult(s) & 0x8 != 0 <==> s.t.msip) && EResult(s) & 0xfffff777 == 0
    ensures CsrAddress(s.e.inst) == 0xfc0 ==> EResult(s) == Masked(s.csr.irqMask, s.t.irqLines)
  {
    LineBits(s.t.meip, s.t.mtip, s.t.msip);
    hide IsCsr, CsrAddress, LinesWord, Masked, Mstatus, Mie, Mcause;
  }

  // --- One clock --------------------------------------------------------------

  lemma CsrParts(imem: Memory, a: Arch, s: State, done: seq<Txn>)
    requires Inv(imem, a, s, done)
    ensures CsrOk(a, s) && TokensOk(s) && InstructionsOk(imem, s) && WriteBackOk(a, s) && ContextOk(imem, a, s)
            && ChainOk(a, s)
  {
    hide TokensOk, LiberatorOk, FetchBook, ChainOk, LogOk, FetchData, InstructionsOk, BusOk, ShiftOk, ExecuteOk,
      PortsOk,
      RegsOk, MemoryOk, WriteBackOk, CsrOk, ContextOk;
  }

  lemma NoChange(imem: Memory, a: Arch, s: State, x: In)
    requires !s.w.valid && !TrapNow(s)
    ensures Advance(imem, a, s, x) == a
  {
    hide Step, InterruptJump;
  }

  lemma TrapRemoves(s: State)
    requires TrapNow(s)
    ensures MRemove(s) && ERemove(s)
  {
    hide TrapNow;
  }

  /** A CSR access waits in execute for the stages ahead to be empty. */
  lemma CsrWaits(s: State, x: In)
    requires CsrIssues(s, x)
    ensures !s.m.valid && !s.w.valid && !TrapNow(s)
  {
    if TrapNow(s) { TrapRemoves(s); }
    hide TrapNow, ERemove, ShiftBusy, IsMem, IsCsr;
  }

  lemma ReadKept(imem: Memory, a: Arch, s: State, x: In, done: seq<Txn>, p: Pins)
    requires Inv(imem, a, s, done) && ReadWith(a, s.m, s.w, p)
    ensures ReadWith(Advance(imem, a, s, x), Next(s, x).m, Next(s, x).w, Latch(s, x, p))
  {
    hide Inv, TokensOk, InstructionsOk, WriteBackOk, ContextOk, ChainOk, Advance, TrapNow, IsCsr, IsMem, CsrIssues,
      CsrRead,
      ERemove, MRemove, EStuck, MStuck, BranchDo, BranchTarget, EAlignFault, EAddress, ShiftBusy;
    CsrParts(imem, a, s, done);
    NextParts(s, x);
    if TrapNow(s) { TrapRemoves(s); } else if !s.w.valid { NoChange(imem, a, s, x); }
    hide Next;
    if CsrIssues(s, x) {
      CsrWaits(s, x);
      IssuedRead(a, s, x);
    } else {
      HeldRead(a, s, x, p);
    }
  }

  lemma IssuedRead(a: Arch, s: State, x: In)
    requires CsrIssues(s, x) && CsrOk(a, s) && !s.m.valid && !s.w.valid
    ensures ReadWith(a, NextMemory(s, x), NextWriteBack(s, x), PinsNow(s))
  {
    hide CsrRead, IsMem, ERemove, MRemove, BranchDo, BranchTarget, EAlignFault, EAddress, ShiftBusy, AluOut, EStuck,
      IsCsr;
  }

  lemma HeldRead(a: Arch, s: State, x: In, p: Pins)
    requires !CsrIssues(s, x) && CsrOk(a, s) && ReadWith(a, s.m, s.w, p)
    ensures !s.w.valid ==> ReadWith(a, NextMemory(s, x), NextWriteBack(s, x), p)
    ensures s.w.valid || MRemove(s) ==> !(NextWriteBack(s, x).valid && IsCsr(NextWriteBack(s, x).inst))
    ensures s.w.valid || MRemove(s) ==> !(NextMemory(s, x).valid && IsCsr(NextMemory(s, x).inst))
  {
    hide CsrRead, IsMem, ERemove, MRemove, BranchDo, BranchTarget, EAlignFault, EAddress, ShiftBusy, EResult, IsCsr;
  }

  /** With the latched pins the cycle's event has the same effect. */
  lemma SameEffect(imem: Memory, a: Arch, s: State, x: In, done: seq<Txn>, p: Pins)
    requires Inv(imem, a, s, done) && ReadWith(a, s.m, s.w, p)
    ensures Run(imem, a, EventsWith(s, x, p)) == Advance(imem, a, s, x)
  {
    hide Inv, TokensOk, InstructionsOk, WriteBackOk, ContextOk, ChainOk, CsrOk, ReadWith, Perform, Run, PinsOf,
      InterruptJump, IsCsr, CsrRead;
    CsrParts(imem, a, s, done);
    if s.w.valid {
      var e, f := Exec(s.w.readData, p, x.undefined), Exec(s.w.readData, PinsOf(s.w.result), x.undefined);
      OneEvent(imem, a, e);
      OneEvent(imem, a, f);
      RetiresNext(imem, a, s);
      if IsCsr(s.w.inst) { SameRead(a, s, p); }
      SamePerform(a, s.w.inst, e, f);
    } else if s.t.hadException {
      var e, f := Exec(0, p, 0), Exec(0, PinsOf(0), 0);
      OneEvent(imem, a, e);
      OneEvent(imem, a, f);
      FaultsNext(imem, a, s);
      SameTrap(a, imem(a.pc), e, f);
    }
  }

  lemma RetiresNext(imem: Memory, a: Arch, s: State)
    requires ChainOk(a, s) && InstructionsOk(imem, s) && s.w.valid
    ensures s.w.pc == a.pc && s.w.inst == imem(a.pc)
  {
    hide Aligned, AfterW, AfterM, AfterE, AfterD, AfterS, XretInW, Legal, Env, NoToken, StreamPc;
  }

  lemma FaultsNext(imem: Memory, a: Arch, s: State)
    requires ChainOk(a, s) && ContextOk(imem, a, s) && s.t.hadException
    ensures var i := imem(a.pc); TrapOf(i, a.pc, Operand1(a, i), Operand2(a, i)).Trap?
  {
    hide Aligned, AfterW, AfterM, AfterE, AfterD, AfterS, XretInW, Legal, Env, NoToken, StreamPc, TrapOf, StaticTrap,
      Rs1, Rs2;
  }

  lemma SameRead(a: Arch, s: State, p: Pins)
    requires s.w.valid && CsrOk(a, s) && ReadWith(a, s.m, s.w, p) && IsCsr(s.w.inst)
    ensures CsrRead(a.csr, p, CsrAddress(s.w.inst)) == CsrRead(a.csr, PinsOf(s.w.result), CsrAddress(s.w.inst))
  {
    hide CsrRead, IsCsr, PinsOf, CsrAfter, CsrAddress;
  }

  lemma SamePerform(a: Arch, i: Word, e: Event, f: Event)
    requires e.Exec? && f.Exec? && e.response == f.response && e.undefined == f.undefined
    requires IsCsr(i) ==> CsrRead(a.csr, e.pins, CsrAddress(i)) == CsrRead(a.csr, f.pins, CsrAddress(i))
    ensures Perform(a, i, e) == Perform(a, i, f)
  {
    hide CsrRead, CsrAddress, TrapOf, IsCsr, IsMem, Env, IsMret, WritesRd, Rd, TxnFor, NextPc, ExecuteResult,
      FormatLoad, Address,
      CsrStore, CsrWriteData, CsrWriteOp, Align, TakeTrap, Rs1, Rs2;
  }

  lemma SameTrap(a: Arch, i: Word, e: Event, f: Event)
    requires e.Exec? && f.Exec? && TrapOf(i, a.pc, Operand1(a, i), Operand2(a, i)).Trap?
    ensures Perform(a, i, e) == Perform(a, i, f)
  {
    hide TrapOf, TakeTrap, Rs1, Rs2, Retire;
  }

  // --- Runs -------------------------------------------------------------------

  /** The pins latched for the last CSR access to leave execute. */
  function Latched(s: State, xs: seq<In>): Pins {
    if xs == [] then Pins(false, false, false, 0) else
      var ys := xs[..|xs| - 1];
      Latch(After(s, ys), xs[|xs| - 1], Latched(s, ys))
  }

  /** The events of a run, each with the pins that its instruction observed. */
  function LatchedEvents(s: State, xs: seq<In>): seq<Event> {
    if xs == [] then [] else
      var ys := xs[..|xs| - 1];
      LatchedEvents(s, ys) + EventsWith(After(s, ys), xs[|xs| - 1], Latched(s, ys))
  }

  lemma {:induction false} LatchedRun(imem: Memory, s: State, xs: seq<In>)
    requires Reset(s) && Environment(imem, s, xs)
    ensures Run(imem, Boot(s), LatchedEvents(s, xs)) == Run(imem, Boot(s), Events(s, xs))
    ensures ReadWith(Run(imem, Boot(s), Events(s, xs)), After(s, xs).m, After(s, xs).w, Latched(s, xs))
    decreases |xs|
  {
    hide Inv, Environment, Next, EventsOf, EventsWith, Latch, Step, Boot, ReadWith, Run;
    if xs == [] {
      NothingRead(imem, s);
    } else {
      var ys, x := xs[..|xs| - 1], xs[|xs| - 1];
      PrefixEnvironment(imem, s, xs);
      LatchedRun(imem, s, ys);
      RunInv(imem, s, ys);
      var a, t, p := Run(imem, Boot(s), Events(s, ys)), After(s, ys), Latched(s, ys);
      ReadKept(imem, a, t, x, Transactions(s, ys), p);
      SameEffect(imem, a, t, x, Transactions(s, ys), p);
      RunAppend(imem, Boot(s), Events(s, ys), EventsOf(t, x));
      RunAppend(imem, Boot(s), LatchedEvents(s, ys), EventsWith(t, x, p));
      hide Reset;
    }
  }

  lemma NothingRead(imem: Memory, s: State)
    requires Reset(s)
    ensures ReadWith(Run(imem, Boot(s), []), s.m, s.w, Pins(false, false, false, 0))
  {
    hide CsrRead, IsCsr, Run;
  }
}
