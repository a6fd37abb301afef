/** The core executes RV32I: every run of the pipeline, on a RAM that answers its
    data bus, ends in the state of an RV32I hart that took the same instructions
    and interrupts one at a time. */
module CoreIsa {
  import opened Words
  import opened Decoder
  import opened Execute
  import opened Machine
  import opened Core
  import opened Invariant
  import opened Isa
  import opened Ram
  import opened IsaStep
  import opened IsaExtra
  import opened LatchedPins
  import opened CoreTheorems
  import Refinement
  import DecoderFacts

  function HartStep(imem: Memory, h: Hart, e: Event): Hart {
    match e
    case Interrupt(code) => StepInterrupt(h, code)
    case Exec(_, pins, undefined) => StepAccepted(h, imem(h.pc), pins, undefined)
  }

  function HartRun(imem: Memory, h: Hart, es: seq<Event>): Hart {
    if es == [] then h else HartStep(imem, HartRun(imem, h, es[..|es| - 1]), es[|es| - 1])
  }

  // --- Programs of the instruction set alone ----------------------------------

  /** A hart that knows nothing but the instruction set. */
  function StrictRun(imem: Memory, h: Hart, es: seq<Event>): Hart {
    if es == [] then h else
      var g, e := StrictRun(imem, h, es[..|es| - 1]), es[|es| - 1];
      match e
      case Interrupt(code) => StepInterrupt(g, code)
      case Exec(_, pins, _) => StepWord(g, imem(g.pc), pins)
  }

  /** No executed word is one of those the decoder accepts beyond RV32I. */
  predicate Defined(imem: Memory, h: Hart, es: seq<Event>) {
    es == [] ||
    var ys, e := es[..|es| - 1], es[|es| - 1];
    Defined(imem, h, ys) && (e.Exec? ==> !Accepted(imem(StrictRun(imem, h, ys).pc)))
  }

  /** Its runs are those of the hart as the core implements it. */
  lemma {:induction false} DefinedRun(imem: Memory, h: Hart, es: seq<Event>)
    requires Defined(imem, h, es)
    ensures HartRun(imem, h, es) == StrictRun(imem, h, es)
    decreases |es|
  {
    hide Accepted, StepWord, StepAccepted, StepInterrupt;
    if es != [] {
      var ys, e := es[..|es| - 1], es[|es| - 1];
      var g := StrictRun(imem, h, ys);
      DefinedRun(imem, h, ys);
      if e.Exec? { StrictStep(g, imem(g.pc), e.pins, e.undefined); }
    }
  }

  // --- Logs -------------------------------------------------------------------

  lemma StepLog(imem: Memory, a: Arch, e: Event)
    ensures var log := Step(imem, a, e).log; log == a.log || (log != [] && log[..|log| - 1] == a.log)
  {
    hide TrapOf, TxnFor, IsMem, IsMret, IsCsr, Env, WritesRd, Rd, RdValue, NextPc, CsrAfter, CsrRead, Align,
      TrapEntry, TrapVector, TrapReturn, Rs1, Rs2, CsrAddress;
  }

  lemma RamBefore(imem: Memory, m0: Bytes, a: Arch, e: Event)
    requires IsRam(m0, Step(imem, a, e).log)
    ensures IsRam(m0, a.log)
  {
    hide Step, Replay, Answers;
    StepLog(imem, a, e);
  }

  lemma {:induction false} RamPrefix(m0: Bytes, log: seq<Txn>, k: nat)
    requires k <= |log| && IsRam(m0, log)
    ensures IsRam(m0, log[..k])
    decreases |log|
  {
    hide Replay, Answers;
    if k == |log| {
      assert log[..k] == log;
    } else {
      RamPrefix(m0, log[..|log| - 1], k);
      assert log[..|log| - 1][..k] == log[..k];
    }
  }

  // --- The sequential machine is a hart ---------------------------------------

  lemma {:induction false} MachineIsHart(imem: Memory, m0: Bytes, a: Arch, h: Hart, es: seq<Event>)
    requires Related(m0, a, h) && IsRam(m0, Run(imem, a, es).log)
    ensures Related(m0, Run(imem, a, es), HartRun(imem, h, es))
    decreases |es|
  {
    hide Related, StepAccepted, StepInterrupt, Perform, TakeInterrupt, IsRam;
    if es != [] {
      var ys, e := es[..|es| - 1], es[|es| - 1];
      var a', h' := Run(imem, a, ys), HartRun(imem, h, ys);
      RamBefore(imem, m0, a', e);
      MachineIsHart(imem, m0, a, h, ys);
      RelatedParts(m0, a', h');
      match e
      case Interrupt(code) => InterruptMatchesIsa(m0, a', h', code);
      case Exec(_, _, _) => EveryWordMatches(m0, a', h', imem(a'.pc), e);
    }
  }

  // --- The pipeline is a hart -------------------------------------------------

  /** The registers as found at reset, except that x0 is zero. */
  function Hart0(s: State, m0: Bytes): Hart {
    Hart(WordAddress(s.f.pcReg), (r: Isa.RegIndex) => if r == 0 then 0 else s.regs(r), Pack(s.csr), m0)
  }

  lemma BootRelated(s: State, m0: Bytes)
    ensures Related(m0, Refinement.Boot(s), Hart0(s, m0))
  {
    AddressesAgree(s.f.pcReg);
    DecoderFacts.AlignFacts(s.f.pcReg);
    hide Align, Aligned, Pack, WordAddress;
  }

  /** A store that is posted but not acknowledged keeps the log a RAM log. */
  lemma PostedIsRam(m0: Bytes, s: State, done: seq<Txn>)
    requires IsRam(m0, done)
    ensures IsRam(m0, done + Posted(s))
  {
    hide Replay, Lanes;
    if s.bus.valid && s.bus.wr {
      assert (done + Posted(s))[..|done|] == done;
    } else {
      assert done + Posted(s) == done;
    }
  }

  lemma RetiredIsRam(m0: Bytes, a: Arch, s: State, done: seq<Txn>)
    requires LogOk(a, s, done) && IsRam(m0, done)
    ensures IsRam(m0, a.log)
  {
    hide IsRam, Posted, WTxn, MTxn;
    PostedIsRam(m0, s, done);
    var log := done + Posted(s);
    RamPrefix(m0, log, |a.log|);
    assert log[..|a.log|] == a.log;
  }

  lemma InvLog(imem: Memory, a: Arch, s: State, done: seq<Txn>)
    requires Inv(imem, a, s, done)
    ensures LogOk(a, s, done)
  {
    hide TokensOk, FetchBook, FetchData, InstructionsOk, ChainOk, RegsOk, PortsOk, ExecuteOk, MemoryOk, WriteBackOk,
      ShiftOk, CsrOk, ContextOk, LiberatorOk, BusOk, LogOk;
  }

  /** For every reset state, constant instruction memory, acknowledge schedule and
      interrupt pattern, the retired instructions leave the registers, CSRs, program
      counter and memory of an RV32I hart, whose CSR accesses see the interrupt pins
      that the core latched. */
  lemma CoreRefinesIsa(imem: Memory, m0: Bytes, s: State, xs: seq<In>)
    requires Reset(s) && Refinement.Environment(imem, s, xs) && IsRam(m0, Refinement.Transactions(s, xs))
    ensures var es := LatchedEvents(s, xs);
            var a := Run(imem, Refinement.Boot(s), es);
            && Related(m0, a, HartRun(imem, Hart0(s, m0), es))
            && Inv(imem, a, Refinement.After(s, xs), Refinement.Transactions(s, xs))
  {
    hide Reset, Inv, Related, IsRam, Run, HartRun, Hart0, LogOk, Refinement.Environment, Refinement.Boot,
      Refinement.Events, LatchedEvents, Refinement.Transactions, Refinement.After, ReadWith;
    var es := LatchedEvents(s, xs);
    var a := Run(imem, Refinement.Boot(s), es);
    LatchedRun(imem, s, xs);
    Refinement.RunInv(imem, s, xs);
    InvLog(imem, a, Refinement.After(s, xs), Refinement.Transactions(s, xs));
    RetiredIsRam(m0, a, Refinement.After(s, xs), Refinement.Transactions(s, xs));
    BootRelated(s, m0);
    MachineIsHart(imem, m0, Refinement.Boot(s), Hart0(s, m0), es);
  }

  /** A program that keeps to the instruction set runs as the instruction set says. */
  lemma CoreRunsPrograms(imem: Memory, m0: Bytes, s: State, xs: seq<In>)
    requires Reset(s) && Refinement.Environment(imem, s, xs) && IsRam(m0, Refinement.Transactions(s, xs))
    requires Defined(imem, Hart0(s, m0), LatchedEvents(s, xs))
    ensures var es := LatchedEvents(s, xs);
            Related(m0, Run(imem, Refinement.Boot(s), es), StrictRun(imem, Hart0(s, m0), es))
  {
    hide Reset, Inv, Related, IsRam, Run, HartRun, StrictRun, Defined, Hart0, Refinement.Environment, Refinement.Boot,
      LatchedEvents, Refinement.Transactions, Refinement.After;
    CoreRefinesIsa(imem, m0, s, xs);
    DefinedRun(imem, Hart0(s, m0), LatchedEvents(s, xs));
  }

  // --- Interrupts of a run --------------------------------------------------------

  /** Every interrupt is one that the hart, at that point, has enabled. */
  predicate Permitted(imem: Memory, h: Hart, es: seq<Event>) {
    es == [] ||
    var ys, e := es[..|es| - 1], es[|es| - 1];
    Permitted(imem, h, ys) && (e.Interrupt? ==> InterruptAllowed(HartRun(imem, h, ys).csr, e.code))
  }

  lemma OnePermitted(imem: Memory, h: Hart, es: seq<Event>, fs: seq<Event>)
    requires Permitted(imem, h, es) && |fs| <= 1
    requires forall f :: f in fs && f.Interrupt? ==> InterruptAllowed(HartRun(imem, h, es).csr, f.code)
    ensures Permitted(imem, h, es + fs)
  {
    hide HartRun, InterruptAllowed;
    if fs == [] {
      assert es + fs == es;
    } else {
      assert (es + fs)[..|es + fs| - 1] == es;
      assert fs[0] in fs;
    }
  }

  /** The interrupt of a cycle, as the hart related to the machine sees it. */
  lemma InterruptOfCycle(imem: Memory, m0: Bytes, a: Arch, h: Hart, t: State, done: seq<Txn>, x: In, p: Pins)
    requires Inv(imem, a, t, done) && Related(m0, a, h)
    ensures |EventsWith(t, x, p)| <= 1
    ensures forall f :: f in EventsWith(t, x, p) && f.Interrupt? ==> InterruptAllowed(h.csr, f.code)
  {
    hide Inv, Related, InterruptAllowed, InterruptJump, InterruptEnabled;
    RelatedParts(m0, a, h);
    if InterruptJump(t) {
      InterruptState(imem, a, t, done, x);
      EnabledMeans(a.csr, t.t.irqCode);
    }
  }

  lemma {:induction false} InterruptsPermitted(imem: Memory, m0: Bytes, s: State, xs: seq<In>)
    requires Reset(s) && Refinement.Environment(imem, s, xs) && IsRam(m0, Refinement.Transactions(s, xs))
    ensures Permitted(imem, Hart0(s, m0), LatchedEvents(s, xs))
    decreases |xs|
  {
    hide Reset, Inv, Related, IsRam, Run, HartRun, Hart0, Permitted, InterruptAllowed, Refinement.Environment,
      Refinement.Boot, Refinement.After, Refinement.Transactions, EventsWith;
    if xs == [] {
      NothingPermitted(imem, Hart0(s, m0));
    } else {
      var ys, x := xs[..|xs| - 1], xs[|xs| - 1];
      Refinement.PrefixEnvironment(imem, s, xs);
      EarlierRam(m0, s, xs);
      InterruptsPermitted(imem, m0, s, ys);
      CoreRefinesIsa(imem, m0, s, ys);
      var es := LatchedEvents(s, ys);
      var t, p := Refinement.After(s, ys), Latched(s, ys);
      InterruptOfCycle(imem, m0, Run(imem, Refinement.Boot(s), es), HartRun(imem, Hart0(s, m0), es), t,
        Refinement.Transactions(s, ys), x, p);
      OnePermitted(imem, Hart0(s, m0), es, EventsWith(t, x, p));
    }
  }

  lemma NothingPermitted(imem: Memory, h: Hart)
    ensures Permitted(imem, h, [])
  {}

  lemma EarlierRam(m0: Bytes, s: State, xs: seq<In>)
    requires xs != [] && IsRam(m0, Refinement.Transactions(s, xs))
    ensures IsRam(m0, Refinement.Transactions(s, xs[..|xs| - 1]))
  {
    hide IsRam, Completed, Refinement.After;
    var log, k := Refinement.Transactions(s, xs), |Refinement.Transactions(s, xs[..|xs| - 1])|;
    RamPrefix(m0, log, k);
    assert log[..k] == Refinement.Transactions(s, xs[..|xs| - 1]);
  }

  /** The hart starts in machine mode's reset state, its interrupts off. */
  lemma HartReset(s: State, m0: Bytes)
    requires Reset(s)
    ensures var h := Hart0(s, m0); h.csr.mstatus == 0x1800 && h.csr.mie == 0 && h.csr.irqMask == 0 && h.pc & 3 == 0
  {
    AlignedWord(s.f.pcReg);
    hide WordAddress, VectorWord, CauseWord;
  }

  lemma AlignedWord(a: Word)
    ensures WordAddress(a) & 3 == 0
  {}

  // --- Every schedule has a run -------------------------------------------------

  /** The bus word at word address wa. */
  function WordAt(m: Bytes, wa: Word): Word {
    Joined(m(ByteAddress(wa, 0)), m(ByteAddress(wa, 1)), m(ByteAddress(wa, 2)), m(ByteAddress(wa, 3)))
  }

  function Joined(a: bv8, b: bv8, c: bv8, d: bv8): Word {
    (a as Word) | ((b as Word) << 8) | ((c as Word) << 16) | ((d as Word) << 24)
  }

  /** The input x with the data of both buses supplied by the two memories, after the run zs. */
  function Supplied(imem: Memory, m0: Bytes, s: State, zs: seq<In>, x: In): In {
    var t, m := Refinement.After(s, zs), Replay(m0, Refinement.Transactions(s, zs));
    x.(iData := imem(t.f.busPc), dData := WordAt(m, WordOf(t.bus.address)))
  }

  function Answered(imem: Memory, m0: Bytes, s: State, xs: seq<In>): seq<In> {
    if xs == [] then [] else
      var zs := Answered(imem, m0, s, xs[..|xs| - 1]);
      zs + [Supplied(imem, m0, s, zs, xs[|xs| - 1])]
  }

  predicate SameSchedule(x: In, y: In) { y == x.(iData := y.iData, dData := y.dData) }

  /** The same acknowledgements and interrupt lines in every cycle. */
  predicate SameSchedules(xs: seq<In>, ys: seq<In>) {
    |ys| == |xs| && forall k :: 0 <= k < |xs| ==> SameSchedule(xs[k], ys[k])
  }

  lemma WordAnswers(m: Bytes, wa: Word, lanes: bv4)
    ensures Answers(m, Read(wa, lanes, WordAt(m, wa)))
  {
    hide ByteAddress, ByteAt, Joined;
    JoinedBytes(m(ByteAddress(wa, 0)), m(ByteAddress(wa, 1)), m(ByteAddress(wa, 2)), m(ByteAddress(wa, 3)));
  }

  lemma JoinedBytes(a: bv8, b: bv8, c: bv8, d: bv8)
    ensures ByteAt(Joined(a, b, c, d), 0) == a && ByteAt(Joined(a, b, c, d), 1) == b
    ensures ByteAt(Joined(a, b, c, d), 2) == c && ByteAt(Joined(a, b, c, d), 3) == d
  {}

  /** Acknowledgements and interrupt lines may come in any order: every schedule is
      that of a run in which both memories answer. */
  lemma {:induction false} EveryScheduleRuns(imem: Memory, m0: Bytes, s: State, xs: seq<In>)
    ensures var ys := Answered(imem, m0, s, xs);
            SameSchedules(xs, ys) && Refinement.Environment(imem, s, ys) && IsRam(m0, Refinement.Transactions(s, ys))
    decreases |xs|
  {
    hide Supplied, IsRam, Refinement.Environment, Refinement.Transactions, SameSchedules;
    if xs == [] {
      NothingRuns(imem, m0, s);
    } else {
      var xs', x := xs[..|xs| - 1], xs[|xs| - 1];
      var zs := Answered(imem, m0, s, xs');
      EveryScheduleRuns(imem, m0, s, xs');
      ScheduleStep(imem, m0, s, xs', zs, x);
      assert xs == xs' + [x];
    }
  }

  lemma NothingRuns(imem: Memory, m0: Bytes, s: State)
    ensures SameSchedules([], []) && Refinement.Environment(imem, s, []) && IsRam(m0, Refinement.Transactions(s, []))
  {
    hide ImemAnswers;
  }

  lemma ScheduleStep(imem: Memory, m0: Bytes, s: State, xs: seq<In>, zs: seq<In>, x: In)
    requires SameSchedules(xs, zs) && Refinement.Environment(imem, s, zs) && IsRam(m0, Refinement.Transactions(s, zs))
    ensures var ys := zs + [Supplied(imem, m0, s, zs, x)];
            SameSchedules(xs + [x], ys) && Refinement.Environment(imem, s, ys)
              && IsRam(m0, Refinement.Transactions(s, ys))
  {
    hide Supplied, IsRam, ImemAnswers, Completed, Refinement.After, Refinement.Environment, Refinement.Transactions,
      SameSchedule;
    var y := Supplied(imem, m0, s, zs, x);
    SuppliedAnswers(imem, m0, s, zs, x);
    EnvironmentGrows(imem, s, zs, y);
    TransactionsGrow(s, zs, y);
  }

  lemma SuppliedAnswers(imem: Memory, m0: Bytes, s: State, zs: seq<In>, x: In)
    requires IsRam(m0, Refinement.Transactions(s, zs))
    ensures var y, t := Supplied(imem, m0, s, zs, x), Refinement.After(s, zs);
            SameSchedule(x, y) && ImemAnswers(imem, t, y) && IsRam(m0, Refinement.Transactions(s, zs) + Completed(t, y))
  {
    hide WordAt, IsRam, Replay, ImemAnswers, Completed, Refinement.After, Refinement.Transactions;
    AnsweredStep(imem, m0, Refinement.After(s, zs), Refinement.Transactions(s, zs), Supplied(imem, m0, s, zs, x));
  }

  lemma TransactionsGrow(s: State, zs: seq<In>, y: In)
    ensures Refinement.Transactions(s, zs + [y])
            == Refinement.Transactions(s, zs) + Completed(Refinement.After(s, zs), y)
  {
    hide Completed, Refinement.After;
    assert (zs + [y])[..|zs|] == zs;
  }

  lemma EnvironmentGrows(imem: Memory, s: State, zs: seq<In>, y: In)
    requires Refinement.Environment(imem, s, zs) && ImemAnswers(imem, Refinement.After(s, zs), y)
    ensures Refinement.Environment(imem, s, zs + [y])
  {
    hide ImemAnswers, Refinement.After;
    var ys := zs + [y];
    forall k | 0 <= k < |ys| ensures ImemAnswers(imem, Refinement.After(s, ys[..k]), ys[k]) {
      if k < |zs| {
        assert ys[..k] == zs[..k] && ys[k] == zs[k];
      } else {
        assert ys[..k] == zs;
      }
    }
  }

  lemma AnsweredStep(imem: Memory, m0: Bytes, t: State, done: seq<Txn>, y: In)
    requires IsRam(m0, done) && y.iData == imem(t.f.busPc) && y.dData == WordAt(Replay(m0, done), WordOf(t.bus.address))
    ensures ImemAnswers(imem, t, y) && IsRam(m0, done + Completed(t, y))
  {
    hide WordAt, IsRam, Replay, Completed;
    AnsweredBus(m0, t, done, y);
  }

  lemma AnsweredBus(m0: Bytes, t: State, done: seq<Txn>, y: In)
    requires IsRam(m0, done) && y.dData == WordAt(Replay(m0, done), WordOf(t.bus.address))
    ensures IsRam(m0, done + Completed(t, y))
  {
    hide WordAt, Answers, Replay;
    var c := Completed(t, y);
    if c == [] {
      assert done + c == done;
    } else {
      assert (done + c)[..|done + c| - 1] == done && (done + c)[|done + c| - 1] == c[0];
      if c[0].Read? { WordAnswers(Replay(m0, done), c[0].wordAddress, c[0].lanes); }
        else { WriteAnswers(Replay(m0, done), c[0]); }
    }
  }

  lemma WriteAnswers(m: Bytes, t: Txn)
    requires t.Write?
    ensures Answers(m, t)
  {}
}
