/** The pipelined core refines the sequential machine over every run. */
module Refinement {
  import opened Words
  import opened Decoder
  import opened Execute
  import opened Machine
  import opened Core
  import opened Invariant
  import opened DecoderFacts
  import opened AdvanceProof
  import opened FrontProof
  import opened ChainProof
  import opened ValuesProof
  import opened TrapProof
  import opened BusProof

  lemma PcAligned(imem: Memory, a: Arch, s: State, x: In)
    requires Aligned(a.pc) && (s.w.valid ==> s.w.pc == a.pc) && WriteBackOk(a, s)
    requires Advance(imem, a, s, x).pc == if WFlushNext(s) then Align(JumpTarget(s, x)) else AfterW(a, s)
    ensures Aligned(Advance(imem, a, s, x).pc)
  {
    hide Legal, Env, Misaligned, BranchDo, BranchTarget, Bit1, Aligned, Align, Plus, Advance, WFlushNext, JumpTarget,
      IsMem, Address, AddressLow, WritesRd, IsCsr, ExecuteResult, Rs1, Rs2;
    AlignFacts(JumpTarget(s, x));
    AlignFacts(a.pc);
    TargetAligned(s.w.inst, s.w.pc, Op1(a, s.w.inst));
  }

  /** One clock of the core, matched by zero or one step of the sequential machine. */
  lemma InvKept(imem: Memory, a: Arch, s: State, x: In, done: seq<Txn>)
    requires Inv(imem, a, s, done) && ImemAnswers(imem, s, x)
    ensures Inv(imem, Advance(imem, a, s, x), Next(s, x), done + Completed(s, x))
  {
    hide TokensOk, FetchBook, FetchData, ChainOk, RegsOk, PortsOk, ExecuteOk, MemoryOk, WriteBackOk, ShiftOk, CsrOk,
      ContextOk, LiberatorOk, BusOk, LogOk, ImemAnswers, Next, Advance, Completed, WFlushNext, JumpTarget, AfterW,
      Legal, Env;
    var a' := Advance(imem, a, s, x);
    Summary(imem, a, s, x);
    CsrKept(imem, a, s, x);
    FetchBookKept(s, x);
    FetchDataKept(imem, s, x);
    InstructionsKept(imem, s, x);
    TokensKept(s, x);
    assert Advanced(a, a', s, x);
    ChainFacts(a, s);
    PcAligned(imem, a, s, x);
    ChainKept(a, a', s, x);
    PortsKept(a, a', s, x);
    ExecuteKept(a, a', s, x);
    ShiftKept(s, x);
    MemoryKept(a, a', s, x);
    WriteBackKept(a, a', s, x);
    ContextKept(imem, a, a', s, x);
    LiberatorKept(s, x);
    NoFlushBehindMemory(s);
    BusKept(a, s, x);
    LogKept(a, a', s, x, done);
  }

  lemma ChainFacts(a: Arch, s: State)
    requires ChainOk(a, s)
    ensures Aligned(a.pc) && (s.w.valid ==> s.w.pc == a.pc)
  {
    hide Aligned;
  }

  lemma NoFlushBehindMemory(s: State)
    requires TokensOk(s) && LiberatorOk(s)
    ensures s.m.valid ==> !WFlushNext(s)
  {
    hide Env, InterruptEnabled;
    Exclusive(s);
  }

  // --- Runs -----------------------------------------------------------------

  /** The architectural state the core comes out of reset with. */
  function Boot(s: State): Arch {
    Arch(Align(s.f.pcReg), WriteReg(s.regs, 0, 0), s.csr, [])
  }

  lemma BootInv(imem: Memory, s: State)
    requires Reset(s)
    ensures Inv(imem, Boot(s), s, [])
  {
    hide Legal, Env, IsMem, IsStore, IsCsr, Align, Aligned, Plus, ShiftBy, Shift, Amount, Src1, Src2,
      InterruptEnabled, StaticTrap, TrapOf, Rs1, Rs2, NextPc, BranchDo, BranchTarget, TxnFor;
    AlignFacts(s.f.pcReg);
    AlignFacts(Align(s.f.pcReg));
  }

  function After(s: State, xs: seq<In>): State {
    if xs == [] then s else Next(After(s, xs[..|xs| - 1]), xs[|xs| - 1])
  }

  /** The sequential events a run of the core stands for. */
  function Events(s: State, xs: seq<In>): seq<Event> {
    if xs == [] then [] else
      var k := |xs| - 1;
      Events(s, xs[..k]) + EventsOf(After(s, xs[..k]), xs[k])
  }

  /** The data-bus transactions completed in a run. */
  function Transactions(s: State, xs: seq<In>): seq<Txn> {
    if xs == [] then [] else
      var k := |xs| - 1;
      Transactions(s, xs[..k]) + Completed(After(s, xs[..k]), xs[k])
  }

  /** Instruction memory is constant and answers every fetch; acknowledgements,
      load data and interrupt lines are unconstrained. */
  ghost predicate Environment(imem: Memory, s: State, xs: seq<In>) {
    forall k :: 0 <= k < |xs| ==> ImemAnswers(imem, After(s, xs[..k]), xs[k])
  }

  lemma {:induction false} RunAppend(imem: Memory, a: Arch, es: seq<Event>, fs: seq<Event>)
    ensures Run(imem, a, es + fs) == Run(imem, Run(imem, a, es), fs)
    decreases |fs|
  {
    hide Step;
    if fs == [] {
      assert es + fs == es;
    } else {
      assert (es + fs)[..|es + fs| - 1] == es + fs[..|fs| - 1];
      RunAppend(imem, a, es, fs[..|fs| - 1]);
    }
  }

  lemma {:induction false} RunInv(imem: Memory, s: State, xs: seq<In>)
    requires Reset(s) && Environment(imem, s, xs)
    ensures Inv(imem, Run(imem, Boot(s), Events(s, xs)), After(s, xs), Transactions(s, xs))
    decreases |xs|
  {
    hide Reset, Inv, Next, Completed, EventsOf, ImemAnswers, Step, Boot, Run;
    if xs == [] {
      BootInv(imem, s);
      RunNothing(imem, Boot(s));
    } else {
      var k := |xs| - 1;
      var ys := xs[..k];
      PrefixEnvironment(imem, s, xs);
      RunInv(imem, s, ys);
      var a := Run(imem, Boot(s), Events(s, ys));
      InvKept(imem, a, After(s, ys), xs[k], Transactions(s, ys));
      RunAppend(imem, Boot(s), Events(s, ys), EventsOf(After(s, ys), xs[k]));
    }
  }

  lemma RunNothing(imem: Memory, a: Arch)
    ensures Run(imem, a, []) == a
  {
    hide Step;
  }

  lemma PrefixEnvironment(imem: Memory, s: State, xs: seq<In>)
    requires Environment(imem, s, xs) && xs != []
    ensures var k := |xs| - 1;
            Environment(imem, s, xs[..k]) && ImemAnswers(imem, After(s, xs[..k]), xs[k])
  {
    hide ImemAnswers, After;
    var ys := xs[..|xs| - 1];
    assert forall k :: 0 <= k < |ys| ==> ys[..k] == xs[..k] && ys[k] == xs[k];
  }

  // --- Parts of runs ----------------------------------------------------------

  lemma {:induction false} RunConcat(s: State, xs: seq<In>, ys: seq<In>)
    ensures After(s, xs + ys) == After(After(s, xs), ys)
    ensures Events(s, xs + ys) == Events(s, xs) + Events(After(s, xs), ys)
    decreases |ys|
  {
    hide Next, EventsOf;
    if ys == [] {
      assert xs + ys == xs;
    } else {
      assert (xs + ys)[..|xs + ys| - 1] == xs + ys[..|ys| - 1];
      RunConcat(s, xs, ys[..|ys| - 1]);
    }
  }

  lemma EnvironmentUpTo(imem: Memory, s: State, xs: seq<In>, k: nat)
    requires Environment(imem, s, xs) && k <= |xs|
    ensures Environment(imem, s, xs[..k])
  {
    hide ImemAnswers, After;
    assert forall i :: 0 <= i < k ==> xs[..k][..i] == xs[..i];
  }

  /** The states a run passes through. */
  function States(s: State, xs: seq<In>): (ss: seq<State>)
    ensures |ss| == |xs| + 1
  {
    seq(|xs| + 1, k requires 0 <= k <= |xs| => After(s, xs[..k]))
  }

  lemma StateAfter(s: State, xs: seq<In>, k: nat)
    requires k < |xs|
    ensures States(s, xs)[k + 1] == Next(States(s, xs)[k], xs[k])
  {
    hide Next;
    assert xs[..k + 1][..k] == xs[..k];
  }

  lemma {:induction false} NoEventAt(s: State, xs: seq<In>, k: nat)
    requires Events(s, xs) == [] && k < |xs|
    ensures EventsOf(States(s, xs)[k], xs[k]) == []
    decreases |xs|
  {
    hide Next, EventsOf, After;
    var n := |xs| - 1;
    if k < n {
      NoEventAt(s, xs[..n], k);
      assert xs[..n][..k] == xs[..k];
    }
  }
}
