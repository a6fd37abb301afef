/** The core never deadlocks: a bound on the cycles, other than those spent waiting
    for a bus to answer, that it can take without retiring an instruction or taking
    a trap or an interrupt. */
module Liveness {
  import opened Words
  import opened Decoder
  import opened Execute
  import opened Machine
  import opened Core
  import opened Invariant
  import opened DecoderFacts
  import opened AdvanceProof
  import opened Refinement
  import opened CoreTheorems
  import opened Countdown

  predicate HasEvent(s: State) { s.w.valid || TrapNow(s) }

  function Count(b: bool): nat { if b then 1 else 0 }

  function ShiftWait(s: State): nat { if ShiftBusy(s) then ShiftAmplitude(s) as nat else 0 }

  function ExecuteWait(s: State): nat { 4 + ShiftWait(s) + Count(s.bus.valid) }

  /** Decode may wait for a register written in the previous cycle, and for the
      stages ahead to be reported drained while an interrupt is pending. */
  function DecodeWait(s: State): nat {
    if s.t.irqValid then 41 - Count(s.t.pcValid0) - Count(s.t.pcValid1)
    else if s.wb.valid then 42
    else 38
  }

  function FetchWait(s: State): nat {
    if s.f.s1Valid then 43 else if s.f.booted then 44 else 45
  }

  /** The request that the oldest occupant may be waiting for, if there is one, is
      answered in this cycle: the data bus's for execute and memory, the instruction
      bus's behind an empty pipeline. */
  predicate Served(s: State, x: In) {
    if s.t.excW || s.t.excM then true
    else if s.m.valid then DataServed(s, x)
    else if s.t.excE then true
    else if s.e.valid then DataServed(s, x)
    else if s.t.excD || s.d.valid then true
    else FetchServed(s, x)
  }

  predicate DataServed(s: State, x: In) { s.bus.valid ==> x.dAck }
  predicate FetchServed(s: State, x: In) { s.f.busValid ==> x.iAck }

  /** Served cycles the oldest occupant still needs. */
  function Wait(s: State): nat {
    if HasEvent(s) then 0
    else if s.t.excW then 1
    else if s.t.excM then 2
    else if s.m.valid then 3
    else if s.t.excE then 3
    else if s.e.valid then ExecuteWait(s)
    else if s.t.excD then 4
    else if s.d.valid then DecodeWait(s)
    else FetchWait(s)
  }

  ghost predicate Sound(s: State) {
    && TokensOk(s) && LiberatorOk(s) && FetchBook(s) && BusOk(s) && ShiftOk(s)
    && (s.e.valid ==> Legal(s.e.inst)) && (s.m.valid ==> Legal(s.m.inst))
  }

  /** Everything from the given stage on is empty. */
  predicate EmptyM(s: State) { !HasEvent(s) && !s.t.excW && !s.t.excM && !s.m.valid }
  predicate EmptyE(s: State) { EmptyM(s) && !s.t.excE && !s.e.valid }
  predicate EmptyD(s: State) { EmptyE(s) && !s.t.excD && !s.d.valid }

  lemma TokensMove(s: State, x: In)
    requires TokensOk(s) && LiberatorOk(s) && !HasEvent(s)
    ensures s.t.excW ==> HasEvent(Next(s, x))
    ensures !s.t.excW && s.t.excM ==> Next(s, x).t.excW
    ensures !s.t.excW && !s.t.excM && !s.m.valid && s.t.excE ==> Next(s, x).t.excM
    ensures EmptyE(s) && s.t.excD ==> Next(s, x).t.excE
  {
    if !s.m.valid { EmptyMemoryQuiet(s); }
    hide Legal, Env, InterruptEnabled, DecodeException, MException, IsMem, IsStore, ShiftBusy, ShiftDone, IsCsr,
      InterruptJump;
    hide NextRegs, NextCsr, NextFetch, NextDecode, NextExecute, NextMemory, NextWriteBack, NextBuffer, NextBus;
  }

  lemma MemoryMoves(s: State, x: In)
    requires Sound(s) && !HasEvent(s) && !s.t.excW && !s.t.excM && s.m.valid
    ensures var s' := Next(s, x); HasEvent(s') || s'.t.excW || s'.t.excM || (s'.m.valid && !DataServed(s, x))
  {
    hide Legal, Env, InterruptEnabled, BranchException, IsMem, IsStore, ShiftBusy, ShiftDone, IsCsr, InterruptJump,
      FetchBook, ShiftOk, TokensOk, LiberatorOk;
    hide NextRegs, NextCsr, NextFetch, NextDecode, NextExecute, NextBuffer, NextBus, EResult, BranchDo, BranchTarget,
      EAlignFault;
  }

  lemma ExecuteMoves(s: State, x: In)
    requires Sound(s) && EmptyM(s) && !s.t.excE && s.e.valid
    ensures var s' := Next(s, x);
            || HasEvent(s') || s'.t.excW || s'.t.excM || s'.m.valid || s'.t.excE
            || (s'.e.valid && ExecuteWait(s') <= ExecuteWait(s)
              && (DataServed(s, x) ==> ExecuteWait(s') < ExecuteWait(s)))
  {
    hide Legal, Env, InterruptEnabled, MException, IsMem, IsStore, Shift, IsCsr, InterruptJump, FetchBook, ShiftOk,
      TokensOk, LiberatorOk, BusOk, Src1, Src2, Amount, EAlignFault, EResult, BranchDo, BranchTarget, DHalt;
    hide NextRegs, NextCsr, NextFetch, NextDecode, NextBuffer;
    CountDown(ShiftAmplitude(s));
    if IsMem(s.e.inst) { MemoryIsNoShift(s); }
    EmptyMemoryQuiet(s);
  }

  lemma MemoryIsNoShift(s: State)
    requires s.e.valid && Legal(s.e.inst) && IsMem(s.e.inst)
    ensures !ShiftBusy(s)
  {
  }

  lemma DecodeMoves(s: State, x: In)
    requires Sound(s) && EmptyE(s) && !s.t.excD && s.d.valid
    ensures var s' := Next(s, x);
            || HasEvent(s') || (!s'.m.valid && !s'.t.excM && s'.t.excE) || s'.e.valid || (EmptyE(s') && s'.t.excD)
            || (EmptyE(s') && !s'.t.excD && s'.d.valid && DecodeWait(s') < DecodeWait(s))
  {
    hide Legal, Env, InterruptEnabled, MException, IsMem, IsStore, Shift, IsCsr, FetchBook, ShiftOk, LiberatorOk,
      BusOk, Src1, Src2, Amount, EAlignFault, EResult, BranchDo, BranchTarget, WritesRd, UsesRs1, UsesRs2, Rs1, Rs2,
      Rd, AnyPending, ExternalPending, SoftwarePending, ShiftDone;
    hide NextRegs, NextCsr, NextFetch, NextBus;
    EmptyMemoryQuiet(s);
  }

  lemma FetchMoves(s: State, x: In)
    requires Sound(s) && EmptyD(s)
    ensures var s' := Next(s, x);
            || HasEvent(s') || s'.d.valid
            || (EmptyD(s') && FetchWait(s') <= FetchWait(s) && (FetchServed(s, x) ==> FetchWait(s') < FetchWait(s)))
  {
    hide Legal, Env, InterruptEnabled, MException, IsMem, IsStore, Shift, IsCsr, ShiftOk, LiberatorOk, BusOk, Src1,
      Src2, Amount, EAlignFault, EResult, BranchDo, BranchTarget;
    hide NextRegs, NextCsr, NextBus;
    EmptyMemoryQuiet(s);
  }

  lemma WaitBounds(s: State)
    ensures ExecuteWait(s) <= 36 && DecodeWait(s) <= 42 && Wait(s) <= 45
    ensures s.d.valid ==> Wait(s) <= 42
    ensures s.e.valid ==> Wait(s) <= 36
    ensures s.t.excE || s.m.valid ==> Wait(s) <= 3
  {
    AmplitudeBound(ShiftAmplitude(s));
    hide HasEvent, ShiftBusy, ShiftAmplitude;
  }

  lemma AmplitudeBound(n: bv5)
    ensures n as nat <= 31
  {}

  /** A cycle without an event never adds to the wait, and a served one shortens it. */
  lemma WaitStep(s: State, x: In)
    requires Sound(s) && !HasEvent(s)
    ensures Wait(Next(s, x)) <= Wait(s)
    ensures Served(s, x) ==> Wait(Next(s, x)) < Wait(s)
  {
    hide Sound, HasEvent, Next, ExecuteWait, DecodeWait, FetchWait, TokensOk, LiberatorOk, FetchBook, BusOk, ShiftOk;
    var s' := Next(s, x);
    SoundTokens(s);
    WaitBounds(s');
    TokensMove(s, x);
    if s.t.excW || s.t.excM {
    } else if s.m.valid {
      MemoryMoves(s, x);
    } else if s.t.excE {
    } else if s.e.valid {
      ExecuteMoves(s, x);
      AtLeastFour(s);
    } else if s.t.excD {
    } else if s.d.valid {
      DecodeMoves(s, x);
      AtLeastFour(s);
    } else {
      FetchMoves(s, x);
      AtLeastFour(s);
    }
  }

  lemma AtLeastFour(s: State)
    ensures ExecuteWait(s) >= 4 && DecodeWait(s) >= 38 && FetchWait(s) >= 43
  {
    hide ShiftWait;
  }

  lemma SoundTokens(s: State)
    requires Sound(s)
    ensures TokensOk(s) && LiberatorOk(s)
  {
    hide TokensOk, LiberatorOk, FetchBook, BusOk, ShiftOk, Legal;
  }

  lemma SoundOfInv(imem: Memory, a: Arch, s: State, done: seq<Txn>)
    requires Inv(imem, a, s, done)
    ensures Sound(s)
  {
    InvParts(imem, a, s, done);
    hide Inv, TokensOk, LiberatorOk, FetchBook, BusOk, ShiftOk, ExecuteOk, PortsOk, RegsOk, MemoryOk, ChainOk, LogOk,
      FetchData, Legal, Env;
  }

  // --- Runs -----------------------------------------------------------------------

  lemma EventIffHasEvent(s: State, x: In)
    ensures EventsOf(s, x) == [] <==> !HasEvent(s)
  {
    hide InterruptJump;
  }

  /** What an unserved cycle waits for depends on the wait alone. */
  lemma Unserved(s: State, x: In)
    requires !Served(s, x) && !HasEvent(s)
    ensures if Wait(s) >= 43 then !FetchServed(s, x) else !DataServed(s, x)
  {
    WaitBounds(s);
    AtLeastFour(s);
    hide ExecuteWait, DecodeWait, FetchWait, HasEvent;
  }

  function Waits(s: State, xs: seq<In>): (ws: seq<nat>)
    ensures |ws| == |xs| + 1
  {
    seq(|xs| + 1, k requires 0 <= k <= |xs| => Wait(States(s, xs)[k]))
  }

  function ServedCycles(s: State, xs: seq<In>): (bs: seq<bool>)
    ensures |bs| == |xs|
  {
    seq(|xs|, k requires 0 <= k < |xs| => Served(States(s, xs)[k], xs[k]))
  }

  /** Cycles that leave a request of the data bus, or of the instruction bus, unanswered. */
  function DataLate(s: State, xs: seq<In>): (bs: seq<bool>)
    ensures |bs| == |xs|
  {
    seq(|xs|, k requires 0 <= k < |xs| => !DataServed(States(s, xs)[k], xs[k]))
  }

  function FetchLate(s: State, xs: seq<In>): (bs: seq<bool>)
    ensures |bs| == |xs|
  {
    seq(|xs|, k requires 0 <= k < |xs| => !FetchServed(States(s, xs)[k], xs[k]))
  }

  /** Neither bus leaves a request unanswered for n cycles in a row. */
  predicate Responsive(s: State, xs: seq<In>, n: nat) {
    Broken(FetchLate(s, xs), n) && Broken(DataLate(s, xs), n)
  }

  /** Long waits are for the instruction bus. */
  function FetchKind(s: State, xs: seq<In>): (bs: seq<bool>)
    ensures |bs| == |xs|
  {
    seq(|xs|, k requires 0 <= k < |xs| => Waits(s, xs)[k] >= 43)
  }

  lemma SoundState(imem: Memory, s: State, xs: seq<In>, ys: seq<In>, k: nat)
    requires Reset(s) && Environment(imem, s, xs + ys) && k <= |ys|
    ensures Sound(States(After(s, xs), ys)[k])
  {
    hide Reset, Environment, Next, Inv, Sound, Run, Boot, EventsOf, Transactions;
    var zs := xs + ys[..k];
    assert (xs + ys)[..|zs|] == zs;
    EnvironmentUpTo(imem, s, xs + ys, |zs|);
    RunConcat(s, xs, ys[..k]);
    RunInv(imem, s, zs);
    SoundOfInv(imem, Run(imem, Boot(s), Events(s, zs)), After(s, zs), Transactions(s, zs));
  }

  lemma QuietStep(imem: Memory, s: State, xs: seq<In>, ys: seq<In>, k: nat)
    requires Reset(s) && Environment(imem, s, xs + ys) && Events(After(s, xs), ys) == [] && k < |ys|
    ensures var ss := States(After(s, xs), ys);
            && !HasEvent(ss[k]) && Wait(ss[k + 1]) <= Wait(ss[k])
            && (Served(ss[k], ys[k]) ==> Wait(ss[k + 1]) < Wait(ss[k]))
  {
    hide Reset, Environment, Wait, Next, EventsOf, Sound, HasEvent, Served, After, Events, States;
    var t := After(s, xs);
    SoundState(imem, s, xs, ys, k);
    NoEventAt(t, ys, k);
    EventIffHasEvent(States(t, ys)[k], ys[k]);
    WaitStep(States(t, ys)[k], ys[k]);
    StateAfter(t, ys, k);
  }

  /** Over a run without events the served cycles are paid out of the wait. */
  lemma QuietRun(imem: Memory, s: State, xs: seq<In>, ys: seq<In>)
    requires Reset(s) && Environment(imem, s, xs + ys) && Events(After(s, xs), ys) == []
    ensures var t := After(s, xs); Wait(After(t, ys)) + CountTrue(ServedCycles(t, ys)) <= Wait(t)
  {
    hide Reset, Environment, Wait, Next, EventsOf, HasEvent, Served, After, Events;
    var t := After(s, xs);
    forall k | 0 <= k < |ys|
      ensures Waits(t, ys)[k + 1] <= Waits(t, ys)[k]
      ensures ServedCycles(t, ys)[k] ==> Waits(t, ys)[k + 1] < Waits(t, ys)[k]
    {
      QuietStep(imem, s, xs, ys, k);
    }
    Descends(Waits(t, ys), ServedCycles(t, ys));
    WaitEnds(t, ys);
  }

  lemma WaitEnds(t: State, ys: seq<In>)
    ensures Waits(t, ys)[0] == Wait(t) && Waits(t, ys)[|ys|] == Wait(After(t, ys))
  {
    hide Wait, Next;
    assert ys[..|ys|] == ys;
  }

  /** No deadlock: from every reachable state, however acknowledgements and
      interrupts are interleaved, 46 served cycles make an instruction retire or a
      trap or interrupt be taken. */
  lemma AlwaysProgresses(imem: Memory, s: State, xs: seq<In>, ys: seq<In>)
    requires Reset(s) && Environment(imem, s, xs + ys) && CountTrue(ServedCycles(After(s, xs), ys)) >= 46
    ensures |Events(s, xs + ys)| > |Events(s, xs)|
  {
    hide Reset, Environment, Events, Wait, After, ServedCycles;
    RunConcat(s, xs, ys);
    WaitBounds(After(s, xs));
    if Events(After(s, xs), ys) == [] {
      QuietRun(imem, s, xs, ys);
    }
  }

  /** Both buses acknowledge in every cycle. */
  predicate AlwaysAnswered(xs: seq<In>) { forall k :: 0 <= k < |xs| ==> xs[k].iAck && xs[k].dAck }

  /** In particular, on buses that always acknowledge, 46 cycles do. */
  lemma ProgressWhenAnswered(imem: Memory, s: State, xs: seq<In>, ys: seq<In>)
    requires Reset(s) && Environment(imem, s, xs + ys) && AlwaysAnswered(ys) && |ys| >= 46
    ensures |Events(s, xs + ys)| > |Events(s, xs)|
  {
    hide Reset, Environment, Events, After, States;
    CountAll(ServedCycles(After(s, xs), ys));
    AlwaysProgresses(imem, s, xs, ys);
  }

  /** In time: if no request stays unanswered for n cycles, every 46 n cycles bring
      an event. */
  lemma ProgressWithin(imem: Memory, s: State, xs: seq<In>, ys: seq<In>, n: nat)
    requires Reset(s) && Environment(imem, s, xs + ys)
    requires n > 0 && Responsive(After(s, xs), ys, n) && |ys| >= 46 * n
    ensures |Events(s, xs + ys)| > |Events(s, xs)|
  {
    hide Reset, Environment, Events, Wait, After, Next, HasEvent, Served, DataServed, FetchServed, Broken, CountTrue;
    var t := After(s, xs);
    RunConcat(s, xs, ys);
    WaitBounds(t);
    if Events(t, ys) == [] {
      forall k | 0 <= k < |ys|
        ensures Waits(t, ys)[k + 1] <= Waits(t, ys)[k]
        ensures Waits(t, ys)[k + 1] == Waits(t, ys)[k] ==>
                  if FetchKind(t, ys)[k] then FetchLate(t, ys)[k] else DataLate(t, ys)[k]
      {
        QuietStep(imem, s, xs, ys, k);
        if !Served(States(t, ys)[k], ys[k]) { Unserved(States(t, ys)[k], ys[k]); }
      }
      DropsInTime(Waits(t, ys), FetchKind(t, ys), FetchLate(t, ys), DataLate(t, ys), n, 46);
      WaitEnds(t, ys);
    }
  }
}
