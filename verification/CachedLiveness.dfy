/** The cached core never deadlocks: the wait of its back end, and behind an empty
    pipeline that of its fetch unit, bound the cycles, other than those spent waiting
    for a bus to answer, that it can take without retiring an instruction or taking
    a trap or an interrupt. */
module CachedLiveness {
  import opened Words
  import opened Decoder
  import opened Execute
  import opened Machine
  import opened Core
  import opened Invariant
  import opened AdvanceProof
  import opened CoreTheorems
  import opened Countdown
  import opened InterruptProgress
  import opened Liveness
  import Refinement
  import F = CachedFetch
  import FP = CacheProof
  import FT = CacheTheorems
  import CP = CacheProgress
  import CC = CachedCore

  /** The request that the oldest occupant may be waiting for, if there is one, is
      answered in this cycle: behind an empty pipeline, the line loader's. */
  predicate CachedServed(c: CC.Cpu, x: In) {
    if EmptyD(CC.View(c)) then FillServed(c, x) else Served(CC.View(c), CC.BackIn(c, x))
  }

  predicate FillServed(c: CC.Cpu, x: In) { F.Cycle(c.fetch) ==> x.iAck }

  /** Served cycles until the next event. */
  function CachedWait(c: CC.Cpu): nat {
    if EmptyD(CC.View(c)) then 43 + CP.Steps(c.fetch) else Wait(CC.View(c))
  }

  lemma OccupiedWait(s: State)
    ensures !EmptyD(s) <==> Wait(s) <= 42
    ensures EmptyD(s) ==> Wait(s) >= 43
  {
    WaitBounds(s);
    AtLeastFour(s);
    hide HasEvent, ExecuteWait, DecodeWait, FetchWait;
  }

  /** The wait behind an occupied pipeline does not look at the fetch unit. */
  lemma SameWait(V: State, N: State)
    requires CC.Matches(V, N)
    ensures EmptyD(V) == EmptyD(N)
    ensures !EmptyD(V) ==> Wait(V) == Wait(N)
  {
    hide Env, Shift, Src1, Src2, Amount;
  }

  lemma EmptyIsQuiet(c: CC.Cpu, x: In)
    requires EmptyD(CC.View(c)) && !XretInW(CC.View(c))
    ensures CP.Quiet(CC.FetchIn(c, x)) && !FT.Delivers(c.fetch, CC.FetchIn(c, x))
  {
    CC.NextFetchIs(c, x);
    CC.ViewBooted(c);
    EmptyControls(CC.View(c), CC.BackIn(c, x));
    hide CC.View, CC.PlainFetch, TrapNow, XretInW, IsMret, JumpTarget, DStuck, DRemove, DFlushNext, JumpValid,
      FetcherHalt;
  }

  lemma EmptyControls(s: State, x: In)
    requires EmptyD(s)
    ensures !DStuck(s, x) && !DRemove(s) && !DFlushNext(s) && !JumpValid(s) && !FetcherHalt(s) && !s.d.valid
  {
    hide Legal, Env, IsMem, IsStore, IsCsr, Shift, Amount, Src2, EAlignFault, Hazard;
  }

  lemma NoReturn(s: State)
    requires !HasEvent(s)
    ensures !XretInW(s)
  {
    hide Env;
  }

  lemma EmptyHasNone(s: State)
    requires EmptyD(s)
    ensures !HasEvent(s)
  {}

  lemma OccupiedStep(imem: Memory, c: CC.Cpu, x: In)
    requires Sound(CC.View(c)) && !HasEvent(CC.View(c)) && FP.Inv(imem, c.fetch) && !EmptyD(CC.View(c))
    ensures CachedWait(CC.Next(c, x)) <= CachedWait(c)
    ensures Served(CC.View(c), CC.BackIn(c, x)) ==> CachedWait(CC.Next(c, x)) < CachedWait(c)
  {
    hide Sound, HasEvent, Served, FP.Inv, EmptyD, Wait, CC.View, CC.Next, Core.Next, CP.Steps, CC.Matches;
    var s, y := CC.View(c), CC.BackIn(c, x);
    var N := Core.Next(s, y);
    WaitStep(s, y);
    CC.NextMatches(imem, c, x);
    OccupiedWait(s);
    OccupiedWait(N);
    SameWait(CC.View(CC.Next(c, x)), N);
  }

  lemma EmptyStep(imem: Memory, c: CC.Cpu, x: In)
    requires FP.Inv(imem, c.fetch) && FT.InOrder(c.fetch) && EmptyD(CC.View(c))
    ensures CachedWait(CC.Next(c, x)) <= CachedWait(c)
    ensures FillServed(c, x) ==> CachedWait(CC.Next(c, x)) < CachedWait(c)
  {
    hide HasEvent, FP.Inv, FT.InOrder, EmptyD, Wait, CC.View, F.Next, CP.Steps, CP.Quiet, FT.Delivers;
    var i := CC.FetchIn(c, x);
    EmptyHasNone(CC.View(c));
    NoReturn(CC.View(c));
    EmptyIsQuiet(c, x);
    CP.StepsShrink(imem, c.fetch, i);
    CC.NextFetchIs(c, x);
    OccupiedWait(CC.View(CC.Next(c, x)));
    assert i.ack == x.iAck;
    hide CC.Next, CC.FetchIn;
  }

  /** A cycle without an event never adds to the wait, and a served one shortens it. */
  lemma CachedWaitStep(imem: Memory, c: CC.Cpu, x: In)
    requires Sound(CC.View(c)) && !HasEvent(CC.View(c)) && FP.Inv(imem, c.fetch) && FT.InOrder(c.fetch)
    ensures CachedWait(CC.Next(c, x)) <= CachedWait(c)
    ensures CachedServed(c, x) ==> CachedWait(CC.Next(c, x)) < CachedWait(c)
  {
    hide Sound, HasEvent, Served, FillServed, FP.Inv, FT.InOrder, EmptyD, CC.View, CC.Next, CachedWait;
    if EmptyD(CC.View(c)) {
      EmptyStep(imem, c, x);
    } else {
      OccupiedStep(imem, c, x);
    }
  }

  /** What an unserved cycle waits for depends on the wait alone. */
  lemma CachedUnserved(c: CC.Cpu, x: In)
    requires !CachedServed(c, x) && !HasEvent(CC.View(c))
    ensures if CachedWait(c) >= 43 then !FillServed(c, x) else !DataServed(CC.View(c), x)
  {
    hide CC.View, HasEvent, Wait, EmptyD, FillServed, CP.Steps;
    OccupiedWait(CC.View(c));
    if !EmptyD(CC.View(c)) {
      Unserved(CC.View(c), CC.BackIn(c, x));
      SameData(c, x);
    }
    hide Served;
  }

  lemma SameData(c: CC.Cpu, x: In)
    ensures DataServed(CC.View(c), CC.BackIn(c, x)) == DataServed(CC.View(c), x)
  {
    hide CC.View;
  }

  lemma CachedWaitBound(c: CC.Cpu)
    ensures CachedWait(c) <= 104
  {
    hide EmptyD, Wait, CC.View, CP.Steps;
    CP.StepsBound(c.fetch);
    OccupiedWait(CC.View(c));
  }

  // --- Interrupts -----------------------------------------------------------------

  /** Served cycles until a recorded interrupt is taken, and one more to record it. */
  function CachedDrain(c: CC.Cpu): nat {
    if c.t.irqValid then 105 * Older(CC.View(c)) + CachedWait(c) else 420
  }

  lemma CachedDrainBound(c: CC.Cpu)
    ensures CachedDrain(c) <= 420
  {
    CachedWaitBound(c);
    AtMostThree(CC.View(c));
    hide CachedWait, CC.View, Older;
  }

  lemma SameBackEnd(V: State, N: State)
    requires CC.Matches(V, N)
    ensures V.t == N.t && V.csr == N.csr && Older(V) == Older(N) && InterruptJump(V) == InterruptJump(N)
  {
  }

  lemma NextBackEnd(imem: Memory, c: CC.Cpu, x: In)
    requires FP.Inv(imem, c.fetch)
    ensures var V, N := CC.View(CC.Next(c, x)), Core.Next(CC.View(c), CC.BackIn(c, x));
            V.t == N.t && V.csr == N.csr && Older(V) == Older(N)
  {
    hide CC.View, CC.Next, Core.Next, FP.Inv, CC.Matches, Older;
    CC.NextMatches(imem, c, x);
    SameBackEnd(CC.View(CC.Next(c, x)), Core.Next(CC.View(c), CC.BackIn(c, x)));
  }

  lemma CachedDrainStep(imem: Memory, c: CC.Cpu, x: In)
    requires Sound(CC.View(c)) && FP.Inv(imem, c.fetch) && FT.InOrder(c.fetch)
    requires Requested(CC.View(c)) && Requested(CC.View(CC.Next(c, x))) && !InterruptJump(CC.View(c))
    ensures CachedDrain(CC.Next(c, x)) <= CachedDrain(c)
    ensures CachedServed(c, x) || HasEvent(CC.View(c)) || !c.t.irqValid ==> CachedDrain(CC.Next(c, x)) < CachedDrain(c)
    ensures CachedDrain(CC.Next(c, x)) == CachedDrain(c) ==> CachedWait(CC.Next(c, x)) == CachedWait(c)
  {
    hide Sound, Core.Next, CC.Next, CC.View, AnyPending, InterruptJump, CachedWait, CachedServed, Older, TokensOk,
      LiberatorOk,
      FP.Inv, FT.InOrder;
    var s, y := CC.View(c), CC.BackIn(c, x);
    NextBackEnd(imem, c, x);
    SoundTokens(s);
    Recorded(s, y);
    NoException(s, y);
    CachedWaitBound(c);
    CachedWaitBound(CC.Next(c, x));
    AtMostThree(CC.View(CC.Next(c, x)));
    CC.ViewTokens(c);
    CC.ViewTokens(CC.Next(c, x));
    if c.t.irqValid {
      NothingIssues(s, y);
      if HasEvent(s) {
        hide TrapNow;
        EventIsRetirement(s);
      } else {
        hide HasEvent;
        CachedWaitStep(imem, c, x);
      }
    }
  }

  // --- Runs -----------------------------------------------------------------------

  lemma {:induction false} CachedConcat(c: CC.Cpu, xs: seq<In>, ys: seq<In>)
    ensures CC.After(c, xs + ys) == CC.After(CC.After(c, xs), ys)
    ensures CC.Events(c, xs + ys) == CC.Events(c, xs) + CC.Events(CC.After(c, xs), ys)
    decreases |ys|
  {
    hide EventsOf, CC.Next, CC.View;
    if ys == [] {
      assert xs + ys == xs;
    } else {
      assert (xs + ys)[..|xs + ys| - 1] == xs + ys[..|ys| - 1];
      CachedConcat(c, xs, ys[..|ys| - 1]);
    }
  }

  /** The states a run passes through. */
  function CachedStates(c: CC.Cpu, xs: seq<In>): (cs: seq<CC.Cpu>)
    ensures |cs| == |xs| + 1
  {
    seq(|xs| + 1, k requires 0 <= k <= |xs| => CC.After(c, xs[..k]))
  }

  lemma CachedStateAfter(c: CC.Cpu, xs: seq<In>, k: nat)
    requires k < |xs|
    ensures CachedStates(c, xs)[k + 1] == CC.Next(CachedStates(c, xs)[k], xs[k])
  {
    hide CC.Next;
    assert xs[..k + 1][..k] == xs[..k];
  }

  lemma {:induction false} CachedNoEventAt(c: CC.Cpu, xs: seq<In>, k: nat)
    requires CC.Events(c, xs) == [] && k < |xs|
    ensures var b := CachedStates(c, xs)[k]; EventsOf(CC.View(b), CC.BackIn(b, xs[k])) == []
    decreases |xs|
  {
    hide CC.Next, EventsOf, CC.After, CC.View;
    var n := |xs| - 1;
    if k < n {
      CachedNoEventAt(c, xs[..n], k);
      assert xs[..n][..k] == xs[..k];
    }
  }

  lemma EnvironmentUpTo(imem: Memory, c: CC.Cpu, xs: seq<In>, k: nat)
    requires CC.Environment(imem, c, xs) && k <= |xs|
    ensures CC.Environment(imem, c, xs[..k])
  {
    hide CC.BusAnswers, CC.After;
    assert forall i :: 0 <= i < k ==> xs[..k][..i] == xs[..i];
  }

  lemma CachedSoundState(imem: Memory, c: CC.Cpu, xs: seq<In>, ys: seq<In>, k: nat)
    requires CC.Reset(c) && CC.Environment(imem, c, xs + ys) && k <= |ys|
    ensures var b := CachedStates(CC.After(c, xs), ys)[k];
            Sound(CC.View(b)) && FP.Inv(imem, b.fetch) && FT.InOrder(b.fetch)
  {
    hide CC.Reset, CC.Environment, CC.View, CC.Next, Inv, FP.Inv, FT.InOrder, Sound, EventsOf, Refinement.Boot, Run,
      CC.Transactions;
    var zs := xs + ys[..k];
    assert (xs + ys)[..|zs|] == zs;
    EnvironmentUpTo(imem, c, xs + ys, |zs|);
    CachedConcat(c, xs, ys[..k]);
    CC.CachedRunInv(imem, c, zs);
    SoundOfInv(imem, Run(imem, Refinement.Boot(CC.View(c)), CC.Events(c, zs)), CC.View(CC.After(c, zs)),
      CC.Transactions(c, zs));
  }

  function CachedWaits(c: CC.Cpu, xs: seq<In>): (ws: seq<nat>)
    ensures |ws| == |xs| + 1
  {
    seq(|xs| + 1, k requires 0 <= k <= |xs| => CachedWait(CachedStates(c, xs)[k]))
  }

  function CachedServedCycles(c: CC.Cpu, xs: seq<In>): (bs: seq<bool>)
    ensures |bs| == |xs|
  {
    seq(|xs|, k requires 0 <= k < |xs| => CachedServed(CachedStates(c, xs)[k], xs[k]))
  }

  /** Cycles that leave a request of the data bus, or of the line loader, unanswered. */
  function CachedDataLate(c: CC.Cpu, xs: seq<In>): (bs: seq<bool>)
    ensures |bs| == |xs|
  {
    seq(|xs|, k requires 0 <= k < |xs| => !DataServed(CC.View(CachedStates(c, xs)[k]), xs[k]))
  }

  function FillLate(c: CC.Cpu, xs: seq<In>): (bs: seq<bool>)
    ensures |bs| == |xs|
  {
    seq(|xs|, k requires 0 <= k < |xs| => !FillServed(CachedStates(c, xs)[k], xs[k]))
  }

  predicate CachedResponsive(c: CC.Cpu, xs: seq<In>, n: nat) {
    Broken(FillLate(c, xs), n) && Broken(CachedDataLate(c, xs), n)
  }

  function FillKind(c: CC.Cpu, xs: seq<In>): (bs: seq<bool>)
    ensures |bs| == |xs|
  {
    seq(|xs|, k requires 0 <= k < |xs| => CachedWaits(c, xs)[k] >= 43)
  }

  lemma CachedQuietStep(imem: Memory, c: CC.Cpu, xs: seq<In>, ys: seq<In>, k: nat)
    requires CC.Reset(c) && CC.Environment(imem, c, xs + ys) && CC.Events(CC.After(c, xs), ys) == [] && k < |ys|
    ensures var cs := CachedStates(CC.After(c, xs), ys);
            && !HasEvent(CC.View(cs[k])) && CachedWait(cs[k + 1]) <= CachedWait(cs[k])
            && (CachedServed(cs[k], ys[k]) ==> CachedWait(cs[k + 1]) < CachedWait(cs[k]))
  {
    hide CC.Reset, CC.Environment, CachedWait, CC.Next, CC.View, EventsOf, Sound, HasEvent, CachedServed, CC.After,
      CC.Events,
      CachedStates, FP.Inv, FT.InOrder;
    var t := CC.After(c, xs);
    var b := CachedStates(t, ys)[k];
    CachedSoundState(imem, c, xs, ys, k);
    CachedNoEventAt(t, ys, k);
    EventIffHasEvent(CC.View(b), CC.BackIn(b, ys[k]));
    CachedWaitStep(imem, b, ys[k]);
    CachedStateAfter(t, ys, k);
  }

  lemma CachedWaitStarts(t: CC.Cpu, ys: seq<In>)
    ensures CachedWaits(t, ys)[0] <= 104
  {
    CachedWaitBound(t);
    hide CachedWait;
  }

  /** No deadlock: from every reachable state, whatever the cache holds and however
      acknowledgements and interrupts are interleaved, 105 served cycles make an
      instruction retire or a trap or interrupt be taken. */
  lemma CachedAlwaysProgresses(imem: Memory, c: CC.Cpu, xs: seq<In>, ys: seq<In>)
    requires CC.Reset(c) && CC.Environment(imem, c, xs + ys)
    requires CountTrue(CachedServedCycles(CC.After(c, xs), ys)) >= 105
    ensures |CC.Events(c, xs + ys)| > |CC.Events(c, xs)|
  {
    hide CC.Reset, CC.Environment, CC.Events, CC.After, CachedWait, CachedServed, HasEvent, CachedStates;
    var t := CC.After(c, xs);
    CachedConcat(c, xs, ys);
    CachedWaitStarts(t, ys);
    if CC.Events(t, ys) == [] {
      forall k | 0 <= k < |ys|
        ensures CachedWaits(t, ys)[k + 1] <= CachedWaits(t, ys)[k]
        ensures CachedServedCycles(t, ys)[k] ==> CachedWaits(t, ys)[k + 1] < CachedWaits(t, ys)[k]
      {
        CachedQuietStep(imem, c, xs, ys, k);
      }
      Descends(CachedWaits(t, ys), CachedServedCycles(t, ys));
    }
  }

  /** In particular, on buses that always acknowledge, 105 cycles do. */
  lemma CachedProgressWhenAnswered(imem: Memory, c: CC.Cpu, xs: seq<In>, ys: seq<In>)
    requires CC.Reset(c) && CC.Environment(imem, c, xs + ys) && AlwaysAnswered(ys) && |ys| >= 105
    ensures |CC.Events(c, xs + ys)| > |CC.Events(c, xs)|
  {
    hide CC.Reset, CC.Environment, CC.Events, CC.After, CachedStates, CC.View, EmptyD;
    CountAll(CachedServedCycles(CC.After(c, xs), ys));
    CachedAlwaysProgresses(imem, c, xs, ys);
  }

  /** In time: if no request stays unanswered for n cycles, every 105 n cycles bring
      an event. */
  lemma CachedProgressWithin(imem: Memory, c: CC.Cpu, xs: seq<In>, ys: seq<In>, n: nat)
    requires CC.Reset(c) && CC.Environment(imem, c, xs + ys)
    requires n > 0 && CachedResponsive(CC.After(c, xs), ys, n) && |ys| >= 105 * n
    ensures |CC.Events(c, xs + ys)| > |CC.Events(c, xs)|
  {
    hide CC.Reset, CC.Environment, CC.Events, CC.After, CachedWait, CachedServed, FillServed, DataServed, HasEvent,
      CachedStates,
      Broken, CC.View;
    var t := CC.After(c, xs);
    CachedConcat(c, xs, ys);
    CachedWaitStarts(t, ys);
    if CC.Events(t, ys) == [] {
      forall k | 0 <= k < |ys|
        ensures CachedWaits(t, ys)[k + 1] <= CachedWaits(t, ys)[k]
        ensures CachedWaits(t, ys)[k + 1] == CachedWaits(t, ys)[k] ==>
                  if FillKind(t, ys)[k] then FillLate(t, ys)[k] else CachedDataLate(t, ys)[k]
      {
        CachedQuietStep(imem, c, xs, ys, k);
        if !CachedServed(CachedStates(t, ys)[k], ys[k]) { CachedUnserved(CachedStates(t, ys)[k], ys[k]); }
      }
      DropsInTime(CachedWaits(t, ys), FillKind(t, ys), FillLate(t, ys), CachedDataLate(t, ys), n, 105);
    }
  }

  // --- Interrupts in time -----------------------------------------------------------

  /** An interrupt is taken in one of the first n cycles. */
  predicate CachedTakenBefore(c: CC.Cpu, xs: seq<In>, n: nat)
    requires n <= |xs|
  {
    exists k :: 0 <= k < n && InterruptJump(CC.View(CachedStates(c, xs)[k]))
  }

  predicate CachedTaken(c: CC.Cpu, xs: seq<In>) { CachedTakenBefore(c, xs, |xs|) }

  /** Pending and enabled until it is taken. */
  predicate CachedPersists(c: CC.Cpu, xs: seq<In>) {
    forall k :: 0 <= k <= |xs| ==> CachedTakenBefore(c, xs, k) || Requested(CC.View(CachedStates(c, xs)[k]))
  }

  function CachedDrains(c: CC.Cpu, xs: seq<In>): (ws: seq<nat>)
    ensures |ws| == |xs| + 1
  {
    seq(|xs| + 1, k requires 0 <= k <= |xs| => CachedDrain(CachedStates(c, xs)[k]))
  }

  lemma CachedDrainAt(imem: Memory, c: CC.Cpu, xs: seq<In>, ys: seq<In>, k: nat)
    requires CC.Reset(c) && CC.Environment(imem, c, xs + ys) && k < |ys|
    requires CachedPersists(CC.After(c, xs), ys) && !CachedTaken(CC.After(c, xs), ys)
    ensures var cs := CachedStates(CC.After(c, xs), ys);
            && CachedDrain(cs[k + 1]) <= CachedDrain(cs[k])
            && (CachedServed(cs[k], ys[k]) || HasEvent(CC.View(cs[k])) || !cs[k].t.irqValid ==>
                  CachedDrain(cs[k + 1]) < CachedDrain(cs[k]))
            && (CachedDrain(cs[k + 1]) == CachedDrain(cs[k]) ==> CachedWait(cs[k + 1]) == CachedWait(cs[k]))
  {
    hide CC.Reset, CC.Environment, CC.Next, CC.View, Sound, CachedDrain, CachedWait, InterruptJump, HasEvent,
      CachedServed,
      CC.After, CachedStates, AnyPending, FP.Inv, FT.InOrder, Requested;
    var t := CC.After(c, xs);
    CachedSoundState(imem, c, xs, ys, k);
    CachedStateAfter(t, ys, k);
    assert !CachedTakenBefore(t, ys, k) && !CachedTakenBefore(t, ys, k + 1);
    CachedDrainStep(imem, CachedStates(t, ys)[k], ys[k]);
  }

  lemma CachedDrainStarts(t: CC.Cpu, ys: seq<In>)
    ensures CachedDrains(t, ys)[0] <= 420
  {
    CachedDrainBound(t);
    hide CachedDrain;
  }

  /** An interrupt that stays pending and enabled until it is taken is taken within
      421 served cycles. */
  lemma CachedInterruptTaken(imem: Memory, c: CC.Cpu, xs: seq<In>, ys: seq<In>)
    requires CC.Reset(c) && CC.Environment(imem, c, xs + ys)
    requires CachedPersists(CC.After(c, xs), ys) && CountTrue(CachedServedCycles(CC.After(c, xs), ys)) >= 421
    ensures CachedTaken(CC.After(c, xs), ys)
  {
    hide CC.Reset, CC.Environment, CC.After, CachedDrain, CachedWait, CachedServed, HasEvent, CachedStates,
      CachedPersists,
      CachedTaken, CC.View;
    var t := CC.After(c, xs);
    CachedDrainStarts(t, ys);
    if !CachedTaken(t, ys) {
      forall k | 0 <= k < |ys|
        ensures CachedDrains(t, ys)[k + 1] <= CachedDrains(t, ys)[k]
        ensures CachedServedCycles(t, ys)[k] ==> CachedDrains(t, ys)[k + 1] < CachedDrains(t, ys)[k]
      {
        CachedDrainAt(imem, c, xs, ys, k);
      }
      Descends(CachedDrains(t, ys), CachedServedCycles(t, ys));
    }
  }

  /** In time: if no request stays unanswered for n cycles, it is taken within 421 n
      cycles. */
  lemma CachedInterruptWithin(imem: Memory, c: CC.Cpu, xs: seq<In>, ys: seq<In>, n: nat)
    requires CC.Reset(c) && CC.Environment(imem, c, xs + ys) && CachedPersists(CC.After(c, xs), ys)
    requires n > 0 && CachedResponsive(CC.After(c, xs), ys, n) && |ys| >= 421 * n
    ensures CachedTaken(CC.After(c, xs), ys)
  {
    hide CC.Reset, CC.Environment, CC.After, CachedDrain, CachedWait, CachedServed, FillServed, DataServed, HasEvent,
      CachedStates,
      CachedPersists, CachedTaken, CC.View, Broken;
    var t := CC.After(c, xs);
    CachedDrainStarts(t, ys);
    if !CachedTaken(t, ys) {
      forall k | 0 <= k < |ys|
        ensures CachedDrains(t, ys)[k + 1] <= CachedDrains(t, ys)[k]
        ensures CachedDrains(t, ys)[k + 1] == CachedDrains(t, ys)[k] ==>
                  && CachedWaits(t, ys)[k + 1] == CachedWaits(t, ys)[k]
                  && if FillKind(t, ys)[k] then FillLate(t, ys)[k] else CachedDataLate(t, ys)[k]
      {
        CachedDrainAt(imem, c, xs, ys, k);
        var b := CachedStates(t, ys)[k];
        if !CachedServed(b, ys[k]) && !HasEvent(CC.View(b)) { CachedUnserved(b, ys[k]); }
      }
      DropsInTime(CachedDrains(t, ys), FillKind(t, ys), FillLate(t, ys), CachedDataLate(t, ys), n, 421);
    }
  }
}
