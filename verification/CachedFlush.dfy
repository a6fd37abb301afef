/** FENCE.I on the cached core: which instructions ask for a flush, how long the
    flush can be kept waiting, and what it leaves in the cache. */
module CachedFlush {
  import opened Words
  import opened Decoder
  import opened Execute
  import opened Machine
  import opened Core
  import opened Invariant
  import opened AdvanceProof
  import opened CoreTheorems
  import opened Countdown
  import opened InterruptProgress
  import opened Liveness
  import opened CachedLiveness
  import Isa
  import IsaStep
  import F = CachedFetch
  import FP = CacheProof
  import FT = CacheTheorems
  import CP = CacheProgress
  import CC = CachedCore

  // --- The instruction --------------------------------------------------------

  /** FENCE.I in the fields of the instruction set. */
  predicate FenceI(w: Word) { Isa.Opcode(w) == 0x0f && Isa.F3(w) == 1 }

  lemma FenceDecodes(w: Word)
    requires FenceI(w)
    ensures CC.FlushAll(w) && Legal(w)
  {}

  lemma OnlyFenceDecodes(w: Word)
    requires Legal(w) && CC.FlushAll(w)
    ensures FenceI(w)
  {}

  /** FENCE.I is in decode. */
  predicate Fencing(c: CC.Cpu) { CC.DecodeNow(c).valid && FenceI(CC.DecodeNow(c).inst) }

  /** An instruction of the legal set is in decode, and it is not FENCE.I. */
  predicate Unfencing(c: CC.Cpu) {
    CC.DecodeNow(c).valid && Legal(CC.DecodeNow(c).inst) && !FenceI(CC.DecodeNow(c).inst)
  }

  lemma FlushWire(c: CC.Cpu, x: In)
    ensures CC.FetchIn(c, x).flush == (CC.DecodeNow(c).valid && CC.FlushAll(CC.DecodeNow(c).inst))
    ensures CC.Next(c, x).fetch == F.Next(c.fetch, CC.FetchIn(c, x))
  {
    CC.ViewBooted(c);
    hide CC.View, F.Next, NextRegs, NextCsr, NextExecute, NextMemory, NextWriteBack, NextBuffer, NextTrap, NextBus,
      DStuck, DRemove, DFlushNext, JumpValid, FetcherHalt, JumpTarget, CC.DecodeNow, CC.FlushAll;
  }

  lemma PendingMoves(s: F.State, x: F.In)
    ensures F.Next(s, x).l.flushPending == (!F.StartFlush(s) && (x.flush || s.l.flushPending))
  {
    hide F.NextStages, F.NextBurst, F.NextTags, F.NextBank, F.StartFlush;
  }

  /** FENCE.I asks for a flush, or one starts in this very cycle; no other legal
      instruction asks for one, and a request stays until it is met. */
  lemma FenceRequests(c: CC.Cpu, x: In)
    ensures var c' := CC.Next(c, x);
            && (Fencing(c) ==> c'.fetch.l.flushPending || F.StartFlush(c.fetch))
            && (Unfencing(c) || !CC.DecodeNow(c).valid ==>
                  c'.fetch.l.flushPending == (c.fetch.l.flushPending && !F.StartFlush(c.fetch)))
            && (c.fetch.l.flushPending ==> c'.fetch.l.flushPending || F.StartFlush(c.fetch))
  {
    FlushWire(c, x);
    PendingMoves(c.fetch, CC.FetchIn(c, x));
    var w := CC.DecodeNow(c).inst;
    if FenceI(w) { FenceDecodes(w); }
    if Legal(w) && CC.FlushAll(w) { OnlyFenceDecodes(w); }
    hide CC.Next, CC.FetchIn, CC.DecodeNow, CC.FlushAll, FenceI, Legal, F.Next, F.StartFlush;
  }

  // --- Until it starts ------------------------------------------------------------

  /** Neither bus leaves a request of this cycle unanswered. */
  predicate BothServed(c: CC.Cpu, x: In) { CachedServed(c, x) && FillServed(c, x) }

  /** Cycles, of those in which both buses answer, until a pending flush can start. */
  function FlushWait(c: CC.Cpu): nat {
    if c.fetch.l.valid then 1 + CP.LoadLeft(c.fetch)
    else if F.Miss(c.fetch) then 11
    else if c.fetch.p.s1Valid then 12 + 105 * Older(CC.View(c)) + CachedWait(c)
    else 0
  }

  lemma FlushWaitBound(c: CC.Cpu)
    ensures FlushWait(c) <= 431
  {
    CachedWaitBound(c);
    AtMostThree(CC.View(c));
    FT.CountUp(c.fetch.b.adr);
    hide CachedWait, CC.View, Older;
  }

  /** A line being loaded gets closer to its last word. */
  lemma LoadShrinks(imem: Memory, s: F.State, x: F.In)
    requires FP.Inv(imem, s) && s.l.valid
    ensures var t := F.Next(s, x);
            && (t.l.valid ==> CP.LoadLeft(t) <= CP.LoadLeft(s) && (CP.Served(s, x) ==> CP.LoadLeft(t) < CP.LoadLeft(s)))
            && (s.l.flushPending ==> !t.p.s1Valid && !F.Miss(t))
  {
    FT.CountUp(s.b.adr);
    hide F.NextBank, F.NextTags, FP.LinesOk, FP.LoadingOk, F.FetchPc, F.PortHit, F.LineOf, F.TagOf, F.IndexOf;
  }

  /** A miss empties the stages and starts a load. */
  lemma MissEmpties(s: F.State, x: F.In)
    requires F.Miss(s) && !s.l.valid
    ensures var t := F.Next(s, x); t.l.valid && CP.LoadLeft(t) <= 9
  {
    FT.CountUp(F.Next(s, x).b.adr);
    hide F.NextBank, F.NextTags, F.NextStages, F.NextBurst;
  }

  /** Behind a pending flush, stage 1 empties as soon as decode moves on or is removed. */
  lemma StageEmpties(imem: Memory, s: F.State, x: F.In)
    requires FP.Inv(imem, s) && s.l.flushPending && !s.l.valid && !F.Miss(s)
    ensures var t := F.Next(s, x);
            && !t.l.valid
            && (!x.decodeStuck || x.decodeRemove ==> !t.p.s1Valid)
            && (x.decodeStuck ==> !F.Miss(t))
  {
    FT.StageTwo(imem, s);
    hide F.NextBank, F.NextTags, F.NextBurst, F.FetchPc, F.PortHit, F.LineOf, F.TagOf, F.IndexOf, FP.LinesOk,
      FP.LoadingOk, FP.StagesOk;
  }

  /** A stalled decode stage issues nothing. */
  lemma NothingEnters(s: State, x: In)
    requires DStuck(s, x)
    ensures Older(Next(s, x)) <= Older(s) - Count(s.w.valid)
  {
    hide EStuck, MStuck, ERemove, MRemove, DRemove, DStuck, EResult, BranchDo, BranchTarget, EAlignFault, EAddress;
    StuckBehind(s, x);
    NextParts(s, x);
    hide Next;
  }

  lemma TrapsRemove(s: State)
    requires TrapNow(s)
    ensures DRemove(s)
  {
    hide TrapNow;
  }

  /** While decode is stuck the back end gets closer to releasing it. */
  lemma StuckStep(imem: Memory, c: CC.Cpu, x: In)
    requires Sound(CC.View(c)) && FP.Inv(imem, c.fetch) && FT.InOrder(c.fetch)
    requires DStuck(CC.View(c), CC.BackIn(c, x)) && !DRemove(CC.View(c))
    ensures var m := 105 * Older(CC.View(c)) + CachedWait(c);
            var n := 105 * Older(CC.View(CC.Next(c, x))) + CachedWait(CC.Next(c, x));
            n <= m && (CachedServed(c, x) ==> n < m)
  {
    hide Sound, Next, CC.Next, CC.View, CC.BackIn, CachedWait, CachedServed, Older, FP.Inv, FT.InOrder, DStuck,
      DRemove, TrapNow;
    var s, y := CC.View(c), CC.BackIn(c, x);
    NextBackEnd(imem, c, x);
    NothingEnters(s, y);
    CachedWaitBound(CC.Next(c, x));
    if TrapNow(s) { TrapsRemove(s); }
    if !s.w.valid { CachedWaitStep(imem, c, x); }
  }

  /** A pending flush gets closer to its start in every cycle in which both buses answer. */
  lemma FlushStep(imem: Memory, c: CC.Cpu, x: In)
    requires Sound(CC.View(c)) && FP.Inv(imem, c.fetch) && FT.InOrder(c.fetch)
    requires c.fetch.l.flushPending && !F.StartFlush(c.fetch)
    ensures FlushWait(CC.Next(c, x)) <= FlushWait(c)
    ensures BothServed(c, x) ==> FlushWait(CC.Next(c, x)) < FlushWait(c)
  {
    hide Sound, CC.Next, CC.View, CC.FetchIn, CC.BackIn, CachedWait, CachedServed, Older, FP.Inv, FT.InOrder, DStuck,
      DRemove, F.Next, F.Miss, CP.LoadLeft;
    var i := CC.FetchIn(c, x);
    CC.NextFetchIs(c, x);
    AckWire(c, x);
    if c.fetch.l.valid {
      LoadShrinks(imem, c.fetch, i);
    } else if F.Miss(c.fetch) {
      MissEmpties(c.fetch, i);
    } else {
      StageEmpties(imem, c.fetch, i);
      if i.decodeStuck && !i.decodeRemove { StuckStep(imem, c, x); }
    }
  }

  lemma AckWire(c: CC.Cpu, x: In)
    ensures FillServed(c, x) ==> CP.Served(c.fetch, CC.FetchIn(c, x))
  {
    hide CC.View, F.Cycle, DStuck, DRemove, DFlushNext, JumpValid, FetcherHalt, JumpTarget, CC.FlushAll;
  }

  // --- Runs -----------------------------------------------------------------------

  function BothServedCycles(c: CC.Cpu, xs: seq<In>): (bs: seq<bool>)
    ensures |bs| == |xs|
  {
    seq(|xs|, k requires 0 <= k < |xs| => BothServed(CachedStates(c, xs)[k], xs[k]))
  }

  function FlushWaits(c: CC.Cpu, xs: seq<In>): (ws: seq<nat>)
    ensures |ws| == |xs| + 1
  {
    seq(|xs| + 1, k requires 0 <= k <= |xs| => FlushWait(CachedStates(c, xs)[k]))
  }

  predicate FlushStarts(c: CC.Cpu, xs: seq<In>) {
    exists k :: 0 <= k <= |xs| && F.StartFlush(CachedStates(c, xs)[k].fetch)
  }

  lemma {:induction false} StaysPending(c: CC.Cpu, xs: seq<In>, k: nat)
    requires c.fetch.l.flushPending && !FlushStarts(c, xs) && k <= |xs|
    ensures CachedStates(c, xs)[k].fetch.l.flushPending
    decreases k
  {
    hide CC.Next, F.StartFlush, CC.After;
    if k == 0 {
      assert xs[..0] == [];
      NoCycles(c);
    } else {
      StaysPending(c, xs, k - 1);
      CachedStateAfter(c, xs, k - 1);
      FenceRequests(CachedStates(c, xs)[k - 1], xs[k - 1]);
      hide Fencing, Unfencing, CachedStates;
    }
  }

  lemma NoCycles(c: CC.Cpu)
    ensures CC.After(c, []) == c
  {}

  /** A pending flush starts within 432 cycles in which both buses answer, whatever the
      pipeline, the cache and the line loader are doing. */
  lemma FlushComes(imem: Memory, c: CC.Cpu, xs: seq<In>, ys: seq<In>)
    requires CC.Reset(c) && CC.Environment(imem, c, xs + ys) && CC.After(c, xs).fetch.l.flushPending
    requires CountTrue(BothServedCycles(CC.After(c, xs), ys)) >= 432
    ensures FlushStarts(CC.After(c, xs), ys)
  {
    hide CC.Reset, CC.Environment, CC.After, CC.Next, CC.View, CachedStates, FlushWait, BothServed, F.StartFlush, Sound,
      FP.Inv, FT.InOrder;
    var t := CC.After(c, xs);
    if !FlushStarts(t, ys) {
      forall k | 0 <= k < |ys|
        ensures FlushWaits(t, ys)[k + 1] <= FlushWaits(t, ys)[k]
        ensures BothServedCycles(t, ys)[k] ==> FlushWaits(t, ys)[k + 1] < FlushWaits(t, ys)[k]
      {
        CachedSoundState(imem, c, xs, ys, k);
        StaysPending(t, ys, k);
        assert !F.StartFlush(CachedStates(t, ys)[k].fetch);
        FlushStep(imem, CachedStates(t, ys)[k], ys[k]);
        CachedStateAfter(t, ys, k);
      }
      Descends(FlushWaits(t, ys), BothServedCycles(t, ys));
      FlushWaitBound(CachedStates(t, ys)[0]);
    }
  }

  // --- What it leaves behind ------------------------------------------------------

  /** Three cycles after it starts, unless FENCE.I asks again in the first of them, the
      flush has invalidated both lines. */
  lemma FlushClears(imem: Memory, c: CC.Cpu, x: In, y: In, z: In)
    requires FP.Inv(imem, c.fetch) && F.StartFlush(c.fetch)
    requires CC.BusAnswers(imem, c, x) && CC.BusAnswers(imem, CC.Next(c, x), y)
    requires !CC.FetchIn(CC.Next(c, x), y).flush
    ensures var t := CC.Next(CC.Next(CC.Next(c, x), y), z).fetch; !t.tags(0).valid && !t.tags(1).valid
  {
    hide CC.Next, CC.FetchIn, FP.Inv, F.StartFlush, F.Next, F.Allowed, F.FlushDone, F.PrefetchHalt, CC.BusAnswers;
    var d := CC.Next(c, x);
    var e := CC.Next(d, y);
    CC.NextFetchIs(c, x);
    CC.NextFetchIs(d, y);
    CC.NextFetchIs(e, z);
    CC.FetchAllowed(imem, c, x);
    CC.FetchAllowed(imem, d, y);
    PendingMoves(c.fetch, CC.FetchIn(c, x));
    PendingMoves(d.fetch, CC.FetchIn(d, y));
    NotPending(d.fetch);
    NotPending(e.fetch);
    CP.FlushInvalidates(imem, c.fetch, CC.FetchIn(c, x), CC.FetchIn(d, y), CC.FetchIn(e, z));
  }

  lemma NotPending(s: F.State)
    requires !s.l.flushPending
    ensures !F.StartFlush(s)
  {}

  /** No instruction is taken from the cache in this cycle. */
  predicate NoneFetched(c: CC.Cpu, d: CC.Cpu) { d.fetch.p.s1Valid ==> c.fetch.p.s1Valid }

  lemma HaltedFetch(c: CC.Cpu, x: In)
    requires F.PrefetchHalt(c.fetch, CC.FetchIn(c, x))
    ensures NoneFetched(c, CC.Next(c, x))
  {
    CC.NextFetchIs(c, x);
    hide CC.Next, CC.FetchIn, F.PrefetchHalt, F.Issue, F.FlushStages, F.FetchPc, F.PortHit, F.NextLoader, F.NextBurst,
      F.NextTags, F.NextBank;
  }

  lemma FlushHalts(c: CC.Cpu, x: In)
    ensures CC.FetchIn(c, x).flush || c.fetch.l.flushPending ==> F.PrefetchHalt(c.fetch, CC.FetchIn(c, x))
    ensures c.fetch.l.flushCounter == 0 || c.fetch.l.flushCounter == 1 ==> F.PrefetchHalt(c.fetch, CC.FetchIn(c, x))
  {
    CP.CounterSteps(c.fetch.l.flushCounter);
    hide CC.FetchIn;
  }

  lemma CounterMoves(s: F.State, x: F.In)
    ensures F.StartFlush(s) ==> F.Next(s, x).l.flushCounter == 0
    ensures !F.StartFlush(s) && s.l.flushCounter == 0 ==> F.Next(s, x).l.flushCounter == 1
  {
    CP.CounterSteps(s.l.flushCounter);
    hide F.NextStages, F.NextBurst, F.NextTags, F.NextBank, F.StartFlush;
  }

  /** Nothing is fetched in the cycle that starts the flush, nor in the next two. */
  lemma NoneWhileFlushing(c: CC.Cpu, x: In, y: In, z: In)
    requires F.StartFlush(c.fetch)
    ensures var d := CC.Next(c, x);
            var e := CC.Next(d, y);
            NoneFetched(c, d) && NoneFetched(d, e) && NoneFetched(e, CC.Next(e, z))
  {
    hide CC.Next, CC.FetchIn, F.Next, F.PrefetchHalt, NoneFetched;
    var d := CC.Next(c, x);
    var e := CC.Next(d, y);
    CC.NextFetchIs(c, x);
    CC.NextFetchIs(d, y);
    CounterMoves(c.fetch, CC.FetchIn(c, x));
    CounterMoves(d.fetch, CC.FetchIn(d, y));
    PendingMoves(c.fetch, CC.FetchIn(c, x));
    FlushHalts(c, x);
    FlushHalts(d, y);
    FlushHalts(e, z);
    HaltedFetch(c, x);
    HaltedFetch(d, y);
    HaltedFetch(e, z);
  }

  /** A flush starts at state k, and nothing is fetched before. */
  predicate StartsAt(c: CC.Cpu, xs: seq<In>, k: nat)
    requires k <= |xs|
  {
    && F.StartFlush(CachedStates(c, xs)[k].fetch)
    && forall j :: 0 <= j < k ==> NoneFetched(CachedStates(c, xs)[j], CachedStates(c, xs)[j + 1])
  }

  /** The first start of a pending flush. */
  lemma FirstStart(c: CC.Cpu, xs: seq<In>) returns (k: nat)
    requires c.fetch.l.flushPending && FlushStarts(c, xs)
    ensures k <= |xs| && StartsAt(c, xs, k)
  {
    hide CC.Next, CC.FetchIn, CC.After, F.StartFlush, F.PrefetchHalt, NoneFetched, CachedStates, Fencing, Unfencing;
    var cs := CachedStates(c, xs);
    NoCycles(c);
    FirstState(c, xs);
    k := 0;
    while !F.StartFlush(cs[k].fetch)
      invariant k <= |xs| && cs[k].fetch.l.flushPending
      invariant forall j :: 0 <= j < k ==> !F.StartFlush(cs[j].fetch) && NoneFetched(cs[j], cs[j + 1])
      decreases |xs| - k
    {
      assert k < |xs|;
      CachedStateAfter(c, xs, k);
      FenceRequests(cs[k], xs[k]);
      FlushHalts(cs[k], xs[k]);
      HaltedFetch(cs[k], xs[k]);
      k := k + 1;
    }
  }

  lemma FirstState(c: CC.Cpu, xs: seq<In>)
    ensures CachedStates(c, xs)[0] == c
  {
    assert xs[..0] == [];
  }

  /** A flush starts at state k of the run, nothing is fetched from the cache up to
      three cycles later, and then, unless FENCE.I asks again in the cycle after the
      start, both lines are invalid. */
  predicate FlushedAt(c: CC.Cpu, xs: seq<In>, k: nat)
    requires k + 3 <= |xs|
  {
    var cs := CachedStates(c, xs);
    && F.StartFlush(cs[k].fetch)
    && (forall j :: 0 <= j < k + 3 ==> NoneFetched(cs[j], cs[j + 1]))
    && (CC.FetchIn(cs[k + 1], xs[k + 1]).flush || (!cs[k + 3].fetch.tags(0).valid && !cs[k + 3].fetch.tags(1).valid))
  }

  lemma JoinedAt(xs: seq<In>, ys: seq<In>, k: nat)
    requires k < |ys|
    ensures (xs + ys)[..|xs| + k] == xs + ys[..k] && (xs + ys)[|xs| + k] == ys[k]
  {}

  lemma AnswersIn(imem: Memory, c: CC.Cpu, zs: seq<In>, k: nat)
    requires CC.Environment(imem, c, zs) && k < |zs|
    ensures CC.BusAnswers(imem, CC.After(c, zs[..k]), zs[k])
  {
    hide CC.BusAnswers, CC.After;
  }

  lemma StateIs(c: CC.Cpu, xs: seq<In>, k: nat)
    requires k <= |xs|
    ensures CachedStates(c, xs)[k] == CC.After(c, xs[..k])
  {
    hide CC.After;
  }

  lemma JoinedAnswers(imem: Memory, c: CC.Cpu, zs: seq<In>, n: nat, us: seq<In>, y: In)
    requires CC.Environment(imem, c, zs) && n < |zs| && zs[..n] == us && zs[n] == y
    ensures CC.BusAnswers(imem, CC.After(c, us), y)
  {
    hide CC.BusAnswers, CC.After, CC.Environment;
    AnswersIn(imem, c, zs, n);
  }

  lemma AnswersAt(imem: Memory, c: CC.Cpu, xs: seq<In>, ys: seq<In>, k: nat)
    requires CC.Environment(imem, c, xs + ys) && k < |ys|
    ensures CC.BusAnswers(imem, CachedStates(CC.After(c, xs), ys)[k], ys[k])
  {
    hide CC.BusAnswers, CC.After, CC.Environment, CC.Events, CachedStates;
    JoinedAt(xs, ys, k);
    JoinedAnswers(imem, c, xs + ys, |xs| + k, xs + ys[..k], ys[k]);
    CachedConcat(c, xs, ys[..k]);
    StateIs(CC.After(c, xs), ys, k);
  }

  /** From a start to the invalid lines. */
  lemma StartInvalidates(imem: Memory, c: CC.Cpu, xs: seq<In>, ys: seq<In>, k: nat)
    requires CC.Reset(c) && CC.Environment(imem, c, xs + ys) && k + 3 <= |ys| && StartsAt(CC.After(c, xs), ys, k)
    ensures FlushedAt(CC.After(c, xs), ys, k)
  {
    hide CC.Reset, CC.Environment, CC.After, CC.Next, CC.View, CC.FetchIn, CachedStates, F.StartFlush, Sound, FP.Inv,
      FT.InOrder, NoneFetched, CC.BusAnswers;
    var t := CC.After(c, xs);
    var cs := CachedStates(t, ys);
    CachedSoundState(imem, c, xs, ys, k);
    AnswersAt(imem, c, xs, ys, k);
    AnswersAt(imem, c, xs, ys, k + 1);
    CachedStateAfter(t, ys, k);
    CachedStateAfter(t, ys, k + 1);
    CachedStateAfter(t, ys, k + 2);
    NoneWhileFlushing(cs[k], ys[k], ys[k + 1], ys[k + 2]);
    if !CC.FetchIn(cs[k + 1], ys[k + 1]).flush { FlushClears(imem, cs[k], ys[k], ys[k + 1], ys[k + 2]); }
  }

  /** The run without its first cycle passes through the same states. */
  lemma StatesTail(c: CC.Cpu, ys: seq<In>, m: nat, j: nat)
    requires 0 < m <= |ys| && j < m
    ensures CachedStates(CC.Next(c, ys[0]), ys[1..m])[j] == CachedStates(c, ys)[j + 1]
  {
    hide CC.Next, CC.After;
    CachedConcat(c, [ys[0]], ys[1..m][..j]);
    OneCycle(c, ys[0]);
    PrefixParts([], ys, m);
  }

  lemma OneCycle(c: CC.Cpu, x: In)
    ensures CC.After(c, [x]) == CC.Next(c, x)
  {
    hide CC.Next;
    assert [x][..0] == [];
    NoCycles(c);
  }

  lemma {:induction false} CountTail(bs: seq<bool>)
    requires bs != []
    ensures CountTrue(bs) <= 1 + CountTrue(bs[1..])
    decreases |bs|
  {
    if |bs| > 1 {
      CountTail(bs[..|bs| - 1]);
      assert bs[..|bs| - 1][1..] == bs[1..][..|bs[1..]| - 1];
    }
  }

  lemma ServedTail(c: CC.Cpu, ys: seq<In>, m: nat)
    requires 0 < m <= |ys|
    ensures CountTrue(BothServedCycles(c, ys[..m])) <= 1 + CountTrue(BothServedCycles(CC.Next(c, ys[0]), ys[1..m]))
  {
    hide CC.Next, BothServed, CC.After;
    var bs, ds := BothServedCycles(c, ys[..m]), BothServedCycles(CC.Next(c, ys[0]), ys[1..m]);
    forall j | 0 <= j < m - 1 ensures bs[j + 1] == ds[j] {
      StatesTail(c, ys, m, j);
      assert ys[..m][..j + 1] == ys[..j + 1];
    }
    CountTail(bs);
    assert bs[1..] == ds;
  }

  lemma FenceHalts(c: CC.Cpu, x: In)
    requires Fencing(c)
    ensures CC.FetchIn(c, x).flush && NoneFetched(c, CC.Next(c, x))
  {
    FlushWire(c, x);
    FenceDecodes(CC.DecodeNow(c).inst);
    FlushHalts(c, x);
    HaltedFetch(c, x);
    hide CC.Next, CC.FetchIn, CC.DecodeNow, CC.FlushAll, FenceI, NoneFetched, F.PrefetchHalt;
  }

  lemma StartsLater(c: CC.Cpu, ys: seq<In>, m: nat, k: nat)
    requires 0 < m <= |ys| && k < m
    requires NoneFetched(c, CC.Next(c, ys[0])) && StartsAt(CC.Next(c, ys[0]), ys[1..m], k)
    ensures StartsAt(c, ys, k + 1)
  {
    hide CC.After, CC.Next, CachedStates, F.StartFlush, NoneFetched;
    var cs, ds := CachedStates(c, ys), CachedStates(CC.Next(c, ys[0]), ys[1..m]);
    FirstState(c, ys);
    CachedStateAfter(c, ys, 0);
    forall j | 0 <= j <= k ensures ds[j] == cs[j + 1] { StatesTail(c, ys, m, j); }
    forall j | 0 <= j < k + 1 ensures NoneFetched(cs[j], cs[j + 1]) {
      if j > 0 { assert NoneFetched(ds[j - 1], ds[j]); }
    }
  }

  /** After FENCE.I the flush starts. */
  lemma FenceStarts(imem: Memory, c: CC.Cpu, xs: seq<In>, ys: seq<In>, m: nat) returns (k: nat)
    requires CC.Reset(c) && CC.Environment(imem, c, xs + ys) && Fencing(CC.After(c, xs))
    requires 0 < m <= |ys| && CountTrue(BothServedCycles(CC.After(c, xs), ys[..m])) >= 433
    ensures k <= m && StartsAt(CC.After(c, xs), ys, k)
  {
    hide CC.Reset, CC.Environment, CC.After, CC.Next, CachedStates, BothServedCycles, F.StartFlush, Fencing, Unfencing,
      NoneFetched, FlushStarts;
    var t, x := CC.After(c, xs), ys[0];
    FirstState(t, ys);
    if F.StartFlush(t.fetch) {
      k := 0;
    } else {
      FenceRequests(t, x);
      FenceHalts(t, x);
      AfterFence(imem, c, xs, ys, m);
      k := FirstStart(CC.Next(t, x), ys[1..m]);
      StartsLater(t, ys, m, k);
      k := k + 1;
    }
  }

  lemma PrefixParts(xs: seq<In>, ys: seq<In>, m: nat)
    requires 0 < m <= |ys|
    ensures (xs + ys)[..|xs| + m] == (xs + [ys[0]]) + ys[1..m]
    ensures forall j :: 0 <= j < m ==> [ys[0]] + ys[1..m][..j] == ys[..j + 1]
  {}

  lemma AfterFence(imem: Memory, c: CC.Cpu, xs: seq<In>, ys: seq<In>, m: nat)
    requires CC.Reset(c) && CC.Environment(imem, c, xs + ys) && 0 < m <= |ys|
    requires CC.Next(CC.After(c, xs), ys[0]).fetch.l.flushPending
    requires CountTrue(BothServedCycles(CC.After(c, xs), ys[..m])) >= 433
    ensures FlushStarts(CC.Next(CC.After(c, xs), ys[0]), ys[1..m])
  {
    hide CC.Reset, CC.Environment, CC.After, CC.Next, CachedStates, BothServedCycles, FlushStarts, CountTrue;
    var t, x, zs := CC.After(c, xs), ys[0], ys[1..m];
    ServedTail(t, ys, m);
    CachedConcat(c, xs, [x]);
    OneCycle(t, x);
    PrefixParts(xs, ys, m);
    EnvironmentUpTo(imem, c, xs + ys, |xs| + m);
    FlushComes(imem, c, xs + [x], zs);
  }

  /** FENCE.I flushes the cache.  Once it is in decode, and after 433 cycles in which
      both buses answer, a flush has started, no instruction has been fetched from the
      cache since, and three cycles later both lines are invalid. */
  lemma FenceInvalidates(imem: Memory, c: CC.Cpu, xs: seq<In>, ys: seq<In>)
    requires CC.Reset(c) && CC.Environment(imem, c, xs + ys) && Fencing(CC.After(c, xs))
    requires |ys| > 3 && CountTrue(BothServedCycles(CC.After(c, xs), ys[..|ys| - 3])) >= 433
    ensures exists k: nat :: k + 3 <= |ys| && FlushedAt(CC.After(c, xs), ys, k)
  {
    hide CC.Reset, CC.Environment, CC.After, BothServedCycles, Fencing, FlushedAt, StartsAt;
    var k := FenceStarts(imem, c, xs, ys, |ys| - 3);
    StartInvalidates(imem, c, xs, ys, k);
  }
}
