/** Completion of a missing fetch, and what a flush does to the lines. */
module CacheProgress {
  import opened Words
  import opened CachedFetch
  import opened CacheProof
  import opened CacheTheorems
  import opened Countdown
  import DecoderFacts

  // --- Flush --------------------------------------------------------------------

  /** Three cycles after a flush starts, unless it is restarted, both lines are
      invalid, and fetching is still halted. */
  lemma FlushInvalidates(imem: Memory, s: State, x: In, y: In, z: In)
    requires Inv(imem, s) && StartFlush(s) && Allowed(imem, s, x) && Allowed(imem, Next(s, x), y)
    requires !StartFlush(Next(s, x)) && !StartFlush(Next(Next(s, x), y))
    ensures var t := Next(Next(Next(s, x), y), z);
            !t.tags(0).valid && !t.tags(1).valid && FlushDone(t) && forall w: In :: PrefetchHalt(t, w)
  {
    hide Inv, Next, Allowed, StartFlush;
    var t := Next(s, x);
    var u := Next(t, y);
    InvKept(imem, s, x);
    InvKept(imem, t, y);
    FlushStart(s, x);
    FlushZero(imem, t, y);
    FlushOne(imem, u, z);
  }

  lemma FlushStart(s: State, x: In)
    requires StartFlush(s)
    ensures Next(s, x).l.flushCounter == 0
  {
    hide NextStages, NextBurst, NextTags, NextBank;
  }

  lemma FlushZero(imem: Memory, s: State, x: In)
    requires Inv(imem, s) && s.l.flushCounter == 0 && !StartFlush(s)
    ensures Next(s, x).l.flushCounter == 1 && !Next(s, x).tags(0).valid
  {
    hide NextStages, NextBurst, NextBank, StagesOk, LoaderOk, LinesOk, LoadingOk, BurstOk, TagOf;
  }

  lemma FlushOne(imem: Memory, s: State, x: In)
    requires Inv(imem, s) && s.l.flushCounter == 1 && !StartFlush(s) && !s.tags(0).valid
    ensures var t := Next(s, x);
            t.l.flushCounter == 2 && !t.l.seen && !t.tags(0).valid && !t.tags(1).valid && FlushDone(t)
  {
    hide NextStages, NextBurst, NextBank, StagesOk, LoaderOk, LinesOk, LoadingOk, BurstOk, TagOf;
  }

  // --- Progress -------------------------------------------------------------------

  /** No flush, jump, stall or halt request in this cycle. */
  predicate Quiet(x: In) { FlushFree(x) && !x.decodeStuck && !x.fetcherHalt && !x.flush }

  /** The transfer that the line loader requests, if there is one, is acknowledged. */
  predicate Served(s: State, x: In) { Cycle(s) ==> x.ack }

  /** Cycles the flush in progress still needs once the loader is idle. */
  function FlushLeft(s: State): nat {
    if s.l.flushPending then 4
    else if s.l.flushCounter == 0 then 3
    else if s.l.flushCounter == 1 then 2
    else if !s.l.seen then 1
    else 0
  }

  /** Acknowledges, and the last response, the line being loaded still needs. */
  function LoadLeft(s: State): nat {
    if !s.l.valid then 0 else if !s.l.cmdSent then 9 else if s.b.adr == 0 then 1 else 9 - (s.b.adr as nat)
  }

  predicate Cached(s: State, pc: Word) {
    && s.tags(LineOf(pc)).valid && s.tags(LineOf(pc)).address == TagOf(pc)
    && !s.l.flushPending && FlushDone(s)
  }

  predicate Loading(s: State, pc: Word) {
    LineOf(s.l.address) == LineOf(pc) && TagOf(s.l.address) == TagOf(pc) && !s.l.flushPending
  }

  /** Served cycles until the next delivery. */
  function Steps(s: State): nat {
    if s.p.s2Valid then
      (if s.p.s2Hit then 0 else if s.l.flushPending then 60 else 20)
    else if s.p.s1Valid then
      (if PortHit(s.p) then 1 else if s.l.flushPending then 61 else 21)
    else if s.l.valid then
      (if Loading(s, Expect(s)) then LoadLeft(s) + FlushLeft(s) + 2 else LoadLeft(s) + FlushLeft(s) + 40)
    else
      (if Cached(s, Expect(s)) then FlushLeft(s) + 2 else FlushLeft(s) + 30) + (if s.p.booted then 0 else 1)
  }

  lemma StepsBound(s: State)
    ensures Steps(s) <= 61
  {
    CountUp(s.b.adr);
  }

  lemma StageOneStep(s: State, x: In)
    requires InOrder(s) && Quiet(x) && s.p.s1Valid && !s.p.s2Valid
    ensures Steps(Next(s, x)) < Steps(s)
  {
    hide Aligned, Align, Plus, FetchPc, NextBurst, NextTags, NextBank, PortHit, Expect, LoadLeft, FlushLeft, Cached,
      Loading, FlushDone;
  }

  lemma MissStep(imem: Memory, s: State, x: In)
    requires Inv(imem, s) && InOrder(s) && Quiet(x) && Miss(s)
    ensures Steps(Next(s, x)) < Steps(s)
  {
    hide Aligned, Align, Plus, FetchPc, NextTags, NextBank, PortHit, LineOf, TagOf, LinesOk, LoadingOk, InOrder,
      FlushLeft, Expect;
    ExpectMoves(s, x);
    ExpectOfTwo(s);
    FlushLeftBound(s, x);
  }

  lemma ExpectOfTwo(s: State)
    requires s.p.s2Valid
    ensures Expect(s) == s.p.s2Pc
  {
    hide StreamPc;
  }

  lemma FlushLeftBound(s: State, x: In)
    requires !x.flush
    ensures FlushLeft(s) <= 4
    ensures !s.l.flushPending ==>
              FlushLeft(s) <= 3 && !Next(s, x).l.flushPending && FlushLeft(Next(s, x)) <= 3
    ensures FlushLeft(Next(s, x)) <= FlushLeft(s)
    ensures FlushLeft(s) != 0 && !(s.l.flushPending && (s.l.valid || s.p.s1Valid)) ==>
            FlushLeft(Next(s, x)) < FlushLeft(s)
    ensures s.l.flushPending && (s.l.valid || s.p.s1Valid) ==> Next(s, x).l.flushPending
  {
    hide NextStages, NextBurst, NextTags, NextBank;
    CounterSteps(s.l.flushCounter);
  }

  lemma CounterSteps(c: bv2)
    ensures c & 2 == 0 <==> c == 0 || c == 1
    ensures c == 0 ==> c + 1 == 1
    ensures c == 1 ==> c + 1 == 2 && (c + 1) & 2 != 0
  {}

  lemma LoadStep(imem: Memory, s: State, x: In)
    requires Inv(imem, s) && InOrder(s) && Quiet(x) && s.l.valid
    ensures Steps(Next(s, x)) <= Steps(s)
    ensures Served(s, x) ==> Steps(Next(s, x)) < Steps(s)
  {
    hide Aligned, Align, Plus, FetchPc, NextBank, PortHit, LineOf, TagOf, LinesOk, LoadingOk, InOrder, FlushLeft,
      Expect;
    ExpectMoves(s, x);
    FlushLeftBound(s, x);
    CountUp(s.b.adr);
  }

  lemma IdleHalted(s: State)
    requires !s.l.valid && (FlushLeft(s) != 0 || s.l.flushPending)
    ensures FlushLeft(s) != 0
    ensures forall x: In :: PrefetchHalt(s, x)
  {
    CounterSteps(s.l.flushCounter);
  }

  lemma IdleOpen(s: State, x: In)
    requires !s.l.valid && FlushLeft(s) == 0 && !x.flush
    ensures !PrefetchHalt(s, x)
  {
    CounterSteps(s.l.flushCounter);
  }

  lemma CachedStays(imem: Memory, s: State, x: In, pc: Word)
    requires Inv(imem, s) && Quiet(x) && !s.l.valid && Cached(s, pc)
    ensures Cached(Next(s, x), pc)
  {
    hide StagesOk, LoaderOk, LinesOk, LoadingOk, NextStages, NextBurst, NextBank, LineOf, TagOf;
    CounterSteps(s.l.flushCounter);
  }

  lemma IdleWait(imem: Memory, s: State, x: In)
    requires Inv(imem, s) && InOrder(s) && Quiet(x) && !s.l.valid && !s.p.s1Valid && !s.p.s2Valid && FlushLeft(s) != 0
    ensures Steps(Next(s, x)) < Steps(s)
  {
    IdleHalted(s);
    FlushLeftBound(s, x);
    ExpectMoves(s, x);
    if Cached(s, Expect(s)) { CachedStays(imem, s, x, Expect(s)); }
    hide Aligned, Align, Plus, FetchPc, NextBank, NextTags, NextBurst, LineOf, TagOf, StagesOk, LoaderOk, LinesOk,
      LoadingOk, BurstOk, InOrder, FlushLeft, Expect, Cached, PrefetchHalt, PortHit;
  }

  lemma IdleFetch(imem: Memory, s: State, x: In)
    requires Inv(imem, s) && InOrder(s) && Quiet(x) && !s.l.valid && !s.p.s1Valid && !s.p.s2Valid && FlushLeft(s) == 0
    ensures Steps(Next(s, x)) < Steps(s)
  {
    IdleOpen(s, x);
    FlushLeftBound(s, x);
    ExpectMoves(s, x);
    StreamFacts(s, x);
    if Cached(s, Expect(s)) { CachedStays(imem, s, x, Expect(s)); }
    hide Aligned, Align, Plus, FetchPc, NextBank, NextTags, NextBurst, LineOf, TagOf, StagesOk, LoaderOk, LinesOk,
      LoadingOk, BurstOk, InOrder, FlushLeft, StreamPc, PrefetchHalt, FlushDone;
  }

  lemma IdleStep(imem: Memory, s: State, x: In)
    requires Inv(imem, s) && InOrder(s) && Quiet(x) && !s.l.valid && !s.p.s1Valid && !s.p.s2Valid
    ensures Steps(Next(s, x)) < Steps(s)
  {
    hide Inv, InOrder, Quiet, FlushLeft, Steps, Next;
    if FlushLeft(s) != 0 {
      IdleWait(imem, s, x);
    } else {
      IdleFetch(imem, s, x);
    }
  }

  /** Without a delivery the wait never grows, and a served cycle shortens it. */
  lemma StepsShrink(imem: Memory, s: State, x: In)
    requires Inv(imem, s) && InOrder(s) && Quiet(x) && !Delivers(s, x)
    ensures Steps(Next(s, x)) <= Steps(s)
    ensures Served(s, x) ==> Steps(Next(s, x)) < Steps(s)
  {
    hide InOrder, Steps, Next;
    StageTwo(imem, s);
    if s.p.s2Valid {
      MissStep(imem, s, x);
    } else if s.p.s1Valid {
      StageOneStep(s, x);
    } else if s.l.valid {
      LoadStep(imem, s, x);
    } else {
      IdleStep(imem, s, x);
    }
    hide Inv;
  }

  function ServedCycles(s: State, xs: seq<In>): nat {
    if xs == [] then 0 else
      var ys := xs[..|xs| - 1];
      ServedCycles(s, ys) + if Served(After(s, ys), xs[|xs| - 1]) then 1 else 0
  }

  lemma {:induction false} QuietRun(imem: Memory, s: State, xs: seq<In>)
    requires Inv(imem, s) && InOrder(s) && AllowedRun(imem, s, xs) && (forall x :: x in xs ==> Quiet(x))
             && Delivered(s, xs) == []
    ensures Inv(imem, After(s, xs)) && InOrder(After(s, xs))
    ensures Steps(After(s, xs)) + ServedCycles(s, xs) <= Steps(s)
    decreases |xs|
  {
    hide Inv, Next, Allowed, AllowedRun, InOrder, Steps, Delivers, Served;
    if xs != [] {
      var ys, x := xs[..|xs| - 1], xs[|xs| - 1];
      PrefixAllowed(imem, s, xs);
      QuietRun(imem, s, ys);
      var t := After(s, ys);
      assert Quiet(x);
      StepsShrink(imem, t, x);
      InvKept(imem, t, x);
      JumpFree(t, x);
      InOrderKept(t, x);
    }
  }

  lemma JumpFree(s: State, x: In)
    requires Quiet(x)
    ensures x.jump ==> x.decodeRemove
  {}

  lemma {:induction false} AfterConcat(s: State, xs: seq<In>, ys: seq<In>)
    ensures After(s, xs + ys) == After(After(s, xs), ys)
    decreases |ys|
  {
    hide Next;
    if ys == [] {
      assert xs + ys == xs;
    } else {
      assert (xs + ys)[..|xs + ys| - 1] == xs + ys[..|ys| - 1];
      AfterConcat(s, xs, ys[..|ys| - 1]);
    }
  }

  lemma AllowedSplit(imem: Memory, s: State, xs: seq<In>, ys: seq<In>)
    requires AllowedRun(imem, s, xs + ys)
    ensures AllowedRun(imem, s, xs) && AllowedRun(imem, After(s, xs), ys)
  {
    hide Allowed, After;
    forall k | 0 <= k < |xs| ensures Allowed(imem, After(s, xs[..k]), xs[k]) {
      assert (xs + ys)[..k] == xs[..k] && (xs + ys)[k] == xs[k];
    }
    forall k | 0 <= k < |ys| ensures Allowed(imem, After(After(s, xs), ys[..k]), ys[k]) {
      assert (xs + ys)[..|xs| + k] == xs + ys[..k] && (xs + ys)[|xs| + k] == ys[k];
      AfterConcat(s, xs, ys[..k]);
    }
  }

  lemma {:induction false} RunInOrder(imem: Memory, s: State, xs: seq<In>)
    requires Reset(s) && AllowedRun(imem, s, xs)
    ensures InOrder(After(s, xs))
    decreases |xs|
  {
    hide Next, InOrder, AllowedRun;
    if xs == [] {
      ResetInOrder(s);
    } else {
      PrefixAllowed(imem, s, xs);
      RunInOrder(imem, s, xs[..|xs| - 1]);
      InOrderKept(After(s, xs[..|xs| - 1]), xs[|xs| - 1]);
    }
  }

  lemma ResetInOrder(s: State)
    requires Reset(s)
    ensures InOrder(s)
  {
    hide StreamPc, Aligned;
  }

  /** The unit is reachable and then left alone by the back end. */
  ghost predicate LeftAlone(imem: Memory, s: State, xs: seq<In>, ys: seq<In>) {
    Reset(s) && AllowedRun(imem, s, xs + ys) && forall y :: y in ys ==> Quiet(y)
  }

  lemma Reached(imem: Memory, s: State, xs: seq<In>, ys: seq<In>)
    requires LeftAlone(imem, s, xs, ys)
    ensures var t := After(s, xs); Inv(imem, t) && InOrder(t) && AllowedRun(imem, t, ys)
  {
    hide Reset, AllowedRun, After, Inv, InOrder, Quiet;
    AllowedSplit(imem, s, xs, ys);
    ResetInv(imem, s);
    RunInv(imem, s, xs);
    RunInOrder(imem, s, xs);
  }

  lemma DeliversFirst(imem: Memory, t: State, ys: seq<In>)
    requires Inv(imem, t) && InOrder(t) && AllowedRun(imem, t, ys) && (forall y :: y in ys ==> Quiet(y))
             && Delivered(t, ys) != []
    ensures Delivered(t, ys)[0] == (Expect(t), imem(Expect(t)))
  {
    hide AllowedRun, After, Inv, InOrder, Delivered, Expect;
    StreamRun(imem, t, ys);
    ProgramStart(imem, Expect(t), |Delivered(t, ys)|);
  }

  /** In every reachable state, once the back end is quiet, 62 cycles in which the
      line loader's request is acknowledged, or it has none, are enough for the
      awaited instruction to be delivered: a miss is refilled, its fetch redone, and
      the redone fetch hits. */
  lemma RedoneFetchHits(imem: Memory, s: State, xs: seq<In>, ys: seq<In>)
    requires LeftAlone(imem, s, xs, ys) && ServedCycles(After(s, xs), ys) >= 62
    ensures var t := After(s, xs); Delivered(t, ys) != [] && Delivered(t, ys)[0] == (Expect(t), imem(Expect(t)))
  {
    hide LeftAlone, AllowedRun, After, Inv, InOrder, Steps, Delivered, Expect, ServedCycles, Quiet;
    var t := After(s, xs);
    Reached(imem, s, xs, ys);
    AllQuiet(imem, s, xs, ys);
    StepsBound(t);
    if Delivered(t, ys) == [] {
      QuietRun(imem, t, ys);
    }
    DeliversFirst(imem, t, ys);
  }

  lemma AllQuiet(imem: Memory, s: State, xs: seq<In>, ys: seq<In>)
    requires LeftAlone(imem, s, xs, ys)
    ensures forall y :: y in ys ==> Quiet(y)
  {
    hide Quiet, AllowedRun, Reset;
  }

  // --- In time --------------------------------------------------------------------

  function StepsAlong(s: State, xs: seq<In>): (ws: seq<nat>)
    ensures |ws| == |xs| + 1
  {
    seq(|xs| + 1, k requires 0 <= k <= |xs| => Steps(After(s, xs[..k])))
  }

  function Late(s: State, xs: seq<In>): (bs: seq<bool>)
    ensures |bs| == |xs|
  {
    seq(|xs|, k requires 0 <= k < |xs| => !Served(After(s, xs[..k]), xs[k]))
  }

  lemma StepAt(imem: Memory, s: State, xs: seq<In>, k: nat)
    requires Inv(imem, s) && InOrder(s) && AllowedRun(imem, s, xs) && (forall x :: x in xs ==> Quiet(x))
             && Delivered(s, xs) == [] && k < |xs|
    ensures StepsAlong(s, xs)[k + 1] <= StepsAlong(s, xs)[k]
    ensures StepsAlong(s, xs)[k + 1] == StepsAlong(s, xs)[k] ==> Late(s, xs)[k]
  {
    hide Inv, InOrder, Next, Allowed, AllowedRun, Quiet, Delivered, Delivers, Steps, Served;
    var t := After(s, xs[..k]);
    assert xs == xs[..k] + xs[k..];
    AllowedSplit(imem, s, xs[..k], xs[k..]);
    StreamSplit(s, xs, k);
    QuietRun(imem, s, xs[..k]);
    assert Quiet(xs[k]);
    StepsShrink(imem, t, xs[k]);
    assert xs[..k + 1][..k] == xs[..k];
  }

  lemma {:induction false} StreamSplit(s: State, xs: seq<In>, k: nat)
    requires Delivered(s, xs) == [] && k < |xs|
    ensures Delivered(s, xs[..k]) == [] && !Delivers(After(s, xs[..k]), xs[k])
    decreases |xs|
  {
    hide Next, Delivers;
    var n := |xs| - 1;
    if k < n {
      StreamSplit(s, xs[..n], k);
      assert xs[..n][..k] == xs[..k];
    }
  }

  /** If no transfer stays unacknowledged for n cycles, 62 n quiet cycles deliver it. */
  lemma RefillsWithin(imem: Memory, s: State, xs: seq<In>, ys: seq<In>, n: nat)
    requires LeftAlone(imem, s, xs, ys)
    requires n > 0 && Broken(Late(After(s, xs), ys), n) && |ys| >= 62 * n
    ensures var t := After(s, xs); Delivered(t, ys) != [] && Delivered(t, ys)[0] == (Expect(t), imem(Expect(t)))
  {
    hide LeftAlone, AllowedRun, After, Inv, InOrder, Steps, Delivered, Expect, Quiet, Served, Broken;
    var t := After(s, xs);
    Reached(imem, s, xs, ys);
    AllQuiet(imem, s, xs, ys);
    StepsBound(t);
    if Delivered(t, ys) == [] {
      forall k | 0 <= k < |ys|
        ensures StepsAlong(t, ys)[k + 1] <= StepsAlong(t, ys)[k]
        ensures StepsAlong(t, ys)[k + 1] == StepsAlong(t, ys)[k] ==> Late(t, ys)[k]
      {
        StepAt(imem, t, ys, k);
      }
      DropsInTime(StepsAlong(t, ys), seq(|ys|, k => true), Late(t, ys), Late(t, ys), n, 62);
      StepsStart(t, ys);
    }
    DeliversFirst(imem, t, ys);
  }

  lemma StepsStart(s: State, xs: seq<In>)
    ensures StepsAlong(s, xs)[0] <= 61
  {
    StepsBound(After(s, xs[..0]));
    hide Steps;
  }

  lemma {:induction false} ProgramStart(imem: Memory, pc: Word, n: nat)
    requires n > 0
    ensures |Program(imem, pc, n)| == n && Program(imem, pc, n)[0] == (pc, imem(pc))
  {
    ProgramLength(imem, pc, n);
    if n > 1 {
      ProgramLength(imem, pc, n - 1);
      ProgramStart(imem, pc, n - 1);
    }
  }
}
