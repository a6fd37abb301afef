/** An interrupt that stays pending and enabled is taken: once it is recorded decode
    issues nothing more, so what is ahead of decode drains and the trap follows. */
module InterruptProgress {
  import opened Words
  import opened Decoder
  import opened Execute
  import opened Machine
  import opened Core
  import opened Invariant
  import opened Refinement
  import opened CoreTheorems
  import opened Countdown
  import opened Liveness

  /** An enabled interrupt is pending: mstatus.MIE, and a bit of mip that mie selects. */
  predicate Requested(s: State) {
    s.csr.mie && ((s.t.mtip && s.csr.mtie) || (s.t.msip && s.csr.msie) || (s.t.meip && s.csr.meie))
  }

  /** Instructions ahead of decode. */
  function Older(s: State): nat { Count(s.e.valid) + Count(s.m.valid) + Count(s.w.valid) }

  /** Served cycles until the interrupt, once it is recorded; one more to record it. */
  function Drain(s: State): nat { if s.t.irqValid then 46 * Older(s) + Wait(s) else 184 }

  lemma DrainBound(s: State)
    ensures Drain(s) <= 184
  {
    WaitBounds(s);
    hide Wait;
  }

  /** A recorded interrupt keeps decode from issuing. */
  lemma NothingIssues(s: State, x: In)
    requires s.t.irqValid
    ensures Older(Next(s, x)) <= Older(s) - Count(s.w.valid)
  {
    hide EStuck, MStuck, ERemove, MRemove, DRemove, HazardStall, XretInFlight, ShiftBusy, EResult, BranchDo,
      BranchTarget,
      EAlignFault, EAddress;
    StuckBehind(s, x);
    NextParts(s, x);
    hide Next;
  }

  lemma StuckBehind(s: State, x: In)
    ensures MStuck(s, x) ==> EStuck(s, x)
    ensures LiberatorActive(s) ==> DStuck(s, x)
    ensures !s.m.valid ==> !MStuck(s, x)
  {
    hide EHaltItself, HazardStall, XretInFlight;
  }

  /** An exception would disable interrupts. */
  lemma NoException(s: State, x: In)
    requires TokensOk(s) && Next(s, x).csr.mie
    ensures !s.t.hadException
  {
    if s.t.hadException {
      ExceptionDisables(s, x);
    }
  }

  lemma ExceptionDisables(s: State, x: In)
    requires TokensOk(s) && s.t.hadException
    ensures !Next(s, x).csr.mie
  {
    NextParts(s, x);
    hide Next, Env, CsrStore, CsrWriteValue, EStuck, IsMret;
  }

  lemma Recorded(s: State, x: In)
    requires Requested(s) && !InterruptJump(s)
    ensures Next(s, x).t.irqValid
  {
    hide InterruptJump, NextRegs, NextCsr, NextFetch, NextDecode, NextExecute, NextMemory, NextWriteBack,
      NextBuffer, NextBus,
      NextExcD, NextExcE, NextExcM, ExcValidM, NextCode, NextBadAddr, NextIrqCode, NextPcValid0, NextPcValid1,
        NextPcValid2, NextMsip;
  }

  /** While the interrupt is neither taken nor disabled, the drain never grows, and a
      served cycle or a retirement shortens it. */
  lemma DrainStep(s: State, x: In)
    requires Sound(s) && Requested(s) && Next(s, x).csr.mie && !InterruptJump(s)
    ensures Drain(Next(s, x)) <= Drain(s)
    ensures Served(s, x) || HasEvent(s) || !s.t.irqValid ==> Drain(Next(s, x)) < Drain(s)
    ensures Drain(Next(s, x)) == Drain(s) ==> Wait(Next(s, x)) == Wait(s)
  {
    hide Sound, Next, Requested, InterruptJump, Wait, Served, Older, TokensOk, LiberatorOk;
    var s' := Next(s, x);
    SoundTokens(s);
    Recorded(s, x);
    NoException(s, x);
    WaitBounds(s');
    WaitBounds(s);
    AtMostThree(s');
    if s.t.irqValid {
      NothingIssues(s, x);
      if HasEvent(s) {
        hide TrapNow;
        EventIsRetirement(s);
      } else {
        WaitStep(s, x);
      }
    }
  }

  lemma AtMostThree(s: State)
    ensures Older(s) <= 3
  {}

  lemma EventIsRetirement(s: State)
    requires HasEvent(s) && !s.t.hadException && !InterruptJump(s)
    ensures s.w.valid
  {
    hide InterruptJump;
  }

  // --- Runs -----------------------------------------------------------------------

  /** An interrupt is taken in one of the first n cycles. */
  predicate TakenBefore(s: State, xs: seq<In>, n: nat)
    requires n <= |xs|
  {
    exists k :: 0 <= k < n && InterruptJump(States(s, xs)[k])
  }

  predicate Taken(s: State, xs: seq<In>) { TakenBefore(s, xs, |xs|) }

  /** Pending and enabled until it is taken. */
  predicate Persists(s: State, xs: seq<In>) {
    forall k :: 0 <= k <= |xs| ==> TakenBefore(s, xs, k) || Requested(States(s, xs)[k])
  }

  function Drains(s: State, xs: seq<In>): (ws: seq<nat>)
    ensures |ws| == |xs| + 1
  {
    seq(|xs| + 1, k requires 0 <= k <= |xs| => Drain(States(s, xs)[k]))
  }

  lemma DrainAt(imem: Memory, s: State, xs: seq<In>, ys: seq<In>, k: nat)
    requires Reset(s) && Environment(imem, s, xs + ys) && k < |ys|
    requires Persists(After(s, xs), ys) && !Taken(After(s, xs), ys)
    ensures var ss := States(After(s, xs), ys);
            && Drain(ss[k + 1]) <= Drain(ss[k])
            && (Served(ss[k], ys[k]) || HasEvent(ss[k]) || !ss[k].t.irqValid ==> Drain(ss[k + 1]) < Drain(ss[k]))
            && (Drain(ss[k + 1]) == Drain(ss[k]) ==> Wait(ss[k + 1]) == Wait(ss[k]))
  {
    hide Reset, Environment, Next, Sound, Drain, InterruptJump, HasEvent, Served, After, States, AnyPending;
    var t := After(s, xs);
    SoundState(imem, s, xs, ys, k);
    StateAfter(t, ys, k);
    assert !TakenBefore(t, ys, k) && !TakenBefore(t, ys, k + 1);
    DrainStep(States(t, ys)[k], ys[k]);
  }

  lemma DrainStarts(t: State, ys: seq<In>)
    ensures Drains(t, ys)[0] <= 184
  {
    DrainBound(t);
    hide Drain;
  }

  /** An interrupt that stays pending and enabled until it is taken is taken within
      185 served cycles, whatever was in the pipeline. */
  lemma InterruptTaken(imem: Memory, s: State, xs: seq<In>, ys: seq<In>)
    requires Reset(s) && Environment(imem, s, xs + ys)
    requires Persists(After(s, xs), ys) && CountTrue(ServedCycles(After(s, xs), ys)) >= 185
    ensures Taken(After(s, xs), ys)
  {
    hide Reset, Environment, Drain, Wait, HasEvent, Served, After, Next, Persists, Taken;
    var t := After(s, xs);
    DrainStarts(t, ys);
    if !Taken(t, ys) {
      forall k | 0 <= k < |ys|
        ensures Drains(t, ys)[k + 1] <= Drains(t, ys)[k]
        ensures ServedCycles(t, ys)[k] ==> Drains(t, ys)[k + 1] < Drains(t, ys)[k]
      {
        DrainAt(imem, s, xs, ys, k);
      }
      Descends(Drains(t, ys), ServedCycles(t, ys));
    }
  }

  /** In time: if no request stays unanswered for n cycles, it is taken within 185 n
      cycles. */
  lemma InterruptWithin(imem: Memory, s: State, xs: seq<In>, ys: seq<In>, n: nat)
    requires Reset(s) && Environment(imem, s, xs + ys) && Persists(After(s, xs), ys)
    requires n > 0 && Responsive(After(s, xs), ys, n) && |ys| >= 185 * n
    ensures Taken(After(s, xs), ys)
  {
    hide Reset, Environment, Drain, Wait, HasEvent, Served, DataServed, FetchServed, After, Next, Persists, Taken,
      Broken;
    var t := After(s, xs);
    DrainStarts(t, ys);
    if !Taken(t, ys) {
      forall k | 0 <= k < |ys|
        ensures Drains(t, ys)[k + 1] <= Drains(t, ys)[k]
        ensures Drains(t, ys)[k + 1] == Drains(t, ys)[k] ==>
                  && Waits(t, ys)[k + 1] == Waits(t, ys)[k]
                  && if FetchKind(t, ys)[k] then FetchLate(t, ys)[k] else DataLate(t, ys)[k]
      {
        DrainAt(imem, s, xs, ys, k);
        if !Served(States(t, ys)[k], ys[k]) && !HasEvent(States(t, ys)[k]) { Unserved(States(t, ys)[k], ys[k]); }
      }
      DropsInTime(Drains(t, ys), FetchKind(t, ys), FetchLate(t, ys), DataLate(t, ys), n, 185);
    }
  }
}
