/** Run theorems of the cached fetch unit: what it delivers, in which order, how
    it uses the bus, and that a missing fetch is always completed. */
module CacheTheorems {
  import opened Words
  import opened CachedFetch
  import opened CacheProof
  import DecoderFacts

  // --- Runs ---------------------------------------------------------------------

  function After(s: State, xs: seq<In>): State {
    if xs == [] then s else Next(After(s, xs[..|xs| - 1]), xs[|xs| - 1])
  }

  ghost predicate AllowedRun(imem: Memory, s: State, xs: seq<In>) {
    forall k :: 0 <= k < |xs| ==> Allowed(imem, After(s, xs[..k]), xs[k])
  }

  lemma PrefixAllowed(imem: Memory, s: State, xs: seq<In>)
    requires AllowedRun(imem, s, xs) && xs != []
    ensures AllowedRun(imem, s, xs[..|xs| - 1]) && Allowed(imem, After(s, xs[..|xs| - 1]), xs[|xs| - 1])
  {
    hide Allowed, After;
    var ys := xs[..|xs| - 1];
    assert forall k :: 0 <= k < |ys| ==> ys[..k] == xs[..k] && ys[k] == xs[k];
  }

  lemma {:induction false} RunInv(imem: Memory, s: State, xs: seq<In>)
    requires Inv(imem, s) && AllowedRun(imem, s, xs)
    ensures Inv(imem, After(s, xs))
    decreases |xs|
  {
    hide Inv, Next, Allowed, AllowedRun;
    if xs != [] {
      PrefixAllowed(imem, s, xs);
      RunInv(imem, s, xs[..|xs| - 1]);
      InvKept(imem, After(s, xs[..|xs| - 1]), xs[|xs| - 1]);
    }
  }

  /** From arbitrary cache contents and one reset, through refills, flushes, redone
      fetches and jumps, every instruction that stage 2 outputs is the memory word
      at its address, without error. */
  lemma DeliversMemory(imem: Memory, s: State, xs: seq<In>)
    requires Reset(s) && AllowedRun(imem, s, xs)
    ensures var t := After(s, xs); OutputValid(t) ==> t.p.s2Word == imem(t.p.s2Pc) && !t.p.s2Error && Aligned(t.p.s2Pc)
  {
    hide Inv, Reset, AllowedRun, After, Aligned;
    ResetInv(imem, s);
    RunInv(imem, s, xs);
    StageTwo(imem, After(s, xs));
  }

  lemma StageTwo(imem: Memory, s: State)
    requires Inv(imem, s)
    ensures s.p.s2Valid ==> Aligned(s.p.s2Pc) && s.p.s2Physical == s.p.s2Pc
    ensures s.p.s2Valid && s.p.s2Hit ==> s.p.s2Word == imem(s.p.s2Pc) && !s.p.s2Error
  {
    hide BurstOk, LoaderOk, LinesOk, LoadingOk, Aligned, PortHit;
  }

  // --- Order of delivery ------------------------------------------------------------

  /** The address fetched after stage 1. */
  function StreamPc(s: State): Word { Align(Plus(s.p.pcReg, if s.p.inc then 4 else 0)) }

  /** The address of the next instruction to be delivered. */
  function Expect(s: State): Word {
    if s.p.s2Valid then s.p.s2Pc else if s.p.s1Valid then s.p.pcReg else StreamPc(s)
  }

  predicate InOrder(s: State) {
    && (s.p.s1Valid ==> s.p.inc && Aligned(s.p.pcReg))
    && (s.p.s2Valid ==> Aligned(s.p.s2Pc) && Plus(s.p.s2Pc, 4) == if s.p.s1Valid then s.p.pcReg else StreamPc(s))
    && (!s.p.booted ==> !s.p.s1Valid && !s.p.s2Valid && !s.p.inc)
  }

  predicate FlushFree(x: In) { !x.decodeRemove && !x.decodeFlushNext && !x.jump }

  /** The instruction in decode moves on. */
  predicate Delivers(s: State, x: In) { OutputValid(s) && !x.decodeStuck }

  lemma StreamFacts(s: State, x: In)
    ensures !x.jump ==> FetchPc(s, x) == if Miss(s) then Align(s.p.s2Pc) else StreamPc(s)
    ensures Aligned(FetchPc(s, x)) && Align(FetchPc(s, x)) == FetchPc(s, x)
            && Align(Plus(FetchPc(s, x), 0)) == FetchPc(s, x)
    ensures Align(Plus(FetchPc(s, x), 4)) == Plus(FetchPc(s, x), 4)
    ensures Aligned(s.p.pcReg) ==> Align(Plus(s.p.pcReg, 4)) == Plus(s.p.pcReg, 4)
    ensures Aligned(s.p.s2Pc) ==> Align(s.p.s2Pc) == s.p.s2Pc
  {
    hide Aligned, Align, Plus;
    FetchPcAligned(s, x);
    var pc := FetchPc(s, x);
    DecoderFacts.AlignFacts(pc);
    DecoderFacts.AlignFacts(Plus(pc, 4));
    DecoderFacts.AlignFacts(s.p.pcReg);
    DecoderFacts.AlignFacts(Plus(s.p.pcReg, 4));
    DecoderFacts.AlignFacts(s.p.s2Pc);
  }

  lemma InOrderKept(s: State, x: In)
    requires InOrder(s) && (x.jump ==> x.decodeRemove)
    ensures InOrder(Next(s, x))
  {
    hide Aligned, Align, Plus, FetchPc, NextLoader, NextBurst, NextTags, NextBank, PortHit, PrefetchHalt;
    StreamFacts(s, x);
  }

  /** A delivery is followed by the next word; otherwise the next delivery stays
      what it was, through refills and redone fetches. */
  lemma ExpectMoves(s: State, x: In)
    requires InOrder(s) && FlushFree(x)
    ensures Expect(Next(s, x)) == if Delivers(s, x) then Plus(s.p.s2Pc, 4) else Expect(s)
  {
    hide Aligned, Align, Plus, FetchPc, NextLoader, NextBurst, NextTags, NextBank, PortHit, PrefetchHalt;
    StreamFacts(s, x);
  }

  /** The first delivery after a jump is its word-aligned target. */
  lemma ExpectAfterJump(s: State, x: In)
    requires s.p.booted && x.jump && x.decodeRemove
    ensures Expect(Next(s, x)) == Align(x.target)
  {
    hide Aligned, Align, Plus, NextLoader, NextBurst, NextTags, NextBank, PortHit, PrefetchHalt;
    StreamFacts(s, x);
    assert FetchPc(s, x) == Align(x.target);
    hide FetchPc;
  }

  /** The (address, instruction) pairs delivered in a run. */
  function Delivered(s: State, xs: seq<In>): seq<(Word, Word)> {
    if xs == [] then [] else
      var t, x := After(s, xs[..|xs| - 1]), xs[|xs| - 1];
      Delivered(s, xs[..|xs| - 1]) + if Delivers(t, x) then [(t.p.s2Pc, t.p.s2Word)] else []
  }

  function Nth(pc: Word, n: nat): Word { if n == 0 then pc else Plus(Nth(pc, n - 1), 4) }

  /** n consecutive instructions of memory. */
  function Program(imem: Memory, pc: Word, n: nat): seq<(Word, Word)> {
    if n == 0 then [] else Program(imem, pc, n - 1) + [(Nth(pc, n - 1), imem(Nth(pc, n - 1)))]
  }

  lemma {:induction false} ProgramLength(imem: Memory, pc: Word, n: nat)
    ensures |Program(imem, pc, n)| == n
  {
    if n > 0 { ProgramLength(imem, pc, n - 1); }
  }

  lemma {:induction false} StreamRun(imem: Memory, s: State, xs: seq<In>)
    requires Inv(imem, s) && InOrder(s) && AllowedRun(imem, s, xs) && forall x :: x in xs ==> FlushFree(x)
    ensures Inv(imem, After(s, xs)) && InOrder(After(s, xs))
    ensures Delivered(s, xs) == Program(imem, Expect(s), |Delivered(s, xs)|)
    ensures Expect(After(s, xs)) == Nth(Expect(s), |Delivered(s, xs)|)
    decreases |xs|
  {
    hide Inv, Next, Allowed, AllowedRun, InOrder, FlushFree, Expect, Plus, OutputValid;
    if xs != [] {
      var ys, x := xs[..|xs| - 1], xs[|xs| - 1];
      var t := After(s, ys);
      PrefixAllowed(imem, s, xs);
      StreamRun(imem, s, ys);
      StreamStep(imem, t, x);
      if Delivers(t, x) {
        assert |Delivered(s, xs)| == |Delivered(s, ys)| + 1;
      } else {
        assert Delivered(s, xs) == Delivered(s, ys);
      }
    }
  }

  lemma StreamStep(imem: Memory, s: State, x: In)
    requires Inv(imem, s) && InOrder(s) && Allowed(imem, s, x) && FlushFree(x)
    ensures Inv(imem, Next(s, x)) && InOrder(Next(s, x))
    ensures Expect(Next(s, x)) == if Delivers(s, x) then Plus(Expect(s), 4) else Expect(s)
    ensures Delivers(s, x) ==> s.p.s2Pc == Expect(s) && s.p.s2Word == imem(Expect(s))
  {
    hide Inv, InOrder, Next, Aligned, Plus, StreamPc;
    InvKept(imem, s, x);
    InOrderKept(s, x);
    ExpectMoves(s, x);
    StageTwo(imem, s);
  }

  // --- Line fills ------------------------------------------------------------------

  /** The addresses filled in a run, in order. */
  function Fills(s: State, xs: seq<In>): seq<Word> {
    if xs == [] then [] else
      var t := After(s, xs[..|xs| - 1]);
      Fills(s, xs[..|xs| - 1]) + if Miss(t) then [t.p.s2Physical] else []
  }

  /** The bus transfers of a run: address and end-of-burst indication. */
  function Transfers(s: State, xs: seq<In>): seq<(Word, bool)> {
    if xs == [] then [] else
      var t, x := After(s, xs[..|xs| - 1]), xs[|xs| - 1];
      Transfers(s, xs[..|xs| - 1]) + if Transfer(t, x) then [(BusAddress(t), LastOfBurst(t))] else []
  }

  /** The first n transfers of the incrementing burst that fills the line of a. */
  function BurstPrefix(a: Word, n: nat): seq<(Word, bool)>
    requires n <= 8
  {
    if n == 0 then [] else BurstPrefix(a, n - 1) + [(LineWord(a, (n - 1) as bv3), n == 8)]
  }

  function Bursts(fills: seq<Word>): seq<(Word, bool)> {
    if fills == [] then [] else Bursts(fills[..|fills| - 1]) + BurstPrefix(fills[|fills| - 1], 8)
  }

  /** Transfers already made for the current or most recent fill. */
  function Sent(s: State): (n: nat)
    ensures n <= 8
  {
    if !s.l.valid then 8 else if !s.l.cmdSent then 0 else if s.b.adr == 0 then 8 else s.b.adr as nat
  }

  /** The transfers are whole bursts for all fills but the last, then what has been
      sent for that one. */
  predicate InBursts(transfers: seq<(Word, bool)>, fills: seq<Word>, s: State) {
    var n := |fills|;
    if n == 0 then transfers == [] && !s.l.valid
    else
      && transfers == Bursts(fills[..n - 1]) + BurstPrefix(fills[n - 1], Sent(s))
      && (s.l.valid ==> s.l.address == fills[n - 1])
  }

  lemma FillsNeverOverlap(imem: Memory, s: State)
    requires Inv(imem, s) && Miss(s)
    ensures !s.l.valid && !s.b.rspValid && !Cycle(s) && Sent(s) == 8
  {
    hide StagesOk, LinesOk, LoadingOk;
  }

  lemma SentStep(imem: Memory, s: State, x: In)
    requires Inv(imem, s)
    ensures Transfer(s, x) ==> s.l.valid && Sent(s) < 8 && s.b.adr == Sent(s) as bv3 && LastOfBurst(s) == (Sent(s) == 7)
    ensures Transfer(s, x) ==> Sent(Next(s, x)) == Sent(s) + 1
    ensures Miss(s) ==> Sent(Next(s, x)) == 0 && Next(s, x).l.valid && Next(s, x).l.address == s.p.s2Physical
    ensures !Transfer(s, x) && !Miss(s) ==> Sent(Next(s, x)) == Sent(s)
    ensures !Miss(s) ==> Next(s, x).l.address == s.l.address && (Next(s, x).l.valid ==> s.l.valid)
    ensures !(Transfer(s, x) && Miss(s))
  {
    hide StagesOk, LinesOk, LoadingOk, NextStages, NextTags, NextBank, FlushDone, LineWord;
    CountUp(s.b.adr);
  }

  lemma CountUp(k: WordIndex)
    ensures k != 7 ==> (k + 1) as nat == k as nat + 1
    ensures k as nat < 8 && (k as nat == 7 <==> k == 7) && (k as nat == 0 <==> k == 0) && (k as nat) as bv3 == k
    ensures k == 7 ==> k + 1 == 0
  {}

  lemma BurstStarts(transfers: seq<(Word, bool)>, fills: seq<Word>, s: State, t: State)
    requires InBursts(transfers, fills, s) && Sent(s) == 8 && Sent(t) == 0 && t.l.valid
    ensures InBursts(transfers, fills + [t.l.address], t)
  {
    hide Sent, LineWord;
    var fills' := fills + [t.l.address];
    assert fills'[..|fills|] == fills;
    assert transfers == Bursts(fills);
    assert Bursts(fills) + [] == Bursts(fills);
  }

  lemma BurstGoesOn(transfers: seq<(Word, bool)>, fills: seq<Word>, s: State, t: State)
    requires InBursts(transfers, fills, s) && s.l.valid && Sent(s) < 8 && Sent(t) == Sent(s) + 1
    requires s.b.adr == Sent(s) as bv3 && LastOfBurst(s) == (Sent(s) == 7) && t.l.address == s.l.address
    ensures InBursts(transfers + [(BusAddress(s), LastOfBurst(s))], fills, t)
  {
    hide Sent, LineWord, LastOfBurst;
  }

  lemma BurstRests(transfers: seq<(Word, bool)>, fills: seq<Word>, s: State, t: State)
    requires InBursts(transfers, fills, s) && Sent(t) == Sent(s) && t.l.address == s.l.address
             && (t.l.valid ==> s.l.valid)
    ensures InBursts(transfers, fills, t)
  {
    hide Sent, LineWord;
  }

  lemma BurstStep(imem: Memory, s: State, x: In, transfers: seq<(Word, bool)>, fills: seq<Word>)
    requires Inv(imem, s) && InBursts(transfers, fills, s)
    ensures InBursts(transfers + (if Transfer(s, x) then [(BusAddress(s), LastOfBurst(s))] else []),
                     fills + (if Miss(s) then [s.p.s2Physical] else []), Next(s, x))
  {
    hide Inv, InBursts, Next, Miss, Transfer, Sent, LastOfBurst, LineWord;
    assert transfers + [] == transfers && fills + [] == fills;
    SentStep(imem, s, x);
    if Miss(s) {
      FillsNeverOverlap(imem, s);
      BurstStarts(transfers, fills, s, Next(s, x));
    } else if Transfer(s, x) {
      BurstGoesOn(transfers, fills, s, Next(s, x));
    } else {
      BurstRests(transfers, fills, s, Next(s, x));
    }
  }

  /** Each fill makes exactly one incrementing burst of the eight words of its line,
      in order, with the end-of-burst tag only on the eighth, and bursts of
      different fills do not mix. */
  lemma {:induction false} OneBurstPerFill(imem: Memory, s: State, xs: seq<In>)
    requires Reset(s) && AllowedRun(imem, s, xs)
    ensures Inv(imem, After(s, xs)) && InBursts(Transfers(s, xs), Fills(s, xs), After(s, xs))
    decreases |xs|
  {
    hide Inv, Next, Allowed, AllowedRun, Miss, Transfer, Sent, BusAddress, LastOfBurst;
    if xs == [] {
      ResetInv(imem, s);
    } else {
      var ys, x := xs[..|xs| - 1], xs[|xs| - 1];
      PrefixAllowed(imem, s, xs);
      OneBurstPerFill(imem, s, ys);
      InvKept(imem, After(s, ys), x);
      BurstStep(imem, After(s, ys), x, Transfers(s, ys), Fills(s, ys));
      hide InBursts;
    }
  }
}
