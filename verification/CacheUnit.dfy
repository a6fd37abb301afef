/** The cached fetch unit as the RTL writes it: blocks of clocked assignments, a
    later one overriding an earlier one, over the values from before the edge. */
module CacheUnit {
  import opened Words
  import opened CachedFetch
  import opened CacheProof
  import CacheTheorems

  /** A clock edge in reset: the program counter takes the reset vector, a flush becomes
      pending, and the registers without a reset value keep their contents. */
  method ResetBlock(s: State, externalResetVector: Word) returns (n: State)
    ensures Reset(n) && n.p.pcReg == externalResetVector && n.tags == s.tags && n.bank == s.bank
  {
    n := s.(p := s.p.(pcReg := externalResetVector, booted := false, inc := false, s1Valid := false, s2Valid := false),
            l := s.l.(valid := false, hadError := false, flushPending := true, cmdSent := false, wordIndex := 0),
            b := s.b.(adr := 0, rspValid := false));
  }

  /** Program counter registers. */
  method PcBlock(s: State, x: In) returns (pcReg: Word, inc: bool)
    ensures pcReg == NextStages(s, x).pcReg && inc == NextStages(s, x).inc
  {
    hide FetchPc, S0Ready, S2Ready, Correction, FetchValid, FlushStages, PrefetchHalt, PortHit, LineOf, IndexOf;
    pcReg, inc := s.p.pcReg, s.p.inc;
    if Correction(s, x) || S2Ready(s, x) { inc := false; }
    if FetchValid(s, x) && S0Ready(s, x) { inc := true; }
    if !FetchValid(s, x) && S0Ready(s, x) { inc := false; }
    if s.p.booted && (S0Ready(s, x) || Correction(s, x) || S2Ready(s, x)) { pcReg := FetchPc(s, x); }
  }

  /** Valid bits of stages 1 and 2. */
  method ValidBlock(s: State, x: In) returns (s1Valid: bool, s2Valid: bool)
    ensures s1Valid == NextStages(s, x).s1Valid && s2Valid == NextStages(s, x).s2Valid
  {
    hide FetchPc, S0Ready, S2Ready, Correction, FetchValid, FlushStages, PrefetchHalt, PortHit, LineOf, IndexOf;
    s1Valid, s2Valid := s.p.s1Valid, s.p.s2Valid;
    if FlushStages(s, x) { s1Valid := false; }
    if S2Ready(s, x) { s1Valid := FetchValid(s, x) && !PrefetchHalt(s, x); }
    if FlushStages(s, x) { s2Valid := false; }
    if S2Ready(s, x) { s2Valid := s.p.s1Valid && !FlushStages(s, x); }
  }

  /** RAM read ports, and the registers between stages 1 and 2. */
  method StageBlock(s: State, x: In) returns (p: Stages)
    ensures p == NextStages(s, x)
  {
    var pcReg, inc := PcBlock(s, x);
    var s1Valid, s2Valid := ValidBlock(s, x);
    hide FetchPc, S0Ready, S2Ready, Correction, FetchValid, FlushStages, PrefetchHalt, PortHit, LineOf, IndexOf;
    p := s.p;
    if S2Ready(s, x) {
      var pc := FetchPc(s, x);
      p := Stages(pcReg, inc, true, s1Valid, s.tags(LineOf(pc)), s.bank(LineOf(pc), IndexOf(pc)),
                  s2Valid, s.p.pcReg, s.p.pcReg, PortHit(s.p), s.p.portTag.error, s.p.portWord);
    } else {
      p := p.(pcReg := pcReg, inc := inc, booted := true, s1Valid := s1Valid, s2Valid := s2Valid);
    }
  }

  /** Line loader. */
  method LoaderBlock(s: State, x: In) returns (valid: bool, address: Word, hadError: bool, cmdSent: bool,
    wordIndex: WordIndex)
    ensures var l := NextLoader(s, x);
            valid == l.valid && address == l.address && hadError == l.hadError && cmdSent == l.cmdSent
              && wordIndex == l.wordIndex
  {
    hide Miss, LineDone, StartFlush, FlushDone, CmdValid;
    valid, address, hadError, cmdSent, wordIndex := s.l.valid, s.l.address, s.l.hadError, s.l.cmdSent, s.l.wordIndex;
    if LineDone(s) { valid := false; }
    if LineDone(s) { hadError := false; }
    if Miss(s) { valid := true; }
    if CmdValid(s) && x.ack { cmdSent := true; }
    if LineDone(s) { cmdSent := false; }
    if s.b.rspValid { wordIndex := s.l.wordIndex + 1; }
    if Miss(s) { address := s.p.s2Physical; }
  }

  /** Flush request and counter. */
  method FlushBlock(s: State, x: In) returns (pending: bool, counter: bv2)
    ensures pending == NextLoader(s, x).flushPending && counter == NextLoader(s, x).flushCounter
  {
    hide Miss, LineDone, StartFlush, FlushDone, CmdValid;
    pending, counter := s.l.flushPending, s.l.flushCounter;
    if x.flush { pending := true; }
    if StartFlush(s) { pending := false; }
    if !FlushDone(s) { counter := s.l.flushCounter + 1; }
    if StartFlush(s) { counter := 0; }
  }

  class FetchUnit {
    var stages: Stages
    var loader: Loader
    var burst: Burst
    var waysTags: LineIndex -> Tag
    var banks: (LineIndex, WordIndex) -> Word

    function Snapshot(): State
      reads this
    {
      State(stages, loader, burst, waysTags, banks)
    }

    /** One rising clock edge out of reset. */
    method Tick(x: In)
      modifies this
      ensures Snapshot() == Next(old(Snapshot()), x)
    {
      hide NextStages, NextLoader, FlushDone, Transfer, NextTags, NextBank;
      var s := Snapshot();
      var p := StageBlock(s, x);
      var valid, address, hadError, cmdSent, wordIndex := LoaderBlock(s, x);
      var pending, counter := FlushBlock(s, x);
      var adr := s.b.adr;
      if Cycle(s) {
        if x.ack { adr := s.b.adr + 1; }
      }
      LoaderParts(s, x);
      stages, waysTags, banks := p, NextTags(s), NextBank(s);
      loader := Loader(valid, address, hadError, cmdSent, wordIndex, pending, counter, FlushDone(s));
      burst := Burst(adr, Cycle(s) && x.ack, x.data);
      assert burst == NextBurst(s, x) by { TransferIs(s, x); }
    }

    /** Runs from any state that a run from reset can reach and returns what decode
        receives: without flushes, consecutive instructions of memory. */
    method Run(imem: Memory, xs: seq<In>) returns (delivered: seq<(Word, Word)>)
      requires Inv(imem, Snapshot()) && CacheTheorems.InOrder(Snapshot())
      requires CacheTheorems.AllowedRun(imem, Snapshot(), xs) && forall x :: x in xs ==> CacheTheorems.FlushFree(x)
      modifies this
      ensures Snapshot() == CacheTheorems.After(old(Snapshot()), xs)
      ensures delivered == CacheTheorems.Program(imem, CacheTheorems.Expect(old(Snapshot())), |delivered|)
    {
      hide Inv, CacheTheorems.InOrder, CacheTheorems.AllowedRun, CacheTheorems.FlushFree, Next, OutputValid,
        Snapshot, CacheTheorems.Expect;
      ghost var s := Snapshot();
      var i := 0;
      delivered := [];
      while i < |xs|
        invariant 0 <= i <= |xs|
        invariant Snapshot() == CacheTheorems.After(s, xs[..i])
        invariant delivered == CacheTheorems.Delivered(s, xs[..i])
      {
        assert xs[..i + 1][..i] == xs[..i] && xs[..i + 1][i] == xs[i];
        var t := Snapshot();
        if OutputValid(t) && !xs[i].decodeStuck { delivered := delivered + [(t.p.s2Pc, t.p.s2Word)]; }
        Tick(xs[i]);
        i := i + 1;
      }
      assert xs[..|xs|] == xs;
      CacheTheorems.StreamRun(imem, s, xs);
    }
  }

  lemma LoaderParts(s: State, x: In)
    ensures NextLoader(s, x).seen == FlushDone(s)
  {
    hide Miss, LineDone, StartFlush, FlushDone, CmdValid;
  }

  lemma TransferIs(s: State, x: In)
    ensures Transfer(s, x) == (Cycle(s) && x.ack)
  {
    hide Cycle;
  }
}
