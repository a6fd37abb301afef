/** The cached fetch unit delivers memory: invariant and run theorems. */
module CacheProof {
  import opened Words
  import opened CachedFetch
  import DecoderFacts

  // --- Bits ---------------------------------------------------------------------

  /** The word of the line of a that pc selects is pc's own when line and tag match. */
  lemma SameLineWord(a: Word, pc: Word)
    requires Aligned(pc) && TagOf(a) == TagOf(pc) && LineOf(a) == LineOf(pc)
    ensures LineWord(a, IndexOf(pc)) == pc
  {}

  // --- Invariant ------------------------------------------------------------------

  /** Stage contents are aligned, and a tag and word in the read ports or in
      stage 2 that claim a hit are the instruction. */
  predicate StagesOk(imem: Memory, s: State) {
    var p := s.p;
    && (p.s1Valid ==> Aligned(p.pcReg) && (PortHit(p) ==> p.portWord == imem(p.pcReg) && !p.portTag.error))
    && (p.s2Valid ==> Aligned(p.s2Pc) && p.s2Physical == p.s2Pc && (p.s2Hit ==> p.s2Word == imem(p.s2Pc) && !p.s2Error))
  }

  /** The burst counter runs one response ahead of the word index. */
  predicate BurstOk(imem: Memory, s: State) {
    && s.b.adr == s.l.wordIndex + (if s.b.rspValid then 1 else 0)
    && (!s.l.valid ==> s.b.adr == 0 && s.l.wordIndex == 0 && !s.l.cmdSent && !s.b.rspValid)
    && (s.l.valid && !s.l.cmdSent ==> s.b.adr == 0 && s.l.wordIndex == 0 && !s.b.rspValid)
    && (s.l.valid && s.l.cmdSent ==> s.b.adr != 0 || LineDone(s))
    && (s.b.rspValid ==> s.b.rspData == imem(LineWord(s.l.address, s.l.wordIndex)))
    && !s.l.hadError
  }

  /** While a line loads, nothing younger is in the stages, and a flush under way is ahead of it. */
  predicate LoaderOk(s: State) {
    s.l.valid ==>
      && !s.p.s1Valid && !s.p.s2Valid
      && (s.l.flushCounter == 0 ==> !s.b.rspValid && s.l.wordIndex == 0)
      && (s.l.flushCounter == 1 ==> s.l.wordIndex == 0)
  }

  ghost predicate LineLoaded(imem: Memory, s: State, i: LineIndex, a: Word) {
    forall k: WordIndex :: s.bank(i, k) == imem(LineWord(a, k))
  }

  /** A valid line that is not being loaded equals memory. */
  ghost predicate LineOk(imem: Memory, s: State, i: LineIndex) {
    s.tags(i).valid && !(s.l.valid && LineOf(s.l.address) == i) ==>
      !s.tags(i).error && forall a: Word :: TagOf(a) == s.tags(i).address && LineOf(a) == i ==>
        LineLoaded(imem, s, i, a)
  }

  /** The words received so far are in the line being loaded. */
  ghost predicate LoadingOk(imem: Memory, s: State) {
    s.l.valid ==> forall k: WordIndex :: k < s.l.wordIndex ==>
      s.bank(LineOf(s.l.address), k) == imem(LineWord(s.l.address, k))
  }

  /** Before the first flush has passed a line its contents are arbitrary. */
  predicate Starting(s: State) {
    && !s.p.s1Valid && !s.p.s2Valid && !s.l.valid
    && (s.l.flushPending || !FlushDone(s))
  }

  ghost predicate LinesOk(imem: Memory, s: State) {
    || (LineOk(imem, s, 0) && LineOk(imem, s, 1))
    || (Starting(s) && (s.l.flushPending || s.l.flushCounter == 0))
    || (Starting(s) && s.l.flushCounter == 1 && LineOk(imem, s, 0))
  }

  ghost predicate Inv(imem: Memory, s: State) {
    && StagesOk(imem, s) && BurstOk(imem, s) && LoaderOk(s) && LinesOk(imem, s) && LoadingOk(imem, s)
    && (!s.p.booted ==> !s.p.s1Valid && !s.p.s2Valid)
  }

  lemma ResetInv(imem: Memory, s: State)
    requires Reset(s)
    ensures Inv(imem, s)
  {
    hide TagOf, LineOf, LineWord, Aligned, FlushDone;
  }

  // --- Preservation -------------------------------------------------------------------

  lemma LineCases(imem: Memory, s: State, i: LineIndex)
    requires LineOk(imem, s, 0) && LineOk(imem, s, 1)
    ensures LineOk(imem, s, i)
  {
    TwoLines(i);
    hide LineOk;
  }

  lemma TwoLines(i: LineIndex)
    ensures i == 0 || i == 1
  {}

  /** A word read from the cache with a matching valid tag is the instruction. */
  lemma CachedWord(imem: Memory, s: State, pc: Word)
    requires LinesOk(imem, s) && !s.l.valid && !s.l.flushPending && FlushDone(s) && Aligned(pc)
    requires s.tags(LineOf(pc)).valid && s.tags(LineOf(pc)).address == TagOf(pc)
    ensures s.bank(LineOf(pc), IndexOf(pc)) == imem(pc) && !s.tags(LineOf(pc)).error
  {
    hide TagOf, LineOf, IndexOf, LineWord, FlushDone, Aligned, LineOk;
    LineCases(imem, s, LineOf(pc));
    CachedLine(imem, s, pc);
    SameLineWord(pc, pc);
  }

  lemma CachedLine(imem: Memory, s: State, pc: Word)
    requires LineOk(imem, s, LineOf(pc)) && !s.l.valid && s.tags(LineOf(pc)).valid
             && s.tags(LineOf(pc)).address == TagOf(pc)
    ensures s.bank(LineOf(pc), IndexOf(pc)) == imem(LineWord(pc, IndexOf(pc))) && !s.tags(LineOf(pc)).error
  {
    hide TagOf, LineOf, IndexOf, LineWord;
    assert LineLoaded(imem, s, LineOf(pc), pc);
  }

  lemma FetchPcAligned(s: State, x: In)
    ensures Aligned(FetchPc(s, x))
  {
    hide Aligned, Align, Plus;
    DecoderFacts.AlignFacts(if x.jump then x.target else if Miss(s) then s.p.s2Pc
      else Plus(s.p.pcReg, if s.p.inc then 4 else 0));
  }

  lemma StagesKept(imem: Memory, s: State, x: In)
    requires Inv(imem, s) && Allowed(imem, s, x)
    ensures StagesOk(imem, Next(s, x))
  {
    hide NextLoader, NextBurst, NextTags, NextBank, BurstOk, LoadingOk, LinesOk, Aligned, LineWord, TagOf, LineOf,
      IndexOf, FetchPc, LoaderOk, FlushDone, Transfer, BusAddress;
    var pc := FetchPc(s, x);
    FetchPcAligned(s, x);
    if S2Ready(s, x) && !PrefetchHalt(s, x) && s.tags(LineOf(pc)).valid && s.tags(LineOf(pc)).address == TagOf(pc) {
      CachedWord(imem, s, pc);
    }
  }

  lemma BurstKept(imem: Memory, s: State, x: In)
    requires Inv(imem, s) && Allowed(imem, s, x)
    ensures BurstOk(imem, Next(s, x))
  {
    hide NextStages, NextTags, NextBank, StagesOk, LoadingOk, LinesOk, Aligned, LineWord, TagOf, LineOf, IndexOf,
      FlushDone;
  }

  lemma LoaderKept(imem: Memory, s: State, x: In)
    requires Inv(imem, s)
    ensures LoaderOk(Next(s, x))
  {
    hide NextTags, NextBank, StagesOk, LoadingOk, LinesOk, Aligned, LineWord, TagOf, LineOf, IndexOf, FetchPc, PortHit;
  }

  lemma LoadingKept(imem: Memory, s: State, x: In)
    requires Inv(imem, s)
    ensures LoadingOk(imem, Next(s, x))
  {
    hide NextTags, NextStages, StagesOk, LinesOk, Aligned, LineWord, TagOf, LineOf, IndexOf, FetchPc, PortHit,
      FlushDone;
  }

  lemma SameLine(a: Word, b: Word, k: WordIndex)
    requires TagOf(a) == TagOf(b) && LineOf(a) == LineOf(b)
    ensures LineWord(a, k) == LineWord(b, k)
  {}

  lemma IndexBound(k: WordIndex)
    ensures k < 7 || k == 7
  {}

  /** The eighth word completes the line. */
  lemma LineCompletes(imem: Memory, s: State, x: In)
    requires Inv(imem, s) && s.l.valid && LineDone(s)
    ensures LineOk(imem, Next(s, x), LineOf(s.l.address))
  {
    var s', i := Next(s, x), LineOf(s.l.address);
    CompletedTag(imem, s);
    forall a: Word | TagOf(a) == s'.tags(i).address && LineOf(a) == i ensures LineLoaded(imem, s', i, a) {
      CompletedWords(imem, s, x, a);
    }
    hide Next, LineDone, TagOf, LineOf, Inv, LineLoaded;
  }

  lemma CompletedTag(imem: Memory, s: State)
    requires Inv(imem, s) && s.l.valid && LineDone(s)
    ensures FlushDone(s) && NextTags(s)(LineOf(s.l.address)) == Tag(true, false, TagOf(s.l.address))
  {
    hide TagOf, LineOf, StagesOk, LoadingOk, LinesOk, LineWord;
  }

  lemma CompletedWords(imem: Memory, s: State, x: In, a: Word)
    requires Inv(imem, s) && s.l.valid && LineDone(s) && TagOf(a) == TagOf(s.l.address)
             && LineOf(a) == LineOf(s.l.address)
    ensures LineLoaded(imem, Next(s, x), LineOf(s.l.address), a)
  {
    hide TagOf, LineOf, LineWord, StagesOk, LinesOk, NextStages, NextLoader, NextBurst, NextTags;
    forall k: WordIndex ensures Next(s, x).bank(LineOf(s.l.address), k) == imem(LineWord(a, k)) {
      SameLine(a, s.l.address, k);
      IndexBound(k);
    }
  }

  /** A line that is neither loaded nor flushed in this cycle stays as it is. */
  lemma LineStays(imem: Memory, s: State, x: In, i: LineIndex)
    requires Inv(imem, s) && LineOk(imem, s, i) && !(s.l.valid && LineOf(s.l.address) == i)
    ensures LineOk(imem, Next(s, x), i)
  {
    hide TagOf, LineOf, LineWord, StagesOk, LinesOk, LoadingOk, NextStages, FlushDone;
    assert forall k: WordIndex :: Next(s, x).bank(i, k) == s.bank(i, k);
    if NextTags(s)(i).valid {
      assert NextTags(s)(i) == s.tags(i) by { TagStays(imem, s, i); }
      if !(Next(s, x).l.valid && LineOf(Next(s, x).l.address) == i) {
        forall a: Word | TagOf(a) == s.tags(i).address && LineOf(a) == i ensures LineLoaded(imem, Next(s, x), i, a) {
          assert LineLoaded(imem, s, i, a);
        }
      }
    }
  }

  lemma TagStays(imem: Memory, s: State, i: LineIndex)
    requires Inv(imem, s) && !(s.l.valid && LineOf(s.l.address) == i) && NextTags(s)(i).valid
    ensures NextTags(s)(i) == s.tags(i)
  {
    hide TagOf, LineOf, LineWord, StagesOk, LinesOk, LoadingOk;
  }

  lemma EachLineKept(imem: Memory, s: State, x: In, i: LineIndex)
    requires Inv(imem, s) && LineOk(imem, s, i)
    ensures LineOk(imem, Next(s, x), i)
  {
    hide Inv, LineOk, Next, LineOf, LineDone;
    if s.l.valid && LineOf(s.l.address) == i {
      if LineDone(s) {
        LineCompletes(imem, s, x);
      } else {
        LoadingLineExcused(imem, s, x);
      }
    } else {
      LineStays(imem, s, x, i);
    }
  }

  lemma LoadingLineExcused(imem: Memory, s: State, x: In)
    requires Inv(imem, s) && s.l.valid && !LineDone(s)
    ensures LineOk(imem, Next(s, x), LineOf(s.l.address))
  {
    hide TagOf, LineOf, LineWord, StagesOk, LinesOk, LoadingOk, NextStages, NextTags, NextBank, FlushDone;
  }

  lemma FirstFlush(imem: Memory, s: State, x: In)
    requires Inv(imem, s) && Starting(s)
    ensures var s' := Next(s, x);
            && !s'.p.s1Valid && !s'.p.s2Valid && !s'.l.valid
            && (s.l.flushPending ==> s'.l.flushCounter == 0)
            && (!s.l.flushPending && s.l.flushCounter == 0 ==> s'.l.flushCounter == 1 && LineOk(imem, s', 0))
            && (!s.l.flushPending && s.l.flushCounter == 1 ==> s'.l.flushCounter == 2 && LineOk(imem, s', 1))
  {
    hide TagOf, LineOf, LineWord, StagesOk, LinesOk, LoadingOk, PortHit, FetchPc, Aligned;
  }

  lemma CounterCases(c: bv2)
    ensures c & 2 == 0 <==> c == 0 || c == 1
  {}

  lemma LinesKept(imem: Memory, s: State, x: In)
    requires Inv(imem, s)
    ensures LinesOk(imem, Next(s, x))
  {
    hide Next, LineOk, StagesOk, BurstOk, LoaderOk, LoadingOk, LineOf;
    CounterCases(s.l.flushCounter);
    CounterCases(Next(s, x).l.flushCounter);
    if LineOk(imem, s, 0) { EachLineKept(imem, s, x, 0); }
    if LineOk(imem, s, 1) { EachLineKept(imem, s, x, 1); }
    if Starting(s) {
      FirstFlush(imem, s, x);
    }
  }

  lemma BootKept(imem: Memory, s: State, x: In)
    ensures Next(s, x).p.booted
  {
    hide NextLoader, NextBurst, NextTags, NextBank, FetchPc, Aligned;
  }

  lemma InvKept(imem: Memory, s: State, x: In)
    requires Inv(imem, s) && Allowed(imem, s, x)
    ensures Inv(imem, Next(s, x))
  {
    hide Next, StagesOk, BurstOk, LoaderOk, LoadingOk, LinesOk, Allowed;
    StagesKept(imem, s, x);
    BurstKept(imem, s, x);
    LoaderKept(imem, s, x);
    LinesKept(imem, s, x);
    LoadingKept(imem, s, x);
    BootKept(imem, s, x);
  }
}
