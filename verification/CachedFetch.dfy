/** The cached fetch unit, clock by clock: the three fetch stages of
    IBusCachedPlugin, the two-line by eight-word InstructionCache with its line
    loader and flush counter, and the Wishbone burst adapter. */
module CachedFetch {
  import opened Words

  type LineIndex = bv1
  type WordIndex = bv3
  type Memory = Word -> Word

  datatype Tag = Tag(valid: bool, error: bool, address: bv26)

  /** Line loader and flush registers.  seen is the registered flushCounter[1]. */
  datatype Loader = Loader(
    valid: bool, address: Word, hadError: bool, cmdSent: bool, wordIndex: WordIndex,
    flushPending: bool, flushCounter: bv2, seen: bool)

  /** Burst counter and the response registered one cycle after the acknowledge. */
  datatype Burst = Burst(adr: WordIndex, rspValid: bool, rspData: Word)

  /** Stage 1 is described by pcReg and the read-port registers, stage 2 by the rest. */
  datatype Stages = Stages(
    pcReg: Word, inc: bool, booted: bool, s1Valid: bool, portTag: Tag, portWord: Word,
    s2Valid: bool, s2Pc: Word, s2Physical: Word, s2Hit: bool, s2Error: bool, s2Word: Word)

  datatype State = State(
    p: Stages, l: Loader, b: Burst,
    tags: LineIndex -> Tag, bank: (LineIndex, WordIndex) -> Word)

  /** What the back end, the external flush request and the bus do in one cycle. */
  datatype In = In(
    decodeStuck: bool, decodeRemove: bool, decodeFlushNext: bool,
    jump: bool, target: Word, fetcherHalt: bool, flush: bool,
    ack: bool, data: Word)

  predicate Reset(s: State) {
    && !s.p.booted && !s.p.inc && !s.p.s1Valid && !s.p.s2Valid
    && !s.l.valid && !s.l.hadError && s.l.flushPending && !s.l.cmdSent && s.l.wordIndex == 0
    && s.b.adr == 0 && !s.b.rspValid
  }

  // --- Addresses --------------------------------------------------------------

  function TagOf(a: Word): bv26 { (a >> 6) as bv26 }
  function LineOf(a: Word): LineIndex { ((a >> 5) & 1) as bv1 }
  function IndexOf(a: Word): WordIndex { ((a >> 2) & 7) as bv3 }

  /** The byte address of a word of the line that contains a. */
  function LineWord(a: Word, k: WordIndex): Word { (a & 0xffffffe0) | ((k as Word) << 2) }

  // --- Cache wires ------------------------------------------------------------

  predicate FlushDone(s: State) { s.l.flushCounter & 2 != 0 }
  predicate PrefetchHalt(s: State, x: In) {
    s.l.valid || s.l.flushPending || !FlushDone(s) || !s.l.seen || x.flush
  }
  predicate StartFlush(s: State) { s.l.flushPending && !(s.l.valid || s.p.s1Valid) }
  predicate LineDone(s: State) { s.b.rspValid && s.l.wordIndex == 7 }
  predicate PortHit(p: Stages) { p.portTag.valid && p.portTag.address == TagOf(p.pcReg) }

  predicate Miss(s: State) { s.p.s2Valid && !s.p.s2Hit }
  predicate Issue(s: State) { Miss(s) || (s.p.s2Valid && s.p.s2Error) }

  /** What decode sees. */
  predicate OutputValid(s: State) { s.p.s2Valid && !Issue(s) }

  // --- Bus wires --------------------------------------------------------------

  predicate CmdValid(s: State) { s.l.valid && !s.l.cmdSent }
  predicate Cycle(s: State) { CmdValid(s) || s.b.adr != 0 }
  predicate Transfer(s: State, x: In) { Cycle(s) && x.ack }
  function BusAddress(s: State): Word { LineWord(s.l.address, s.b.adr) }
  predicate LastOfBurst(s: State) { s.b.adr == 7 }

  // --- Fetch stages -----------------------------------------------------------

  predicate S2Ready(s: State, x: In) { !x.decodeStuck && !Issue(s) }
  predicate FetchValid(s: State, x: In) { !x.fetcherHalt && s.p.booted }
  predicate S0Ready(s: State, x: In) { S2Ready(s, x) && !PrefetchHalt(s, x) }
  predicate Correction(s: State, x: In) { Miss(s) || x.jump }
  predicate FlushStages(s: State, x: In) {
    x.decodeRemove || (x.decodeFlushNext && !x.decodeStuck) || Miss(s)
  }

  function FetchPc(s: State, x: In): Word {
    Align(if x.jump then x.target else if Miss(s) then s.p.s2Pc else Plus(s.p.pcReg, if s.p.inc then 4 else 0))
  }

  function NextStages(s: State, x: In): Stages {
    var p, pc := s.p, FetchPc(s, x);
    Stages(
      if p.booted && (S0Ready(s, x) || Correction(s, x) || S2Ready(s, x)) then pc else p.pcReg,
      if !FetchValid(s, x) && S0Ready(s, x) then false
      else if FetchValid(s, x) && S0Ready(s, x) then true
      else if Correction(s, x) || S2Ready(s, x) then false
      else p.inc,
      true,
      if S2Ready(s, x) then FetchValid(s, x) && !PrefetchHalt(s, x) else if FlushStages(s, x) then false else p.s1Valid,
      if S2Ready(s, x) then s.tags(LineOf(pc)) else p.portTag,
      if S2Ready(s, x) then s.bank(LineOf(pc), IndexOf(pc)) else p.portWord,
      if S2Ready(s, x) then p.s1Valid && !FlushStages(s, x) else if FlushStages(s, x) then false else p.s2Valid,
      if S2Ready(s, x) then p.pcReg else p.s2Pc,
      if S2Ready(s, x) then p.pcReg else p.s2Physical,
      if S2Ready(s, x) then PortHit(p) else p.s2Hit,
      if S2Ready(s, x) then p.portTag.error else p.s2Error,
      if S2Ready(s, x) then p.portWord else p.s2Word)
  }

  function NextLoader(s: State, x: In): Loader {
    var l := s.l;
    Loader(
      if Miss(s) then true else if LineDone(s) then false else l.valid,
      if Miss(s) then s.p.s2Physical else l.address,
      if LineDone(s) then false else l.hadError,
      if LineDone(s) then false else if CmdValid(s) && x.ack then true else l.cmdSent,
      if s.b.rspValid then l.wordIndex + 1 else l.wordIndex,
      if StartFlush(s) then false else if x.flush then true else l.flushPending,
      if StartFlush(s) then 0 else if !FlushDone(s) then l.flushCounter + 1 else l.flushCounter,
      FlushDone(s))
  }

  function NextBurst(s: State, x: In): Burst {
    Burst(if Transfer(s, x) then s.b.adr + 1 else s.b.adr, Transfer(s, x), x.data)
  }

  // --- RAMs -------------------------------------------------------------------

  /** A tag is written when a line completes and, invalid, at each step of a flush. */
  predicate TagWrite(s: State) { LineDone(s) || !FlushDone(s) }
  function TagWriteLine(s: State): LineIndex {
    if FlushDone(s) then LineOf(s.l.address) else (s.l.flushCounter & 1) as bv1
  }

  function NextTags(s: State): LineIndex -> Tag {
    if TagWrite(s) then
      var w, t := TagWriteLine(s), Tag(FlushDone(s), s.l.hadError, TagOf(s.l.address));
      (i: LineIndex) => if i == w then t else s.tags(i)
    else s.tags
  }

  function NextBank(s: State): (LineIndex, WordIndex) -> Word {
    if s.b.rspValid then
      var i, k, v := LineOf(s.l.address), s.l.wordIndex, s.b.rspData;
      (j: LineIndex, n: WordIndex) => if j == i && n == k then v else s.bank(j, n)
    else s.bank
  }

  function Next(s: State, x: In): State {
    State(NextStages(s, x), NextLoader(s, x), NextBurst(s, x), NextTags(s), NextBank(s))
  }

  // --- Environment ------------------------------------------------------------

  /** A jump always removes the instruction in decode, and an acknowledged
      transfer returns the addressed word. */
  predicate Allowed(imem: Memory, s: State, x: In) {
    && (x.jump ==> x.decodeRemove)
    && (Transfer(s, x) ==> x.data == imem(BusAddress(s)))
  }
}
