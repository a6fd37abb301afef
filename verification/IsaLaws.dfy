/** What software relies on when it uses the CSRs: reads after writes, the interrupt
    enables, the trap vector and the way back from a trap. */
module IsaLaws {
  import opened Words
  import opened Machine
  import opened Isa
  import opened IsaStep

  // --- Reading and writing ------------------------------------------------------

  /** The bits of a CSR that a write replaces; the others read as zero. */
  function Writable(a: bv12): Word {
    if a == 0x300 then 0x1888
    else if a == 0x304 then 0x888
    else if a == 0x341 || a == 0xbc0 then 0xffffffff
    else 0
  }

  lemma AllOnes(v: Word)
    ensures v & 0xffffffff == v
  {}

  lemma WrittenBits(a: bv12)
    ensures Writable(a) != 0 <==> a == 0x300 || a == 0x304 || a == 0x341 || a == 0xbc0
  {}

  lemma ReadBack(c: CsrFile, p: Pins, a: bv12, v: Word)
    ensures Writable(a) != 0 ==> ReadCsr(WriteCsr(c, a, v), p, a) == v & Writable(a)
    ensures Writable(a) == 0 ==> ReadCsr(WriteCsr(c, a, v), p, a) == ReadCsr(c, p, a)
  {
    AllOnes(v);
    WrittenBits(a);
    hide Isa.Mip;
  }

  lemma OtherRead(c: Csrs, p: Pins, a: bv12, v: Word, b: bv12)
    requires a != b && !(a == 0xbc0 && b == 0xfc0)
    ensures CsrRead(CsrStore(c, a, v), p, b) == CsrRead(c, p, b)
  {
    PackOthers(c, a, v);
    hide CsrStore, StatusWord, LinesWord, CauseWord, Masked;
  }

  lemma LinesRead(c: Csrs, p: Pins, v: Word)
    ensures CsrRead(CsrStore(c, 0xbc0, v), p, 0xfc0) == v & p.irqLines
  {}

  /** A CSR reads back what was written under its mask; every other CSR reads as
      before, except the pending lines at 0xfc0, which show the new mask. */
  lemma ReadAfterWrite(c: Csrs, p: Pins, a: bv12, v: Word, b: bv12)
    ensures Writable(a) != 0 ==> CsrRead(CsrStore(c, a, v), p, a) == v & Writable(a)
    ensures Writable(a) == 0 ==> CsrRead(CsrStore(c, a, v), p, a) == CsrRead(c, p, a)
    ensures a != b && !(a == 0xbc0 && b == 0xfc0) ==> CsrRead(CsrStore(c, a, v), p, b) == CsrRead(c, p, b)
    ensures CsrRead(CsrStore(c, 0xbc0, v), p, 0xfc0) == v & p.irqLines
  {
    hide CsrRead, CsrStore, Pack, ReadCsr, WriteCsr, Writable;
    PackRead(CsrStore(c, a, v), p, a);
    PackRead(c, p, a);
    PackWrite(c, a, v);
    ReadBack(Pack(c), p, a, v);
    if a != b && !(a == 0xbc0 && b == 0xfc0) { OtherRead(c, p, a, v, b); }
    LinesRead(c, p, v);
  }

  // --- Interrupts -----------------------------------------------------------------

  lemma EnableBits(v: Word, w: Word)
    ensures w & 0x1888 & MIE != 0 <==> w & 0x8 != 0
    ensures v & 0x888 & (1 << 7) != 0 <==> v & 0x80 != 0
    ensures v & 0x888 & (1 << 3) != 0 <==> v & 0x8 != 0
    ensures v & 0x888 & (1 << 11) != 0 <==> v & 0x800 != 0
  {}

  /** After mie and mstatus have been written, exactly the interrupts whose bit was set
      can be taken, and none unless bit 3 of mstatus was. */
  lemma EnablesExactly(c: Csrs, v: Word, w: Word, code: bv4)
    ensures InterruptEnabled(CsrStore(CsrStore(c, 0x304, v), 0x300, w), code) <==>
              w & 0x8 != 0
              && ((code == 3 && v & 0x8 != 0) || (code == 7 && v & 0x80 != 0) || (code == 11 && v & 0x800 != 0))
  {
    EnabledMeans(CsrStore(CsrStore(c, 0x304, v), 0x300, w), code);
    PackWrite(CsrStore(c, 0x304, v), 0x300, w);
    PackWrite(c, 0x304, v);
    EnableBits(v, w);
    hide InterruptEnabled, CsrStore, Pack;
  }

  /** After mtvec has been written, exceptions and interrupts go to that address. */
  lemma VectorTaken(a: Arch, v: Word, t: Trap, code: bv4)
    requires t.Trap?
    ensures var b := a.(csr := CsrStore(a.csr, 0x305, v));
            TakeTrap(b, t).pc == v & 0xfffffffc && TakeInterrupt(b, code).pc == v & 0xfffffffc
  {
    VectorRead(v);
    hide VectorWord, BaseOf;
  }

  // --- The way back -----------------------------------------------------------------

  /** A handler that leaves mepc and mstatus as it found them. */
  predicate Handled(entered: Hart, g: Hart) {
    g.csr.mepc == entered.csr.mepc && g.csr.mstatus == entered.csr.mstatus
  }

  lemma StackedBit(s: Word)
    ensures var entered: Word := MPP | (if s & MIE != 0 then MPIE else 0);
            var left: Word := MPIE | (if entered & MPIE != 0 then MIE else 0);
            entered & 0x8 == 0 && left & 0x8 == s & 0x8
  {}

  lemma AlignedStays(a: Word)
    requires a & 3 == 0
    ensures a & 0xfffffffc == a
  {}

  /** What MRET finds after a trap: the program counter and the interrupt enable of
      the interrupted program, and everything else as the handler left it. */
  lemma Returns(h: Hart, entered: Hart, g: Hart, p: Pins, cause: Word)
    requires h.pc & 3 == 0 && Handled(entered, g)
    requires entered.csr.mepc == h.pc && entered.csr.mstatus == Enter(h.csr, cause, h.pc).mstatus
    ensures var r := StepWord(g, 0x30200073, p);
            && r.pc == h.pc && r.csr.mstatus & 0x8 == h.csr.mstatus & 0x8
            && r == g.(pc := r.pc, csr := g.csr.(mstatus := r.csr.mstatus))
    ensures entered.csr.mstatus & 0x8 == 0
  {
    MretMeans(g, p);
    AddressesAgree(g.csr.mepc);
    AlignedStays(h.pc);
    StackedBit(h.csr.mstatus);
    hide StepWord, Align;
  }

  /** An exception is entered with interrupts off and MRET comes back to the
      instruction that raised it. */
  lemma ExceptionReturns(h: Hart, code: bv4, value: Word, g: Hart, p: Pins)
    requires h.pc & 3 == 0 && Handled(Trapped(h, code, value), g)
    ensures Trapped(h, code, value).csr.mstatus & 0x8 == 0
    ensures var r := StepWord(g, 0x30200073, p);
            && r.pc == h.pc && r.csr.mstatus & 0x8 == h.csr.mstatus & 0x8
            && r == g.(pc := r.pc, csr := g.csr.(mstatus := r.csr.mstatus))
  {
    hide StepWord;
    Returns(h, Trapped(h, code, value), g, p, code as Word);
  }

  /** An interrupt likewise, at the instruction it came before. */
  lemma InterruptReturns(h: Hart, code: bv4, g: Hart, p: Pins)
    requires h.pc & 3 == 0 && Handled(StepInterrupt(h, code), g)
    ensures StepInterrupt(h, code).csr.mstatus & 0x8 == 0
    ensures var r := StepWord(g, 0x30200073, p);
            && r.pc == h.pc && r.csr.mstatus & 0x8 == h.csr.mstatus & 0x8
            && r == g.(pc := r.pc, csr := g.csr.(mstatus := r.csr.mstatus))
  {
    hide StepWord;
    Returns(h, StepInterrupt(h, code), g, p, 0x80000000 | (code as Word));
  }
}
