/** The minimised instruction decoder of VexRiscv_MinDebug: one Boolean per bit of
    the 27-bit control word, each an OR of mask-and-compare terms, and the
    legality mask list.  The functions below are named after the pipeline signal
    that the bit drives. */
module Decoder {
  import opened Words

  type RegIndex = bv5

  // --- Fields of the instruction word --------------------------------------

  function Rd(i: Word): RegIndex { ((i >> 7) & 0x1f) as bv5 }
  function Rs1(i: Word): RegIndex { ((i >> 15) & 0x1f) as bv5 }
  function Rs2(i: Word): RegIndex { ((i >> 20) & 0x1f) as bv5 }
  function Funct3(i: Word): bv3 { ((i >> 12) & 7) as bv3 }
  function CsrAddress(i: Word): bv12 { (i >> 20) as bv12 }

  // --- Shared terms ---------------------------------------------------------

  predicate Term3(i: Word) { i & 0x00004050 == 0x00004050 }
  predicate Term4(i: Word) { i & 0x00000004 == 0x00000004 }
  predicate Term5(i: Word) { i & 0x00000050 == 0x00000010 }
  predicate Term6(i: Word) { i & 0x00000048 == 0x00000048 }

  // --- Control word, bits 26 down to 0 (bits 26, 13, 11 and 10 drive nothing
  //     while the debug module is idle and there is no bypass network) -------

  datatype EnvCtrl = EnvNone | EnvXret | EnvEcall | EnvOther
  datatype BranchCtrl = BranchInc | BranchB | BranchJal | BranchJalr
  datatype ShiftCtrl = ShiftNone | ShiftSll | ShiftSrl | ShiftSra
  datatype BitwiseCtrl = BitwiseXor | BitwiseOr | BitwiseAnd
  datatype AluCtrl = AluAddSub | AluSlt | AluBitwise
  datatype Src1Ctrl = Src1Rs | Src1Imu | Src1PcIncrement | Src1Urs1
  datatype Src2Ctrl = Src2Rs | Src2Imi | Src2Ims | Src2Pc

  function Env(i: Word): EnvCtrl {
    var b25 := i & 0x10103050 == 0x00000050;
    var b24 := i & 0x10403050 == 0x10000050;
    if b25 && b24 then EnvOther else if b25 then EnvEcall else if b24 then EnvXret else EnvNone
  }

  predicate IsCsr(i: Word) {
    i & 0x00001050 == 0x00001050 || i & 0x00002050 == 0x00002050
  }

  function Branch(i: Word): BranchCtrl {
    var b22 := Term6(i) || i & 0x0000001c == 0x00000004;
    var b21 := i & 0x00000058 == 0x00000040;
    if b22 && b21 then BranchJalr else if b22 then BranchJal else if b21 then BranchB else BranchInc
  }

  function Shift(i: Word): ShiftCtrl {
    var b20 := i & 0x00007054 == 0x00005010;
    var b19 := i & 0x40003054 == 0x40001010 || i & 0x00007054 == 0x00001010;
    if b20 && b19 then ShiftSra else if b20 then ShiftSrl else if b19 then ShiftSll else ShiftNone
  }

  predicate SrcAddZero(i: Word) {
    i & 0x00000064 == 0x00000024 || i & 0x00003054 == 0x00001010
  }

  function Bitwise(i: Word): BitwiseCtrl {
    var b17 := i & 0x00001000 == 0x00001000;
    var b16 := i & 0x00003000 == 0x00002000;
    if b17 && !b16 then BitwiseAnd else if b16 && !b17 then BitwiseOr else BitwiseXor
  }

  predicate LessUnsigned(i: Word) {
    i & 0x00002010 == 0x00002000 || i & 0x00005000 == 0x00001000
  }

  predicate UsesRs2(i: Word) {
    i & 0x00000034 == 0x00000020 || i & 0x00000064 == 0x00000020
  }

  predicate IsStore(i: Word) { i & 0x00000020 == 0x00000020 }

  predicate RegfileWriteBit(i: Word) {
    || Term6(i)
    || i & 0x00001010 == 0x00001010
    || i & 0x00002010 == 0x00002010
    || Term5(i)
    || i & 0x0000000c == 0x00000004
    || i & 0x00000028 == 0
  }

  predicate WritesRd(i: Word) { RegfileWriteBit(i) && Rd(i) != 0 }

  function Src2Sel(i: Word): Src2Ctrl {
    var b8 := Term4(i) || i & 0x00000070 == 0x00000020;
    var b7 := Term4(i) || i & 0x00000020 == 0;
    if b8 && b7 then Src2Pc else if b8 then Src2Ims else if b7 then Src2Imi else Src2Rs
  }

  function Alu(i: Word): AluCtrl {
    var b6 := i & 0x00006014 == 0x00006010 || i & 0x00005014 == 0x00004010;
    var b5 := i & 0x00006014 == 0x00002010;
    if b6 && !b5 then AluBitwise else if b5 && !b6 then AluSlt else AluAddSub
  }

  predicate UsesRs1(i: Word) {
    || i & 0x00000044 == 0
    || i & 0x00000018 == 0
    || i & 0x00006004 == 0x00002000
    || i & 0x00005004 == 0x00001000
  }

  predicate IsMem(i: Word) { i & 0x00000058 == 0 }

  predicate UsesSubLess(i: Word) {
    || i & 0x00000044 == 0x00000040
    || i & 0x00002014 == 0x00002010
    || i & 0x40004034 == 0x40000030
  }

  function Src1Sel(i: Word): Src1Ctrl {
    var b1 := i & 0x00000014 == 0x00000004 || Term3(i);
    var b0 := i & 0x00000044 == 0x00000004 || Term3(i);
    if b1 && b0 then Src1Urs1 else if b1 then Src1PcIncrement else if b0 then Src1Imu else Src1Rs
  }

  predicate Legal(i: Word) {
    || i & 0x0000005f == 0x00000017
    || i & 0x0000007f == 0x0000006f
    || i & 0x0000106f == 0x00000003
    || i & 0x0000107f == 0x00001073
    || i & 0x0000207f == 0x00002073
    || i & 0x0000407f == 0x00004063
    || i & 0x0000207f == 0x00002013
    || i & 0x0000603f == 0x00000023
    || i & 0x0000207f == 0x00000003
    || i & 0x0000505f == 0x00000003
    || i & 0x0000707b == 0x00000063
    || i & 0x0000607f == 0x0000000f
    || i & 0xfe00007f == 0x00000033
    || i & 0xbc00707f == 0x00005013
    || i & 0xfc00307f == 0x00001013
    || i & 0xbe00707f == 0x00005033
    || i & 0xbe00707f == 0x00000033
    || i & 0xdfffffff == 0x10200073
    || i & 0xffefffff == 0x00000073
    || i == 0x10500073
  }
}
