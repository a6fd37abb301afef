/** The combinational data path of the execute, memory and writeBack stages:
    operand selection, the shared adder, comparison, branch unit, data-bus lanes
    and load formatting. */
module Execute {
  import opened Words
  import opened Decoder

  // --- Operand selection ----------------------------------------------------

  function ImmI(i: Word): Word { if i & 0x80000000 != 0 then 0xfffff000 | (i >> 20) else i >> 20 }

  function ImmS(i: Word): Word {
    var low := ((i >> 20) & 0xfe0) | ((i >> 7) & 0x1f);
    if i & 0x80000000 != 0 then 0xfffff000 | low else low
  }

  function ImmB(i: Word): Word {
    var low := ((i << 4) & 0x800) | ((i >> 20) & 0x7e0) | ((i >> 7) & 0x1e);
    if i & 0x80000000 != 0 then 0xfffff000 | low else low
  }

  function ImmJ(i: Word): Word {
    var low := (i & 0xff000) | ((i >> 9) & 0x800) | ((i >> 20) & 0x7fe);
    if i & 0x80000000 != 0 then 0xfff00000 | low else low
  }

  function Src1(i: Word, rs1: Word): Word {
    match Src1Sel(i)
    case Src1Rs => rs1
    case Src1PcIncrement => 4
    case Src1Imu => i & 0xfffff000
    case Src1Urs1 => (i >> 15) & 0x1f
  }

  function Src2(i: Word, pc: Word, rs2: Word): Word {
    match Src2Sel(i)
    case Src2Rs => rs2
    case Src2Imi => ImmI(i)
    case Src2Ims => ImmS(i)
    case Src2Pc => pc
  }

  // --- Adder, comparison, bitwise unit --------------------------------------

  function AddSub(i: Word, src1: Word, src2: Word): Word {
    if SrcAddZero(i) && !UsesSubLess(i) then src1
    else if UsesSubLess(i) then Minus(src1, src2)
    else Plus(src1, src2)
  }

  predicate Less(i: Word, src1: Word, src2: Word) {
    if Bit31(src1) == Bit31(src2) then Bit31(AddSub(i, src1, src2))
    else if LessUnsigned(i) then Bit31(src2)
    else Bit31(src1)
  }

  function AluOut(i: Word, src1: Word, src2: Word): Word {
    match Alu(i)
    case AluBitwise =>
      (match Bitwise(i)
       case BitwiseAnd => src1 & src2
       case BitwiseOr => src1 | src2
       case BitwiseXor => src1 ^ src2)
    case AluSlt => if Less(i, src1, src2) then 1 else 0
    case AluAddSub => AddSub(i, src1, src2)
  }

  // --- Shifter --------------------------------------------------------------

  /** One position of shift, as done in each cycle of the iterative shifter. */
  function ShiftOne(k: ShiftCtrl, x: Word): Word {
    match k
    case ShiftSll => x << 1
    case ShiftSra => if Bit31(x) then (x >> 1) | 0x80000000 else x >> 1
    case _ => x >> 1
  }

  /** The mathematical shift by n positions. */
  function ShiftBy(k: ShiftCtrl, x: Word, n: bv5): Word {
    match k
    case ShiftSll => ShiftLeft(x, n)
    case ShiftSra => if Bit31(x) then Invert(ShiftRight(Invert(x), n)) else ShiftRight(x, n)
    case _ => ShiftRight(x, n)
  }

  function Amount(src2: Word): bv5 { (src2 & 0x1f) as bv5 }

  // --- Branch unit ----------------------------------------------------------

  predicate BranchTaken(i: Word, src1: Word, src2: Word) {
    match Branch(i)
    case BranchInc => false
    case BranchJal => true
    case BranchJalr => true
    case BranchB =>
      if Funct3(i) == 0 then src1 == src2
      else if Funct3(i) == 1 then src1 != src2
      else if Funct3(i) & 5 == 5 then !Less(i, src1, src2)
      else Less(i, src1, src2)
  }

  predicate BranchDo(i: Word, pc: Word, rs1: Word, rs2: Word) {
    BranchTaken(i, Src1(i, rs1), Src2(i, pc, rs2))
  }

  function BranchBase(i: Word, pc: Word, rs1: Word): Word {
    if Branch(i) == BranchJalr then rs1 else pc
  }

  function BranchOffset(i: Word): Word {
    match Branch(i)
    case BranchJal => ImmJ(i)
    case BranchJalr => ImmI(i)
    case _ => ImmB(i)
  }

  function BranchTarget(i: Word, pc: Word, rs1: Word): Word {
    ClearBit0(Plus(BranchBase(i, pc, rs1), BranchOffset(i)))
  }

  // --- Data bus lanes -------------------------------------------------------

  function Size(i: Word): bv2 { ((i >> 12) & 3) as bv2 }

  function Address(i: Word, pc: Word, rs1: Word, rs2: Word): Word {
    AddSub(i, Src1(i, rs1), Src2(i, pc, rs2))
  }

  function AddressLow(a: Word): bv2 { (a & 3) as bv2 }

  predicate AlignFault(size: bv2, a: Word) {
    (size == 2 && a & 3 != 0) || (size == 1 && a & 1 != 0)
  }

  function StoreData(size: bv2, rs2: Word): Word {
    if size == 0 then
      var b := rs2 & 0xff; (b << 24) | (b << 16) | (b << 8) | b
    else if size == 1 then
      var h := rs2 & 0xffff; (h << 16) | h
    else rs2
  }

  function Lanes(wr: bool, size: bv2, a: Word): bv4 {
    if !wr then 15
    else
      var base: bv4 := if size == 0 then 1 else if size == 1 then 3 else 15;
      base << AddressLow(a)
  }

  /** Shifts the addressed byte or half-word of the bus word down to bit 0. */
  function ShiftedResponse(data: Word, low: bv2): Word {
    if low == 1 then (data & 0xffffff00) | ((data >> 8) & 0xff)
    else if low == 2 then (data & 0xffff0000) | (data >> 16)
    else if low == 3 then (data & 0xffffff00) | (data >> 24)
    else data
  }

  function FormatLoad(i: Word, data: Word, low: bv2): Word {
    var x := ShiftedResponse(data, low);
    var signed := i & 0x4000 == 0;
    if Size(i) == 0 then
      if x & 0x80 != 0 && signed then 0xffffff00 | (x & 0xff) else x & 0xff
    else if Size(i) == 1 then
      if x & 0x8000 != 0 && signed then 0xffff0000 | (x & 0xffff) else x & 0xffff
    else x
  }

  // --- Result written towards the memory stage -------------------------------

  /** The value of the execute stage's register-file result for an instruction
      that is neither a CSR access nor a load, once any shift has completed. */
  function ExecuteResult(i: Word, pc: Word, rs1: Word, rs2: Word): Word {
    var src1, src2 := Src1(i, rs1), Src2(i, pc, rs2);
    if Shift(i) != ShiftNone && Amount(src2) != 0 then ShiftBy(Shift(i), src1, Amount(src2))
    else AluOut(i, src1, src2)
  }
}
