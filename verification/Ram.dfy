/** A RAM on the data bus.  Read data and byte-lane writes through the core's
    store replication, lane select, response shift and extension behave as a
    little-endian byte memory. */
module Ram {
  import opened Words
  import opened Decoder
  import opened Execute
  import opened Machine
  import opened Isa

  function ByteAddress(wordAddress: Word, k: Word): Word { (wordAddress << 2) | k }

  function LaneOf(a: Word): Word { a & 3 }

  /** Byte k, least significant first, of a bus word. */
  function ByteAt(data: Word, k: Word): bv8 {
    if k == 0 then ByteOf(data, 0) else if k == 1 then ByteOf(data, 8)
    else if k == 2 then ByteOf(data, 16) else ByteOf(data, 24)
  }

  predicate Selected(lanes: bv4, k: Word) {
    if k == 0 then lanes & 1 != 0 else if k == 1 then lanes & 2 != 0
    else if k == 2 then lanes & 4 != 0 else lanes & 8 != 0
  }

  /** A bus write changes the selected bytes of the addressed word and no other. */
  function Apply(m: Bytes, t: Txn): Bytes {
    match t
    case Read(_, _, _) => m
    case Write(wa, lanes, data) =>
      (b: Word) => if WordOf(b) == wa && Selected(lanes, LaneOf(b)) then ByteAt(data, LaneOf(b)) else m(b)
  }

  /** The response of a read is the addressed word. */
  predicate Answers(m: Bytes, t: Txn) {
    t.Read? ==>
      && ByteAt(t.data, 0) == m(ByteAddress(t.wordAddress, 0))
      && ByteAt(t.data, 1) == m(ByteAddress(t.wordAddress, 1))
      && ByteAt(t.data, 2) == m(ByteAddress(t.wordAddress, 2))
      && ByteAt(t.data, 3) == m(ByteAddress(t.wordAddress, 3))
  }

  function Replay(m: Bytes, log: seq<Txn>): Bytes {
    if log == [] then m else Apply(Replay(m, log[..|log| - 1]), log[|log| - 1])
  }

  /** The bus behaves as a RAM that starts with contents m. */
  predicate IsRam(m: Bytes, log: seq<Txn>) {
    log == [] || (IsRam(m, log[..|log| - 1]) && Answers(Replay(m, log[..|log| - 1]), log[|log| - 1]))
  }

  // --- Addresses ------------------------------------------------------------

  lemma SplitAddress(a: Word)
    ensures ByteAddress(WordOf(a), a & 3) == a
  {}

  lemma HalfAddress(a: Word)
    requires a & 1 == 0
    ensures Plus(a, 1) == ByteAddress(WordOf(a), (a & 3) | 1)
  {}

  lemma SecondAddress(a: Word)
    requires a & 3 == 0
    ensures Plus(a, 1) == ByteAddress(WordOf(a), 1)
  {}

  lemma ThirdAddress(a: Word)
    requires a & 3 == 0
    ensures Plus(a, 2) == ByteAddress(WordOf(a), 2)
  {}

  lemma FourthAddress(a: Word)
    requires a & 3 == 0
    ensures Plus(a, 3) == ByteAddress(WordOf(a), 3)
  {}

  // --- Loads ----------------------------------------------------------------

  predicate KindOf(w: Word, k: LoadKind) {
    match k
    case Lb => Size(w) == 0 && w & 0x4000 == 0
    case Lh => Size(w) == 1 && w & 0x4000 == 0
    case Lw => Size(w) == 2
    case Lbu => Size(w) == 0 && w & 0x4000 != 0
    case Lhu => Size(w) == 1 && w & 0x4000 != 0
  }

  lemma ShiftedByte(data: Word, a: Word)
    ensures ShiftedResponse(data, AddressLow(a)) & 0xff == ByteAt(data, a & 3) as Word
  {}

  lemma ShiftedHalf(data: Word, a: Word)
    requires a & 1 == 0
    ensures ShiftedResponse(data, AddressLow(a)) & 0xffff
            == (ByteAt(data, a & 3) as Word) | ((ByteAt(data, (a & 3) | 1) as Word) << 8)
  {
    if a & 3 == 0 {
    } else {
      assert a & 3 == 2;
    }
  }

  lemma ShiftedWord(data: Word, a: Word)
    requires a & 3 == 0
    ensures ShiftedResponse(data, AddressLow(a)) == data
  {}

  lemma Reassemble(data: Word)
    ensures data == (ByteAt(data, 0) as Word) | ((ByteAt(data, 1) as Word) << 8)
                    | (((ByteAt(data, 2) as Word) | ((ByteAt(data, 3) as Word) << 8)) << 16)
  {}

  lemma ExtendByte(w: Word, data: Word, low: bv2)
    requires Size(w) == 0
    ensures FormatLoad(w, data, low) ==
            var v := ShiftedResponse(data, low) & 0xff;
            if w & 0x4000 == 0 then SignExtend(v, 0x80) else v
  {
    hide ShiftedResponse;
  }

  lemma ExtendHalf(w: Word, data: Word, low: bv2)
    requires Size(w) == 1
    ensures FormatLoad(w, data, low) ==
            var v := ShiftedResponse(data, low) & 0xffff;
            if w & 0x4000 == 0 then SignExtend(v, 0x8000) else v
  {
    hide ShiftedResponse;
  }

  lemma PlainWord(w: Word, data: Word, low: bv2)
    requires Size(w) == 2
    ensures FormatLoad(w, data, low) == ShiftedResponse(data, low)
  {
    hide ShiftedResponse;
  }

  lemma AnswersAt(m: Bytes, a: Word, lanes: bv4, data: Word, k: Word)
    requires Answers(m, Read(WordOf(a), lanes, data)) && k <= 3
    ensures ByteAt(data, k) == m(ByteAddress(WordOf(a), k))
  {
    hide ByteAt, ByteAddress;
  }

  lemma ByteLoad(w: Word, k: LoadKind, m: Bytes, a: Word, data: Word)
    requires KindOf(w, k) && (k == Lb || k == Lbu) && Answers(m, Read(WordOf(a), 15, data))
    ensures FormatLoad(w, data, AddressLow(a)) == LoadValue(k, m, a)
  {
    hide FormatLoad, ShiftedResponse, AddressLow, ByteAt, ByteAddress, SignExtend, Size, Answers;
    SplitAddress(a);
    AnswersAt(m, a, 15, data, a & 3);
    ExtendByte(w, data, AddressLow(a));
    ShiftedByte(data, a);
  }

  lemma HalfLoad(w: Word, k: LoadKind, m: Bytes, a: Word, data: Word)
    requires KindOf(w, k) && (k == Lh || k == Lhu) && a & 1 == 0 && Answers(m, Read(WordOf(a), 15, data))
    ensures FormatLoad(w, data, AddressLow(a)) == LoadValue(k, m, a)
  {
    hide FormatLoad, ShiftedResponse, AddressLow, ByteAt, ByteAddress, SignExtend, Size, Plus, Answers;
    SplitAddress(a);
    AnswersAt(m, a, 15, data, a & 3);
    ExtendHalf(w, data, AddressLow(a));
    ShiftedHalf(data, a);
    HalfAddress(a);
    AnswersAt(m, a, 15, data, (a & 3) | 1);
  }

  lemma WordLoad(w: Word, m: Bytes, a: Word, data: Word)
    requires KindOf(w, Lw) && a & 3 == 0 && Answers(m, Read(WordOf(a), 15, data))
    ensures FormatLoad(w, data, AddressLow(a)) == LoadValue(Lw, m, a)
  {
    hide FormatLoad, ShiftedResponse, AddressLow, ByteAt, Size, Plus, Answers, Half;
    PlainWord(w, data, AddressLow(a));
    ShiftedWord(data, a);
    Reassemble(data);
    WordIsHalves(m, a, data);
  }

  /** An aligned load yields the ISA's value. */
  lemma LoadMatches(w: Word, k: LoadKind, m: Bytes, a: Word, data: Word)
    requires KindOf(w, k) && LoadAligned(k, a) && Answers(m, Read(WordOf(a), 15, data))
    ensures FormatLoad(w, data, AddressLow(a)) == LoadValue(k, m, a)
  {
    hide FormatLoad, LoadValue, KindOf, AddressLow, Answers;
    match k
    case Lb => ByteLoad(w, k, m, a, data);
    case Lbu => ByteLoad(w, k, m, a, data);
    case Lh => HalfLoad(w, k, m, a, data);
    case Lhu => HalfLoad(w, k, m, a, data);
    case Lw => WordLoad(w, m, a, data);
  }

  lemma WordIsHalves(m: Bytes, a: Word, data: Word)
    requires a & 3 == 0 && Answers(m, Read(WordOf(a), 15, data))
    ensures Half(m, a) == (ByteAt(data, 0) as Word) | ((ByteAt(data, 1) as Word) << 8)
    ensures Half(m, Plus(a, 2)) == (ByteAt(data, 2) as Word) | ((ByteAt(data, 3) as Word) << 8)
  {
    hide ByteAt, ByteAddress, Plus;
    SplitAddress(a);
    SecondAddress(a);
    ThirdAddress(a);
    FourthAddress(a);
    NextOfTwo(a);
  }

  lemma NextOfTwo(a: Word)
    ensures Plus(Plus(a, 2), 1) == Plus(a, 3)
  {}

  // --- Stores ---------------------------------------------------------------

  lemma SameAddress(a: Word, b: Word)
    ensures a == b <==> WordOf(a) == WordOf(b) && LaneOf(a) == LaneOf(b)
  {}

  lemma ByteLanes(a: Word, b: Word, v: Word)
    ensures Selected(Lanes(true, 0, a), LaneOf(b)) == (LaneOf(a) == LaneOf(b))
    ensures ByteAt(StoreData(0, v), LaneOf(b)) == ByteOf(v, 0)
  {}

  lemma HalfLanes(a: Word, b: Word, v: Word)
    requires a & 1 == 0
    ensures Selected(Lanes(true, 1, a), LaneOf(b)) == (LaneOf(b) == LaneOf(a) || LaneOf(b) == LaneOf(a) | 1)
    ensures ByteAt(StoreData(1, v), LaneOf(b)) == if LaneOf(b) & 1 == 0 then ByteOf(v, 0) else ByteOf(v, 8)
  {}

  lemma WordLanes(a: Word, b: Word, v: Word)
    requires a & 3 == 0
    ensures Selected(Lanes(true, 2, a), LaneOf(b)) && StoreData(2, v) == v
  {}

  lemma AddressParts(wa: Word, k: Word)
    requires k <= 3 && wa & 0xc0000000 == 0
    ensures WordOf(ByteAddress(wa, k)) == wa && LaneOf(ByteAddress(wa, k)) == k
  {}

  lemma WordAddressFits(a: Word)
    ensures WordOf(a) & 0xc0000000 == 0 && a & 3 <= 3 && LaneOf(a) <= 3
  {}

  function StoreSize(k: StoreKind): bv2 { match k case Sb => 0 case Sh => 1 case Sw => 2 }

  function StoreTxn(k: StoreKind, a: Word, v: Word): Txn {
    Write(WordOf(a), Lanes(true, StoreSize(k), a), StoreData(StoreSize(k), v))
  }

  lemma ByteStore(m: Bytes, a: Word, v: Word, b: Word)
    ensures Apply(m, StoreTxn(Sb, a, v))(b) == StoreValue(Sb, m, a, v)(b)
  {
    ByteLanes(a, b, v);
    SameAddress(a, b);
    hide ByteAt, ByteOf, Selected, Lanes, StoreData, LaneOf, WordOf;
  }

  lemma HalfStore(m: Bytes, a: Word, v: Word, b: Word)
    requires a & 1 == 0
    ensures Apply(m, StoreTxn(Sh, a, v))(b) == StoreValue(Sh, m, a, v)(b)
  {
    HalfLanes(a, b, v);
    SameAddress(a, b);
    SameAddress(Plus(a, 1), b);
    HalfAddress(a);
    WordAddressFits(a);
    OddLane(a);
    AddressParts(WordOf(a), (a & 3) | 1);
    hide ByteAt, ByteOf, Selected, Lanes, StoreData, LaneOf, WordOf, Plus, ByteAddress;
  }

  lemma OddLane(a: Word)
    requires a & 1 == 0
    ensures (a & 3) | 1 <= 3 && LaneOf(a) == a & 3 && LaneOf(a) & 1 == 0 && (LaneOf(a) | 1) & 1 == 1
  {}

  lemma OffsetIsOr(a: Word, k: Word)
    requires a & 3 == 0 && k <= 3
    ensures Plus(a, k) == a | k
  {}

  lemma OrParts(a: Word, k: Word)
    requires a & 3 == 0 && k <= 3
    ensures WordOf(a | k) == WordOf(a) && LaneOf(a | k) == k
  {}

  lemma PartsDecide(a: Word, b: Word)
    requires WordOf(a) == WordOf(b) && LaneOf(a) == LaneOf(b)
    ensures a == b
  {}

  lemma OrLane(a: Word, k: Word, b: Word)
    requires a & 3 == 0 && k <= 3
    ensures (b == a | k) == (WordOf(b) == WordOf(a) && LaneOf(b) == k)
  {
    hide WordOf, LaneOf;
    OrParts(a, k);
    if WordOf(b) == WordOf(a) && LaneOf(b) == k { PartsDecide(a | k, b); }
  }

  /** The byte addresses of an aligned word are told apart by their lanes. */
  lemma OffsetLane(a: Word, k: Word, b: Word)
    requires a & 3 == 0 && k <= 3
    ensures (b == Plus(a, k)) == (WordOf(b) == WordOf(a) && LaneOf(b) == k)
  {
    hide Plus, WordOf, LaneOf;
    OffsetIsOr(a, k);
    OrLane(a, k, b);
  }

  lemma OrZero(a: Word)
    ensures a | 0 == a
  {}

  lemma FourLanes(b: Word)
    ensures LaneOf(b) == 0 || LaneOf(b) == 1 || LaneOf(b) == 2 || LaneOf(b) == 3
  {}

  lemma WordStore(m: Bytes, a: Word, v: Word, b: Word)
    requires a & 3 == 0
    ensures Apply(m, StoreTxn(Sw, a, v))(b) == StoreValue(Sw, m, a, v)(b)
  {
    hide ByteOf, Selected, Lanes, StoreData, LaneOf, WordOf, Plus;
    WordLanes(a, b, v);
    OrLane(a, 0, b);
    OffsetLane(a, 1, b);
    OffsetLane(a, 2, b);
    OffsetLane(a, 3, b);
    FourLanes(b);
    OrZero(a);
    var t := StoreTxn(Sw, a, v);
    assert t == Write(WordOf(a), Lanes(true, 2, a), v);
    assert Apply(m, t)(b) == if WordOf(b) == WordOf(a) then ByteAt(v, LaneOf(b)) else m(b);
  }

  /** An aligned store changes exactly the bytes the ISA changes. */
  lemma StoreMatches(k: StoreKind, m: Bytes, a: Word, v: Word, b: Word)
    requires StoreAligned(k, a)
    ensures Apply(m, StoreTxn(k, a, v))(b) == StoreValue(k, m, a, v)(b)
  {
    hide Apply, StoreTxn, StoreValue;
    match k
    case Sb => ByteStore(m, a, v, b);
    case Sh => HalfStore(m, a, v, b);
    case Sw => WordStore(m, a, v, b);
  }
}
