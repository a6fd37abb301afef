/** LiteX CSR accessors of the firmware, for 32-bit subregisters.  A bank models
    the aligned words of the CSR space: bank[k] is the word at byte address 4k. */
module CsrBuffers {
  const W: nat := 0x1_0000_0000

  // --- Numbers as digits, most significant first ------------------------------

  function Times(x: int, y: int): int { x * y }

  function Pow(b: nat, n: nat): int { if n == 0 then 1 else Times(Pow(b, n - 1), b) }

  function Val(s: seq<nat>, b: nat): int {
    if s == [] then 0 else Times(Val(s[..|s| - 1], b), b) + s[|s| - 1]
  }

  predicate Below(s: seq<nat>, b: nat) { forall k :: 0 <= k < |s| ==> s[k] < b }

  lemma Distribute(x: int, y: int, b: int)
    ensures Times(x + y, b) == Times(x, b) + Times(y, b)
  {}

  lemma Associate(x: int, y: int, b: int)
    ensures Times(Times(x, y), b) == Times(x, Times(y, b))
  {}

  lemma Bigger(x: int, y: int, b: int)
    requires b > 0
    ensures x >= y ==> Times(x, b) >= Times(y, b)
    ensures x > y ==> Times(x, b) >= Times(y, b) + b
  {
    if x > y {
      BiggerStep(x - y - 1, b);
      Distribute(x - y - 1, y + 1, b);
      Distribute(y, 1, b);
    }
  }

  lemma BiggerStep(x: int, b: int)
    requires x >= 0 && b > 0
    ensures Times(x, b) >= 0 && Times(1, b) == b
  {}

  lemma {:induction false} PowPositive(b: nat, n: nat)
    requires b > 0
    ensures Pow(b, n) > 0
  {
    hide Times;
    if n > 0 {
      PowPositive(b, n - 1);
      Bigger(Pow(b, n - 1), 0, b);
      Zero(b);
    }
  }

  lemma Zero(b: int)
    ensures Times(0, b) == 0 && Times(b, 0) == 0 && Times(1, b) == b && Times(b, 1) == b
  {}

  lemma {:induction false} PowAdd(b: nat, m: nat, n: nat)
    ensures Pow(b, m + n) == Times(Pow(b, m), Pow(b, n))
    decreases n
  {
    hide Times;
    if n == 0 {
      Zero(Pow(b, m));
    } else {
      PowAdd(b, m, n - 1);
      Associate(Pow(b, m), Pow(b, n - 1), b);
    }
  }

  lemma {:induction false} ValConcat(s: seq<nat>, t: seq<nat>, b: nat)
    ensures Val(s + t, b) == Times(Val(s, b), Pow(b, |t|)) + Val(t, b)
    decreases |t|
  {
    hide Times;
    if t == [] {
      assert s + t == s;
      Zero(Val(s, b));
    } else {
      var u := t[..|t| - 1];
      assert (s + t)[..|s + t| - 1] == s + u;
      ValConcat(s, u, b);
      Distribute(Times(Val(s, b), Pow(b, |u|)), Val(u, b), b);
      Associate(Val(s, b), Pow(b, |u|), b);
    }
  }

  lemma {:induction false} ValBelow(s: seq<nat>, b: nat)
    requires b > 0 && Below(s, b)
    ensures 0 <= Val(s, b) < Pow(b, |s|)
  {
    hide Times;
    if s != [] {
      var t := s[..|s| - 1];
      ValBelow(t, b);
      Bigger(Val(t, b), 0, b);
      Bigger(Pow(b, |t|), Val(t, b), b);
      Zero(b);
    }
  }

  lemma SplitUnique(u: int, v: int, x: int, y: int, b: int)
    requires Times(u, b) + x == Times(v, b) + y && 0 <= x < b && 0 <= y < b
    ensures u == v && x == y
  {
    hide Times;
    Bigger(u, v, b);
    Bigger(v, u, b);
  }

  /** Digits below the base are determined by the value. */
  lemma {:induction false} SameDigits(s: seq<nat>, t: seq<nat>, b: nat)
    requires b > 0 && |s| == |t| && Below(s, b) && Below(t, b) && Val(s, b) == Val(t, b)
    ensures s == t
  {
    hide Times;
    if s == [] {
      assert t == [];
    } else {
      var n := |s| - 1;
      SplitUnique(Val(s[..n], b), Val(t[..n], b), s[n], t[n], b);
      SameDigits(s[..n], t[..n], b);
      assert s == s[..n] + [s[n]] && t == t[..n] + [t[n]];
    }
  }

  lemma DivMod(x: int, b: int)
    requires x >= 0 && b > 0
    ensures x == Times(x / b, b) + x % b && x / b >= 0 && 0 <= x % b < b
  {}

  lemma ModUnique(x: int, b: int, q: int, r: int)
    requires b > 0 && x == Times(q, b) + r && 0 <= r < b && x >= 0
    ensures x % b == r
  {
    DivMod(x, b);
    Bigger(x / b, q, b);
    Bigger(q, x / b, b);
    hide Times;
  }

  // --- One CSR ----------------------------------------------------------------

  /** Words needed for a CSR of the given size in bytes. */
  function NumSubregs(bytes: nat): nat
    requires bytes >= 1
  {
    (bytes - 1) / 4 + 1
  }

  lemma OneDigit(x: nat, b: nat)
    ensures Val([x], b) == x
  {
    assert [x][..0] == [];
    Zero(b);
  }

  lemma TwoDigits(x: nat, y: nat, b: nat)
    ensures Val([x, y], b) == Times(x, b) + y
  {
    assert [x, y][..1] == [x];
    OneDigit(x, b);
  }

  /** Reads the words of a CSR, most significant first, into a 64-bit value. */
  method CsrRead(bank: array<nat>, a: nat, bytes: nat) returns (r: nat)
    requires 1 <= bytes <= 8 && a + NumSubregs(bytes) <= bank.Length && Below(bank[..], W)
    ensures r == Val(bank[a..a + NumSubregs(bytes)], W)
  {
    var p := a;
    r := bank[p];
    assert bank[a..a + 1] == [bank[a]];
    OneDigit(r, W);
    var i := 1;
    while i < NumSubregs(bytes)
      invariant 1 <= i <= NumSubregs(bytes) && p == a + i - 1
      invariant r == Val(bank[a..a + i], W)
      invariant i == 1 ==> r < W
    {
      p := p + 1;
      assert bank[a..a + i + 1][..i] == bank[a..a + i];
      r := r * W % 0x1_0000_0000_0000_0000 + bank[p];
      i := i + 1;
    }
  }

  /** Writes a 64-bit value to the words of a CSR, most significant first, and drops
      what does not fit. */
  method CsrWrite(bank: array<nat>, a: nat, v: nat, bytes: nat)
    requires 1 <= bytes <= 8 && a + NumSubregs(bytes) <= bank.Length && Below(bank[..], W)
    requires v < 0x1_0000_0000_0000_0000
    modifies bank
    ensures Below(bank[..], W) && Pow(W, NumSubregs(bytes)) > 0
    ensures Val(bank[a..a + NumSubregs(bytes)], W) == v % Pow(W, NumSubregs(bytes))
    ensures forall k :: 0 <= k < bank.Length && !(a <= k < a + NumSubregs(bytes)) ==> bank[k] == old(bank[k])
  {
    var ns := NumSubregs(bytes);
    var i := 0;
    while i < ns
      invariant 0 <= i <= ns
      invariant forall k :: 0 <= k < bank.Length && !(a <= k < a + i) ==> bank[k] == old(bank[k])
      invariant forall k :: a <= k < a + i ==> bank[k] == (if k == a + ns - 1 then v % W else v / W % W)
    {
      bank[a + i] := (if ns - 1 - i == 0 then v else v / W) % W;
      i := i + 1;
    }
    WordsHold(bank[a..a + ns], v);
  }

  /** The low words of v, most significant first, hold its value as far as they go. */
  lemma WordsHold(ws: seq<nat>, v: nat)
    requires |ws| == 1 || |ws| == 2
    requires ws[|ws| - 1] == v % W && (|ws| == 2 ==> ws[0] == v / W % W) && v < 0x1_0000_0000_0000_0000
    ensures Pow(W, |ws|) > 0 && Val(ws, W) == v % Pow(W, |ws|)
  {
    TwoPowers();
    if |ws| == 1 {
      assert ws == [v % W];
      OneDigit(v % W, W);
    } else {
      TwoHalves(v);
      assert ws == [v / W, v % W];
      TwoDigits(v / W, v % W, W);
      DivMod(v, W);
    }
  }

  lemma TwoHalves(v: nat)
    requires v < 0x1_0000_0000_0000_0000
    ensures v / W % W == v / W
  {
    assert v / W < W;
  }

  lemma TwoPowers()
    ensures Pow(W, 1) == W && Pow(W, 2) == 0x1_0000_0000_0000_0000
  {
    assert Pow(W, 0) == 1;
    assert Pow(W, 2) == Times(Pow(W, 1), W);
  }

  // --- Buffers ----------------------------------------------------------------

  predicate ElementSize(size: nat) { size == 1 || size == 2 || size == 4 || size == 8 }

  /** Number base of an element of the given size in bytes. */
  function Base(size: nat): nat
    requires ElementSize(size)
  {
    if size == 1 then 0x100 else if size == 2 then 0x1_0000 else if size == 4 then W else 0x1_0000_0000_0000_0000
  }

  /** Elements in a word. */
  function PerWord(size: nat): nat
    requires size >= 1
  {
    4 / size
  }

  /** A word holds 4 / size elements, or an element holds size / 4 words. */
  lemma Bases(size: nat)
    requires ElementSize(size)
    ensures size < 4 ==> Pow(Base(size), PerWord(size)) == W
    ensures size >= 4 ==> Pow(W, size / 4) == Base(size) && NumSubregs(size) == size / 4
  {
    TwoPowers();
    var b := Base(size);
    assert Pow(b, 0) == 1 && Pow(b, 1) == b;
    assert Pow(b, 2) == Times(Pow(b, 1), b);
    assert Pow(b, 3) == Times(Pow(b, 2), b);
    assert Pow(b, 4) == Times(Pow(b, 3), b);
  }

  lemma AppendElement(s: seq<nat>, e: nat, ws: seq<nat>, w: seq<nat>, size: nat)
    requires ElementSize(size) && size >= 4 && |w| == size / 4
    requires Val(ws, W) == Val(s, Base(size)) && Val(w, W) == e
    ensures Val(ws + w, W) == Val(s + [e], Base(size))
  {
    hide Times;
    Bases(size);
    ValConcat(ws, w, W);
    ValConcat(s, [e], Base(size));
    OneDigit(e, Base(size));
    assert Pow(Base(size), 1) == Times(Pow(Base(size), 0), Base(size));
    Zero(Base(size));
  }

  lemma AppendWord(s: seq<nat>, g: seq<nat>, ws: seq<nat>, w: nat, size: nat)
    requires ElementSize(size) && size < 4 && |g| == PerWord(size)
    requires Val(ws, W) == Val(s, Base(size)) && Val(g, Base(size)) == w
    ensures Val(ws + [w], W) == Val(s + g, Base(size))
  {
    hide Times;
    Bases(size);
    ValConcat(ws, [w], W);
    ValConcat(s, g, Base(size));
    OneDigit(w, W);
    TwoPowers();
  }

  /** Index of the first element of word i; negative for a padded first word. */
  function First(i: nat, nsubelems: nat, offset: nat): int { i * nsubelems - offset }

  /** Index of element j of word i. */
  function Index(i: nat, j: int, nsubelems: nat, offset: nat): (k: int)
    ensures k == First(i, nsubelems, offset) + j
  {
    i * nsubelems + j - offset
  }

  /** The inner loop of the buffer write: the elements of word i, packed. */
  method PackWord(buf: array<nat>, i: nat, nsubelems: nat, offset: nat, b: nat) returns (v: nat)
    requires b > 0 && Below(buf[..], b) && 0 <= First(i, nsubelems, offset) + nsubelems <= buf.Length
    ensures var lo := First(i, nsubelems, offset);
            v == Val(buf[(if lo < 0 then 0 else lo)..lo + nsubelems], b)
  {
    hide Times, First, Index;
    ghost var lo := First(i, nsubelems, offset);
    ghost var from := if lo < 0 then 0 else lo;
    v := 0;
    var j := 0;
    while j < nsubelems
      invariant 0 <= j <= nsubelems
      invariant v == if lo + j < 0 then 0 else Val(buf[from..lo + j], b)
    {
      if Index(i, j, nsubelems, offset) >= 0 {
        assert buf[from..lo + j + 1][..lo + j - from] == buf[from..lo + j];
        BiggerStep(v, b);
        v := Times(v, b) + buf[Index(i, j, nsubelems, offset)];
      }
      j := j + 1;
    }
  }

  /** Words occupied by cnt elements. */
  function Words(size: nat, cnt: nat): nat
    requires size >= 1 && cnt >= 1
  {
    NumSubregs(size * cnt)
  }

  lemma WordsOfLarge(size: nat, cnt: nat)
    requires (size == 4 || size == 8) && cnt >= 1
    ensures Words(size, cnt) == cnt * (size / 4)
  {}

  lemma WordsOfSmall(size: nat, cnt: nat)
    requires (size == 1 || size == 2) && cnt >= 1
    ensures var n := PerWord(size); (Words(size, cnt) - 1) * n < cnt <= Words(size, cnt) * n
  {}

  lemma BasePositive(size: nat)
    requires ElementSize(size)
    ensures Base(size) > 0
  {}

  lemma BaseBound(size: nat)
    requires ElementSize(size)
    ensures Base(size) <= 0x1_0000_0000_0000_0000
  {}

  lemma Fits(v: nat, b: int)
    requires v < b
    ensures v % b == v
  {}

  lemma ElementFits(v: nat, size: nat)
    requires ElementSize(size) && size >= 4 && v < Base(size)
    ensures v < Pow(W, NumSubregs(size))
  {
    Bases(size);
  }

  lemma GroupFits(g: seq<nat>, size: nat)
    requires ElementSize(size) && size < 4 && |g| <= PerWord(size) && Below(g, Base(size))
    ensures 0 <= Val(g, Base(size)) < W
  {
    Bases(size);
    ValBelow(g, Base(size));
    PowAdd(Base(size), |g|, PerWord(size) - |g|);
    PowPositive(Base(size), PerWord(size) - |g|);
    PowPositive(Base(size), |g|);
    AtLeast(Pow(Base(size), |g|), Pow(Base(size), PerWord(size) - |g|));
    hide Times;
  }

  lemma AtLeast(x: int, y: int)
    requires x > 0 && y > 0
    ensures Times(x, y) >= x
  {}

  lemma NothingVal(b: nat)
    ensures Val([], b) == 0 && Val([], W) == 0
  {}

  /** Writes one element after the words ws. */
  method WriteElement(bank: array<nat>, a: nat, p: nat, e: nat, size: nat) returns (ghost d: seq<nat>)
    requires (size == 4 || size == 8) && a <= p && p + NumSubregs(size) <= bank.Length && Below(bank[..], W)
             && e < Base(size)
    modifies bank
    ensures |d| == size / 4 == NumSubregs(size) && Val(d, W) == e && Below(bank[..], W)
    ensures bank[a..p + NumSubregs(size)] == old(bank[a..p]) + d
    ensures forall k :: 0 <= k < bank.Length && !(p <= k < p + NumSubregs(size)) ==> bank[k] == old(bank[k])
  {
    hide Val, Times, Pow;
    Bases(size);
    ElementFits(e, size);
    BaseBound(size);
    CsrWrite(bank, p, e, size);
    Fits(e, Pow(W, NumSubregs(size)));
    d := bank[p..p + NumSubregs(size)];
  }

  /** One or more words per element. */
  method WriteWide(bank: array<nat>, a: nat, buf: array<nat>, size: nat)
    requires (size == 4 || size == 8) && buf.Length >= 1 && bank != buf && a + Words(size, buf.Length) <= bank.Length
    requires Below(bank[..], W) && Below(buf[..], Base(size))
    modifies bank
    ensures Below(bank[..], W) && Val(bank[a..a + Words(size, buf.Length)], W) == Val(buf[..], Base(size))
    ensures forall k :: 0 <= k < bank.Length && !(a <= k < a + Words(size, buf.Length)) ==> bank[k] == old(bank[k])
  {
    hide Val, Times, Pow, Base;
    var cnt, m, p, i := buf.Length, NumSubregs(size), a, 0;
    WordsOfLarge(size, cnt);
    NothingVal(Base(size));
    assert bank[a..p] == [] && buf[..i] == [];
    while i < cnt
      invariant 0 <= i <= cnt && p == a + i * m
      invariant Below(bank[..], W) && Val(bank[a..p], W) == Val(buf[..i], Base(size))
      invariant forall k :: 0 <= k < bank.Length && !(a <= k < p) ==> bank[k] == old(bank[k])
    {
      Room(i, cnt, m);
      ghost var ws := bank[a..p];
      ghost var d := WriteElement(bank, a, p, buf[i], size);
      AppendElement(buf[..i], buf[i], ws, d, size);
      assert buf[..i + 1] == buf[..i] + [buf[i]];
      p := p + m;
      i := i + 1;
    }
    assert buf[..cnt] == buf[..];
  }

  method PutWord(bank: array<nat>, a: nat, p: nat, v: nat)
    requires a <= p < bank.Length && Below(bank[..], W) && v < W
    modifies bank
    ensures Below(bank[..], W) && bank[a..p + 1] == old(bank[a..p]) + [v]
    ensures forall k :: 0 <= k < bank.Length && k != p ==> bank[k] == old(bank[k])
  {
    bank[p] := v;
  }

  /** The first words stand for the first elements, as many as they hold. */
  predicate Covers(ws: seq<nat>, s: seq<nat>, size: nat, filled: int)
    requires ElementSize(size)
  {
    ws != [] ==> 0 < filled <= |s| && Val(ws, W) == Val(s[..filled], Base(size))
  }

  lemma CoverMore(ws: seq<nat>, s: seq<nat>, size: nat, lo: int, v: nat)
    requires size == 1 || size == 2
    requires Covers(ws, s, size, lo) && (ws == [] ==> lo <= 0)
    requires var hi := lo + PerWord(size); 0 < hi <= |s| && v == Val(s[(if lo < 0 then 0 else lo)..hi], Base(size))
    ensures Covers(ws + [v], s, size, lo + PerWord(size))
  {
    hide Times, Pow, Base;
    var hi := lo + PerWord(size);
    if ws == [] {
      assert ws + [v] == [v] && s[..hi] == s[0..hi];
      OneDigit(v, W);
    } else {
      AppendWord(s[..lo], s[lo..hi], ws, v, size);
      assert s[..hi] == s[..lo] + s[lo..hi];
    }
  }

  /** Several elements per word, the first word only partly filled. */
  method WriteNarrow(bank: array<nat>, a: nat, buf: array<nat>, size: nat)
    requires (size == 1 || size == 2) && buf.Length >= 1 && bank != buf && a + Words(size, buf.Length) <= bank.Length
    requires Below(bank[..], W) && Below(buf[..], Base(size))
    modifies bank
    ensures Below(bank[..], W) && Val(bank[a..a + Words(size, buf.Length)], W) == Val(buf[..], Base(size))
    ensures forall k :: 0 <= k < bank.Length && !(a <= k < a + Words(size, buf.Length)) ==> bank[k] == old(bank[k])
  {
    hide Val, Times, Pow, Base, PerWord, Covers, First;
    var cnt, p, i := buf.Length, a, 0;
    var nsubregs, nsubelems := NumSubregs(size * cnt), PerWord(size);
    var offset := nsubregs * nsubelems - cnt;
    WordsOfSmall(size, cnt);
    BasePositive(size);
    assert bank[a..p] == [];
    NothingCovered(buf[..], size, First(0, nsubelems, offset));
    while i < nsubregs
      invariant 0 <= i <= nsubregs && p == a + i
      invariant Below(bank[..], W) && Covers(bank[a..p], buf[..], size, First(i, nsubelems, offset))
      invariant forall k :: 0 <= k < bank.Length && !(a <= k < p) ==> bank[k] == old(bank[k])
    {
      WordRoom(i, nsubregs, nsubelems, cnt, offset);
      var v := PackWord(buf, i, nsubelems, offset, Base(size));
      ghost var lo := First(i, nsubelems, offset);
      WordFits(buf[..], if lo < 0 then 0 else lo, lo + nsubelems, size);
      SliceOfAll(buf, if lo < 0 then 0 else lo, lo + nsubelems);
      CoverMore(bank[a..p], buf[..], size, lo, v);
      PutWord(bank, a, p, v);
      p := p + 1;
      i := i + 1;
    }
    AllCovered(bank[a..p], buf[..], size, nsubregs, nsubelems, offset);
  }

  lemma SliceOfAll(buf: array<nat>, from: nat, to: nat)
    requires from <= to <= buf.Length
    ensures buf[from..to] == buf[..][from..to]
  {}

  lemma NothingCovered(s: seq<nat>, size: nat, filled: int)
    requires ElementSize(size)
    ensures Covers([], s, size, filled)
  {}

  lemma WordFits(s: seq<nat>, from: nat, to: nat, size: nat)
    requires (size == 1 || size == 2) && from <= to <= |s| && to - from <= PerWord(size) && Below(s, Base(size))
    ensures 0 <= Val(s[from..to], Base(size)) < W
  {
    GroupFits(s[from..to], size);
  }

  lemma AllCovered(ws: seq<nat>, s: seq<nat>, size: nat, nsubregs: nat, nsubelems: nat, offset: nat)
    requires ElementSize(size) && ws != [] && Covers(ws, s, size, First(nsubregs, nsubelems, offset))
             && offset == nsubregs * nsubelems - |s|
    ensures Val(ws, W) == Val(s, Base(size))
  {
    assert s[..|s|] == s;
    hide Val, Base;
  }

  /** The words written, read as one big-endian number, are the elements read as
      one; no other word changes. */
  method CsrWriteBuffer(bank: array<nat>, a: nat, buf: array<nat>, size: nat)
    requires ElementSize(size) && buf.Length >= 1 && bank != buf && a + Words(size, buf.Length) <= bank.Length
    requires Below(bank[..], W) && Below(buf[..], Base(size))
    modifies bank
    ensures Below(bank[..], W) && Val(bank[a..a + Words(size, buf.Length)], W) == Val(buf[..], Base(size))
    ensures forall k :: 0 <= k < bank.Length && !(a <= k < a + Words(size, buf.Length)) ==> bank[k] == old(bank[k])
  {
    if size >= 4 {
      WriteWide(bank, a, buf, size);
    } else {
      WriteNarrow(bank, a, buf, size);
    }
  }

  lemma Room(i: nat, cnt: nat, m: nat)
    requires i < cnt && (m == 1 || m == 2)
    ensures i * m + m <= cnt * m && (i + 1) * m == i * m + m
  {
    if m == 1 {
      assert i * m == i && cnt * m == cnt;
    } else {
      assert i * m == 2 * i && cnt * m == 2 * cnt;
    }
  }

  lemma WordRoom(i: nat, nsubregs: nat, n: nat, cnt: nat, offset: int)
    requires i < nsubregs && n > 0 && (nsubregs - 1) * n < cnt <= nsubregs * n && offset == nsubregs * n - cnt
    ensures 0 <= offset < n && 0 < First(i, n, offset) + n <= cnt
    ensures First(i + 1, n, offset) == First(i, n, offset) + n
    ensures (i == 0 ==> First(i, n, offset) <= 0) && (i > 0 ==> First(i, n, offset) > 0)
  {
    assert (nsubregs - 1) * n == nsubregs * n - n;
    assert (i + 1) * n == i * n + n;
    assert (i + 1) * n <= nsubregs * n;
    if i > 0 { assert i * n >= n; }
  }

  // --- Reading back -----------------------------------------------------------

  method ReadElement(bank: array<nat>, a: nat, p: nat, size: nat) returns (r: nat, ghost d: seq<nat>)
    requires (size == 4 || size == 8) && a <= p && p + NumSubregs(size) <= bank.Length && Below(bank[..], W)
    ensures |d| == size / 4 == NumSubregs(size) && r == Val(d, W) < Base(size)
    ensures bank[a..p + NumSubregs(size)] == bank[a..p] + d
  {
    hide Val, Times, Pow;
    Bases(size);
    r := CsrRead(bank, p, size);
    d := bank[p..p + NumSubregs(size)];
    ReadFits(d, size);
  }

  method ReadWide(bank: array<nat>, a: nat, buf: array<nat>, size: nat)
    requires (size == 4 || size == 8) && buf.Length >= 1 && bank != buf && a + Words(size, buf.Length) <= bank.Length
    requires Below(bank[..], W)
    modifies buf
    ensures Below(buf[..], Base(size)) && Val(buf[..], Base(size)) == Val(bank[a..a + Words(size, buf.Length)], W)
  {
    hide Val, Times, Pow, Base;
    var cnt, m, p, i := buf.Length, NumSubregs(size), a, 0;
    WordsOfLarge(size, cnt);
    NothingVal(Base(size));
    assert bank[a..p] == [] && buf[..i] == [];
    while i < cnt
      invariant 0 <= i <= cnt && p == a + i * m
      invariant Below(buf[..i], Base(size)) && Val(bank[a..p], W) == Val(buf[..i], Base(size))
    {
      Room(i, cnt, m);
      ghost var s := buf[..i];
      ghost var d: seq<nat>;
      buf[i], d := ReadElement(bank, a, p, size);
      assert buf[..i + 1] == s + [buf[i]];
      AppendElement(s, buf[i], bank[a..p], d, size);
      p := p + m;
      i := i + 1;
    }
    assert buf[..cnt] == buf[..];
  }

  lemma ReadFits(ws: seq<nat>, size: nat)
    requires (size == 4 || size == 8) && |ws| == NumSubregs(size) && Below(ws, W)
    ensures 0 <= Val(ws, W) < Base(size)
  {
    Bases(size);
    ValBelow(ws, W);
  }

  /** An element of the given base and what remains above it. */
  function LowDigit(r: nat, b: nat): (d: nat)
    requires b > 0
    ensures d < b
  {
    r % b
  }

  function Above(r: nat, b: nat): nat
    requires b > 0
  {
    r / b
  }

  lemma PrependDigit(w: int, r: nat, s: seq<nat>, b: nat)
    requires b > 0 && w == Times(r, Pow(b, |s|)) + Val(s, b)
    ensures w == Times(Above(r, b), Pow(b, |s| + 1)) + Val([LowDigit(r, b)] + s, b)
  {
    hide Times;
    var d := r % b;
    DivMod(r, b);
    ValConcat([d], s, b);
    OneDigit(d, b);
    Distribute(Times(r / b, b), d, Pow(b, |s|));
    Associate(r / b, b, Pow(b, |s|));
    PowAdd(b, 1, |s|);
    assert Pow(b, 0) == 1 && Pow(b, 1) == Times(Pow(b, 0), b);
    Zero(b);
  }

  /** The inner loop of the buffer read: the elements of word i, last one first. */
  method UnpackWord(w: nat, buf: array<nat>, i: nat, nsubelems: nat, offset: nat, b: nat) returns (r: nat)
    requires b > 0 && 0 < First(i, nsubelems, offset) + nsubelems <= buf.Length
    modifies buf
    ensures var lo := First(i, nsubelems, offset); var hi := lo + nsubelems; var from := if lo < 0 then 0 else lo;
            && Below(buf[from..hi], b) && w == Times(r, Pow(b, hi - from)) + Val(buf[from..hi], b)
            && buf[..from] == old(buf[..from])
  {
    hide Val, Times, Pow, LowDigit, Above, First, Index;
    ghost var lo := First(i, nsubelems, offset);
    ghost var hi := lo + nsubelems;
    r := w;
    ghost var s: seq<nat> := [];
    NothingVal(b);
    NoPower(b, w);
    var j := nsubelems - 1;
    while j >= 0
      invariant -1 <= j < nsubelems
      invariant s == buf[(if lo + j + 1 < 0 then 0 else lo + j + 1)..hi] && Below(s, b)
      invariant w == Times(r, Pow(b, |s|)) + Val(s, b)
      invariant forall k :: 0 <= k < buf.Length && !(lo + j < k < hi) ==> buf[k] == old(buf[k])
    {
      if Index(i, j, nsubelems, offset) >= 0 {
        PrependDigit(w, r, s, b);
        buf[Index(i, j, nsubelems, offset)] := LowDigit(r, b);
        s := [LowDigit(r, b)] + s;
        r := Above(r, b);
      }
      j := j - 1;
    }
  }

  lemma NoPower(b: nat, w: int)
    ensures Times(w, Pow(b, 0)) == w
  {}

  lemma FullWord(w: int, r: int, v: int)
    requires w == Times(r, W) + v && 0 <= w < W && v >= 0 && r >= 0
    ensures r == 0 && v == w
  {}

  lemma AppendFull(q: int, s: seq<nat>, g: seq<nat>, ws: seq<nat>, w: nat, size: nat)
    requires ElementSize(size) && size < 4 && |g| == PerWord(size)
    requires Val(ws, W) == Times(q, Pow(Base(size), |s|)) + Val(s, Base(size)) && Val(g, Base(size)) == w
    ensures Val(ws + [w], W) == Times(q, Pow(Base(size), |s + g|)) + Val(s + g, Base(size))
  {
    hide Times;
    Bases(size);
    ValConcat(ws, [w], W);
    ValConcat(s, g, Base(size));
    OneDigit(w, W);
    TwoPowers();
    PowAdd(Base(size), |s|, |g|);
    Distribute(Times(q, Pow(Base(size), |s|)), Val(s, Base(size)), W);
    Associate(q, Pow(Base(size), |s|), W);
  }

  /** The first words hold the elements read so far, and q above them. */
  ghost predicate Holds(ws: seq<nat>, s: seq<nat>, size: nat, q: int)
    requires ElementSize(size)
  {
    Below(s, Base(size)) && Val(ws, W) == Times(q, Pow(Base(size), |s|)) + Val(s, Base(size))
  }

  lemma HoldFirst(w: nat, g: seq<nat>, size: nat, r: int)
    requires ElementSize(size) && Below(g, Base(size)) && w == Times(r, Pow(Base(size), |g|)) + Val(g, Base(size))
    ensures Holds([w], g, size, r)
  {
    hide Times, Pow, Base;
    OneDigit(w, W);
  }

  lemma HoldMore(ws: seq<nat>, w: nat, s: seq<nat>, g: seq<nat>, size: nat, q: int, r: nat)
    requires (size == 1 || size == 2) && Holds(ws, s, size, q) && |g| == PerWord(size) && w < W
    requires Below(g, Base(size)) && w == Times(r, Pow(Base(size), |g|)) + Val(g, Base(size))
    ensures Holds(ws + [w], s + g, size, q)
  {
    hide Times, Pow, Base;
    Bases(size);
    GroupFits(g, size);
    FullWord(w, r, Val(g, Base(size)));
    AppendFull(q, s, g, ws, w, size);
  }

  lemma HeldValue(ws: seq<nat>, s: seq<nat>, size: nat, q: int)
    requires ElementSize(size) && Holds(ws, s, size, q) && Below(ws, W)
    ensures Pow(Base(size), |s|) > 0 && Val(s, Base(size)) == Val(ws, W) % Pow(Base(size), |s|)
  {
    hide Times;
    PowPositive(Base(size), |s|);
    ValBelow(s, Base(size));
    ValBelow(ws, W);
    ModUnique(Val(ws, W), Pow(Base(size), |s|), q, Val(s, Base(size)));
  }

  lemma TakeWord(ws: seq<nat>, w: nat, s: seq<nat>, g: seq<nat>, size: nat, q: int, r: nat) returns (q': int)
    requires (size == 1 || size == 2) && w < W
    requires if ws == [] then s == [] else Holds(ws, s, size, q) && |g| == PerWord(size)
    requires Below(g, Base(size)) && w == Times(r, Pow(Base(size), |g|)) + Val(g, Base(size))
    ensures Holds(ws + [w], s + g, size, q')
  {
    hide Times, Pow, Base, Holds;
    if ws == [] {
      q' := r;
      assert ws + [w] == [w] && s + g == g;
      HoldFirst(w, g, size, r);
    } else {
      q' := q;
      HoldMore(ws, w, s, g, size, q, r);
    }
  }

  method ReadNarrow(bank: array<nat>, a: nat, buf: array<nat>, size: nat)
    requires (size == 1 || size == 2) && buf.Length >= 1 && bank != buf && a + Words(size, buf.Length) <= bank.Length
    requires Below(bank[..], W)
    modifies buf
    ensures Below(buf[..], Base(size)) && Pow(Base(size), buf.Length) > 0
    ensures Val(buf[..], Base(size)) == Val(bank[a..a + Words(size, buf.Length)], W) % Pow(Base(size), buf.Length)
  {
    hide Val, Times, Pow, Base, PerWord, First, Holds;
    var cnt, p, i := buf.Length, a, 0;
    var nsubregs, nsubelems := NumSubregs(size * cnt), PerWord(size);
    var offset := nsubregs * nsubelems - cnt;
    WordsOfSmall(size, cnt);
    BasePositive(size);
    ghost var q := 0;
    while i < nsubregs
      invariant 0 <= i <= nsubregs && p == a + i
      invariant i > 0 ==> 0 < First(i, nsubelems, offset) <= cnt
      invariant i > 0 ==> Holds(bank[a..p], buf[..First(i, nsubelems, offset)], size, q)
    {
      WordRoom(i, nsubregs, nsubelems, cnt, offset);
      ghost var lo := First(i, nsubelems, offset);
      ghost var from, hi := if lo < 0 then 0 else lo, lo + nsubelems;
      ghost var ws, s := bank[a..p], buf[..from];
      var r := UnpackWord(bank[p], buf, i, nsubelems, offset, Base(size));
      q := TakeWord(ws, bank[p], s, buf[from..hi], size, q, r);
      assert bank[a..p + 1] == ws + [bank[p]] && buf[..hi] == s + buf[from..hi];
      p := p + 1;
      i := i + 1;
    }
    LastFirst(nsubregs, nsubelems, offset, cnt);
    assert buf[..cnt] == buf[..];
    HeldValue(bank[a..p], buf[..], size, q);
    HeldBelow(bank[a..p], buf[..], size, q);
  }

  lemma HeldBelow(ws: seq<nat>, s: seq<nat>, size: nat, q: int)
    requires ElementSize(size) && Holds(ws, s, size, q)
    ensures Below(s, Base(size))
  {
    hide Val, Times, Pow, Base;
  }

  lemma LastFirst(nsubregs: nat, nsubelems: nat, offset: nat, cnt: nat)
    requires offset == nsubregs * nsubelems - cnt
    ensures First(nsubregs, nsubelems, offset) == cnt
  {}

  /** Reads the value of the words, modulo what the elements can hold. */
  method CsrReadBuffer(bank: array<nat>, a: nat, buf: array<nat>, size: nat)
    requires ElementSize(size) && buf.Length >= 1 && bank != buf && a + Words(size, buf.Length) <= bank.Length
    requires Below(bank[..], W)
    modifies buf
    ensures Below(buf[..], Base(size)) && Pow(Base(size), buf.Length) > 0
    ensures Val(buf[..], Base(size)) == Val(bank[a..a + Words(size, buf.Length)], W) % Pow(Base(size), buf.Length)
  {
    if size >= 4 {
      ReadWide(bank, a, buf, size);
      ValBelow(buf[..], Base(size));
      Zero(Pow(Base(size), buf.Length));
      ModUnique(Val(buf[..], Base(size)), Pow(Base(size), buf.Length), 0, Val(buf[..], Base(size)));
    } else {
      ReadNarrow(bank, a, buf, size);
    }
    hide Val, Pow, Times;
  }

  /** What the words of a written buffer hold determines the buffer. */
  lemma RoundTrip(s: seq<nat>, t: seq<nat>, v: int, size: nat)
    requires ElementSize(size) && |s| == |t| && Below(s, Base(size)) && Below(t, Base(size))
    requires Pow(Base(size), |s|) > 0 && v == Val(s, Base(size)) && Val(t, Base(size)) == v % Pow(Base(size), |s|)
    ensures t == s
  {
    hide Times;
    ValBelow(s, Base(size));
    Zero(Pow(Base(size), |s|));
    ModUnique(v, Pow(Base(size), |s|), 0, v);
    SameDigits(s, t, Base(size));
  }

  /** Writing a buffer and reading it back gives the same elements. */
  method WriteThenRead(bank: array<nat>, a: nat, buf: array<nat>, copy: array<nat>, size: nat)
    requires ElementSize(size) && buf.Length >= 1 && copy.Length == buf.Length
    requires bank != buf && bank != copy && buf != copy && a + Words(size, buf.Length) <= bank.Length
    requires Below(bank[..], W) && Below(buf[..], Base(size))
    modifies bank, copy
    ensures copy[..] == buf[..]
  {
    hide Val, Pow;
    CsrWriteBuffer(bank, a, buf, size);
    CsrReadBuffer(bank, a, copy, size);
    RoundTrip(buf[..], copy[..], Val(bank[a..a + Words(size, buf.Length)], W), size);
  }
}
