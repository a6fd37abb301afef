/** Measures along a run: a value that never grows, and drops at certain steps,
    bounds the number of those steps. */
module Countdown {
  function CountTrue(bs: seq<bool>): nat {
    if bs == [] then 0 else CountTrue(bs[..|bs| - 1]) + if bs[|bs| - 1] then 1 else 0
  }

  lemma {:induction false} CountAll(bs: seq<bool>)
    requires forall k :: 0 <= k < |bs| ==> bs[k]
    ensures CountTrue(bs) == |bs|
    decreases |bs|
  {
    if bs != [] { CountAll(bs[..|bs| - 1]); }
  }

  /** One value more than steps, and none above its predecessor. */
  predicate Falls(ws: seq<nat>, steps: nat) {
    |ws| == steps + 1 && forall k :: 0 <= k < steps ==> ws[k + 1] <= ws[k]
  }

  lemma {:induction false} Descends(ws: seq<nat>, good: seq<bool>)
    requires Falls(ws, |good|) && forall k :: 0 <= k < |good| ==> good[k] ==> ws[k + 1] < ws[k]
    ensures ws[|good|] + CountTrue(good) <= ws[0]
    decreases |good|
  {
    if good != [] {
      var n := |good| - 1;
      Descends(ws[..n + 1], good[..n]);
    }
  }

  lemma {:induction false} StaysBelow(ws: seq<nat>, steps: nat, i: nat, j: nat)
    requires Falls(ws, steps) && i <= j <= steps
    ensures ws[j] <= ws[i]
    decreases j - i
  {
    if i < j { StaysBelow(ws, steps, i, j - 1); }
  }

  /** Not every one of the n flags from k on is set. */
  predicate Gap(bs: seq<bool>, k: nat, n: nat)
    requires k + n <= |bs|
  {
    exists j :: k <= j < k + n && !bs[j]
  }

  /** No flag stays set for n steps in a row. */
  predicate Broken(bs: seq<bool>, n: nat) {
    forall k: nat :: k + n <= |bs| ==> Gap(bs, k, n)
  }

  /** A step without a drop is a wait of one of two kinds, and the kind changes only
      with a drop. */
  predicate WaitsFor(ws: seq<nat>, kind: seq<bool>, a: seq<bool>, b: seq<bool>) {
    && |kind| == |a| == |b| && Falls(ws, |a|)
    && (forall k :: 0 <= k < |a| ==> ws[k + 1] == ws[k] ==> if kind[k] then a[k] else b[k])
    && (forall k :: 0 <= k < |a| - 1 ==> ws[k + 1] == ws[k] ==> kind[k + 1] == kind[k])
  }

  lemma {:induction false} SameKind(ws: seq<nat>, kind: seq<bool>, a: seq<bool>, b: seq<bool>, i: nat, j: nat)
    requires WaitsFor(ws, kind, a, b) && i <= j < |a| && ws[j] == ws[i]
    ensures kind[j] == kind[i]
    decreases j - i
  {
    if i < j {
      StaysBelow(ws, |a|, i, j - 1);
      SameKind(ws, kind, a, b, i, j - 1);
    }
  }

  lemma DropInWindow(ws: seq<nat>, kind: seq<bool>, a: seq<bool>, b: seq<bool>, k: nat, n: nat)
    requires WaitsFor(ws, kind, a, b) && n > 0 && k + n <= |a| && Gap(a, k, n) && Gap(b, k, n)
    ensures ws[k + n] < ws[k]
  {
    StaysBelow(ws, |a|, k, k + n);
    if ws[k + n] == ws[k] {
      var j :| k <= j < k + n && if kind[k] then !a[j] else !b[j];
      StaysBelow(ws, |a|, k, j);
      StaysBelow(ws, |a|, j, j + 1);
      StaysBelow(ws, |a|, j + 1, k + n);
      SameKind(ws, kind, a, b, k, j);
    }
  }

  /** If no wait lasts n steps, every n steps bring a drop. */
  lemma {:induction false} DropsInTime(ws: seq<nat>, kind: seq<bool>, a: seq<bool>, b: seq<bool>, n: nat, m: nat)
    requires WaitsFor(ws, kind, a, b) && n > 0 && Broken(a, n) && Broken(b, n) && m * n <= |a|
    ensures ws[m * n] + m <= ws[0]
    decreases m
  {
    if m > 0 {
      assert (m - 1) * n + n == m * n;
      DropsInTime(ws, kind, a, b, n, m - 1);
      DropInWindow(ws, kind, a, b, (m - 1) * n, n);
    }
  }
}
