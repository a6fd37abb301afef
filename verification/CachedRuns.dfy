/** Every schedule of acknowledgements and interrupts is that of a run of the cached
    core in which both memories answer. */
module CachedRuns {
  import opened Words
  import opened Machine
  import opened Core
  import opened Invariant
  import opened Isa
  import opened Ram
  import opened CoreIsa
  import F = CachedFetch
  import CC = CachedCore

  /** The input x with the data of both buses supplied by the two memories, after the run zs. */
  function CachedSupplied(imem: Memory, m0: Bytes, c: CC.Cpu, zs: seq<In>, x: In): In {
    var t, m := CC.After(c, zs), Replay(m0, CC.Transactions(c, zs));
    x.(iData := imem(F.BusAddress(t.fetch)), dData := WordAt(m, WordOf(t.bus.address)))
  }

  function CachedAnswered(imem: Memory, m0: Bytes, c: CC.Cpu, xs: seq<In>): seq<In> {
    if xs == [] then [] else
      var zs := CachedAnswered(imem, m0, c, xs[..|xs| - 1]);
      zs + [CachedSupplied(imem, m0, c, zs, xs[|xs| - 1])]
  }

  lemma {:induction false} CachedScheduleRuns(imem: Memory, m0: Bytes, c: CC.Cpu, xs: seq<In>)
    ensures var ys := CachedAnswered(imem, m0, c, xs);
            SameSchedules(xs, ys) && CC.Environment(imem, c, ys) && IsRam(m0, CC.Transactions(c, ys))
    decreases |xs|
  {
    hide CachedSupplied, IsRam, CC.Environment, CC.Transactions, SameSchedules;
    if xs == [] {
      NothingRunsCached(imem, m0, c);
    } else {
      var xs', x := xs[..|xs| - 1], xs[|xs| - 1];
      CachedScheduleRuns(imem, m0, c, xs');
      CachedScheduleStep(imem, m0, c, xs', CachedAnswered(imem, m0, c, xs'), x);
      assert xs == xs' + [x];
    }
  }

  lemma NothingRunsCached(imem: Memory, m0: Bytes, c: CC.Cpu)
    ensures SameSchedules([], []) && CC.Environment(imem, c, []) && IsRam(m0, CC.Transactions(c, []))
  {
    hide CC.BusAnswers;
  }

  lemma CachedScheduleStep(imem: Memory, m0: Bytes, c: CC.Cpu, xs: seq<In>, zs: seq<In>, x: In)
    requires SameSchedules(xs, zs) && CC.Environment(imem, c, zs) && IsRam(m0, CC.Transactions(c, zs))
    ensures var ys := zs + [CachedSupplied(imem, m0, c, zs, x)];
            SameSchedules(xs + [x], ys) && CC.Environment(imem, c, ys) && IsRam(m0, CC.Transactions(c, ys))
  {
    hide CachedSupplied, IsRam, CC.BusAnswers, Completed, CC.After, CC.Environment, CC.Transactions, CC.View, CC.BackIn,
      SameSchedule;
    var y := CachedSupplied(imem, m0, c, zs, x);
    CachedAnswers(imem, m0, c, zs, x);
    CachedEnvironmentGrows(imem, c, zs, y);
    CachedTransactionsGrow(c, zs, y);
  }

  lemma CachedTransactionsGrow(c: CC.Cpu, zs: seq<In>, y: In)
    ensures var b := CC.After(c, zs);
            CC.Transactions(c, zs + [y]) == CC.Transactions(c, zs) + Completed(CC.View(b), CC.BackIn(b, y))
  {
    hide Completed, CC.After, CC.View, CC.BackIn;
    assert (zs + [y])[..|zs|] == zs;
  }

  lemma CachedEnvironmentGrows(imem: Memory, c: CC.Cpu, zs: seq<In>, y: In)
    requires CC.Environment(imem, c, zs) && CC.BusAnswers(imem, CC.After(c, zs), y)
    ensures CC.Environment(imem, c, zs + [y])
  {
    hide CC.BusAnswers, CC.After;
    var ys := zs + [y];
    forall k | 0 <= k < |ys| ensures CC.BusAnswers(imem, CC.After(c, ys[..k]), ys[k]) {
      if k < |zs| {
        assert ys[..k] == zs[..k] && ys[k] == zs[k];
      } else {
        assert ys[..k] == zs;
      }
    }
  }

  lemma CachedAnswers(imem: Memory, m0: Bytes, c: CC.Cpu, zs: seq<In>, x: In)
    requires IsRam(m0, CC.Transactions(c, zs))
    ensures var y, b := CachedSupplied(imem, m0, c, zs, x), CC.After(c, zs);
            && SameSchedule(x, y) && CC.BusAnswers(imem, b, y)
            && IsRam(m0, CC.Transactions(c, zs) + Completed(CC.View(b), CC.BackIn(b, y)))
  {
    hide WordAt, IsRam, Replay, CC.After, CC.Transactions, F.BusAddress, F.Transfer, CC.FetchIn, Completed;
    var y, b, done := CachedSupplied(imem, m0, c, zs, x), CC.After(c, zs), CC.Transactions(c, zs);
    SameBus(b, y);
    AnsweredBus(m0, CC.View(b), done, CC.BackIn(b, y));
  }

  lemma SameBus(b: CC.Cpu, y: In)
    ensures CC.View(b).bus == b.bus && CC.BackIn(b, y).dData == y.dData
  {
    hide CC.PlainFetch, CC.DecodeNow, CC.Incoming;
  }
}
