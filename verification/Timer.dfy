/** The 64-bit machine timer and the firmware that reads and re-arms it through
    32-bit accesses while it keeps counting. */
module Timer {
  /** mtime at each successive device access. */
  type Clock = nat -> nat

  ghost predicate Counts(clock: Clock) {
    && (forall k: nat :: clock(k) < 0x1_0000_0000_0000_0000)
    && (forall j: nat, k: nat :: j <= k ==> clock(j) <= clock(k))
  }

  function High(time: nat): nat { time / 0x1_0000_0000 }
  function Low(time: nat): nat { time % 0x1_0000_0000 }

  function HighAt(clock: Clock, k: nat): nat { High(clock(k)) }
  function LowAt(clock: Clock, k: nat): nat { Low(clock(k)) }

  lemma TwoHighs(clock: Clock, j: nat, k: nat)
    requires HighAt(clock, k) >= HighAt(clock, j) + 2
    ensures clock(k) - clock(j) > 0x1_0000_0000
  {}

  function Minimum(x: nat, y: nat): nat { if x < y then x else y }

  /** The memory-mapped timer.  access counts device accesses so far; history
      lists the values of mtimecmp after each write to one of its halves. */
  class Device {
    const clock: Clock
    var access: nat
    var cmpLow: nat
    var cmpHigh: nat
    var history: seq<nat>

    constructor (clock: Clock, low: nat, high: nat)
      ensures this.clock == clock && access == 0 && cmpLow == low && cmpHigh == high && history == []
    {
      this.clock := clock;
      access, cmpLow, cmpHigh, history := 0, low, high, [];
    }

    function Compare(): nat
      reads this
    {
      cmpHigh * 0x1_0000_0000 + cmpLow
    }

    method ReadTime() returns (v: nat)
      modifies `access
      ensures v == LowAt(clock, old(access)) && access == old(access) + 1
    {
      v := LowAt(clock, access);
      access := access + 1;
    }

    method ReadTimeHigh() returns (v: nat)
      modifies `access
      ensures v == HighAt(clock, old(access)) && access == old(access) + 1
    {
      v := HighAt(clock, access);
      access := access + 1;
    }

    method WriteCompare(v: nat)
      modifies `access, `cmpLow, `history
      ensures access == old(access) + 1 && cmpLow == v && history == old(history) + [Compare()]
    {
      cmpLow := v;
      access, history := access + 1, history + [Compare()];
    }

    method WriteCompareHigh(v: nat)
      modifies `access, `cmpHigh, `history
      ensures access == old(access) + 1 && cmpHigh == v && history == old(history) + [Compare()]
    {
      cmpHigh := v;
      access, history := access + 1, history + [Compare()];
    }
  }

  /** If the high half did not change between two reads, the low half read in
      between belongs to it. */
  lemma Held(clock: Clock, k: nat)
    requires Counts(clock) && HighAt(clock, k) == HighAt(clock, k + 2)
    ensures HighAt(clock, k) * 0x1_0000_0000 + LowAt(clock, k + 1) == clock(k + 1)
  {
    assert clock(k) <= clock(k + 1) <= clock(k + 2);
  }

  lemma HighGrows(clock: Clock, j: nat, k: nat)
    requires Counts(clock) && j <= k
    ensures HighAt(clock, j) <= HighAt(clock, k) < 0x1_0000_0000
  {
    assert clock(j) <= clock(k) < 0x1_0000_0000_0000_0000;
  }

  /** One pass: the high half, the low half and the high half again. */
  method ReadPass(d: Device) returns (high: nat, low: nat, again: nat)
    requires Counts(d.clock)
    modifies d`access
    ensures var at := old(d.access);
            && d.access == at + 3 && high == HighAt(d.clock, at) && low == LowAt(d.clock, at + 1)
              && again == HighAt(d.clock, at + 2)
            && high <= again < 0x1_0000_0000
  {
    hide HighAt, LowAt, Counts;
    HighGrows(d.clock, d.access, d.access + 2);
    high := d.ReadTimeHigh();
    low := d.ReadTime();
    again := d.ReadTimeHigh();
  }

  /** Returns a value that mtime really had during the call.  A third pass needs
      more than 2^32 ticks to go by within the first two. */
  method TimerRead(d: Device) returns (time: nat, ghost when: nat)
    requires Counts(d.clock)
    modifies d`access
    ensures old(d.access) <= when < d.access && time == d.clock(when)
    ensures d.access >= old(d.access) + 3
    ensures d.clock(old(d.access) + 5) - d.clock(old(d.access)) <= 0x1_0000_0000 ==> d.access <= old(d.access) + 6
  {
    hide HighAt, LowAt, Counts;
    ghost var start := d.access;
    ghost var at, passes := start, 0;
    var high, low, again := ReadPass(d);
    ghost var first, second := high, again;
    assert first == HighAt(d.clock, start);
    while high != again
      invariant start <= at && d.access == at + 3 && (passes < 2 ==> at == start + 3 * passes)
      invariant high == HighAt(d.clock, at) && low == LowAt(d.clock, at + 1) && again == HighAt(d.clock, at + 2)
      invariant high <= again < 0x1_0000_0000
      invariant passes == 1 ==> high >= first + 1
      invariant passes >= 2 ==> second >= first + 2 && second == HighAt(d.clock, start + 5)
      decreases 0x1_0000_0000 - high
    {
      HighGrows(d.clock, at + 2, at + 3);
      if passes == 1 { second := again; }
      at, passes := d.access, passes + 1;
      high, low, again := ReadPass(d);
    }
    Held(d.clock, at);
    if passes >= 2 {
      TwoHighs(d.clock, start, start + 5);
    }
    time, when := high * 0x1_0000_0000 + low, at + 1;
  }

  /** Re-arms the comparator in three writes.  No intermediate value of mtimecmp is
      below both the old and the new one. */
  method TimecmpUpdate(d: Device, time: nat)
    requires time < 0x1_0000_0000_0000_0000 && d.cmpLow < 0x1_0000_0000 && d.cmpHigh < 0x1_0000_0000
    modifies d`access, d`cmpLow, d`cmpHigh, d`history
    ensures d.Compare() == time && d.cmpLow < 0x1_0000_0000 && d.cmpHigh < 0x1_0000_0000
            && d.access == old(d.access) + 3
    ensures |d.history| == |old(d.history)| + 3 && d.history[..|old(d.history)|] == old(d.history)
    ensures forall k :: |old(d.history)| <= k < |d.history| ==> d.history[k] >= Minimum(old(d.Compare()), time)
  {
    d.WriteCompare(0x1_0000_0000 - 1);
    d.WriteCompareHigh(time / 0x1_0000_0000);
    d.WriteCompare(time % 0x1_0000_0000);
  }

  /** The timer interrupt is pending while mtime has reached the comparator. */
  predicate Pending(time: nat, compare: nat) { time >= compare }

  /** Hence re-arming raises no interrupt that neither comparator value would. */
  lemma NoSpuriousInterrupt(before: nat, after: nat, history: seq<nat>, time: nat, k: nat)
    requires k < |history| && history[k] >= Minimum(before, after)
    requires Pending(time, history[k])
    ensures Pending(time, before) || Pending(time, after)
  {}

  /** Firmware globals. */
  class Firmware {
    const timer: Device
    var timeElapsed: nat
    var timeIncrement: nat

    constructor (timer: Device, increment: nat)
      ensures this.timer == timer && timeElapsed == 0 && timeIncrement == increment
    {
      this.timer := timer;
      timeElapsed, timeIncrement := 0, increment;
    }

    method IncrementTimecmp(base: nat) returns (ghost when: nat)
      requires Counts(timer.clock) && base < 0x1_0000_0000_0000_0000 && timer.cmpLow < 0x1_0000_0000
               && timer.cmpHigh < 0x1_0000_0000
      modifies timer
      ensures timer.cmpLow < 0x1_0000_0000 && timer.cmpHigh < 0x1_0000_0000
      ensures old(timer.access) <= when < timer.access
              && timer.Compare() == (timer.clock(when) + base) % 0x1_0000_0000_0000_0000
    {
      var now;
      now, when := TimerRead(timer);
      TimecmpUpdate(timer, (now + base) % 0x1_0000_0000_0000_0000);
    }

    /** The next interrupt is one increment after a time within the handler, and the
        tick is counted, both in 64 bits.  From then on it is pending exactly when an
        increment has gone by, or at once if the comparator wrapped. */
    method TimerHandler() returns (ghost when: nat)
      requires Counts(timer.clock) && timeIncrement < 0x1_0000_0000_0000_0000 && timeElapsed < 0x1_0000_0000_0000_0000
               && timer.cmpLow < 0x1_0000_0000 && timer.cmpHigh < 0x1_0000_0000
      modifies timer, `timeElapsed
      ensures timeElapsed == (old(timeElapsed) + 1) % 0x1_0000_0000_0000_0000 && timeElapsed < 0x1_0000_0000_0000_0000
      ensures timer.cmpLow < 0x1_0000_0000 && timer.cmpHigh < 0x1_0000_0000
      ensures old(timer.access) <= when < timer.access
              && timer.Compare() == (timer.clock(when) + timeIncrement) % 0x1_0000_0000_0000_0000
      ensures forall end: nat :: when <= end ==>
                (Pending(timer.clock(end), timer.Compare())
                 <==> timer.clock(end) - timer.clock(when) >= timeIncrement
                      || timer.clock(when) + timeIncrement >= 0x1_0000_0000_0000_0000)
    {
      hide Counts, Pending;
      when := IncrementTimecmp(timeIncrement);
      timeElapsed := (timeElapsed + 1) % 0x1_0000_0000_0000_0000;
      forall end: nat | when <= end
        ensures Pending(timer.clock(end), timer.Compare())
                <==> timer.clock(end) - timer.clock(when) >= timeIncrement
                     || timer.clock(when) + timeIncrement >= 0x1_0000_0000_0000_0000
      {
        HandlerClears(timer.clock, when, end, timeIncrement);
      }
    }
  }

  /** After re-arming, the interrupt is pending exactly when a whole increment has gone
      by or the new comparator value wrapped: a handler shorter than the increment
      clears its interrupt exactly when it did not. */
  lemma HandlerClears(clock: Clock, k: nat, end: nat, increment: nat)
    requires Counts(clock) && k <= end && increment < 0x1_0000_0000_0000_0000
    ensures Pending(clock(end), (clock(k) + increment) % 0x1_0000_0000_0000_0000)
            <==> clock(end) - clock(k) >= increment || clock(k) + increment >= 0x1_0000_0000_0000_0000
  {
    assert clock(k) <= clock(end);
    if clock(k) + increment >= 0x1_0000_0000_0000_0000 {
      assert (clock(k) + increment) % 0x1_0000_0000_0000_0000 == clock(k) + increment - 0x1_0000_0000_0000_0000;
    }
  }

  /** Ten ticks before the end of time. */
  function LateClock(): Clock { (k: nat) => 0xffff_ffff_ffff_fff6 }

  /** There an increment of 100 wraps to 90, and the interrupt stays pending. */
  lemma WrapLeavesPending()
    ensures Counts(LateClock())
    ensures Pending(LateClock()(0), (LateClock()(0) + 100) % 0x1_0000_0000_0000_0000)
  {}
}
