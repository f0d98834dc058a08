/** One server's metrics collector: failure bookkeeping, deltas between readings, CPU usage. */
module Monitor {
  import opened Prelude
  import T = Thresholds

  type Time = int

  const U64 := 0x1_0000_0000_0000_0000

  /** Jiffy counters. A reading has each below 2^64; the true counters are unbounded. */
  datatype CpuCore = CpuCore(user: nat, nice: nat, system: nat, idle: nat, iowait: nat, irq: nat, softirq: nat, steal: nat)

  /** uint64 addition and subtraction. */
  function Add(a: int, b: int): int {
    (a + b) % U64
  }

  function Sub(a: int, b: int): int {
    (a - b) % U64
  }

  function Counters(c: CpuCore): seq<nat> {
    [c.user, c.nice, c.system, c.idle, c.iowait, c.irq, c.softirq, c.steal]
  }

  /** The sum of counters in uint64 arithmetic, left to right. */
  function WrappedSum(xs: seq<nat>): int {
    if xs == [] then 0 else Add(WrappedSum(xs[..|xs| - 1]), xs[|xs| - 1])
  }

  function TotalJiffies(c: CpuCore): int {
    WrappedSum(Counters(c))
  }

  function CpuPct(delta: int, total: int): real {
    if total == 0 then 0.0 else delta as real / total as real * 100.0
  }

  function ComputeCpuUsage(prev: CpuCore, curr: CpuCore): real {
    var total := Sub(TotalJiffies(curr), TotalJiffies(prev));
    if total == 0 then 0.0
    else CpuPct(Sub(Sub(total, Sub(curr.idle, prev.idle)), Sub(curr.iowait, prev.iowait)), total)
  }

  /** What the kernel's counters read as. */
  function Reading(c: CpuCore): CpuCore {
    CpuCore(c.user % U64, c.nice % U64, c.system % U64, c.idle % U64, c.iowait % U64, c.irq % U64, c.softirq % U64, c.steal % U64)
  }

  function TrueSum(xs: seq<nat>): nat {
    if xs == [] then 0 else TrueSum(xs[..|xs| - 1]) + xs[|xs| - 1]
  }

  function Sum(c: CpuCore): nat {
    TrueSum(Counters(c))
  }

  ghost predicate Advances(prev: CpuCore, curr: CpuCore) {
    && prev.user <= curr.user && prev.nice <= curr.nice && prev.system <= curr.system && prev.idle <= curr.idle
    && prev.iowait <= curr.iowait && prev.irq <= curr.irq && prev.softirq <= curr.softirq && prev.steal <= curr.steal
  }

  lemma AddMod(a: int, b: int)
    ensures Add(a % U64, b % U64) == (a + b) % U64
  {
  }

  /** Totals of wrapped readings are wrapped totals. */
  lemma {:induction false} SumWraps(xs: seq<nat>, ys: seq<nat>)
    requires |ys| == |xs| && forall i :: 0 <= i < |xs| ==> ys[i] == xs[i] % U64
    ensures WrappedSum(ys) == TrueSum(xs) % U64
    decreases |xs|
  {
    if xs != [] {
      var n := |xs| - 1;
      SumWraps(xs[..n], ys[..n]);
      AddMod(TrueSum(xs[..n]), xs[n]);
    }
  }

  lemma {:induction false} SumConcat(xs: seq<nat>, ys: seq<nat>)
    ensures TrueSum(xs + ys) == TrueSum(xs) + TrueSum(ys)
    decreases |ys|
  {
    if ys == [] {
      assert xs + ys == xs;
    } else {
      var n := |ys| - 1;
      assert (xs + ys)[..|xs + ys| - 1] == xs + ys[..n];
      SumConcat(xs, ys[..n]);
    }
  }

  /** If every counter only grows, the total grows by at least any two of them together. */
  lemma {:induction false} SumGrows(xs: seq<nat>, ys: seq<nat>)
    requires |xs| == |ys| && forall i :: 0 <= i < |xs| ==> xs[i] <= ys[i]
    ensures TrueSum(xs) <= TrueSum(ys)
    decreases |xs|
  {
    if xs != [] {
      SumGrows(xs[..|xs| - 1], ys[..|ys| - 1]);
    }
  }

  lemma SumOfPair(xs: seq<nat>)
    requires |xs| == 5
    ensures TrueSum(xs) == TrueSum(xs[..3]) + xs[3] + xs[4]
  {
    assert xs[..4][..3] == xs[..3];
  }

  lemma IdleIsPart(prev: CpuCore, curr: CpuCore)
    requires Advances(prev, curr)
    ensures (curr.idle - prev.idle) + (curr.iowait - prev.iowait) <= Sum(curr) - Sum(prev)
  {
    var xs, ys := Counters(prev), Counters(curr);
    assert xs == xs[..5] + xs[5..] && ys == ys[..5] + ys[5..];
    SumConcat(xs[..5], xs[5..]);
    SumConcat(ys[..5], ys[5..]);
    SumOfPair(xs[..5]);
    SumOfPair(ys[..5]);
    SumGrows(xs[5..], ys[5..]);
    SumGrows(xs[..5][..3], ys[..5][..3]);
  }

  lemma SubRecovers(a: int, b: int, x: int, y: int)
    requires a == x % U64 && b == y % U64 && 0 <= x - y < U64
    ensures Sub(a, b) == x - y
  {
  }

  /** The wrapping subtractions recover the true deltas. */
  lemma DeltasRecovered(prev: CpuCore, curr: CpuCore)
    requires Advances(prev, curr) && Sum(curr) - Sum(prev) < U64
    ensures Sub(TotalJiffies(Reading(curr)), TotalJiffies(Reading(prev))) == Sum(curr) - Sum(prev)
    ensures Sub(Reading(curr).idle, Reading(prev).idle) == curr.idle - prev.idle
    ensures Sub(Reading(curr).iowait, Reading(prev).iowait) == curr.iowait - prev.iowait
  {
    IdleIsPart(prev, curr);
    SumWraps(Counters(curr), Counters(Reading(curr)));
    SumWraps(Counters(prev), Counters(Reading(prev)));
    SubRecovers(TotalJiffies(Reading(curr)), TotalJiffies(Reading(prev)), Sum(curr), Sum(prev));
    SubRecovers(Reading(curr).idle, Reading(prev).idle, curr.idle, prev.idle);
    SubRecovers(Reading(curr).iowait, Reading(prev).iowait, curr.iowait, prev.iowait);
  }

  /** Subtracting residues is subtracting, as residues. */
  lemma SubMod(a: int, b: int)
    ensures Sub(a % U64, b % U64) == (a - b) % U64
  {
  }

  function Elapsed(prev: CpuCore, curr: CpuCore): int {
    Sum(curr) - Sum(prev)
  }

  /** What idle and iowait grew by together. */
  function Waited(prev: CpuCore, curr: CpuCore): int {
    (curr.idle - prev.idle) + (curr.iowait - prev.iowait)
  }

  function Busy(prev: CpuCore, curr: CpuCore): int {
    Elapsed(prev, curr) - Waited(prev, curr)
  }

  function Percent(part: int, whole: int): real {
    if whole == 0 then 0.0 else part as real / whole as real * 100.0
  }

  /** Whatever the counters do, the usage is computed from the busy time modulo 2^64. */
  lemma UsageComputes(prev: CpuCore, curr: CpuCore)
    requires 0 <= Elapsed(prev, curr) < 0x1_0000_0000_0000_0000
    ensures ComputeCpuUsage(Reading(prev), Reading(curr))
         == Percent(Busy(prev, curr) % 0x1_0000_0000_0000_0000, Elapsed(prev, curr))
  {
    TotalComputes(prev, curr);
    BusyWraps(Elapsed(prev, curr), curr.idle, prev.idle, curr.iowait, prev.iowait);
  }

  lemma TotalComputes(prev: CpuCore, curr: CpuCore)
    requires 0 <= Elapsed(prev, curr) < U64
    ensures Sub(TotalJiffies(Reading(curr)), TotalJiffies(Reading(prev))) == Elapsed(prev, curr)
  {
    SumWraps(Counters(curr), Counters(Reading(curr)));
    SumWraps(Counters(prev), Counters(Reading(prev)));
    SubRecovers(TotalJiffies(Reading(curr)), TotalJiffies(Reading(prev)), Sum(curr), Sum(prev));
  }

  /** The chain of wrapping subtractions is one subtraction, as a residue. */
  lemma BusyWraps(total: int, a: int, b: int, c: int, d: int)
    requires 0 <= total < U64
    ensures Sub(Sub(total, Sub(a % U64, b % U64)), Sub(c % U64, d % U64)) == (total - ((a - b) + (c - d))) % U64
  {
    SubMod(a, b);
    SubMod(c, d);
    SubTwice(total, a - b, c - d);
  }

  lemma SubTwice(total: int, x: int, y: int)
    requires 0 <= total < U64
    ensures Sub(Sub(total, x % U64), y % U64) == (total - (x + y)) % U64
  {
    SubResidue(total, x);
    SubMod(total - x, y);
    assert total - x - y == total - (x + y);
  }

  lemma SubResidue(total: int, x: int)
    requires 0 <= total < U64
    ensures Sub(total, x % U64) == (total - x) % U64
  {
    SubMod(total, x);
  }

  lemma PercentInRange(part: int, whole: int)
    requires 0 <= part && 0 < whole
    ensures 0.0 <= Percent(part, whole)
    ensures Percent(part, whole) <= 100.0 <==> part <= whole
  {
    var share := part as real / whole as real;
    assert share * whole as real == part as real;
    assert share <= 1.0 <==> part as real <= whole as real;
  }

  lemma PercentInjective(x: int, y: int, whole: int)
    requires 0 < whole
    ensures Percent(x, whole) == Percent(y, whole) <==> x == y
  {
    assert x as real / whole as real * whole as real == x as real;
    assert y as real / whole as real * whole as real == y as real;
  }

  lemma ShareIff(busy: int, total: int)
    requires 0 < total < U64
    ensures Percent(busy % U64, total) == Percent(busy, total) && 0.0 <= Percent(busy % U64, total) <= 100.0
       <==> 0 <= busy <= total
  {
    PercentInRange(busy % U64, total);
    PercentInjective(busy % U64, busy, total);
  }

  /**
   * The usage, exactly: it is the true busy share, between 0 and 100 percent, if and only if no time
   * has passed, or the busy time is not negative and idle and iowait together have not gone back.
   */
  lemma UsageIsBusyShare(prev: CpuCore, curr: CpuCore)
    requires 0 <= Elapsed(prev, curr) < U64
    ensures var usage := ComputeCpuUsage(Reading(prev), Reading(curr));
      usage == Percent(Busy(prev, curr), Elapsed(prev, curr)) && 0.0 <= usage <= 100.0
      <==> Elapsed(prev, curr) == 0 || (0 <= Busy(prev, curr) && 0 <= Waited(prev, curr))
  {
    UsageComputes(prev, curr);
    if Elapsed(prev, curr) > 0 {
      ShareIff(Busy(prev, curr), Elapsed(prev, curr));
    }
  }

  /** When the busy time is sound, only idle and iowait together going back takes the usage past 100. */
  lemma UsageInRange(prev: CpuCore, curr: CpuCore)
    requires 0 <= Elapsed(prev, curr) < U64 && 0 <= Busy(prev, curr) < U64
    ensures 0.0 <= ComputeCpuUsage(Reading(prev), Reading(curr)) <= 100.0
       <==> Elapsed(prev, curr) == 0 || 0 <= Waited(prev, curr)
  {
    UsageComputes(prev, curr);
    if Elapsed(prev, curr) > 0 {
      SmallResidue(Busy(prev, curr));
      PercentInRange(Busy(prev, curr), Elapsed(prev, curr));
    }
  }

  lemma SmallResidue(x: int)
    requires 0 <= x < U64
    ensures x % U64 == x
  {
  }

  /** Counters may wrap: if every one of them only grows, the usage is the true busy share. */
  lemma UsageOfGrowing(prev: CpuCore, curr: CpuCore)
    requires Advances(prev, curr) && Elapsed(prev, curr) < U64
    ensures ComputeCpuUsage(Reading(prev), Reading(curr)) == Percent(Busy(prev, curr), Elapsed(prev, curr))
    ensures 0.0 <= ComputeCpuUsage(Reading(prev), Reading(curr)) <= 100.0
  {
    IdleIsPart(prev, curr);
    UsageIsBusyShare(prev, curr);
  }

  /** The failing side is reached: one tick of iowait back, idle unmoved, two ticks of user read as 200 percent. */
  lemma BackwardsCounter()
    ensures ComputeCpuUsage(CpuCore(0, 0, 0, 0, 1, 0, 0, 0), CpuCore(2, 0, 0, 0, 0, 0, 0, 0)) == 200.0
  {
    var prev, curr := CpuCore(0, 0, 0, 0, 1, 0, 0, 0), CpuCore(2, 0, 0, 0, 0, 0, 0, 0);
    SumSmall(prev);
    SumSmall(curr);
  }

  lemma SumSmall(c: CpuCore)
    requires c.user + c.nice + c.system + c.idle + c.iowait + c.irq + c.softirq + c.steal < U64
    ensures TotalJiffies(c) == c.user + c.nice + c.system + c.idle + c.iowait + c.irq + c.softirq + c.steal
  {
    var xs := Counters(c);
    assert xs[..8] == xs;
    assert forall k :: 0 < k <= 8 ==> xs[..k][..k - 1] == xs[..k - 1];
    assert WrappedSum(xs[..1]) == c.user;
    assert WrappedSum(xs[..2]) == c.user + c.nice;
    assert WrappedSum(xs[..3]) == c.user + c.nice + c.system;
    assert WrappedSum(xs[..4]) == c.user + c.nice + c.system + c.idle;
    assert WrappedSum(xs[..5]) == c.user + c.nice + c.system + c.idle + c.iowait;
    assert WrappedSum(xs[..6]) == c.user + c.nice + c.system + c.idle + c.iowait + c.irq;
    assert WrappedSum(xs[..7]) == c.user + c.nice + c.system + c.idle + c.iowait + c.irq + c.softirq;
  }

  // ---- The collector ----

  datatype Snapshot = Snapshot(partial: bool, usage: Option<real>, at: Time)

  class Collector {
    const hooked: bool
    var latest: Option<Snapshot>
    var prevMetrics: Option<CpuCore>
    var failures: nat
    var thresholdFired: bool
    var fired: nat
    ghost var outcomes: seq<bool>
    ghost var readings: seq<CpuCore>

    /**
     * The counters are those of the outcomes so far, and the latest snapshot compares the last two
     * good readings, being partial while there is only one.
     */
    ghost predicate Valid() reads this {
      && (thresholdFired <==> failures >= T.THRESHOLD)
      && failures == T.Counted(outcomes).0
      && fired == (if hooked then T.Counted(outcomes).1 else 0)
      && (readings == [] <==> prevMetrics.None?) && (readings == [] <==> latest.None?)
      && (readings != [] ==>
            && prevMetrics.value == readings[|readings| - 1]
            && latest.value.partial == (|readings| == 1)
            && latest.value.usage == if |readings| == 1 then None
                                     else Some(ComputeCpuUsage(readings[|readings| - 2], readings[|readings| - 1])))
    }

    constructor (hooked: bool)
      ensures Valid() && outcomes == [] && readings == [] && this.hooked == hooked
    {
      this.hooked := hooked;
      latest, prevMetrics, failures, thresholdFired, fired := None, None, 0, false, 0;
      outcomes, readings := [], [];
    }

    /** The callbacks made are one per maximal failure streak of length at least three. */
    lemma FiredOncePerStreak()
      requires Valid() && hooked
      ensures fired == T.LongStreaks(T.Streaks(outcomes))
    {
      T.CountedOncePerLongStreak(outcomes);
    }

    method RecordFailure()
      requires Valid()
      modifies this
      ensures Valid() && outcomes == old(outcomes) + [false] && readings == old(readings) && latest == old(latest)
    {
      failures := failures + 1;
      var shouldFire := failures == T.THRESHOLD && !thresholdFired && hooked;
      if failures >= T.THRESHOLD {
        thresholdFired := true;
      }
      if shouldFire {
        fired := fired + 1;
      }
      outcomes := outcomes + [false];
      assert outcomes[..|outcomes| - 1] == old(outcomes);
    }

    /** One collection cycle: a reading, or None when executing or parsing failed. */
    method Collect(metrics: Option<CpuCore>, now: Time)
      requires Valid()
      modifies this
      ensures Valid() && outcomes == old(outcomes) + [metrics.Some?]
      ensures readings == old(readings) + match metrics case Some(m) => [m] case None => []
      ensures metrics.Some? ==> latest.Some? && latest.value.at == now && failures == 0
      ensures metrics.None? ==> latest == old(latest)
    {
      if metrics.None? {
        RecordFailure();
        return;
      }
      failures, thresholdFired := 0, false;
      if prevMetrics.None? {
        latest := Some(Snapshot(true, None, now));
      } else {
        latest := Some(Snapshot(false, Some(ComputeCpuUsage(prevMetrics.value, metrics.value)), now));
      }
      prevMetrics := metrics;
      outcomes, readings := outcomes + [true], readings + [metrics.value];
      assert outcomes[..|outcomes| - 1] == old(outcomes);
    }
  }
}
