/** Counting consecutive failures: the collector's threshold callback and the keepalive's reconnects. */
module Thresholds {
  const THRESHOLD := 3

  /** The length of the longest prefix of failures (false). */
  function Streak(os: seq<bool>): (n: nat)
    ensures n <= |os|
    ensures forall i :: 0 <= i < n ==> !os[i]
    ensures n < |os| ==> os[n]
  {
    if os == [] || os[0] then 0 else 1 + Streak(os[1..])
  }

  /** The lengths of the maximal failure streaks, in order. */
  function Streaks(os: seq<bool>): seq<nat>
    decreases |os|
  {
    if os == [] then []
    else if os[0] then Streaks(os[1..])
    else [Streak(os)] + Streaks(os[Streak(os)..])
  }

  function LongStreaks(streaks: seq<nat>): nat {
    if streaks == [] then 0 else (if streaks[0] >= 3 then 1 else 0) + LongStreaks(streaks[1..])
  }

  function Thirds(streaks: seq<nat>): nat {
    if streaks == [] then 0 else streaks[0] / 3 + Thirds(streaks[1..])
  }

  /** Callbacks from here on, when `failures` have just been counted. */
  function Fires(failures: nat, os: seq<bool>): nat
    decreases |os|
  {
    if os == [] then 0
    else if os[0] then Fires(0, os[1..])
    else (if failures + 1 == THRESHOLD then 1 else 0) + Fires(failures + 1, os[1..])
  }

  /** Reconnects from here on; reaching the threshold starts the count again. */
  function Reconnects(failures: nat, os: seq<bool>): nat
    decreases |os|
  {
    if os == [] then 0
    else if os[0] then Reconnects(0, os[1..])
    else if failures + 1 >= THRESHOLD then 1 + Reconnects(0, os[1..])
    else Reconnects(failures + 1, os[1..])
  }

  lemma {:induction false} FiresThroughStreak(failures: nat, os: seq<bool>)
    ensures Fires(failures, os)
         == (if failures < THRESHOLD <= failures + Streak(os) then 1 else 0) + Fires(0, os[Streak(os)..])
    decreases |os|
  {
    if os != [] && !os[0] {
      FiresThroughStreak(failures + 1, os[1..]);
      assert os[1..][Streak(os[1..])..] == os[Streak(os)..];
    } else {
      assert os[0..] == os;
      assert os != [] ==> Fires(failures, os) == Fires(0, os[1..]);
    }
  }

  lemma {:induction false} ReconnectsThroughStreak(failures: nat, os: seq<bool>)
    requires failures < THRESHOLD
    ensures Reconnects(failures, os) == (failures + Streak(os)) / THRESHOLD + Reconnects(0, os[Streak(os)..])
    decreases |os|
  {
    if os != [] && !os[0] {
      ReconnectsThroughStreak(if failures + 1 >= THRESHOLD then 0 else failures + 1, os[1..]);
      assert os[1..][Streak(os[1..])..] == os[Streak(os)..];
    } else {
      assert os[0..] == os;
      assert os != [] ==> Reconnects(failures, os) == Reconnects(0, os[1..]);
    }
  }

  /** The collector's callback fires exactly once per maximal failure streak of length three or more. */
  lemma {:induction false} OncePerLongStreak(os: seq<bool>)
    ensures Fires(0, os) == LongStreaks(Streaks(os))
    decreases |os|
  {
    if os != [] {
      if os[0] {
        OncePerLongStreak(os[1..]);
      } else {
        FiresThroughStreak(0, os);
        OncePerLongStreak(os[Streak(os)..]);
        assert Streaks(os)[1..] == Streaks(os[Streak(os)..]);
      }
    }
  }

  /** The keepalive reconnects once per three failures of a streak: the sum of floor(length / 3). */
  lemma {:induction false} ThirdOfEveryStreak(os: seq<bool>)
    ensures Reconnects(0, os) == Thirds(Streaks(os))
    decreases |os|
  {
    if os != [] {
      if os[0] {
        ThirdOfEveryStreak(os[1..]);
      } else {
        ReconnectsThroughStreak(0, os);
        ThirdOfEveryStreak(os[Streak(os)..]);
        assert Streaks(os)[1..] == Streaks(os[Streak(os)..]);
      }
    }
  }

  /** The collector's two counters after these outcomes: consecutive failures and callbacks. */
  function Counted(os: seq<bool>): (nat, nat) {
    if os == [] then (0, 0)
    else
      var (failures, fires) := Counted(os[..|os| - 1]);
      if os[|os| - 1] then (0, fires)
      else (failures + 1, fires + if failures + 1 == THRESHOLD then 1 else 0)
  }

  lemma {:induction false} CountedSplits(past: seq<bool>, future: seq<bool>)
    ensures Fires(0, past + future) == Counted(past).1 + Fires(Counted(past).0, future)
    decreases |past|
  {
    if past == [] {
      assert past + future == future;
    } else {
      var n := |past| - 1;
      var rest := [past[n]] + future;
      assert past + future == past[..n] + rest;
      assert rest[1..] == future;
      CountedSplits(past[..n], rest);
    }
  }

  /** Counting as the outcomes come in gives one callback per long streak. */
  lemma CountedOncePerLongStreak(os: seq<bool>)
    ensures Counted(os).1 == LongStreaks(Streaks(os))
  {
    CountedSplits(os, []);
    assert os + [] == os;
    OncePerLongStreak(os);
  }

  /** Keepalive.Run over the pings of its lifetime; true is an answered ping. */
  method KeepaliveRun(pings: seq<bool>) returns (reconnects: nat)
    ensures reconnects == Thirds(Streaks(pings))
  {
    reconnects := 0;
    var consecutiveFailures := 0;
    for i := 0 to |pings|
      invariant 0 <= consecutiveFailures < THRESHOLD
      invariant Reconnects(0, pings) == reconnects + Reconnects(consecutiveFailures, pings[i..])
    {
      assert pings[i..][1..] == pings[i + 1..];
      if !pings[i] {
        consecutiveFailures := consecutiveFailures + 1;
        if consecutiveFailures >= THRESHOLD {
          reconnects := reconnects + 1;
          consecutiveFailures := 0;
        }
      } else {
        consecutiveFailures := 0;
      }
    }
    assert pings[|pings|..] == [];
    ThirdOfEveryStreak(pings);
  }
}
