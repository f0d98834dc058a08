/** SSH reconnection with exponential backoff, and its frontend counterpart. */
module Reconnect {
  const MAX_ATTEMPTS := 5

  function Pow2(n: nat): nat {
    if n == 0 then 1 else 2 * Pow2(n - 1)
  }

  function Min(a: int, b: int): int {
    if a <= b then a else b
  }

  lemma {:induction false} Pow2Monotone(m: nat, n: nat)
    requires m <= n
    ensures 1 <= Pow2(m) <= Pow2(n)
    decreases n
  {
    if m == n {
      if m > 0 {
        Pow2Monotone(m - 1, m - 1);
      }
    } else {
      Pow2Monotone(m, n - 1);
    }
  }

  /** The backoff loop, in seconds: doubling stops at the cap, so nothing can overflow. */
  method BackoffDelay(attempt: nat) returns (d: int)
    ensures d == if Pow2(attempt) < 30 then Pow2(attempt) else 30
  {
    d := 1;
    for i := 0 to attempt
      invariant d == Pow2(i) < 30
    {
      d := d * 2;
      if d >= 30 {
        Pow2Monotone(i + 1, attempt);
        return 30;
      }
    }
  }

  /** The frontend's closed form, in milliseconds. */
  function GetReconnectDelay(attempt: nat): int {
    Min(1000 * Pow2(attempt), 30000)
  }

  /** Both ends of the product wait the same time before the same attempt. */
  lemma FrontendAgrees(attempt: nat)
    ensures GetReconnectDelay(attempt) == if Pow2(attempt) < 30 then 1000 * Pow2(attempt) else 30000
  {
  }

  datatype ConnState = Connected | Reconnecting | Failed

  datatype Attempt = Succeeds | Retryable(message: string) | Fatal(message: string)

  /** The i-th turn of the loop: was the context done, how did connect end, was the sleep cancelled. */
  datatype Turn = Turn(cancelled: bool, attempt: Attempt, sleepCancelled: bool)

  /** The total of the first k backoff sleeps after a reset. */
  function SleepTotal(k: nat): int {
    if k == 0 then 0 else SleepTotal(k - 1) + Min(Pow2(k - 1), 30)
  }

  /** 1 + 2 + 4 + 8 + ...: below the cap, k sleeps total 2^k - 1 seconds. */
  lemma {:induction false} SleepsTotal(k: nat)
    requires k <= MAX_ATTEMPTS
    ensures SleepTotal(k) == Pow2(k) - 1
    decreases k
  {
    if k > 0 {
      SleepsTotal(k - 1);
      Pow2Monotone(k - 1, 4);
      assert Pow2(4) == 16 by { assert Pow2(3) == 8; }
    }
  }

  /** A turn that lets the loop go on: a retryable failure, slept through, with attempts to spare. */
  predicate GoesOn(t: Turn, attempts: nat) {
    !t.cancelled && t.attempt.Retryable? && attempts + 1 < MAX_ATTEMPTS && !t.sleepCancelled
  }

  class Reconnector {
    var state: ConnState
    var attempts: nat
    var lastError: string

    constructor ()
      ensures state == Reconnecting && attempts == 0 && lastError == ""
    {
      state, attempts, lastError := Reconnecting, 0, "";
    }

    method Reset()
      modifies this
      ensures state == Reconnecting && attempts == 0 && lastError == ""
    {
      state, attempts, lastError := Reconnecting, 0, "";
    }

    /**
     * Run against any sequence of outcomes. It goes on for k turns, each a retryable failure slept
     * through, and stops at turn k: cancelled, connected with the counter cleared, or failed, which
     * happens exactly on a fatal error or on the attempt that reaches the maximum. It makes at most
     * max(1, 5 - attempts) connects, and after a reset its k sleeps total 2^k - 1 seconds, k < 5.
     */
    method Run(turns: nat -> Turn) returns (connects: nat, slept: int, ghost k: nat)
      modifies this
      ensures forall i :: 0 <= i < k ==> GoesOn(turns(i), old(attempts) + i)
      ensures !GoesOn(turns(k), old(attempts) + k)
      ensures connects == (if turns(k).cancelled then k else k + 1)
      ensures connects <= (if old(attempts) < 5 then 5 - old(attempts) else 1)
      ensures
        if turns(k).cancelled then
          attempts == old(attempts) + k && state == (if k == 0 then old(state) else Reconnecting)
        else if turns(k).attempt.Succeeds? then
          state == Connected && attempts == 0 && lastError == ""
        else
          && attempts == old(attempts) + k + 1 && lastError == turns(k).attempt.message
          && (state == Failed <==> turns(k).attempt.Fatal? || attempts >= 5)
          && (state != Failed ==> state == Reconnecting && turns(k).sleepCancelled)
      ensures old(attempts) == 0 ==> slept == Pow2(k) - 1 && k < 5
    {
      connects, slept, k := 0, 0, 0;
      while true
        invariant k == connects && attempts == old(attempts) + k
        invariant k > 0 ==> attempts < MAX_ATTEMPTS && state == Reconnecting
        invariant k == 0 ==> state == old(state)
        invariant forall i :: 0 <= i < k ==> GoesOn(turns(i), old(attempts) + i)
        invariant old(attempts) == 0 ==> slept == SleepTotal(k)
        invariant old(attempts) == 0 ==> k < MAX_ATTEMPTS
        decreases if attempts < MAX_ATTEMPTS then MAX_ATTEMPTS - attempts else 0
      {
        if old(attempts) == 0 {
          SleepsTotal(k);
        }
        var t := turns(connects);
        if t.cancelled {
          return;
        }
        state := Reconnecting;
        connects := connects + 1;
        if t.attempt.Succeeds? {
          state, attempts, lastError := Connected, 0, "";
          return;
        }
        attempts := attempts + 1;
        lastError := t.attempt.message;
        if t.attempt.Fatal? {
          state := Failed;
          return;
        }
        if attempts >= MAX_ATTEMPTS {
          state := Failed;
          return;
        }
        var delay := BackoffDelay(attempts - 1);
        if t.sleepCancelled {
          return;
        }
        slept := slept + delay;
        k := k + 1;
      }
    }
  }
}
