/** The per-IP login rate limiter, as the sequence of logins, clean-ups and lockouts of one address. */
module AuthRateLimit {
  import opened Prelude

  type Time = int

  const MAX_FAILURES := 10
  const LOCKOUT := 1800 // seconds

  /** lockedUntil is None for Go's zero time, which is before every clock reading. */
  datatype RateLimit = RateLimit(failures: nat, lockedUntil: Option<Time>)

  /** CheckRateLimit: is the address locked out right now? */
  predicate LockedAt(s: Option<RateLimit>, now: Time) {
    s.Some? && s.value.lockedUntil.Some? && now < s.value.lockedUntil.value
  }

  /** RecordFailedAttempt: the new entry and the remaining lockout it reports. */
  function Record(s: Option<RateLimit>, now: Time): (Option<RateLimit>, int) {
    var st := match s
      case None => RateLimit(0, None)
      case Some(r) => if r.lockedUntil.Some? && now >= r.lockedUntil.value then RateLimit(0, None) else r;
    if LockedAt(Some(st), now) then (Some(st), st.lockedUntil.value - now)
    else if st.failures + 1 >= MAX_FAILURES then (Some(RateLimit(st.failures + 1, Some(now + LOCKOUT))), LOCKOUT)
    else (Some(RateLimit(st.failures + 1, None)), 0)
  }

  /** CleanupExpired's treatment of one entry. */
  function CleanedUp(s: Option<RateLimit>, now: Time): Option<RateLimit> {
    if s.Some? && !LockedAt(s, now) && s.value.failures < MAX_FAILURES then None else s
  }

  /** What one address does: a wrong or a right password, or the background clean-up passing by. */
  datatype Event = Wrong(checkedAt: Time, at: Time) | Right(at: Time) | Cleanup(at: Time)

  /** The password of a wrong login is evaluated only past CheckRateLimit. */
  predicate Evaluated(s: Option<RateLimit>, ev: Event) {
    ev.Wrong? && !LockedAt(s, ev.checkedAt)
  }

  function Next(s: Option<RateLimit>, ev: Event): Option<RateLimit> {
    match ev
    case Wrong(checkedAt, at) => if LockedAt(s, checkedAt) then s else Record(s, at).0
    case Right(at) => if LockedAt(s, at) then s else None
    case Cleanup(at) => CleanedUp(s, at)
  }

  /** Every entry reached: fewer than ten failures exactly when it has never been locked. */
  ghost predicate Sound(s: Option<RateLimit>) {
    s.Some? ==>
      && 1 <= s.value.failures <= MAX_FAILURES
      && (s.value.failures < MAX_FAILURES <==> s.value.lockedUntil.None?)
  }

  lemma NextSound(s: Option<RateLimit>, ev: Event)
    requires Sound(s)
    ensures Sound(Next(s, ev))
  {
  }

  function Instant(ev: Event): Time {
    if ev.Wrong? then ev.checkedAt else ev.at
  }

  /** The clock never goes back, between requests or within one. */
  ghost predicate Ordered(evs: seq<Event>) {
    && (forall i :: 0 <= i < |evs| && evs[i].Wrong? ==> evs[i].checkedAt <= evs[i].at)
    && (forall i, j :: 0 <= i < j < |evs| ==> evs[i].at <= Instant(evs[j]))
  }

  predicate InWindow(t: Time, from: Time) {
    from <= t < from + 1800
  }

  /** Wrong passwords evaluated in the half-open window of thirty minutes from `from`. */
  function EvaluatedIn(s: Option<RateLimit>, evs: seq<Event>, from: Time): nat
    decreases |evs|
  {
    if evs == [] then 0
    else (if Evaluated(s, evs[0]) && InWindow(evs[0].at, from) then 1 else 0) + EvaluatedIn(Next(s, evs[0]), evs[1..], from)
  }

  /** Successful logins and clean-ups in the window; only they forget counted failures. */
  function Resets(evs: seq<Event>, from: Time): nat {
    if evs == [] then 0
    else (if !evs[0].Wrong? && InWindow(evs[0].at, from) then 1 else 0) + Resets(evs[1..], from)
  }

  /** How many more wrong passwords the entry lets through before the window closes. */
  function Budget(s: Option<RateLimit>, from: Time): nat {
    match s
    case None => MAX_FAILURES
    case Some(r) =>
      if r.lockedUntil.Some? then (if r.lockedUntil.value >= from + LOCKOUT then 0 else MAX_FAILURES)
      else if r.failures <= MAX_FAILURES then MAX_FAILURES - r.failures
      else 0
  }

  /** One event inside the window spends its budget, or is one of the resets that refill it by nine. */
  lemma SpendsBudget(s: Option<RateLimit>, ev: Event, from: Time)
    requires Sound(s) && InWindow(ev.at, from) && (ev.Wrong? ==> ev.checkedAt <= ev.at)
    ensures (if Evaluated(s, ev) then 1 else 0) + Budget(Next(s, ev), from)
         <= Budget(s, from) + if ev.Wrong? then 0 else MAX_FAILURES - 1
  {
  }

  lemma {:induction false} NothingAfterWindow(s: Option<RateLimit>, evs: seq<Event>, from: Time)
    requires forall i :: 0 <= i < |evs| ==> evs[i].at >= from + LOCKOUT
    ensures EvaluatedIn(s, evs, from) == 0 && Resets(evs, from) == 0
    decreases |evs|
  {
    if evs != [] {
      NothingAfterWindow(Next(s, evs[0]), evs[1..], from);
    }
  }

  lemma {:induction false} WithinWindow(s: Option<RateLimit>, evs: seq<Event>, from: Time)
    requires Sound(s) && Ordered(evs) && forall i :: 0 <= i < |evs| ==> evs[i].at >= from
    ensures EvaluatedIn(s, evs, from) <= Budget(s, from) + (MAX_FAILURES - 1) * Resets(evs, from)
    decreases |evs|
  {
    if evs != [] {
      if InWindow(evs[0].at, from) {
        NextSound(s, evs[0]);
        SpendsBudget(s, evs[0], from);
        WithinWindow(Next(s, evs[0]), evs[1..], from);
      } else {
        LaterThanFirst(evs);
        NothingAfterWindow(s, evs, from);
      }
    }
  }

  lemma LaterThanFirst(evs: seq<Event>)
    requires Ordered(evs) && evs != []
    ensures forall i :: 0 <= i < |evs| ==> evs[i].at >= evs[0].at
  {
    forall i | 0 < i < |evs| ensures evs[i].at >= evs[0].at {
      assert evs[0].at <= Instant(evs[i]);
    }
  }

  /**
   * The window bound: however logins, lockouts and clean-ups follow one another, a half-open window
   * of thirty minutes with k successful logins or clean-ups in it sees at most 10 + 9k wrong
   * passwords evaluated; with none in it, at most 10.
   */
  lemma {:induction false} WindowBound(s: Option<RateLimit>, evs: seq<Event>, from: Time)
    requires Sound(s) && Ordered(evs)
    ensures EvaluatedIn(s, evs, from) <= 10 + 9 * Resets(evs, from)
    decreases |evs|
  {
    if evs != [] {
      if evs[0].at < from {
        NextSound(s, evs[0]);
        WindowBound(Next(s, evs[0]), evs[1..], from);
      } else {
        LaterThanFirst(evs);
        WithinWindow(s, evs, from);
      }
    }
  }

  /** n wrong passwords at time 0. */
  function Burst(n: nat): seq<Event> {
    seq(n, i => Wrong(0, 0))
  }

  /** The entry after f counted failures. */
  function Counted(f: nat): Option<RateLimit> {
    if f == 0 then None else Some(RateLimit(f, None))
  }

  lemma OneCounts(f: nat, evs: seq<Event>)
    requires f + 1 < MAX_FAILURES
    ensures EvaluatedIn(Counted(f), [Wrong(0, 0)] + evs, 0) == 1 + EvaluatedIn(Counted(f + 1), evs, 0)
  {
    assert ([Wrong(0, 0)] + evs)[1..] == evs;
  }

  lemma BurstSplits(n: nat, evs: seq<Event>)
    requires n > 0
    ensures Burst(n) + evs == [Wrong(0, 0)] + (Burst(n - 1) + evs)
  {
  }

  lemma {:induction false} BurstCounts(f: nat, n: nat, evs: seq<Event>)
    requires f + n < MAX_FAILURES
    ensures EvaluatedIn(Counted(f), Burst(n) + evs, 0) == n + EvaluatedIn(Counted(f + n), evs, 0)
    decreases n
  {
    if n == 0 {
      assert Burst(0) + evs == evs;
    } else {
      BurstSplits(n, evs);
      OneCounts(f, Burst(n - 1) + evs);
      BurstCounts(f + 1, n - 1, evs);
    }
  }

  /** The resets in the window, in order: true for a successful login, false for a clean-up. */
  function ResetKinds(evs: seq<Event>, from: Time): seq<bool> {
    if evs == [] then []
    else (if !evs[0].Wrong? && InWindow(evs[0].at, from) then [evs[0].Right?] else []) + ResetKinds(evs[1..], from)
  }

  lemma {:induction false} KindsAreResets(evs: seq<Event>, from: Time)
    ensures |ResetKinds(evs, from)| == Resets(evs, from)
  {
    if evs != [] {
      KindsAreResets(evs[1..], from);
    }
  }

  function ResetOf(login: bool): Event {
    if login then Right(0) else Cleanup(0)
  }

  /** Nine wrong passwords before each reset, and ten after the last. */
  function Rounds(kinds: seq<bool>): seq<Event> {
    if kinds == [] then Burst(9) + [Wrong(0, 0)]
    else Burst(9) + ([ResetOf(kinds[0])] + Rounds(kinds[1..]))
  }

  lemma {:induction false} BurstKinds(n: nat, evs: seq<Event>)
    ensures ResetKinds(Burst(n) + evs, 0) == ResetKinds(evs, 0)
    decreases n
  {
    if n == 0 {
      assert Burst(0) + evs == evs;
    } else {
      BurstSplits(n, evs);
      assert ([Wrong(0, 0)] + (Burst(n - 1) + evs))[1..] == Burst(n - 1) + evs;
      BurstKinds(n - 1, evs);
    }
  }

  /** All of it happens at one instant. */
  lemma {:induction false} RoundsAtZero(kinds: seq<bool>)
    ensures forall i :: 0 <= i < |Rounds(kinds)| ==> Rounds(kinds)[i].at == Instant(Rounds(kinds)[i]) == 0
  {
    if kinds != [] {
      RoundsAtZero(kinds[1..]);
    }
  }

  /** Nine wrong passwords and a reset leave nothing behind. */
  lemma RoundCounts(login: bool, evs: seq<Event>)
    ensures EvaluatedIn(None, Burst(9) + ([ResetOf(login)] + evs), 0) == 9 + EvaluatedIn(None, evs, 0)
    ensures ResetKinds(Burst(9) + ([ResetOf(login)] + evs), 0) == [login] + ResetKinds(evs, 0)
  {
    var rest := [ResetOf(login)] + evs;
    assert rest[1..] == evs && rest[0] == ResetOf(login);
    BurstCounts(0, 9, rest);
    BurstKinds(9, rest);
    assert Next(Counted(9), ResetOf(login)) == None;
  }

  lemma TenCount()
    ensures EvaluatedIn(None, Burst(9) + [Wrong(0, 0)], 0) == 10 && ResetKinds(Burst(9) + [Wrong(0, 0)], 0) == []
  {
    var tail := [Wrong(0, 0)];
    assert tail[1..] == [];
    BurstCounts(0, 9, tail);
    BurstKinds(9, tail);
  }

  /** Each round lets nine wrong passwords through, and the last one more. */
  lemma {:induction false} RoundsCount(kinds: seq<bool>)
    ensures ResetKinds(Rounds(kinds), 0) == kinds
    ensures EvaluatedIn(None, Rounds(kinds), 0) == MAX_FAILURES + (MAX_FAILURES - 1) * |kinds|
  {
    if kinds == [] {
      TenCount();
    } else {
      RoundsCount(kinds[1..]);
      RoundCounts(kinds[0], Rounds(kinds[1..]));
      assert kinds == [kinds[0]] + kinds[1..];
    }
  }

  /** In every run, a window with just these successful logins and clean-ups in it sees at most m evaluations. */
  ghost predicate AlwaysAtMost(kinds: seq<bool>, m: int) {
    forall evs: seq<Event>, from: Time ::
      Ordered(evs) && ResetKinds(evs, from) == kinds ==> EvaluatedIn(None, evs, from) <= m
  }

  /**
   * The window, exactly: whatever mixture of successful logins and clean-ups falls into it, a bound
   * holds in every run if and only if it is at least ten and nine more for each of them. So ten holds
   * always exactly when there is none.
   */
  lemma WindowExact(kinds: seq<bool>, m: int)
    ensures AlwaysAtMost(kinds, m) <==> 10 + 9 * |kinds| <= m
  {
    RoundsCount(kinds);
    RoundsAtZero(kinds);
    assert Ordered(Rounds(kinds));
    forall evs: seq<Event>, from: Time | Ordered(evs) && ResetKinds(evs, from) == kinds
      ensures EvaluatedIn(None, evs, from) <= MAX_FAILURES + (MAX_FAILURES - 1) * |kinds|
    {
      WindowBound(None, evs, from);
      KindsAreResets(evs, from);
    }
  }

  /** The smallest instances: one clean-up, or one successful login, lets nineteen through at once. */
  lemma OneResetForgets(login: bool)
    ensures var evs := Burst(9) + ([ResetOf(login)] + (Burst(9) + [Wrong(0, 0)]));
      Ordered(evs) && ResetKinds(evs, 0) == [login] && EvaluatedIn(None, evs, 0) == 19
  {
    RoundsCount([login]);
    RoundsAtZero([login]);
    assert [login][1..] == [];
    assert Rounds([login]) == Burst(9) + ([ResetOf(login)] + (Burst(9) + [Wrong(0, 0)]));
  }

  // ---- What the counter means, told from the events alone ----

  /** The entry after the first n events, from an address never seen. */
  function StateAt(evs: seq<Event>, n: nat): Option<RateLimit>
    requires n <= |evs|
  {
    if n == 0 then None else Next(StateAt(evs, n - 1), evs[n - 1])
  }

  /**
   * The k-th event starts a lockout: it is a wrong password that is evaluated, outside every lockout
   * before it, and the tenth in a row.
   */
  ghost predicate Locks(evs: seq<Event>, k: nat)
    requires k < |evs|
    decreases k, 1
  {
    evs[k].Wrong? && !LockedBy(evs, k, evs[k].checkedAt) && InARow(evs, k) == 9
  }

  /** One of the first n events started a lockout of thirty minutes, and it is not over at t. */
  ghost predicate LockedBy(evs: seq<Event>, n: nat, t: Time)
    requires n <= |evs|
    decreases n, 0
  {
    exists k :: 0 <= k < n && Locks(evs, k) && t < evs[k].at + 1800
  }

  /**
   * Wrong passwords evaluated since the last lockout, successful login or clean-up, among the first n
   * events.
   */
  ghost function InARow(evs: seq<Event>, n: nat): nat
    requires n <= |evs|
    decreases n, 0
  {
    if n == 0 then 0
    else if evs[n - 1].Wrong? then
      if LockedBy(evs, n - 1, evs[n - 1].checkedAt) then InARow(evs, n - 1)
      else if Locks(evs, n - 1) then 0
      else InARow(evs, n - 1) + 1
    else if evs[n - 1].Right? && LockedBy(evs, n - 1, evs[n - 1].at) then InARow(evs, n - 1)
    else 0
  }

  /** Nothing among the first n events is later than t. */
  predicate Past(evs: seq<Event>, n: nat, t: Time)
    requires n <= |evs|
  {
    forall k :: 0 <= k < n ==> evs[k].at <= t
  }

  /** The entry says what the events say: when the address is locked, and how many failures count. */
  ghost predicate Tells(evs: seq<Event>, n: nat)
    requires n <= |evs|
  {
    && Sound(StateAt(evs, n))
    && (forall t :: Past(evs, n, t) ==> (LockedAt(StateAt(evs, n), t) <==> LockedBy(evs, n, t)))
    && InARow(evs, n) == match StateAt(evs, n)
                         case None => 0
                         case Some(r) => if r.lockedUntil.None? then r.failures else 0
  }

  lemma LockedBySnoc(evs: seq<Event>, n: nat, t: Time)
    requires n < |evs|
    ensures LockedBy(evs, n + 1, t) <==> LockedBy(evs, n, t) || (Locks(evs, n) && t < evs[n].at + 1800)
  {
  }

  lemma PastBefore(evs: seq<Event>, n: nat)
    requires Ordered(evs) && n < |evs|
    ensures Past(evs, n, Instant(evs[n])) && Past(evs, n, evs[n].at) && Instant(evs[n]) <= evs[n].at
  {
  }

  lemma TellsNext(evs: seq<Event>, n: nat)
    requires Ordered(evs) && n < |evs| && Tells(evs, n)
    ensures Tells(evs, n + 1)
  {
    var s, ev, m := StateAt(evs, n), evs[n], n + 1;
    PastBefore(evs, n);
    NextSound(s, ev);
    assert LockedAt(s, Instant(ev)) <==> LockedBy(evs, n, Instant(ev));
    assert Locks(evs, n) <==> ev.Wrong? && !LockedAt(s, ev.checkedAt) && InARow(evs, n) == 9;
    forall t | Past(evs, m, t) ensures LockedAt(StateAt(evs, m), t) <==> LockedBy(evs, m, t) {
      LockedBySnoc(evs, n, t);
      assert Past(evs, n, t) && ev.at <= t;
      assert LockedAt(s, t) <==> LockedBy(evs, n, t);
    }
  }

  lemma {:induction false} EventsTell(evs: seq<Event>, n: nat)
    requires Ordered(evs) && n <= |evs|
    ensures Tells(evs, n)
    decreases n
  {
    if n > 0 {
      EventsTell(evs, n - 1);
      TellsNext(evs, n - 1);
    }
  }

  /**
   * Lockouts, exactly: whatever an address has done, it is locked out at t if and only if one of its
   * wrong passwords was the tenth in a row to be evaluated, outside any lockout, at most thirty minutes
   * before.
   */
  lemma LockoutExact(evs: seq<Event>, t: Time)
    requires Ordered(evs) && Past(evs, |evs|, t)
    ensures LockedAt(StateAt(evs, |evs|), t) <==>
      exists k :: 0 <= k < |evs| && Locks(evs, k) && evs[k].at <= t < evs[k].at + 1800
  {
    EventsTell(evs, |evs|);
    if LockedBy(evs, |evs|, t) {
      var k :| 0 <= k < |evs| && Locks(evs, k) && t < evs[k].at + 1800;
      assert evs[k].at <= t;
    }
  }

  /** ... and a wrong password is evaluated exactly outside those thirty minutes. */
  lemma EvaluatedOutside(evs: seq<Event>, n: nat)
    requires Ordered(evs) && n < |evs|
    ensures Evaluated(StateAt(evs, n), evs[n]) <==> evs[n].Wrong? && !LockedBy(evs, n, evs[n].checkedAt)
  {
    EventsTell(evs, n);
    PastBefore(evs, n);
  }

  /** What comes before the end of a lockout leaves the entry alone. */
  lemma {:induction false} LockoutLasts(evs: seq<Event>, k: nat, n: nat)
    requires Ordered(evs) && k < n <= |evs| && Locks(evs, k)
    requires forall j :: k < j < n ==> Instant(evs[j]) < evs[k].at + 1800
    ensures StateAt(evs, n) == Some(RateLimit(10, Some(evs[k].at + 1800)))
    decreases n
  {
    EventsTell(evs, n - 1);
    PastBefore(evs, n - 1);
    if n > k + 1 {
      LockoutLasts(evs, k, n - 1);
    }
  }

  /**
   * Lockouts end: the first attempt checked at least thirty minutes after the failure that started one
   * is evaluated. A wrong password then counts as the first failure, a right one clears the entry.
   */
  lemma LockoutEnds(evs: seq<Event>, k: nat, n: nat)
    requires Ordered(evs) && k < n < |evs| && Locks(evs, k)
    requires forall j :: k < j < n ==> Instant(evs[j]) < evs[k].at + 1800
    requires Instant(evs[n]) >= evs[k].at + 1800 && !evs[n].Cleanup?
    ensures evs[n].Wrong? ==> Evaluated(StateAt(evs, n), evs[n]) && StateAt(evs, n + 1) == Some(RateLimit(1, None))
    ensures evs[n].Right? ==> !LockedAt(StateAt(evs, n), evs[n].at) && StateAt(evs, n + 1) == None
  {
    LockoutLasts(evs, k, n);
    PastBefore(evs, n);
  }

  /** Appending an event. */
  lemma {:induction false} StateOfPrefix(evs: seq<Event>, ev: Event, n: nat)
    requires n <= |evs|
    ensures StateAt(evs + [ev], n) == StateAt(evs, n)
    decreases n
  {
    if n > 0 {
      StateOfPrefix(evs, ev, n - 1);
    }
  }

  function StateOf(evs: seq<Event>): Option<RateLimit> {
    StateAt(evs, |evs|)
  }

  lemma StateSnoc(evs: seq<Event>, ev: Event)
    requires Ordered(evs) && Past(evs, |evs|, Instant(ev)) && (ev.Wrong? ==> ev.checkedAt <= ev.at)
    ensures Ordered(evs + [ev]) && Past(evs + [ev], |evs + [ev]|, ev.at)
    ensures StateOf(evs + [ev]) == Next(StateOf(evs), ev)
  {
    StateOfPrefix(evs, ev, |evs|);
    assert (evs + [ev])[|evs|] == ev;
  }

  /**
   * CleanupExpired drops an entry exactly when it was never locked, whatever the time: it never
   * lifts a lockout, and never frees an expired one.
   */
  lemma CleanupDropsUnlocked(s: Option<RateLimit>, now: Time)
    requires Sound(s) && s.Some?
    ensures CleanedUp(s, now) == None <==> s.value.lockedUntil.None?
    ensures CleanedUp(s, now) != None ==> CleanedUp(s, now) == s
    ensures forall t :: LockedAt(CleanedUp(s, now), t) <==> LockedAt(s, t)
  {
  }
}
