/** The session store: cookies in, answers out, with a ghost history of what was created and deleted. */
module AuthSessions {
  import opened Prelude
  import R = AuthRateLimit

  type Time = int

  const SESSION_DURATION := 604800 // seven days in seconds

  datatype SessionEvent = Created(id: string, at: Time) | Deleted(id: string) | AllDeleted

  /**
   * When the session expires that the history leaves alive under this ID; clean-ups and validations
   * are not part of the history.
   */
  function ExpiryOf(history: seq<SessionEvent>, id: string): Option<Time> {
    if history == [] then None
    else match history[|history| - 1]
      case Created(i, at) => if i == id then Some(at + SESSION_DURATION) else ExpiryOf(history[..|history| - 1], id)
      case Deleted(i) => if i == id then None else ExpiryOf(history[..|history| - 1], id)
      case AllDeleted => None
  }

  /** Some creation of the ID is at most seven days old and no deletion of it came later. */
  ghost predicate AliveAt(history: seq<SessionEvent>, id: string, now: Time) {
    exists k :: 0 <= k < |history| && history[k].Created? && history[k].id == id
      && now <= history[k].at + 7 * 24 * 3600
      && forall j :: k < j < |history| ==> history[j] != Deleted(id) && history[j] != AllDeleted
  }

  /** IDs are never issued twice. */
  ghost predicate FreshIds(history: seq<SessionEvent>) {
    forall i, j :: 0 <= i < j < |history| && history[i].Created? && history[j].Created? ==> history[i].id != history[j].id
  }

  /** The expiry computed from the history says what the history means. */
  lemma {:induction false} ExpiryMeansAlive(history: seq<SessionEvent>, id: string, now: Time)
    requires FreshIds(history)
    ensures AliveAt(history, id, now) <==> ExpiryOf(history, id).Some? && now <= ExpiryOf(history, id).value
    decreases |history|
  {
    if history != [] {
      var n := |history| - 1;
      var init, last := history[..n], history[n];
      ExpiryMeansAlive(init, id, now);
      if last.Created? && last.id == id {
        assert AliveAt(history, id, now) <==> now <= last.at + SESSION_DURATION;
      } else if last == Deleted(id) || last == AllDeleted {
        assert !AliveAt(history, id, now);
      } else {
        AliveInit(history, id, now);
      }
    }
  }

  lemma AliveInit(history: seq<SessionEvent>, id: string, now: Time)
    requires history != []
    requires var last := history[|history| - 1];
      last != Deleted(id) && last != AllDeleted && !(last.Created? && last.id == id)
    ensures AliveAt(history, id, now) <==> AliveAt(history[..|history| - 1], id, now)
  {
    var n := |history| - 1;
    var init := history[..n];
    assert forall k :: 0 <= k < n ==> init[k] == history[k];
    if AliveAt(init, id, now) {
      var k :| 0 <= k < n && init[k].Created? && init[k].id == id && now <= init[k].at + SESSION_DURATION
        && forall j :: k < j < n ==> init[j] != Deleted(id) && init[j] != AllDeleted;
      assert history[k].Created?;
    }
    if AliveAt(history, id, now) {
      var k :| 0 <= k < |history| && history[k].Created? && history[k].id == id
        && now <= history[k].at + SESSION_DURATION
        && forall j :: k < j < |history| ==> history[j] != Deleted(id) && history[j] != AllDeleted;
      assert k < n && init[k].Created?;
    }
  }

  datatype LoginOutcome = RateLimited | SetupRequired | InvalidPassword | LoggedIn(id: string)

  // ---- The rate limiter's table ----

  /** An entry has ten failures exactly when it is or was locked. */
  ghost predicate SoundLimits(limits: map<string, R.RateLimit>) {
    forall ip :: ip in limits ==> R.Sound(Some(limits[ip]))
  }

  function LimitOf(limits: map<string, R.RateLimit>, ip: string): Option<R.RateLimit> {
    if ip in limits then Some(limits[ip]) else None
  }

  /** What each address has done up to some time. */
  type Logins = string -> seq<R.Event>

  /** The entry of the address is what its logins and the clean-ups have made of it. */
  ghost predicate Tracked(limits: map<string, R.RateLimit>, logins: Logins, until: Time, ip: string) {
    R.Ordered(logins(ip)) && R.Past(logins(ip), |logins(ip)|, until) && LimitOf(limits, ip) == R.StateOf(logins(ip))
  }

  ghost predicate AllTracked(limits: map<string, R.RateLimit>, logins: Logins, until: Time) {
    forall ip :: Tracked(limits, logins, until, ip)
  }

  /** By what the address did, it is locked out: a failure of the last thirty minutes was its tenth in a row. */
  ghost predicate LockedOut(evs: seq<R.Event>, t: Time) {
    exists k :: 0 <= k < |evs| && R.Locks(evs, k) && evs[k].at <= t < evs[k].at + 1800
  }

  lemma LockedIsLockedOut(limits: map<string, R.RateLimit>, logins: Logins, until: Time, ip: string, now: Time)
    requires Tracked(limits, logins, until, ip) && until <= now
    ensures R.LockedAt(LimitOf(limits, ip), now) <==> LockedOut(logins(ip), now)
  {
    R.LockoutExact(logins(ip), now);
  }

  function AfterCleanup(logins: Logins, now: Time): Logins {
    ip => logins(ip) + [R.Cleanup(now)]
  }

  lemma CleanupTracked(limits: map<string, R.RateLimit>, limits': map<string, R.RateLimit>, logins: Logins, until: Time,
                       now: Time)
    requires AllTracked(limits, logins, until) && until <= now
    requires forall ip :: LimitOf(limits', ip) == R.CleanedUp(LimitOf(limits, ip), now)
    ensures AllTracked(limits', AfterCleanup(logins, now), now)
  {
    forall ip ensures Tracked(limits', AfterCleanup(logins, now), now, ip) {
      assert Tracked(limits, logins, until, ip);
      R.StateSnoc(logins(ip), R.Cleanup(now));
    }
  }

  function AfterLogin(logins: Logins, ip: string, ev: R.Event): Logins {
    other => if other == ip then logins(ip) + [ev] else logins(other)
  }

  lemma LoginTracked(limits: map<string, R.RateLimit>, limits': map<string, R.RateLimit>, logins: Logins, until: Time,
                     ip: string, ev: R.Event)
    requires AllTracked(limits, logins, until) && until <= R.Instant(ev) <= ev.at
    requires LimitOf(limits', ip) == R.Next(LimitOf(limits, ip), ev)
    requires forall other :: other != ip ==> LimitOf(limits', other) == LimitOf(limits, other)
    ensures AllTracked(limits', AfterLogin(logins, ip, ev), ev.at)
  {
    forall other ensures Tracked(limits', AfterLogin(logins, ip, ev), ev.at, other) {
      assert Tracked(limits, logins, until, other);
      if other == ip {
        R.StateSnoc(logins(ip), ev);
      }
    }
  }

  lemma CleanedKeepsLocks(limits: map<string, R.RateLimit>, limits': map<string, R.RateLimit>, now: Time)
    requires SoundLimits(limits) && forall ip :: LimitOf(limits', ip) == R.CleanedUp(LimitOf(limits, ip), now)
    ensures SoundLimits(limits')
    ensures forall ip, t :: R.LockedAt(LimitOf(limits', ip), t) <==> R.LockedAt(LimitOf(limits, ip), t)
  {
    forall ip | ip in limits' ensures R.Sound(Some(limits'[ip])) {
      assert LimitOf(limits', ip) == R.CleanedUp(LimitOf(limits, ip), now);
    }
    forall ip, t ensures R.LockedAt(LimitOf(limits', ip), t) <==> R.LockedAt(LimitOf(limits, ip), t) {
      if ip in limits {
        R.CleanupDropsUnlocked(LimitOf(limits, ip), now);
      }
    }
  }

  class SessionStore {
    var sessions: map<string, Time>
    var rateLimits: map<string, R.RateLimit>
    ghost var history: seq<SessionEvent>
    ghost var clock: Time
    ghost var logins: Logins
    ghost var lastLogin: Time

    /**
     * The table holds the sessions the history leaves alive, except some that have expired; and the
     * lockout entries are those of what the addresses did.
     */
    ghost predicate Valid() reads this {
      && FreshIds(history)
      && (forall id :: id in sessions ==> ExpiryOf(history, id) == Some(sessions[id]))
      && (forall id :: id !in sessions && ExpiryOf(history, id).Some? ==> ExpiryOf(history, id).value < clock)
      && SoundLimits(rateLimits) && AllTracked(rateLimits, logins, lastLogin) && lastLogin <= clock
    }

    ghost predicate Unissued(id: string) reads this {
      forall k :: 0 <= k < |history| && history[k].Created? ==> history[k].id != id
    }

    function Limit(ip: string): Option<R.RateLimit> reads this {
      LimitOf(rateLimits, ip)
    }

    constructor ()
      ensures Valid() && history == [] && sessions == map[] && rateLimits == map[] && logins == (_ => [])
    {
      sessions, rateLimits, history, clock, logins, lastLogin := map[], map[], [], 0, _ => [], 0;
    }

    method CreateSession(id: string, now: Time)
      requires Valid() && Unissued(id) && clock <= now
      modifies this`sessions, this`history, this`clock
      ensures Valid() && history == old(history) + [Created(id, now)] && clock == now
    {
      sessions := sessions[id := now + SESSION_DURATION];
      history, clock := history + [Created(id, now)], now;
      assert history[..|history| - 1] == old(history);
    }

    /** True iff the history says the session is alive; an expired one found on the way is dropped. */
    method ValidateSession(id: string, now: Time) returns (ok: bool)
      requires Valid() && clock <= now
      modifies this`sessions, this`clock
      ensures Valid() && history == old(history) && clock == now
      ensures ok <==> AliveAt(history, id, now)
    {
      clock := now;
      ExpiryMeansAlive(history, id, now);
      if id !in sessions {
        return false;
      }
      if now > sessions[id] {
        sessions := sessions - {id};
        return false;
      }
      return true;
    }

    method DeleteSession(id: string)
      requires Valid()
      modifies this`sessions, this`history
      ensures Valid() && history == old(history) + [Deleted(id)]
    {
      sessions := sessions - {id};
      history := history + [Deleted(id)];
      assert history[..|history| - 1] == old(history);
    }

    method DeleteAllSessions()
      requires Valid()
      modifies this`sessions, this`history
      ensures Valid() && history == old(history) + [AllDeleted] && sessions == map[]
    {
      sessions := map[];
      history := history + [AllDeleted];
    }

    /** The background clean-up changes no answer, now or later, and lifts no lockout. */
    method CleanupExpired(now: Time)
      requires Valid() && clock <= now
      modifies this
      ensures Valid() && history == old(history) && clock == now
      ensures forall id :: id in sessions <==> id in old(sessions) && now <= old(sessions)[id]
      ensures logins == AfterCleanup(old(logins), now)
      ensures forall ip :: Limit(ip) == R.CleanedUp(old(Limit(ip)), now)
      ensures forall ip, t :: R.LockedAt(Limit(ip), t) <==> R.LockedAt(old(Limit(ip)), t)
    {
      clock := now;
      DropExpired(now);
      ghost var before := rateLimits;
      DropUnlocked(now);
      CleanupTracked(before, rateLimits, logins, lastLogin, now);
      logins, lastLogin := AfterCleanup(logins, now), now;
    }

    method DropExpired(now: Time)
      modifies this`sessions
      ensures forall id :: id in sessions <==> id in old(sessions) && now <= old(sessions)[id]
      ensures forall id :: id in sessions ==> sessions[id] == old(sessions)[id]
    {
      var ids := sessions.Keys;
      while ids != {}
        invariant ids <= old(sessions).Keys
        invariant forall id :: id in sessions <==> id in old(sessions) && (id in ids || now <= old(sessions)[id])
        invariant forall id :: id in sessions ==> sessions[id] == old(sessions)[id]
        decreases ids
      {
        var id :| id in ids;
        ids := ids - {id};
        if now > sessions[id] {
          sessions := sessions - {id};
        }
      }
    }

    method DropUnlocked(now: Time)
      requires SoundLimits(rateLimits)
      modifies this`rateLimits
      ensures SoundLimits(rateLimits)
      ensures forall ip :: LimitOf(rateLimits, ip) == R.CleanedUp(LimitOf(old(rateLimits), ip), now)
      ensures forall ip, t :: R.LockedAt(LimitOf(rateLimits, ip), t) <==> R.LockedAt(LimitOf(old(rateLimits), ip), t)
    {
      ghost var before := rateLimits;
      var ips := rateLimits.Keys;
      while ips != {}
        invariant ips <= before.Keys
        invariant forall ip :: ip in ips ==> LimitOf(rateLimits, ip) == LimitOf(before, ip)
        invariant forall ip :: ip !in ips ==> LimitOf(rateLimits, ip) == R.CleanedUp(LimitOf(before, ip), now)
        decreases ips
      {
        var ip :| ip in ips;
        ips := ips - {ip};
        assert LimitOf(rateLimits, ip) == LimitOf(before, ip) == Some(before[ip]);
        var state := rateLimits[ip];
        if (state.lockedUntil.None? || now >= state.lockedUntil.value) && state.failures < R.MAX_FAILURES {
          rateLimits := rateLimits - {ip};
        }
      }
      CleanedKeepsLocks(before, rateLimits, now);
    }

    method CheckRateLimit(ip: string, now: Time) returns (locked: bool)
      ensures locked <==> R.LockedAt(Limit(ip), now)
      ensures Valid() && clock <= now ==> (locked <==> LockedOut(logins(ip), now))
    {
      if Valid() && clock <= now {
        assert Tracked(rateLimits, logins, lastLogin, ip);
        LockedIsLockedOut(rateLimits, logins, lastLogin, ip, now);
      }
      if ip !in rateLimits || rateLimits[ip].lockedUntil.None? {
        return false;
      }
      return now < rateLimits[ip].lockedUntil.value;
    }

    /**
     * Within a lockout nothing changes and what is left of it is reported. Otherwise the failure counts,
     * as the first one after a lockout; the tenth starts a lockout of thirty minutes.
     */
    method RecordFailedAttempt(ip: string, now: Time) returns (remaining: int)
      requires SoundLimits(rateLimits)
      modifies this`rateLimits
      ensures SoundLimits(rateLimits)
      ensures Limit(ip) == R.Record(old(Limit(ip)), now).0
      ensures
        if R.LockedAt(old(Limit(ip)), now) then
          Limit(ip) == old(Limit(ip)) && remaining == old(Limit(ip)).value.lockedUntil.value - now
        else
          var count := if old(Limit(ip)).Some? && old(Limit(ip)).value.lockedUntil.None?
                       then old(Limit(ip)).value.failures + 1 else 1;
          if count == 10 then Limit(ip) == Some(R.RateLimit(10, Some(now + 1800))) && remaining == 1800
          else Limit(ip) == Some(R.RateLimit(count, None)) && remaining == 0
      ensures forall other :: other != ip ==> LimitOf(rateLimits, other) == LimitOf(old(rateLimits), other)
    {
      var state := R.RateLimit(0, None);
      if ip in rateLimits && !(rateLimits[ip].lockedUntil.Some? && now >= rateLimits[ip].lockedUntil.value) {
        state := rateLimits[ip];
      }
      if state.lockedUntil.Some? && now < state.lockedUntil.value {
        return state.lockedUntil.value - now;
      }
      state := state.(failures := state.failures + 1);
      if state.failures >= R.MAX_FAILURES {
        rateLimits := rateLimits[ip := R.RateLimit(state.failures, Some(now + R.LOCKOUT))];
        return R.LOCKOUT;
      }
      rateLimits := rateLimits[ip := state];
      return 0;
    }

    /**
     * HandleLogin for a decodable request: check the lockout, then the setup, then the password; a
     * wrong one is recorded, a right one clears the counter and opens a session.
     */
    method HandleLogin(ip: string, isSetUp: bool, correct: bool, freshId: string, checkedAt: Time, now: Time)
      returns (r: LoginOutcome)
      requires Valid() && Unissued(freshId) && clock <= checkedAt <= now
      modifies this
      ensures Valid()
      ensures forall other :: other != ip ==> Limit(other) == old(Limit(other))
      ensures
        if LockedOut(old(logins)(ip), checkedAt) then
          r == RateLimited && Limit(ip) == old(Limit(ip)) && logins == old(logins)
        else if !isSetUp then
          r == SetupRequired && Limit(ip) == old(Limit(ip)) && logins == old(logins)
        else if !correct then
          && logins == AfterLogin(old(logins), ip, R.Wrong(checkedAt, now))
          && r == (if LockedOut(logins(ip), now) then RateLimited else InvalidPassword)
        else r == LoggedIn(freshId) && Limit(ip) == None && logins == AfterLogin(old(logins), ip, R.Right(now))
      ensures history == if r.LoggedIn? then old(history) + [Created(freshId, now)] else old(history)
    {
      ghost var before := rateLimits;
      assert Tracked(rateLimits, logins, lastLogin, ip);
      var locked := CheckRateLimit(ip, checkedAt);
      if locked {
        return RateLimited;
      }
      if !isSetUp {
        return SetupRequired;
      }
      if !correct {
        var remaining := RecordFailedAttempt(ip, now);
        Logged(before, ip, R.Wrong(checkedAt, now));
        LockedIsLockedOut(rateLimits, logins, lastLogin, ip, now);
        return if remaining > 0 then RateLimited else InvalidPassword;
      }
      rateLimits := rateLimits - {ip};
      Logged(before, ip, R.Right(now));
      CreateSession(freshId, now);
      return LoggedIn(freshId);
    }

    /** The login is over: `before` was the table when it began. */
    ghost method Logged(before: map<string, R.RateLimit>, ip: string, ev: R.Event)
      requires AllTracked(before, logins, lastLogin) && lastLogin <= R.Instant(ev) <= ev.at && clock <= ev.at
      requires LimitOf(rateLimits, ip) == R.Next(LimitOf(before, ip), ev)
      requires forall other :: other != ip ==> LimitOf(rateLimits, other) == LimitOf(before, other)
      modifies this`logins, this`clock, this`lastLogin
      ensures clock == lastLogin == ev.at && logins == AfterLogin(old(logins), ip, ev)
      ensures AllTracked(rateLimits, logins, lastLogin) && Tracked(rateLimits, logins, lastLogin, ip)
    {
      LoginTracked(before, rateLimits, logins, lastLogin, ip, ev);
      logins, clock, lastLogin := AfterLogin(logins, ip, ev), ev.at, ev.at;
    }
  }
}
