/**
 * The per-account throttle of AuthService (apps/backend/src/auth/auth.service.ts):
 * the lock check, the failed-attempt transition and the reset, as pure
 * functions of an account's three rate-limit columns and the current time.
 * Times are milliseconds on the server clock.
 */
module RateLimit {

  import opened Wrappers
  import opened SharedTypes

  /** A point on the server clock, in milliseconds. */
  type Time = int

  /** The columns failedAttempts, lastFailedAt and lockedUntil of one account. */
  datatype Throttle = Throttle(failedAttempts: nat, lastFailedAt: Option<Time>, lockedUntil: Option<Time>)

  /** The columns of a new account, and what a successful signin writes back. */
  const Cleared: Throttle := Throttle(0, None, None)

  /** Outcome of the lock check; a locked account reports the minutes left, rounded up. */
  datatype LockStatus = Unlocked | Locked(remainingMinutes: int)

  /**
   * How the columns hang together after any write the service makes: a lock
   * is present exactly when the counter has reached the limit, it lasts one
   * window from the failure that set it, and a counter of zero means no
   * failure is on record.
   */
  predicate Consistent(t: Throttle) {
    && (t.lockedUntil.Some? <==> t.failedAttempts >= MaxAttempts)
    && (t.lockedUntil.Some? ==> t.lastFailedAt.Some? && t.lockedUntil.value == t.lastFailedAt.value + WindowMs)
    && (t.failedAttempts == 0 <==> t.lastFailedAt.None?)
  }

  /** Math.ceil(ms / 60000) for a positive number of milliseconds. */
  function CeilMinutes(ms: int): (m: int)
    requires ms > 0
    ensures m >= 1
    ensures (m - 1) * MsPerMinute < ms <= m * MsPerMinute
  {
    (ms + MsPerMinute - 1) / MsPerMinute
  }

  /**
   * checkLockStatus: an account is locked while its lock time is still in
   * the future; an expired lock is left in place and simply ignored.
   */
  function CheckLockStatus(lockedUntil: Option<Time>, now: Time): (s: LockStatus)
    ensures s.Locked? <==> lockedUntil.Some? && now < lockedUntil.value
    ensures s.Locked? ==>
      && s.remainingMinutes >= 1
      && (s.remainingMinutes - 1) * MsPerMinute < lockedUntil.value - now <= s.remainingMinutes * MsPerMinute
  {
    match lockedUntil
    case None => Unlocked
    case Some(until) =>
      if until > now then Locked(CeilMinutes(until - now)) else Unlocked
  }

  /** As time passes a lock can only expire, and the minutes it reports never go up. */
  lemma LockOnlyWearsOff(lockedUntil: Option<Time>, earlier: Time, later: Time)
    requires earlier <= later
    requires CheckLockStatus(lockedUntil, later).Locked?
    ensures CheckLockStatus(lockedUntil, earlier).Locked?
    ensures CheckLockStatus(lockedUntil, later).remainingMinutes <= CheckLockStatus(lockedUntil, earlier).remainingMinutes
  {
  }

  /**
   * The previous failure happened less than one window before `now`; that
   * is, after the start of the window that ends at `now`.
   */
  predicate RecentFailure(lastFailedAt: Option<Time>, now: Time) {
    lastFailedAt.Some? && now - lastFailedAt.value < WindowMs
  }

  /**
   * recordFailedAttempt's new columns: the counter grows by one when the
   * previous failure is recent and restarts at one otherwise, the failure
   * time is `now`, and reaching the limit locks the account for one window.
   */
  function RecordedFailure(t: Throttle, now: Time): (r: Throttle)
    ensures r.failedAttempts == if RecentFailure(t.lastFailedAt, now) then t.failedAttempts + 1 else 1
    ensures r.lastFailedAt == Some(now)
    ensures r.lockedUntil == if r.failedAttempts >= MaxAttempts then Some(now + WindowMs) else None
    ensures Consistent(r)
  {
    var windowStart := now - WindowMs;
    var newFailedAttempts := if t.lastFailedAt.Some? && t.lastFailedAt.value > windowStart
      then t.failedAttempts + 1 else 1;
    var shouldLock := newFailedAttempts >= MaxAttempts;
    Throttle(newFailedAttempts, Some(now), if shouldLock then Some(now + WindowMs) else None)
  }

  /** A cleared account is consistent and never locked. */
  lemma ClearedIsUnlocked(now: Time)
    ensures Consistent(Cleared)
    ensures CheckLockStatus(Cleared.lockedUntil, now) == Unlocked
  {
  }

  /**
   * A failure recorded on an account that passed the lock check never takes
   * the counter past the limit: an account at the limit carries a lock, and
   * once that lock has expired the previous failure is a full window old.
   */
  lemma CounterStaysWithinLimit(t: Throttle, now: Time)
    requires Consistent(t) && t.failedAttempts <= MaxAttempts
    requires CheckLockStatus(t.lockedUntil, now) == Unlocked
    ensures RecordedFailure(t, now).failedAttempts <= MaxAttempts
  {
  }

  /** The first failure after a lock has expired starts a new count at one and does not lock. */
  lemma ExpiredLockRestartsCount(t: Throttle, now: Time)
    requires Consistent(t) && t.lockedUntil.Some?
    requires CheckLockStatus(t.lockedUntil, now) == Unlocked
    ensures RecordedFailure(t, now) == Throttle(1, Some(now), None)
  {
  }

  /**
   * While a lock set by a failure is running, and the clock has not gone
   * back past that failure, the reported wait is between 1 and
   * WindowMinutes minutes.
   */
  lemma ReportedWaitAtMostWindow(t: Throttle, now: Time)
    requires Consistent(t)
    requires t.lastFailedAt.Some? && t.lastFailedAt.value <= now
    requires CheckLockStatus(t.lockedUntil, now).Locked?
    ensures 1 <= CheckLockStatus(t.lockedUntil, now).remainingMinutes <= WindowMinutes
  {
  }

  /**
   * The window is open at its far end: a failure exactly one window after
   * the previous one starts the count again, whatever the counter was.
   */
  lemma FullWindowGapRestartsCount(t: Throttle, now: Time)
    requires t.lastFailedAt == Some(now - WindowMs)
    ensures RecordedFailure(t, now).failedAttempts == 1
    ensures RecordedFailure(t, now).lockedUntil == None
  {
  }

  /** The columns after failures at `times`, in order, on a cleared account. */
  function Replay(times: seq<Time>): Throttle
    decreases |times|
  {
    if times == [] then Cleared
    else RecordedFailure(Replay(times[..|times| - 1]), times[|times| - 1])
  }

  /**
   * Reference definition of the counter: the length of the run of failures
   * at the end of `times` in which each failure came less than one window
   * after the one before it.
   */
  function Streak(times: seq<Time>): nat
    decreases |times|
  {
    if |times| == 0 then 0
    else if |times| == 1 then 1
    else if times[|times| - 1] - times[|times| - 2] < WindowMs then Streak(times[..|times| - 1]) + 1
    else 1
  }

  /**
   * Replaying failures counts the current streak: the rolling window is
   * anchored on the previous failure, and a gap of a full window or more
   * starts the count again rather than decaying it.
   */
  lemma {:induction false} ReplayCountsStreak(times: seq<Time>)
    ensures Replay(times).failedAttempts == Streak(times)
    ensures Replay(times).lastFailedAt == if times == [] then None else Some(times[|times| - 1])
    ensures Replay(times).lockedUntil.Some? <==> Streak(times) >= MaxAttempts
    decreases |times|
  {
    if times != [] {
      var prefix := times[..|times| - 1];
      ReplayCountsStreak(prefix);
      if |times| >= 2 {
        assert prefix[|prefix| - 1] == times[|times| - 2];
      }
    }
  }

  /**
   * A run of failures locks the account exactly when its last three
   * failures are each less than one window after the one before; the lock
   * then lasts one window from the last of them.
   */
  lemma ReplayLocksIffLastThreeClose(times: seq<Time>)
    ensures Replay(times).lockedUntil.Some? <==>
      && |times| >= 3
      && times[|times| - 1] - times[|times| - 2] < WindowMs
      && times[|times| - 2] - times[|times| - 3] < WindowMs
    ensures Replay(times).lockedUntil.Some? ==> Replay(times).lockedUntil == Some(times[|times| - 1] + WindowMs)
  {
    ReplayCountsStreak(times);
    if |times| >= 2 {
      var prefix := times[..|times| - 1];
      assert prefix[|prefix| - 1] == times[|times| - 2];
      if |times| >= 3 {
        var prefix2 := prefix[..|prefix| - 1];
        assert prefix[|prefix| - 2] == times[|times| - 3];
        assert Streak(prefix2) >= 1;
      }
    }
  }
}
