/**
 * LOCKOUT after wrong PINs, over whole runs of attempts against one employee. Times are milliseconds.
 */
module PinLockout {
  import opened Common

  const MAX_FAILED: nat := 5
  const LOCKOUT: nat := 900000

  datatype State = State(failed: nat, lockedUntil: Option<int>)

  datatype Attempt = Attempt(now: int, correct: bool)

  datatype Verdict = Verdict(success: bool, locked: bool, next: State)

  const INITIAL: State := State(0, None)

  predicate Locked(s: State, now: int) { s.lockedUntil.Some? && s.lockedUntil.value > now }

  /** evaluatePinAttempt */
  function Evaluate(s: State, a: Attempt): Verdict
  {
    if Locked(s, a.now) then Verdict(false, true, s)
    else if a.correct then Verdict(true, false, INITIAL)
    else
      var failed := s.failed + 1;
      var lock := failed >= MAX_FAILED;
      Verdict(false, lock, State(if lock then 0 else failed, if lock then Some(a.now + LOCKOUT) else None))
  }

  /** The state after a run, the caller feeding each verdict's state back. */
  function After(run: seq<Attempt>): State
  {
    if run == [] then INITIAL else Evaluate(After(run[..|run| - 1]), run[|run| - 1]).next
  }

  /** How many wrong PINs were really looked at, rather than turned away by the lock. */
  function Evaluated(run: seq<Attempt>): nat
  {
    if run == [] then 0
    else
      var a := run[|run| - 1];
      Evaluated(run[..|run| - 1]) + if !Locked(After(run[..|run| - 1]), a.now) && !a.correct then 1 else 0
  }

  predicate NoSuccess(run: seq<Attempt>)
  {
    run == [] || (NoSuccess(run[..|run| - 1]) && !Evaluate(After(run[..|run| - 1]), run[|run| - 1]).success)
  }

  ghost predicate InTime(run: seq<Attempt>) { forall i, j :: 0 <= i < j < |run| ==> run[i].now <= run[j].now }

  /** n lockouts so far: each takes its full time, and the next wrong PIN is looked at only after it. */
  ghost predicate Paced(run: seq<Attempt>, n: nat)
  {
    var s := After(run);
    && Evaluated(run) == MAX_FAILED * n + s.failed && s.failed < MAX_FAILED
    && (s.lockedUntil.Some? ==> s.failed == 0 && n > 0)
    && (run != [] ==>
          var first, last := run[0].now, run[|run| - 1].now;
          if s.lockedUntil.Some? then first + n * LOCKOUT <= s.lockedUntil.value <= last + LOCKOUT
          else n == 0 || first + n * LOCKOUT <= last)
  }

  lemma {:induction false} RunIsPaced(run: seq<Attempt>) returns (n: nat)
    requires InTime(run) && NoSuccess(run)
    ensures Paced(run, n)
  {
    if run == [] {
      n := 0;
    } else {
      var before, a := run[..|run| - 1], run[|run| - 1];
      n := RunIsPaced(before);
      assert before != [] ==> before[0] == run[0] && before[|before| - 1].now <= a.now;
      if !Locked(After(before), a.now) && !a.correct && After(before).failed + 1 >= MAX_FAILED {
        n := n + 1;
      }
    }
  }

  lemma Quotient(n: nat, t: nat)
    requires n * LOCKOUT <= t
    ensures n <= t / LOCKOUT
  {
  }

  /**
   * The bound on guessing: in a run without a success, lasting as long as it may, at most five wrong PINs are
   * looked at per started quarter of an hour.
   */
  lemma GuessesAreBounded(run: seq<Attempt>)
    requires InTime(run) && NoSuccess(run) && run != []
    ensures Evaluated(run) <= 5 * ((run[|run| - 1].now - run[0].now) / 900000 + 1)
  {
    var n := RunIsPaced(run);
    var s, t := After(run), run[|run| - 1].now - run[0].now;
    if s.lockedUntil.Some? {
      Quotient(n - 1, t);
    } else if n > 0 {
      Quotient(n, t);
    }
  }

  function Wrong(now: int, n: nat): (r: seq<Attempt>)
    ensures |r| == n && forall i :: 0 <= i < n ==> r[i] == Attempt(now, false)
  {
    if n == 0 then [] else Wrong(now, n - 1) + [Attempt(now, false)]
  }

  /** Five wrong PINs at one instant, and at each of the first k + 1 quarters of an hour. */
  function Burst(now: int): seq<Attempt> { Wrong(now, MAX_FAILED) }

  function Bursts(start: int, k: nat): seq<Attempt>
  {
    if k == 0 then Burst(start) else Bursts(start, k - 1) + Burst(start + k * LOCKOUT)
  }

  lemma OneMore(run: seq<Attempt>, a: Attempt)
    ensures After(run + [a]) == Evaluate(After(run), a).next
    ensures Evaluated(run + [a]) == Evaluated(run) + if !Locked(After(run), a.now) && !a.correct then 1 else 0
    ensures NoSuccess(run + [a]) <==> NoSuccess(run) && !Evaluate(After(run), a).success
  {
    assert (run + [a])[..|run|] == run;
  }

  /** One more wrong PIN, short of the lock. */
  lemma OneWrong(run: seq<Attempt>, a: Attempt)
    requires !a.correct && !Locked(After(run), a.now) && After(run).failed + 1 < MAX_FAILED && NoSuccess(run)
    ensures After(run + [a]) == State(After(run).failed + 1, None) && NoSuccess(run + [a])
            && Evaluated(run + [a]) == Evaluated(run) + 1
  {
    OneMore(run, a);
  }

  /** Wrong PINs one after the other, up to the last one before the lock. */
  lemma {:induction false} WrongCounts(run: seq<Attempt>, now: int, n: nat, all: seq<Attempt>)
    requires After(run).failed == 0 && !Locked(After(run), now) && NoSuccess(run) && n < MAX_FAILED
             && all == run + Wrong(now, n)
    ensures !Locked(After(all), now) && After(all).failed == n && NoSuccess(all) && Evaluated(all) == Evaluated(run) + n
  {
    if n == 0 {
      assert all == run;
    } else {
      var before := run + Wrong(now, n - 1);
      WrongCounts(run, now, n - 1, before);
      assert all == before + [Attempt(now, false)];
      OneWrong(before, Attempt(now, false));
    }
  }

  lemma BurstCounts(run: seq<Attempt>, now: int)
    requires After(run).failed == 0 && !Locked(After(run), now) && NoSuccess(run)
    ensures After(run + Burst(now)) == State(0, Some(now + LOCKOUT)) && NoSuccess(run + Burst(now))
    ensures Evaluated(run + Burst(now)) == Evaluated(run) + MAX_FAILED
  {
    var before := run + Wrong(now, MAX_FAILED - 1);
    WrongCounts(run, now, MAX_FAILED - 1, before);
    OneMore(before, Attempt(now, false));
    assert run + Burst(now) == before + [Attempt(now, false)];
  }

  lemma {:induction false} BurstsShape(start: int, k: nat)
    ensures var run := Bursts(start, k);
            InTime(run) && |run| == MAX_FAILED * (k + 1) && run[0].now == start
            && run[|run| - 1].now == start + k * LOCKOUT
  {
    if k > 0 {
      BurstsShape(start, k - 1);
      var before := Bursts(start, k - 1);
      forall i | 0 <= i < |before| ensures before[i].now <= start + k * LOCKOUT {
        assert before[i].now <= before[|before| - 1].now;
      }
    }
  }

  lemma {:induction false} BurstsCount(start: int, k: nat)
    ensures var run := Bursts(start, k);
            NoSuccess(run) && Evaluated(run) == MAX_FAILED * (k + 1)
            && After(run) == State(0, Some(start + (k + 1) * LOCKOUT))
  {
    if k == 0 {
      BurstCounts([], start);
      assert [] + Burst(start) == Burst(start);
    } else {
      BurstsCount(start, k - 1);
      BurstCounts(Bursts(start, k - 1), start + k * LOCKOUT);
    }
  }

  /** The bound is met: for every duration there is a run of just that many looked-at PINs. */
  lemma BoundIsMet(start: int, duration: nat) returns (run: seq<Attempt>)
    ensures InTime(run) && NoSuccess(run) && run != [] && run[0].now == start && run[|run| - 1].now <= start + duration
    ensures Evaluated(run) == 5 * (duration / 900000 + 1)
  {
    run := Bursts(start, duration / LOCKOUT);
    BurstsShape(start, duration / LOCKOUT);
    BurstsCount(start, duration / LOCKOUT);
  }

  // ---------------------------------------------------------------- the right PIN

  /** When the employee was locked out: the times of the wrong PINs that were looked at and set a lock. */
  function LockTimes(run: seq<Attempt>): seq<int>
  {
    if run == [] then []
    else
      var before, a := run[..|run| - 1], run[|run| - 1];
      LockTimes(before) + if !Locked(After(before), a.now) && Evaluate(After(before), a).locked then [a.now] else []
  }

  /** The state knows the latest lock, as long as it stands. */
  ghost predicate LockIs(run: seq<Attempt>, s: State)
  {
    var times := LockTimes(run);
    && (s.lockedUntil.Some? ==> times != [] && s.lockedUntil.value == times[|times| - 1] + LOCKOUT)
    && (forall i :: 0 <= i < |times| - 1 ==> times[i] + LOCKOUT <= times[i + 1])
    && (times != [] ==> run != [] && times[|times| - 1] <= run[|run| - 1].now)
    && (s.lockedUntil.None? && times != [] ==> times[|times| - 1] + LOCKOUT <= run[|run| - 1].now)
  }

  lemma {:induction false} LockTells(run: seq<Attempt>)
    requires InTime(run)
    ensures LockIs(run, After(run))
  {
    if run != [] {
      var n := |run| - 1;
      LockTells(run[..n]);
      assert n > 0 ==> run[..n][n - 1].now <= run[n].now;
    }
  }

  /** Every lock that was set lies a full quarter of an hour back. */
  ghost predicate NoneStands(run: seq<Attempt>, now: int)
  {
    forall i :: 0 <= i < |LockTimes(run)| ==> LockTimes(run)[i] + 900000 <= now
  }

  lemma {:induction false} LatestIsLast(times: seq<int>, i: nat)
    requires forall k :: 0 <= k < |times| - 1 ==> times[k] + LOCKOUT <= times[k + 1]
    requires i < |times|
    ensures times[i] <= times[|times| - 1]
    decreases |times| - i
  {
    if i < |times| - 1 {
      LatestIsLast(times, i + 1);
    }
  }

  lemma LockedMeans(run: seq<Attempt>, now: int)
    requires InTime(run) && (run != [] ==> run[|run| - 1].now <= now)
    ensures Locked(After(run), now) <==> !NoneStands(run, now)
  {
    LockTells(run);
    var times := LockTimes(run);
    forall i | 0 <= i < |times| ensures times[i] <= times[|times| - 1] { LatestIsLast(times, i); }
  }

  /**
   * The right PIN opens exactly when no lock is standing: every attempt that set one lies a full quarter of an hour
   * back. It then clears all failures.
   */
  lemma RightPinOpens(run: seq<Attempt>, a: Attempt)
    requires InTime(run) && (run != [] ==> run[|run| - 1].now <= a.now)
    ensures Evaluate(After(run), a).success <==> a.correct && NoneStands(run, a.now)
    ensures Evaluate(After(run), a).success ==> After(run + [a]) == State(0, None)
    ensures !NoneStands(run, a.now) ==> Evaluate(After(run), a).locked && After(run + [a]) == After(run)
  {
    LockedMeans(run, a.now);
    OneMore(run, a);
  }

  /**
   * Wrong PINs in a row, from a clean state: four leave the employee free, and the fifth locks for a quarter of an
   * hour.
   */
  lemma FifthWrongLocks(run: seq<Attempt>, now: int, n: nat)
    requires After(run) == State(0, None) && NoSuccess(run) && n <= 5
    ensures Locked(After(run + Wrong(now, n)), now) <==> n == 5
    ensures n == 5 ==> After(run + Wrong(now, n)) == State(0, Some(now + 900000))
  {
    if n < 5 {
      WrongCounts(run, now, n, run + Wrong(now, n));
    } else {
      BurstCounts(run, now);
    }
  }
}
