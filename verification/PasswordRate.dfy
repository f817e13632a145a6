/** How fast one account's password failures can be counted, with any number of requests
    between AllowAccount and RecordFailure (backend/internal/auth/ratelimit.go). */
module PasswordRate {
  import opened Clock
  import opened Counting
  import opened Wrappers
  import opened Lockout
  import opened LockoutRuns

  // ---- requests in flight ---------------------------------------------------------------

  ghost predicate PasswordOps(evs: seq<Event>, k: string) {
    forall i | 0 <= i < |evs| && evs[i].op.key == k :: evs[i].op.Check? || evs[i].op.Fail? || evs[i].op.Peek?
  }

  predicate Passed(ev: Event, k: string) {
    ev.op == Check(k) && ev.allowed
  }

  /** The requests for k in flight after n events: past AllowAccount, and not yet counted as a
      failure. `fails` marks the checks whose request does go on to fail; one that is cut
      off before is never in flight. */
  function InFlight(evs: seq<Event>, k: string, fails: seq<bool>, n: nat): int
    requires n <= |evs| == |fails|
  {
    if n == 0 then 0
    else InFlight(evs, k, fails, n - 1) + One(Passed(evs[n - 1], k) && fails[n - 1]) - One(evs[n - 1].op == Fail(k))
  }

  /** At no moment are more than c requests for k in flight, and every failure is one of them. */
  ghost predicate AtMostInFlight(evs: seq<Event>, k: string, fails: seq<bool>, c: nat) {
    |fails| == |evs| && forall n | 0 <= n <= |evs| :: 0 <= InFlight(evs, k, fails, n) <= c
  }

  /** Failures for k since it last passed a check; a run begins as if one had just failed. */
  function SinceCheck(evs: seq<Event>, k: string, n: nat): nat
    requires n <= |evs|
  {
    if n == 0 then 1
    else if Passed(evs[n - 1], k) then 0
    else SinceCheck(evs, k, n - 1) + if evs[n - 1].op == Fail(k) then 1 else 0
  }

  ghost predicate ChecksEvery(evs: seq<Event>, k: string, c: nat) {
    forall n | 0 <= n <= |evs| :: SinceCheck(evs, k, n) <= c
  }

  lemma {:induction false} InFlightCoversFailures(evs: seq<Event>, k: string, fails: seq<bool>, c: nat, n: nat)
    requires AtMostInFlight(evs, k, fails, c) && c >= 1 && n <= |evs|
    ensures SinceCheck(evs, k, n) + InFlight(evs, k, fails, n) <= c
      || (InFlight(evs, k, fails, n) == 0 && SinceCheck(evs, k, n) == 1)
  {
    if n > 0 {
      InFlightCoversFailures(evs, k, fails, c, n - 1);
      assert 0 <= InFlight(evs, k, fails, n) <= c;
    }
  }

  /** With at most c requests in flight, at most c failures go by without a check. */
  lemma InFlightMeansChecks(evs: seq<Event>, k: string, fails: seq<bool>, c: nat)
    requires AtMostInFlight(evs, k, fails, c) && c >= 1
    ensures ChecksEvery(evs, k, c)
  {
    forall n | 0 <= n <= |evs|
      ensures SinceCheck(evs, k, n) <= c
    {
      InFlightCoversFailures(evs, k, fails, c, n);
    }
  }

  // ---- the budget --------------------------------------------------------------------------

  /** Minutes the n-th failure of a streak locks the account for. */
  function LockMinutes(failures: nat): nat {
    if failures < 5 then 0
    else if failures == 5 then 1
    else if failures == 6 then 2
    else if failures == 7 then 4
    else if failures == 8 then 8
    else 15
  }

  lemma PasswordLocks(p: Policy, failures: nat)
    requires SameLockRule(p, PASSWORD) && failures >= 5
    ensures Backoff(p, failures) == MINUTE * LockMinutes(failures)
  {
    LockTimeIsCappedDoubling(failures);
    SmallPowers();
    if failures >= 9 {
      Pow2Monotone(4, failures - 5);
    }
  }

  /** What the locks still to come on the way to 15 minutes fall short of 15 minutes by,
      at best, for someone who has `failures` behind them. */
  function Shortfall(failures: nat): nat {
    if failures <= 5 then 15
    else if failures == 6 then 14
    else if failures == 7 then 12
    else if failures == 8 then 8
    else 0
  }

  /** With c in flight, 15 minutes for each failure that can be had before paying for it, counted
      from the start of the streak, when the last check passed after `base` - 1 failures. */
  function Reach(c: nat, base: nat): int {
    if base >= 9 then 15 * (base + c - 1) else 15 * (8 + c) - Shortfall(base)
  }

  lemma ReachGrows(c: nat, a: nat, b: nat)
    requires a <= b && c >= 1
    ensures Reach(c, a) <= Reach(c, b)
  {
  }

  /** A lock waited out after `failures` pays for moving the base past them. */
  lemma LockPays(c: nat, base: nat, failures: nat)
    requires c >= 1 && 1 <= base <= failures <= base + c - 1
    ensures Reach(c, base) + c * LockMinutes(failures) >= Reach(c, failures + 1)
  {
    if failures < 5 {
    } else if failures >= 9 {
      assert c * LockMinutes(failures) == 15 * c;
    }
  }

  lemma ReachCovers(c: nat, base: nat, failures: nat)
    requires c >= 1 && failures <= base + c - 1
    ensures Reach(c, base) >= 15 * failures
  {
  }

  /** The latest that the streak's last check can have passed. */
  function Base(c: nat, failures: nat, since: nat): nat {
    var late := if since == 0 then c else since;
    if failures >= late then failures - late + 1 else 1
  }

  /** Minutes that n failures, the last of them number `failures` of its streak, have taken c
      times over, at least. */
  function Owed(c: nat, n: nat, failures: nat, since: nat): int {
    15 * (n - 7 - c) + Reach(c, Base(c, failures, since)) - 15 * failures
  }

  /** ts, the failures counted so far, have taken what they owe; the key's entry still remembers
      the last of them, or has decayed; and a check has passed since only if no lock runs. */
  ghost predicate Paced(c: nat, ts: seq<nat>, clock: nat, entry: Option<Entry>, since: nat) {
    && (since == 0 && entry.Some? ==> entry.value.lockedUntil <= clock)
    && (ts != [] ==>
          && Last(ts) <= clock
          && if entry.Some? then
               && entry.value.lastFailure == Last(ts)
               && c * (Last(ts) - ts[0]) >= MINUTE * Owed(c, |ts|, entry.value.failures, since)
             else
               && Last(ts) + FAILURE_DECAY <= clock
               && c * (Last(ts) - ts[0]) >= MINUTE * (15 * (|ts| - 7 - c)))
  }

  lemma Scaled(c: nat, a: int, b: int)
    requires a >= b
    ensures c * a >= c * b
  {
  }

  lemma TimeAdds(c: nat, first: int, last: int, now: int)
    ensures c * (now - first) == c * (last - first) + c * (now - last)
  {
  }

  /** The first failure a run counts. */
  lemma FirstOwesNothing(c: nat, failures: nat, since: nat)
    requires c >= 1 && failures >= 1 && 1 <= since <= c
    ensures Owed(c, 1, failures, since) <= 0
  {
    ReachGrows(c, Base(c, failures, since), failures);
  }

  /** One failure more of a live streak, after a check that passed (since == 0) or without. */
  lemma LiveFailurePays(c: nat, n: nat, failures: nat, since: nat, before: int, gap: int)
    requires c >= 1 && failures >= 1 && n >= 1 && since < c && gap >= 0
    requires since == 0 ==> gap >= MINUTE * LockMinutes(failures)
    requires before >= MINUTE * Owed(c, n, failures, since)
    ensures before + c * gap >= MINUTE * Owed(c, n + 1, failures + 1, since + 1)
  {
    var base := Base(c, failures, since);
    Scaled(c, gap, 0);
    if since == 0 {
      LockPays(c, base, failures);
      assert Base(c, failures + 1, 1) == failures + 1;
      Scaled(c, gap, MINUTE * LockMinutes(failures));
      Regroup(c, MINUTE, LockMinutes(failures));
      assert Owed(c, n + 1, failures + 1, 1) <= Owed(c, n, failures, 0) + c * LockMinutes(failures);
    } else {
      assert Base(c, failures + 1, since + 1) == base;
      assert Owed(c, n + 1, failures + 1, since + 1) == Owed(c, n, failures, since);
    }
  }

  lemma Regroup(c: nat, m: nat, l: nat)
    ensures c * (m * l) == m * (c * l)
  {
  }

  /** A failure after a decay starts a new streak. */
  lemma DecayPays(c: nat, n: nat, before: int, gap: int, since: nat)
    requires c >= 1 && n >= 1 && 1 <= since <= c && gap >= 120 * MINUTE
    requires before >= MINUTE * (15 * (n - 7 - c))
    ensures before + c * gap >= MINUTE * Owed(c, n + 1, 1, since)
  {
    Scaled(c, gap, 120 * MINUTE);
    assert Base(c, 1, since) == 1;
    assert Owed(c, n + 1, 1, since) == 15 * (n - 7 - c) + 15 * (8 + c) - 15;
  }

  lemma Counted(p: Policy, c: nat, before: Option<Entry>, now: nat, ts: seq<nat>, clock: nat, since: nat)
    requires SameLockRule(p, PASSWORD) && ValidPolicy(p) && clock <= now && since < c
    requires before.Some? ==> EntryOk(p, before.value)
    requires Paced(c, ts, clock, before, since)
    ensures var e := if before.Some? && !before.value.Expired(now) then before.value else FRESH;
      Paced(c, ts + [now], now, Some(Bumped(p, e, now)), since + 1)
  {
    hide Backoff, Bumped, Owed;
    var e := if before.Some? && !before.value.Expired(now) then before.value else FRESH;
    LiveStreakGrows(p, e, now);
    BumpedRemembers(p, e, now);
    if ts == [] {
      FirstOwesNothing(c, e.failures + 1, since + 1);
    } else {
      var gap := now - Last(ts);
      var spent := c * (Last(ts) - ts[0]);
      TimeAdds(c, ts[0], Last(ts), now);
      if before.Some? && !before.value.Expired(now) {
        if since == 0 {
          UnlockedMeansWaited(p, before.value, now);
        }
        LiveFailurePays(c, |ts|, before.value.failures, since, spent, gap);
      } else {
        if before.Some? {
          StreakOwesPlainly(c, |ts|, before.value.failures, since);
          ExpiredMeansDecayed(p, before.value, now);
        }
        DecayPays(c, |ts|, spent, gap, since + 1);
      }
    }
  }

  lemma BumpedRemembers(p: Policy, e: Entry, now: nat)
    ensures Bumped(p, e, now).lastFailure == now
  {
    hide Backoff;
  }

  lemma UnlockedMeansWaited(p: Policy, e: Entry, now: nat)
    requires SameLockRule(p, PASSWORD) && EntryOk(p, e) && e.lastFailure <= now && e.lockedUntil <= now
    ensures now - e.lastFailure >= MINUTE * LockMinutes(e.failures)
  {
    if e.failures >= 5 {
      PasswordLocks(p, e.failures);
    }
  }

  lemma ExpiredMeansDecayed(p: Policy, e: Entry, now: nat)
    requires EntryOk(p, e) && e.Expired(now)
    ensures e.failures >= 1 && e.lastFailure + FAILURE_DECAY <= now
  {
    hide Backoff;
  }

  lemma StreakOwesPlainly(c: nat, n: nat, failures: nat, since: nat)
    requires c >= 1 && since <= c && n >= 1
    ensures MINUTE * Owed(c, n, failures, since) >= MINUTE * (15 * (n - 7 - c))
  {
    ReachCovers(c, Base(c, failures, since), failures);
  }

  lemma BudgetStep(p: Policy, c: nat, s: State, ev: Event, s': State, k: string, ts: seq<nat>, clock: nat, since: nat)
    requires SameLockRule(p, PASSWORD) && ValidPolicy(p) && Inv(p, s) && ev.op.key != ""
    requires Step(p, s, ev.op, ev.now, s', ev.allowed) && clock <= ev.now && c >= 1
    requires ev.op.key == k ==> ev.op.Check? || ev.op.Peek? || ev.op.Fail?
    requires Live(s, k, ev.now).Some? ==> View(s', k).Some?
    requires since <= c && (ev.op == Fail(k) ==> since < c)
    requires Paced(c, ts, clock, View(s, k), since)
    ensures var ts' := ts + if ev.op == Fail(k) && ev.allowed then [ev.now] else [];
      var since' := if Passed(ev, k) then 0 else since + if ev.op == Fail(k) then 1 else 0;
      Paced(c, ts', ev.now, View(s', k), since')
  {
    hide Step, Inv, View, Backoff, Bumped, EntryOk, Owed;
    ViewIsOk(p, s, k);
    if ev.op == Fail(k) && ev.allowed {
      StepEffect(p, s, ev.op, ev.now, s', ev.allowed, k);
      Counted(p, c, View(s, k), ev.now, ts, clock, since);
    } else {
      UncountedEffect(p, s, ev, s', k);
      if Passed(ev, k) {
        PassedMeansUnlocked(p, s, ev, s', k);
      } else if ev.op == Fail(k) {
        UntrackedMeansGone(p, s, ev, s', k);
      }
      var since' := if Passed(ev, k) then 0 else since + if ev.op == Fail(k) then 1 else 0;
      Uncounted(c, ts, clock, View(s, k), since, ev.now, View(s', k), since');
    }
  }

  /** What is owed when an event counts no failure. */
  lemma Uncounted(
    c: nat, ts: seq<nat>, clock: nat, before: Option<Entry>, since: nat, now: nat, after: Option<Entry>, since': nat)
    requires Paced(c, ts, clock, before, since) && clock <= now && c >= 1 && since <= c
    requires SameStreak(before, after, now)
    requires since' == since || (since' == 0 && (after.Some? ==> after.value.lockedUntil <= now)) || after == None
    ensures Paced(c, ts, now, after, since')
  {
    hide Owed;
    if ts != [] && before.Some? {
      StreakOwesPlainly(c, |ts|, before.value.failures, since);
      if since' == 0 {
        CheckedOwesNoMore(c, |ts|, before.value.failures, since);
      }
    }
  }

  lemma UntrackedMeansGone(p: Policy, s: State, ev: Event, s': State, k: string)
    requires ValidPolicy(p) && Inv(p, s) && ev.op.key != "" && ev.op == Fail(k) && !ev.allowed
    requires Step(p, s, ev.op, ev.now, s', ev.allowed)
    ensures View(s', k) == None
  {
    hide Step, Inv, View, Backoff;
    StepEffect(p, s, ev.op, ev.now, s', ev.allowed, k);
  }

  lemma PassedMeansUnlocked(p: Policy, s: State, ev: Event, s': State, k: string)
    requires ValidPolicy(p) && Inv(p, s) && ev.op.key != "" && Passed(ev, k)
    requires Step(p, s, ev.op, ev.now, s', ev.allowed)
    ensures View(s', k).Some? ==> View(s', k).value.lockedUntil <= ev.now
  {
    hide Step, Inv, View, Backoff;
    StepEffect(p, s, ev.op, ev.now, s', ev.allowed, k);
  }

  lemma CheckedOwesNoMore(c: nat, n: nat, failures: nat, since: nat)
    requires c >= 1 && since <= c
    ensures MINUTE * Owed(c, n, failures, 0) <= MINUTE * Owed(c, n, failures, since)
  {
    ReachGrows(c, Base(c, failures, 0), Base(c, failures, since));
  }

  lemma {:induction false} Budget(p: Policy, c: nat, states: seq<State>, evs: seq<Event>, k: string, n: nat)
    requires SameLockRule(p, PASSWORD) && IsRun(p, states, evs) && n <= |evs| && c >= 1
    requires KeyKept(states, evs, k) && PasswordOps(evs, k) && ChecksEvery(evs, k, c)
    ensures Paced(c, Times(evs[..n], Fail(k)), if n == 0 then 0 else evs[n - 1].now, View(states[n], k), SinceCheck(evs, k, n))
  {
    hide Step, Inv, View, Paced, Times, SameLockRule;
    if n == 0 {
      NothingCounted(c, View(states[0], k), Fail(k));
    } else {
      Budget(p, c, states, evs, k, n - 1);
      EveryReachableStateIsSound(p, states, evs, n - 1);
      TimesSnoc(evs, Fail(k), n);
      var clock := if n == 1 then 0 else evs[n - 2].now;
      assert SinceCheck(evs, k, n) <= c && SinceCheck(evs, k, n - 1) <= c;
      BudgetStep(p, c, states[n - 1], evs[n - 1], states[n], k, Times(evs[..n - 1], Fail(k)), clock, SinceCheck(evs, k, n - 1));
    }
  }

  lemma NothingCounted(c: nat, entry: Option<Entry>, op: Op)
    ensures Paced(c, Times([], op), 0, entry, 1)
  {
  }

  lemma Settled(c: nat, ts: seq<nat>, clock: nat, entry: Option<Entry>, since: nat)
    requires Paced(c, ts, clock, entry, since) && ts != [] && c >= 1 && since <= c
    ensures 15 * MINUTE * (|ts| - 7 - c) <= c * (Last(ts) - ts[0])
  {
    if entry.Some? {
      StreakOwesPlainly(c, |ts|, entry.value.failures, since);
    }
  }

  /** n counted failures for one email, at most c of which go by without a passed check, take
      at least 15 minutes c-th for each beyond the first 7 + c, across any number of decays. */
  lemma FailuresAreRationedByChecks(p: Policy, c: nat, states: seq<State>, evs: seq<Event>, email: string)
    requires SameLockRule(p, PASSWORD) && IsRun(p, states, evs) && c >= 1
    requires KeyKept(states, evs, email) && PasswordOps(evs, email) && ChecksEvery(evs, email, c)
    ensures var ts := Times(evs, Fail(email));
      ts != [] ==> 15 * MINUTE * (|ts| - 7 - c) <= c * (Last(ts) - ts[0])
  {
    hide Step, Inv, View, Times, Paced;
    Budget(p, c, states, evs, email, |evs|);
    assert evs[..|evs|] == evs;
    var ts := Times(evs, Fail(email));
    if ts != [] {
      assert SinceCheck(evs, email, |evs|) <= c;
      Settled(c, ts, if |evs| == 0 then 0 else evs[|evs| - 1].now, View(states[|evs|], email), SinceCheck(evs, email, |evs|));
    }
  }

  /** With at most c requests for one email between its check and its failure at any moment, n
      failures span at least 15 min * (n - 7 - c) / c. */
  lemma PasswordFailuresAreRationed(p: Policy, c: nat, states: seq<State>, evs: seq<Event>, email: string, fails: seq<bool>)
    requires SameLockRule(p, PASSWORD) && IsRun(p, states, evs) && c >= 1
    requires KeyKept(states, evs, email) && PasswordOps(evs, email) && AtMostInFlight(evs, email, fails, c)
    ensures var ts := Times(evs, Fail(email));
      ts != [] ==> 15 * MINUTE * (|ts| - 7 - c) <= c * (Last(ts) - ts[0])
  {
    InFlightMeansChecks(evs, email, fails, c);
    FailuresAreRationedByChecks(p, c, states, evs, email);
  }

  // ---- one request at a time --------------------------------------------------------------

  /** Each RecordFailure for k follows a true AllowAccount made after the previous one. */
  ghost predicate Guarded(evs: seq<Event>, k: string) {
    forall j | 0 <= j < |evs| && evs[j].op == Fail(k) :: exists i :: ClearedBy(evs, k, i, j)
  }

  ghost predicate ClearedBy(evs: seq<Event>, k: string, i: int, j: int)
    requires j <= |evs|
  {
    && 0 <= i < j
    && Passed(evs[i], k)
    && forall m | i < m < j :: evs[m].op != Fail(k)
  }

  lemma {:induction false} ClearedMeansChecked(evs: seq<Event>, k: string, i: nat, j: nat)
    requires j <= |evs| && ClearedBy(evs, k, i, j)
    ensures SinceCheck(evs, k, j) == 0
    decreases j
  {
    if i < j - 1 {
      ClearedMeansChecked(evs, k, i, j - 1);
    }
  }

  lemma {:induction false} GuardedMeansChecks(evs: seq<Event>, k: string, n: nat)
    requires Guarded(evs, k) && n <= |evs|
    ensures SinceCheck(evs, k, n) <= 1
  {
    if n > 0 {
      GuardedMeansChecks(evs, k, n - 1);
      if evs[n - 1].op == Fail(k) {
        var i :| ClearedBy(evs, k, i, n - 1);
        ClearedMeansChecked(evs, k, i, n - 1);
      }
    }
  }

  /** Guesses at one email that are each checked after the previous one failed take at
      least 15 minutes each beyond the first eight, across any number of decays. */
  lemma PasswordGuessesAreRationed(p: Policy, states: seq<State>, evs: seq<Event>, email: string)
    requires SameLockRule(p, PASSWORD) && IsRun(p, states, evs)
    requires KeyKept(states, evs, email) && PasswordOps(evs, email) && Guarded(evs, email)
    ensures var ts := Times(evs, Fail(email));
      ts != [] ==> 15 * MINUTE * (|ts| - 8) <= Last(ts) - ts[0]
  {
    hide Guarded, IsRun, KeyKept, PasswordOps, Times, SinceCheck;
    forall n | 0 <= n <= |evs|
      ensures SinceCheck(evs, email, n) <= 1
    {
      GuardedMeansChecks(evs, email, n);
    }
    FailuresAreRationedByChecks(p, 1, states, evs, email);
  }

  // ---- when the bound of one request at a time holds -------------------------------------------

  ghost predicate PasswordRun(states: seq<State>, evs: seq<Event>, email: string) {
    IsRun(PASSWORD, states, evs) && KeyKept(states, evs, email) && PasswordOps(evs, email)
  }

  /** 15 minutes for every failure beyond the eighth. */
  ghost predicate KeepsBound(evs: seq<Event>, email: string) {
    var ts := Times(evs, Fail(email));
    ts != [] ==> 15 * MINUTE * (|ts| - 8) <= Last(ts) - ts[0]
  }

  /** Every run with at most c requests in flight keeps that bound. */
  ghost predicate AlwaysKeepsBound(c: nat) {
    forall states, evs, email, fails | PasswordRun(states, evs, email) && AtMostInFlight(evs, email, fails, c) ::
      KeepsBound(evs, email)
  }

  /** The bound holds on all runs with at most c requests in flight if and only if c is at most one. */
  lemma BoundHoldsIffOneInFlight(c: nat)
    ensures AlwaysKeepsBound(c) <==> c <= 1
  {
    hide PasswordRun, KeepsBound, AtMostInFlight;
    if c <= 1 {
      forall states, evs, email, fails | PasswordRun(states, evs, email) && AtMostInFlight(evs, email, fails, c)
        ensures KeepsBound(evs, email)
      {
        OneInFlightKeepsBound(c, states, evs, email, fails);
      }
    } else {
      PairsBreakTheBound(c);
    }
  }

  lemma OneInFlightKeepsBound(c: nat, states: seq<State>, evs: seq<Event>, email: string, fails: seq<bool>)
    requires c <= 1 && PasswordRun(states, evs, email) && AtMostInFlight(evs, email, fails, c)
    ensures KeepsBound(evs, email)
  {
    hide IsRun, KeyKept, PasswordOps, Times, InFlight;
    PasswordFailuresAreRationed(PASSWORD, 1, states, evs, email, fails);
  }

  // ---- runs of one account ---------------------------------------------------------------------

  const VICTIM: string := "victim"

  /** The account after `failures` failures, the j-th of them (from zero) at when(j). */
  function SoloEntry(failures: nat, when: nat -> nat): Entry
    requires failures > 0
  {
    var last := when(failures - 1);
    Entry(failures, last, if failures < 5 then 0 else last + Backoff(PASSWORD, failures), false)
  }

  function SoloState(failures: nat, when: nat -> nat): State {
    if failures == 0 then State(map[], map[], when(0))
    else if failures < 5 then State(map[VICTIM := SoloEntry(failures, when)], map[], when(failures - 1))
    else State(map[], map[VICTIM := SoloEntry(failures, when)], when(failures - 1))
  }

  predicate Follows(failures: nat, when: nat -> nat, now: nat) {
    failures > 0 ==> when(failures - 1) <= now < when(failures - 1) + FAILURE_DECAY
  }

  lemma SoloLooksAlive(failures: nat, when: nat -> nat, now: nat)
    requires Follows(failures, when, now)
    ensures Touched(SoloState(failures, when), VICTIM, now) == SoloState(failures, when)
    ensures Live(SoloState(failures, when), VICTIM, now) == if failures == 0 then None else Some(SoloEntry(failures, when))
  {
    hide Backoff;
  }

  lemma SoloPruned(failures: nat, when: nat -> nat)
    requires Follows(failures, when, when(failures))
    requires failures > 0 ==> when(failures) == when(failures - 1) || when(failures) >= when(failures - 1) + PRUNE_EVERY
    ensures Pruned(SoloState(failures, when), when(failures)) == SoloState(failures, when).(lastPrune := when(failures))
  {
    hide Backoff;
    var s, now := SoloState(failures, when), when(failures);
    if failures > 0 {
      assert !SoloEntry(failures, when).Expired(now);
    }
    assert Unexpired(s.streaks, now) == s.streaks && Unexpired(s.locks, now) == s.locks;
  }

  lemma SoloFailure(failures: nat, when: nat -> nat)
    requires Follows(failures, when, when(failures))
    requires failures > 0 ==> when(failures) == when(failures - 1) || when(failures) >= when(failures - 1) + PRUNE_EVERY
    ensures Step(PASSWORD, SoloState(failures, when), Fail(VICTIM), when(failures), SoloState(failures + 1, when), true)
  {
    hide Backoff, Pruned, SoloEntry;
    var s, s', now := SoloState(failures, when), SoloState(failures + 1, when), when(failures);
    SoloPruned(failures, when);
    SoloLooksAlive(failures, when, now);
    SoloBumped(failures, when);
    var s1 := s.(lastPrune := now);
    var e := if failures == 0 then FRESH else SoloEntry(failures, when);
    assert Touched(s1, VICTIM, now) == s1;
    assert View(s1, VICTIM) == if failures == 0 then None else Some(e);
    assert s' == Placed(PASSWORD, s1, VICTIM, SoloEntry(failures + 1, when)) by {
      if failures == 4 {
        assert map[VICTIM := SoloEntry(4, when)] - {VICTIM} == map[];
      }
    }
    if failures == 0 {
      assert RoomMade(PASSWORD, s1, now, s1);
    }
    assert Recorded(PASSWORD, s, VICTIM, now, s', failures + 1 >= 5, true);
  }

  lemma SoloBumped(failures: nat, when: nat -> nat)
    requires Follows(failures, when, when(failures))
    ensures var e := if failures == 0 then FRESH else SoloEntry(failures, when);
      Bumped(PASSWORD, e, when(failures)) == SoloEntry(failures + 1, when) && SoloEntry(failures + 1, when).failures == failures + 1
  {
    hide Backoff;
  }

  lemma SoloCheck(failures: nat, when: nat -> nat, now: nat)
    requires Follows(failures, when, now)
    requires failures >= 5 ==> when(failures - 1) + Backoff(PASSWORD, failures) <= now
    ensures Step(PASSWORD, SoloState(failures, when), Check(VICTIM), now, SoloState(failures, when), true)
  {
    hide Backoff;
    SoloLooksAlive(failures, when, now);
    if failures == 0 {
      assert RoomMade(PASSWORD, SoloState(0, when), now, SoloState(0, when));
    }
  }

  // ---- two requests at a time ------------------------------------------------------------------

  /** Five pairs of failures: three at once, one when the two-minute lock ends, one when the
      eight-minute lock does. */
  function PairTime(j: nat): nat {
    if j < 6 then 0 else if j < 8 then 2 * MINUTE else 10 * MINUTE
  }

  function PairFailures(i: nat): nat {
    2 * (i / 4) + if i % 4 == 3 then 1 else 0
  }

  /** Each pair: both pass the check, then both fail. */
  function PairEvent(i: nat): Event {
    Event(if i % 4 < 2 then Check(VICTIM) else Fail(VICTIM), PairTime(PairFailures(i)), true)
  }

  function PairEvents(n: nat): (evs: seq<Event>)
    ensures |evs| == n && forall i | 0 <= i < n :: evs[i] == PairEvent(i)
  {
    seq(n, i requires 0 <= i < n => PairEvent(i))
  }

  function PairStates(n: nat): (states: seq<State>)
    ensures |states| == n && forall i | 0 <= i < n :: states[i] == SoloState(PairFailures(i), PairTime)
  {
    seq(n, i requires 0 <= i < n => SoloState(PairFailures(i), PairTime))
  }

  lemma PairLocks()
    ensures Backoff(PASSWORD, 6) == 2 * MINUTE && Backoff(PASSWORD, 8) == 8 * MINUTE
  {
    PasswordLocks(PASSWORD, 6);
    PasswordLocks(PASSWORD, 8);
  }

  lemma PairStep(i: nat)
    requires i < 20
    ensures Step(PASSWORD, SoloState(PairFailures(i), PairTime), PairEvent(i).op, PairEvent(i).now,
                 SoloState(PairFailures(i + 1), PairTime), true)
  {
    hide Step, SoloState, Backoff;
    var f := PairFailures(i);
    if i % 4 < 2 {
      PairLocks();
      assert f == 0 || f == 2 || f == 4 || f == 6 || f == 8;
      assert PairFailures(i + 1) == f;
      SoloCheck(f, PairTime, PairTime(f));
    } else {
      assert PairFailures(i + 1) == f + 1;
      SoloFailure(f, PairTime);
    }
  }

  lemma PairsAreRun()
    ensures PasswordRun(PairStates(21), PairEvents(20), VICTIM)
  {
    hide Step, SoloState, PairStates, PairEvents;
    var states, evs := PairStates(21), PairEvents(20);
    forall i | 0 <= i < 20
      ensures Step(PASSWORD, states[i], evs[i].op, evs[i].now, states[i + 1], evs[i].allowed)
      ensures View(states[i + 1], VICTIM).Some? || View(states[i], VICTIM) == None
    {
      PairStep(i);
      SoloIsSeen(PairFailures(i));
      SoloIsSeen(PairFailures(i + 1));
    }
    SoloStart();
  }

  lemma SoloIsSeen(failures: nat)
    ensures View(SoloState(failures, PairTime), VICTIM).Some? <==> failures > 0
  {
  }

  lemma SoloStart()
    ensures Inv(PASSWORD, SoloState(0, PairTime))
  {
  }

  /** Every request of the pairs goes on to fail. */
  function PairFails(): (fails: seq<bool>)
    ensures |fails| == 20 && forall i | 0 <= i < 20 :: fails[i]
  {
    seq(20, i => true)
  }

  lemma PairMoves(i: nat)
    ensures One(Passed(PairEvent(i), VICTIM)) - One(PairEvent(i).op == Fail(VICTIM)) == if i % 4 < 2 then 1 else -1
  {
    hide PairFailures, PairTime;
  }

  /** Requests in flight before event i. */
  function PairOpen(i: nat): nat {
    match i % 4
    case 0 => 0
    case 2 => 2
    case _ => 1
  }

  lemma NextOfFour(i: nat)
    ensures (i + 1) % 4 == (if i % 4 == 3 then 0 else i % 4 + 1) && (i + 1) / 4 == i / 4 + if i % 4 == 3 then 1 else 0
  {
  }

  lemma PairNext(i: nat)
    ensures PairOpen(i + 1) == PairOpen(i) + (if i % 4 < 2 then 1 else -1)
    ensures PairFailures(i + 1) == PairFailures(i) + (if i % 4 < 2 then 0 else 1)
  {
    NextOfFour(i);
  }

  lemma PairEventIs(i: nat)
    ensures PairEvent(i) == Event(if i % 4 < 2 then Check(VICTIM) else Fail(VICTIM), PairTime(PairFailures(i)), true)
  {
  }

  lemma {:induction false} PairsInFlight(n: nat)
    requires n <= 20
    ensures InFlight(PairEvents(20), VICTIM, PairFails(), n) == PairOpen(n)
  {
    hide PairEvents, PairFails, PairEvent, PairOpen, PairFailures, PairTime;
    if n == 0 {
      NoneOpen();
    } else {
      PairsInFlight(n - 1);
      PairMoves(n - 1);
      PairNext(n - 1);
    }
  }

  lemma NoneOpen()
    ensures PairOpen(0) == 0 && PairFailures(0) == 0
  {
  }

  lemma {:induction false} PairTimes(n: nat)
    requires n <= 20
    ensures var ts := Times(PairEvents(20)[..n], Fail(VICTIM));
      && |ts| == PairFailures(n)
      && forall j | 0 <= j < |ts| :: ts[j] == PairTime(j)
  {
    hide PairEvents, PairTime, PairFailures, PairEvent, Times, PairOpen;
    if n == 0 {
      NoneOpen();
      assert PairEvents(20)[..0] == [];
      NoTimes(Fail(VICTIM));
    } else {
      PairTimes(n - 1);
      TimesSnoc(PairEvents(20), Fail(VICTIM), n);
      PairNext(n - 1);
      PairEventIs(n - 1);
    }
  }

  lemma NoTimes(op: Op)
    ensures Times([], op) == []
  {
  }

  /** Two requests at a time: ten failures in ten minutes. */
  lemma PairsBreakTheBound(c: nat)
    requires c >= 2
    ensures PasswordRun(PairStates(21), PairEvents(20), VICTIM)
    ensures AtMostInFlight(PairEvents(20), VICTIM, PairFails(), c)
    ensures !KeepsBound(PairEvents(20), VICTIM)
  {
    hide InFlight, Times, PasswordRun;
    PairsAreRun();
    forall n | 0 <= n <= 20
      ensures 0 <= InFlight(PairEvents(20), VICTIM, PairFails(), n) <= 2
    {
      PairsInFlight(n);
    }
    PairTimes(20);
    assert PairFailures(20) == 10;
    assert PairEvents(20)[..20] == PairEvents(20);
    assert PairTime(0) == 0 && PairTime(9) == 10 * MINUTE;
  }

  // ---- bursts: an example -------------------------------------------------------------------

  function BurstEvents(n: nat, m: nat, at: nat): seq<Event> {
    seq(n, i => Event(Check(VICTIM), at, true)) + seq(m, i => Event(Fail(VICTIM), at, true))
  }

  function BurstStates(n: nat, m: nat, at: nat): seq<State> {
    seq(n + m + 1, i => SoloState(if i <= n then 0 else i - n, j => at))
  }

  lemma {:induction false} BurstTimes(n: nat, m: nat, at: nat)
    ensures Times(BurstEvents(n, m, at), Fail(VICTIM)) == seq(m, i => at)
    decreases n + m
  {
    var evs := BurstEvents(n, m, at);
    if m > 0 {
      assert evs[..|evs| - 1] == BurstEvents(n, m - 1, at);
      BurstTimes(n, m - 1, at);
    } else if n > 0 {
      assert evs[..|evs| - 1] == BurstEvents(n - 1, 0, at);
      BurstTimes(n - 1, 0, at);
    }
  }

  lemma BurstAt(n: nat, at: nat, i: nat)
    requires i < 2 * n
    ensures BurstStates(n, n, at)[i] == SoloState(if i <= n then 0 else i - n, j => at)
    ensures BurstStates(n, n, at)[i + 1] == SoloState(if i < n then 0 else i + 1 - n, j => at)
    ensures BurstEvents(n, n, at)[i] == if i < n then Event(Check(VICTIM), at, true) else Event(Fail(VICTIM), at, true)
  {
    hide SoloState;
  }

  lemma BurstIsRun(n: nat, at: nat)
    requires n > 0
    ensures PasswordRun(BurstStates(n, n, at), BurstEvents(n, n, at), VICTIM)
  {
    hide Step, Backoff, BurstStates, BurstEvents, Inv;
    var states, evs := BurstStates(n, n, at), BurstEvents(n, n, at);
    BurstSizes(n, at);
    forall i | 0 <= i < |evs|
      ensures evs[i].op.key != "" && evs[i].now == at && evs[i].op != Reset(VICTIM) && (evs[i].op.Check? || evs[i].op.Fail?)
      ensures Step(PASSWORD, states[i], evs[i].op, evs[i].now, states[i + 1], evs[i].allowed)
      ensures View(states[i], VICTIM).Some? ==> View(states[i + 1], VICTIM).Some?
    {
      BurstAt(n, at, i);
      if i < n {
        SoloCheck(0, j => at, at);
      } else {
        SoloFailure(i - n, j => at);
      }
    }
  }

  lemma BurstSizes(n: nat, at: nat)
    requires n > 0
    ensures |BurstStates(n, n, at)| == 2 * n + 1 && |BurstEvents(n, n, at)| == 2 * n
    ensures Inv(PASSWORD, BurstStates(n, n, at)[0])
  {
    BurstAt(n, at, 0);
    hide BurstEvents;
  }

  /** n requests that all pass AllowAccount before any of them fails are all counted at one
      instant: such a burst keeps the bound exactly when n is at most eight. */
  lemma BurstKeepsTheBoundIffAtMostEight(n: nat, at: nat)
    requires n > 0
    ensures PasswordRun(BurstStates(n, n, at), BurstEvents(n, n, at), VICTIM)
    ensures |Times(BurstEvents(n, n, at), Fail(VICTIM))| == n
    ensures KeepsBound(BurstEvents(n, n, at), VICTIM) <==> n <= 8
  {
    hide PasswordRun, Times;
    BurstIsRun(n, at);
    BurstTimes(n, n, at);
  }
}
