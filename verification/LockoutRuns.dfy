/** What the lockout tracker guarantees over whole runs of requests. */
module LockoutRuns {
  import opened Clock
  import opened Wrappers
  import opened Lockout

  // ---- lock time under 64-bit wrap-around ---------------------------------------

  lemma {:induction false} Pow2Adds(j: nat, k: nat)
    ensures Pow2(j + k) == Pow2(j) * Pow2(k)
    decreases j
  {
    if j > 0 {
      Pow2Adds(j - 1, k);
      assert Pow2(j + k) == 2 * (Pow2(j - 1) * Pow2(k));
    }
  }

  lemma MinuteIsAMultiple(p: nat)
    ensures MINUTE * (0x2000_0000 * p) == 0x100_0000_0000 * (29296875 * p)
  {
  }

  /** From the 29th doubling on, the wrapped shift is a multiple of 2^40. */
  lemma LongShiftsAreMultiplesOf2To40(k: nat)
    requires 29 <= k
    ensures ShiftLeft64(MINUTE, k) % 0x100_0000_0000 == 0
  {
    hide Pow2;
    if k < 64 {
      Pow2Adds(29, k - 29);
      SmallPowers();
      MinuteIsAMultiple(Pow2(k - 29));
      WrapKeepsFactor(29296875 * Pow2(k - 29));
    }
  }

  lemma WrapKeepsFactor(q: nat)
    ensures ToInt64(0x100_0000_0000 * q) % 0x100_0000_0000 == 0
  {
    var x := 0x100_0000_0000 * q;
    var r := q - 0x100_0000 * (x / TWO_64);
    assert x % TWO_64 == 0x100_0000_0000 * r;
    MultipleHasNoRemainder(r);
    MultipleHasNoRemainder(r - 0x100_0000);
    assert x % TWO_64 - TWO_64 == 0x100_0000_0000 * (r - 0x100_0000);
  }

  lemma MultipleHasNoRemainder(r: int)
    ensures (0x100_0000_0000 * r) % 0x100_0000_0000 == 0
  {
  }

  lemma {:induction false} Pow2Monotone(j: nat, k: nat)
    requires j <= k
    ensures Pow2(j) <= Pow2(k)
    decreases k
  {
    if j < k {
      Pow2Monotone(j, k - 1);
    }
  }

  lemma SmallPowers()
    ensures Pow2(0) == 1 && Pow2(1) == 2 && Pow2(2) == 4 && Pow2(3) == 8 && Pow2(4) == 16
    ensures Pow2(27) == 0x800_0000 && Pow2(28) == 0x1000_0000 && Pow2(29) == 0x2000_0000
  {
    assert Pow2(8) == 256;
    Pow2Adds(8, 8);
    Pow2Adds(16, 8);
    Pow2Adds(24, 3);
  }

  function Min(a: nat, b: nat): nat {
    if a <= b then a else b
  }

  lemma SmallProductsAreNotWrapped(x: nat)
    ensures x < TWO_63 ==> ToInt64(x) == x
    ensures TWO_63 <= x < TWO_64 ==> ToInt64(x) < 0
  {
  }

  /** The wrapping shift, cleaned up by the clamp, is exactly capped doubling:
      an overflow never yields a shorter lock. */
  lemma LockTimeIsCappedDoubling(failures: nat)
    requires failures >= PASSWORD.threshold
    ensures Backoff(PASSWORD, failures) == Min(MINUTE * Pow2(failures - 5), 15 * MINUTE)
  {
    hide Pow2, ShiftLeft64;
    var k := failures - 5;
    SmallPowers();
    if k <= 28 {
      ShortShift(k);
    } else {
      LongShift(k);
    }
  }

  lemma ShortShift(k: nat)
    requires k <= 28
    ensures var shifted := ShiftLeft64(MINUTE, k);
      if k == 28 then shifted < 0 else shifted == MINUTE * Pow2(k)
    ensures k >= 4 ==> Pow2(k) >= 16
    ensures k <= 3 ==> Pow2(k) <= 8
  {
    hide Pow2, ToInt64;
    SmallPowers();
    SmallProductsAreNotWrapped(MINUTE * Pow2(k));
    if k <= 3 {
      Pow2Monotone(k, 3);
    } else {
      Pow2Monotone(4, k);
    }
    if k <= 27 {
      Pow2Monotone(k, 27);
    }
  }

  lemma LongShift(k: nat)
    requires 29 <= k
    ensures var shifted := ShiftLeft64(MINUTE, k); shifted <= 0 || shifted >= 0x100_0000_0000
    ensures Pow2(k) >= 16
  {
    hide Pow2, ShiftLeft64;
    LongShiftsAreMultiplesOf2To40(k);
    Pow2Monotone(4, k);
    SmallPowers();
  }

  // ---- one step, seen from one key -----------------------------------------------

  function LiveOrFresh(s: State, key: string, now: nat): Entry {
    if Live(s, key, now).Some? then Live(s, key, now).value else FRESH
  }

  /** A key other than the one served keeps its entry, unless that entry was evictable. */
  ghost predicate Spared(p: Policy, before: Option<Entry>, now: nat, after: Option<Entry>) {
    after == before || (after == None && !Protected(p, before.value, now))
  }

  lemma RoomMadeSpares(p: Policy, s: State, now: nat, s': State, k: string)
    requires Inv(p, s) && RoomMade(p, s, now, s')
    ensures Spared(p, View(s, k), now, View(s', k))
  {
  }

  lemma PrunedSpares(p: Policy, s: State, now: nat, k: string)
    requires Inv(p, s)
    ensures View(Pruned(s, now), k) == View(s, k)
      || (View(Pruned(s, now), k) == None && View(s, k).Some? && View(s, k).value.Expired(now))
  {
    hide EntryOk;
  }

  lemma TouchedSpares(s: State, key: string, now: nat, k: string)
    requires k != key
    ensures View(Touched(s, key, now), k) == View(s, k)
  {
  }

  lemma PlacedView(p: Policy, s: State, key: string, e: Entry, k: string)
    ensures View(Placed(p, s, key, e), key) == Some(e)
    ensures k != key ==> View(Placed(p, s, key, e), k) == View(s, k)
  {
  }

  lemma RecordedEffect(p: Policy, s: State, key: string, now: nat, s': State, engaged: bool, tracked: bool, k: string)
    requires ValidPolicy(p) && Inv(p, s) && key != "" && Recorded(p, s, key, now, s', engaged, tracked)
    ensures Inv(p, s')
    ensures tracked ==> View(s', key) == Some(Bumped(p, LiveOrFresh(s, key, now), now))
    ensures tracked ==> engaged == (Bumped(p, LiveOrFresh(s, key, now), now).failures >= p.threshold)
    ensures !tracked ==> View(s', key) == None == Live(s, key, now)
    ensures k != key ==> Spared(p, View(s, k), now, View(s', k))
  {
    hide Inv, View, Pruned, Touched, EntryOk, Backoff, Placed, RoomMade, Bumped, Saturated;
    var s0 := Pruned(s, now);
    var s1 := Touched(s0, key, now);
    PrunedKeepsInv(p, s, now);
    TouchedKeepsInv(p, s0, key, now);
    PrunedSpares(p, s, now, key);
    PrunedSpares(p, s, now, k);
    if k != key {
      TouchedSpares(s0, key, now, k);
    }
    var e := LiveOrFresh(s, key, now);
    assert View(s1, key) == Live(s, key, now);
    LiveEntryIsOk(p, s, key, now);
    LiveStreakGrows(p, e, now);
    if View(s1, key).Some? {
      PlacedKeepsInv(p, s1, key, Bumped(p, e, now)) by {
        LockedEntriesStay(p, s1, key, e);
      }
      PlacedView(p, s1, key, Bumped(p, e, now), k);
    } else if tracked {
      var s2 :| RoomMade(p, s1, now, s2) && s' == Placed(p, s2, key, Bumped(p, FRESH, now));
      RoomKeepsInv(p, s1, now, s2);
      RoomMadeSpares(p, s1, now, s2, k);
      RoomMadeSpares(p, s1, now, s2, key);
      PlacedKeepsInv(p, s2, key, Bumped(p, e, now)) by {
        LockedEntriesStay(p, s2, key, e);
      }
      PlacedView(p, s2, key, Bumped(p, e, now), k);
    }
  }

  /** A counted failure engages a lock exactly when it leaves the key locked. */
  lemma EngagedMeansLocked(p: Policy, s: State, key: string, now: nat, s': State, engaged: bool)
    requires ValidPolicy(p) && Inv(p, s) && key != "" && Recorded(p, s, key, now, s', engaged, true)
    ensures engaged <==> LockedAt(s', key, now)
  {
    RecordedEffect(p, s, key, now, s', engaged, true, key);
    LiveEntryIsOk(p, s, key, now);
    LiveStreakGrows(p, LiveOrFresh(s, key, now), now);
    hide Inv, Recorded, View, LiveOrFresh;
  }

  lemma LiveEntryIsOk(p: Policy, s: State, key: string, now: nat)
    requires Inv(p, s)
    ensures var e := LiveOrFresh(s, key, now); e == FRESH || (EntryOk(p, e) && !e.Expired(now))
    ensures Live(s, key, now) == None ==> LiveOrFresh(s, key, now) == FRESH
    ensures Live(s, key, now) != None ==> Live(s, key, now) == Some(LiveOrFresh(s, key, now))
  {
  }

  lemma LockedEntriesStay(p: Policy, s: State, key: string, e: Entry)
    requires Inv(p, s)
    requires View(s, key) == Some(e) || View(s, key) == None
    ensures key in s.locks ==> e.failures >= p.threshold
  {
  }

  /** A lock ends when its time is over and not later, and a streak is forgiven two hours after its
      last failure. */
  lemma LocksAndStreaksEndOnTime(p: Policy, s: State, key: string, now: nat)
    requires ValidPolicy(p) && Inv(p, s) && View(s, key).Some?
    ensures var e := View(s, key).value;
      && (LockedAt(s, key, now) <==> e.failures >= p.threshold && now < e.lastFailure + Backoff(p, e.failures))
      && (Live(s, key, now) == None <==> now >= e.lastFailure + 7_200_000_000_000)
  {
  }

  /** Pruning, at most every ten seconds, drops exactly the entries whose lock is over and whose last
      failure is two hours old. */
  lemma PruningDropsTheOver(s: State, now: nat, k: string)
    ensures var s' := Pruned(s, now);
      if now < s.lastPrune + 10_000_000_000 then s' == s
      else
        && s'.lastPrune == now
        && (k in s'.streaks <==>
              k in s.streaks && (now < s.streaks[k].lockedUntil || now < s.streaks[k].lastFailure + 7_200_000_000_000))
        && (k in s'.locks <==>
              k in s.locks && (now < s.locks[k].lockedUntil || now < s.locks[k].lastFailure + 7_200_000_000_000))
        && (k in s'.streaks ==> s'.streaks[k] == s.streaks[k]) && (k in s'.locks ==> s'.locks[k] == s.locks[k])
  {
  }

  /** One failure more: the streak goes on, or starts anew two hours after the last one; from the
      threshold on it is locked for its lock time, and nobody has been told yet. */
  lemma OneFailureMore(p: Policy, e: Entry, now: nat)
    ensures var e' := Bumped(p, e, now);
      && e'.failures == (if now > e.lastFailure + 7_200_000_000_000 then 1 else e.failures + 1) && e'.lastFailure == now
      && (e'.failures >= p.threshold ==> e'.lockedUntil == now + Backoff(p, e'.failures) && !e'.blockSeen)
      && (e'.failures < p.threshold ==> e'.lockedUntil == e.lockedUntil)
  {
  }

  /** A key that reaches the threshold moves to the locks while they have room, and frees its
      streak's place; any other key stays where it is. */
  lemma LocksLeaveTheStreaks(p: Policy, s: State, key: string, e: Entry, k: string)
    requires Inv(p, s)
    ensures var s' := Placed(p, s, key, e);
      && (e.failures >= p.threshold && |s.locks| < p.maxLocks ==> key in s'.locks && key !in s'.streaks)
      && (e.failures < p.threshold && key !in s.locks ==> key in s'.streaks && key !in s'.locks)
      && (k != key ==> (k in s'.locks <==> k in s.locks) && (k in s'.streaks <==> k in s.streaks))
  {
  }

  /** A reset forgets the key, and no other. */
  lemma ResetForgets(s: State, key: string, k: string)
    ensures View(Without(s, key), k) == if k == key then None else View(s, k)
  {
  }

  ghost predicate ServedEffect(p: Policy, s: State, op: Op, now: nat, s': State, allowed: bool) {
    var before := Live(s, op.key, now);
    var after := View(s', op.key);
    match op
    case Check(key) => after == before && (allowed ==> !LockedAt(s, key, now))
    case Peek(key) => after == before
    case Reset(key) => after == None
    case Fail(key) =>
      if allowed then after == Some(Bumped(p, LiveOrFresh(s, key, now), now)) else after == None == before
    case Reserve(key) =>
      if allowed then !LockedAt(s, key, now) && after == Some(Bumped(p, LiveOrFresh(s, key, now), now))
      else if LockedAt(s, key, now) then after == Some(before.value.(blockSeen := true))
      else after == None == before
  }

  lemma CheckEffect(p: Policy, s: State, key: string, now: nat, s': State, allowed: bool, k: string)
    requires ValidPolicy(p) && Inv(p, s) && key != "" && Step(p, s, Check(key), now, s', allowed)
    ensures Inv(p, s') && ServedEffect(p, s, Check(key), now, s', allowed)
    ensures k != key ==> Spared(p, View(s, k), now, View(s', k))
  {
    var s1 := Touched(s, key, now);
    TouchedKeepsInv(p, s, key, now);
    if k != key {
      TouchedSpares(s, key, now, k);
    }
    hide Inv, View, Touched, RoomMade, EntryOk, Saturated;
    if !(Live(s, key, now).Some? || Saturated(p, s1, now)) {
      RoomKeepsInv(p, s1, now, s');
      RoomMadeSpares(p, s1, now, s', k);
      RoomMadeSpares(p, s1, now, s', key);
    }
  }

  lemma NotedIsOk(p: Policy, e: Entry)
    ensures EntryOk(p, e) ==> EntryOk(p, e.(blockSeen := true))
  {
  }

  lemma BlockNotedEffect(p: Policy, s: State, key: string, k: string)
    requires Inv(p, s) && View(s, key).Some?
    ensures Inv(p, BlockNoted(s, key))
    ensures View(BlockNoted(s, key), key) == Some(View(s, key).value.(blockSeen := true))
    ensures k != key ==> View(BlockNoted(s, key), k) == View(s, k)
  {
    hide EntryOk;
    NotedIsOk(p, View(s, key).value);
    var s' := BlockNoted(s, key);
    assert s'.streaks.Keys == s.streaks.Keys && s'.locks.Keys == s.locks.Keys;
  }

  lemma ReserveEffect(p: Policy, s: State, key: string, now: nat, s': State, allowed: bool, k: string)
    requires ValidPolicy(p) && Inv(p, s) && key != "" && Step(p, s, Reserve(key), now, s', allowed)
    ensures Inv(p, s') && ServedEffect(p, s, Reserve(key), now, s', allowed)
    ensures k != key ==> Spared(p, View(s, k), now, View(s', k))
  {
    var s1 := Touched(s, key, now);
    TouchedKeepsInv(p, s, key, now);
    if k != key {
      TouchedSpares(s, key, now, k);
    }
    assert Live(s1, key, now) == Live(s, key, now);
    hide Inv, View, Touched, BlockNoted, Recorded, Bumped, EntryOk;
    if LockedAt(s, key, now) {
      BlockNotedEffect(p, s1, key, k);
    } else {
      var engaged :| Recorded(p, s1, key, now, s', engaged, allowed);
      RecordedEffect(p, s1, key, now, s', engaged, allowed, k);
    }
  }

  lemma ResetKeepsInv(p: Policy, s: State, key: string)
    requires Inv(p, s)
    ensures Inv(p, Without(s, key))
  {
    hide EntryOk;
    RemovalShrinks(s.streaks, key);
    RemovalShrinks(s.locks, key);
  }

  lemma ResetView(s: State, key: string, k: string)
    ensures View(Without(s, key), key) == None
    ensures k != key ==> View(Without(s, key), k) == View(s, k)
  {
  }

  lemma RemovalShrinks(m: map<string, Entry>, key: string)
    ensures var m' := m - {key};
      && |m'| <= |m|
      && m'.Keys == m.Keys - {key}
      && forall k | k in m' :: k in m && m'[k] == m[k]
  {
    SubmapIsNoLarger(m - {key}, m);
  }

  lemma ViewIsOk(p: Policy, s: State, k: string)
    requires Inv(p, s)
    ensures View(s, k).Some? ==> EntryOk(p, View(s, k).value)
  {
  }

  /** The invariant, the served key's new entry, and every other key's, after any request. */
  lemma StepEffect(p: Policy, s: State, op: Op, now: nat, s': State, allowed: bool, k: string)
    requires ValidPolicy(p) && Inv(p, s) && op.key != "" && Step(p, s, op, now, s', allowed)
    ensures Inv(p, s')
    ensures ServedEffect(p, s, op, now, s', allowed)
    ensures k != op.key ==> Spared(p, View(s, k), now, View(s', k))
  {
    hide Inv, View, Touched, RoomMade, Recorded, Saturated, BlockNoted, Bumped, Without, EntryOk;
    var key := op.key;
    match op
    case Check(_) => CheckEffect(p, s, key, now, s', allowed, k);
    case Fail(_) =>
      var engaged :| Recorded(p, s, key, now, s', engaged, allowed);
      RecordedEffect(p, s, key, now, s', engaged, allowed, k);
    case Reserve(_) => ReserveEffect(p, s, key, now, s', allowed, k);
    case Peek(_) =>
      TouchedKeepsInv(p, s, key, now);
      if k != key {
        TouchedSpares(s, key, now, k);
      }
    case Reset(_) =>
      ResetKeepsInv(p, s, key);
      ResetView(s, key, k);
  }

  // ---- runs ----------------------------------------------------------------------

  datatype Event = Event(op: Op, now: nat, allowed: bool)

  /** evs leads through states from any state that satisfies the invariant, on a clock
      that never goes back. */
  ghost predicate IsRun(p: Policy, states: seq<State>, evs: seq<Event>) {
    && ValidPolicy(p)
    && |states| == |evs| + 1
    && Inv(p, states[0])
    && (forall i | 0 <= i < |evs| ::
         evs[i].op.key != "" && Step(p, states[i], evs[i].op, evs[i].now, states[i + 1], evs[i].allowed))
    && (forall i, j | 0 <= i <= j < |evs| :: evs[i].now <= evs[j].now)
  }

  lemma {:induction false} EveryReachableStateIsSound(p: Policy, states: seq<State>, evs: seq<Event>, i: nat)
    requires IsRun(p, states, evs) && i < |states|
    ensures Inv(p, states[i])
  {
    hide Step, Inv, View, ServedEffect, Spared;
    if i > 0 {
      EveryReachableStateIsSound(p, states, evs, i - 1);
      var ev := evs[i - 1];
      StepEffect(p, states[i - 1], ev.op, ev.now, states[i], ev.allowed, "");
    }
  }

  /** No flood of requests for other keys removes, or even changes, the entry of a key
      that is locked or has reached the threshold, before that entry expires. */
  lemma {:induction false} FloodCannotUnlock(p: Policy, states: seq<State>, evs: seq<Event>, k: string, e: Entry, i: nat)
    requires IsRun(p, states, evs) && i < |states|
    requires View(states[0], k) == Some(e) && e.failures >= p.threshold
    requires forall j | 0 <= j < |evs| :: evs[j].op.key != k && evs[j].now < e.ExpiresAt()
    ensures View(states[i], k) == Some(e)
  {
    hide Step, Inv, View, ServedEffect, EntryOk;
    if i > 0 {
      FloodCannotUnlock(p, states, evs, k, e, i - 1);
      EveryReachableStateIsSound(p, states, evs, i - 1);
      var ev := evs[i - 1];
      StepEffect(p, states[i - 1], ev.op, ev.now, states[i], ev.allowed, k);
    }
  }

  /** k is never reset, and never evicted while its entry is live. */
  ghost predicate KeyKept(states: seq<State>, evs: seq<Event>, k: string)
    requires |states| == |evs| + 1
  {
    forall i | 0 <= i < |evs| ::
      && evs[i].op != Reset(k)
      && (Live(states[i], k, evs[i].now).Some? ==> View(states[i + 1], k).Some?)
  }

  /** The instants at which op was served and counted. */
  function Times(evs: seq<Event>, op: Op): seq<nat> {
    if evs == [] then []
    else
      var ev := evs[|evs| - 1];
      Times(evs[..|evs| - 1], op) + if ev.op == op && ev.allowed then [ev.now] else []
  }

  function Last(ts: seq<nat>): nat
    requires ts != []
  {
    ts[|ts| - 1]
  }

  // ---- the second-factor budget ------------------------------------------------------

  predicate SameLockRule(p: Policy, q: Policy) {
    p.threshold == q.threshold && p.lockBase == q.lockBase && p.lockMax == q.lockMax && p.escalate == q.escalate
  }

  /** ts, the attempts counted so far, have taken at least `owed`, and the key's entry
      still remembers the last of them (or it has decayed). */
  ghost predicate Paced(ts: seq<nat>, clock: nat, entry: Option<Entry>, owed: int) {
    ts != [] ==>
      && Last(ts) <= clock
      && Last(ts) - ts[0] >= owed
      && if entry.Some? then entry.value.lastFailure == Last(ts) else Last(ts) + FAILURE_DECAY <= clock
  }

  function SecondFactorOwed(n: nat, entry: Option<Entry>): int {
    var failures := if entry.Some? && entry.value.failures < 10 then entry.value.failures else 10;
    12 * MINUTE * (n - failures)
  }

  /** An uncounted request leaves the key's streak alone, or drops it once it has decayed. */
  predicate SameStreak(before: Option<Entry>, after: Option<Entry>, now: nat) {
    match after
    case Some(a) =>
      && before.Some? && a.failures == before.value.failures
      && a.lastFailure == before.value.lastFailure && a.lockedUntil == before.value.lockedUntil
    case None => before.Some? ==> before.value.lastFailure + FAILURE_DECAY <= now
  }

  lemma UncountedEffect(p: Policy, s: State, ev: Event, s': State, k: string)
    requires ValidPolicy(p) && Inv(p, s) && ev.op.key != ""
    requires Step(p, s, ev.op, ev.now, s', ev.allowed)
    requires ev.op.key == k ==> !ev.op.Reset? && ((ev.op.Reserve? || ev.op.Fail?) ==> !ev.allowed)
    requires Live(s, k, ev.now).Some? ==> View(s', k).Some?
    ensures SameStreak(View(s, k), View(s', k), ev.now)
  {
    hide Step, Inv, View, Backoff, Bumped;
    ViewIsOk(p, s, k);
    StepEffect(p, s, ev.op, ev.now, s', ev.allowed, k);
  }

  lemma SecondFactorCounted(p: Policy, before: Option<Entry>, now: nat, ts: seq<nat>, clock: nat)
    requires SameLockRule(p, SECOND_FACTOR) && ValidPolicy(p) && clock <= now
    requires before.Some? ==> EntryOk(p, before.value) && (before.value.Expired(now) || before.value.lockedUntil <= now)
    requires Paced(ts, clock, before, SecondFactorOwed(|ts|, before))
    ensures var e := if before.Some? && !before.value.Expired(now) then before.value else FRESH;
      var after := Some(Bumped(p, e, now));
      Paced(ts + [now], now, after, SecondFactorOwed(|ts| + 1, after))
  {
    var e := if before.Some? && !before.value.Expired(now) then before.value else FRESH;
    LiveStreakGrows(p, e, now);
  }

  lemma SecondFactorStep(p: Policy, s: State, ev: Event, s': State, k: string, ts: seq<nat>, clock: nat)
    requires SameLockRule(p, SECOND_FACTOR) && ValidPolicy(p) && Inv(p, s) && ev.op.key != ""
    requires Step(p, s, ev.op, ev.now, s', ev.allowed) && clock <= ev.now
    requires ev.op.key == k ==> ev.op.Reserve? || ev.op.Peek?
    requires Live(s, k, ev.now).Some? ==> View(s', k).Some?
    requires Paced(ts, clock, View(s, k), SecondFactorOwed(|ts|, View(s, k)))
    ensures var ts' := ts + if ev.op == Reserve(k) && ev.allowed then [ev.now] else [];
      Paced(ts', ev.now, View(s', k), SecondFactorOwed(|ts'|, View(s', k)))
  {
    hide Step, Inv, View, Backoff, Bumped;
    if ev.op == Reserve(k) && ev.allowed {
      ViewIsOk(p, s, k);
      StepEffect(p, s, ev.op, ev.now, s', ev.allowed, k);
      SecondFactorCounted(p, View(s, k), ev.now, ts, clock);
    } else {
      UncountedEffect(p, s, ev, s', k);
    }
  }

  lemma {:induction false} SecondFactorBudget(p: Policy, states: seq<State>, evs: seq<Event>, k: string, n: nat)
    requires SameLockRule(p, SECOND_FACTOR) && IsRun(p, states, evs) && n <= |evs|
    requires KeyKept(states, evs, k)
    requires forall i | 0 <= i < |evs| && evs[i].op.key == k :: evs[i].op.Reserve? || evs[i].op.Peek?
    ensures var ts := Times(evs[..n], Reserve(k));
      Paced(ts, if n == 0 then 0 else evs[n - 1].now, View(states[n], k), SecondFactorOwed(|ts|, View(states[n], k)))
  {
    hide Step, Inv, View, Paced, SecondFactorOwed, Times, SameLockRule;
    if n == 0 {
      NothingSpent(View(states[0], k), Reserve(k));
    } else {
      SecondFactorBudget(p, states, evs, k, n - 1);
      EveryReachableStateIsSound(p, states, evs, n - 1);
      TimesSnoc(evs, Reserve(k), n);
      var clock := if n == 1 then 0 else evs[n - 2].now;
      SecondFactorStep(p, states[n - 1], evs[n - 1], states[n], k, Times(evs[..n - 1], Reserve(k)), clock);
    }
  }

  lemma NothingSpent(entry: Option<Entry>, op: Op)
    ensures Paced(Times([], op), 0, entry, SecondFactorOwed(0, entry)) && Times([], op) == []
  {
  }

  lemma TimesSnoc(evs: seq<Event>, op: Op, n: nat)
    requires 0 < n <= |evs|
    ensures Times(evs[..n], op) ==
      Times(evs[..n - 1], op) + if evs[n - 1].op == op && evs[n - 1].allowed then [evs[n - 1].now] else []
  {
    assert evs[..n][..n - 1] == evs[..n - 1];
  }

  /** However requests interleave, n allowed second-factor attempts for one user take at
      least 12 minutes each beyond the first ten. */
  lemma SecondFactorAttemptsAreRationed(p: Policy, states: seq<State>, evs: seq<Event>, user: string)
    requires SameLockRule(p, SECOND_FACTOR) && IsRun(p, states, evs)
    requires KeyKept(states, evs, user)
    requires forall i | 0 <= i < |evs| && evs[i].op.key == user :: evs[i].op.Reserve? || evs[i].op.Peek?
    ensures var ts := Times(evs, Reserve(user));
      ts != [] ==> 12 * MINUTE * (|ts| - 10) <= Last(ts) - ts[0]
  {
    hide Step, Inv, View, Times;
    SecondFactorBudget(p, states, evs, user, |evs|);
    assert evs[..|evs|] == evs;
  }
}
