/** The account lockout tracker: two bounded maps of decaying failure streaks
    (backend/internal/auth/ratelimit.go). */
module Lockout {
  import opened Clock
  import opened Wrappers

  const FAILURE_DECAY: nat := 120 * MINUTE

  const TWO_63: nat := 0x8000_0000_0000_0000
  const TWO_64: nat := 0x1_0000_0000_0000_0000

  datatype Policy = Policy(
    threshold: nat,
    lockBase: nat,
    lockMax: nat,
    escalate: bool,
    maxStreaks: nat,
    maxLocks: nat)

  const PASSWORD: Policy := Policy(5, MINUTE, 15 * MINUTE, true, 10_000, 0x4_0000)
  const SECOND_FACTOR: Policy := Policy(10, 15 * MINUTE, 15 * MINUTE, false, 10_000, 0x4_0000)

  predicate ValidPolicy(p: Policy) {
    p.threshold >= 1 && 0 < p.lockMax <= FAILURE_DECAY
  }

  datatype Entry = Entry(failures: nat, lastFailure: nat, lockedUntil: nat, blockSeen: bool) {
    function ExpiresAt(): nat {
      var decayed := lastFailure + FAILURE_DECAY;
      if lockedUntil > decayed then lockedUntil else decayed
    }

    predicate Expired(now: nat) {
      ExpiresAt() <= now
    }
  }

  const FRESH: Entry := Entry(0, 0, 0, false)

  // ---- lock time -------------------------------------------------------------

  function Pow2(k: nat): (p: nat)
    ensures p >= 1
  {
    if k == 0 then 1 else 2 * Pow2(k - 1)
  }

  /** The signed 64-bit value with the same low bits as x. */
  function ToInt64(x: int): int {
    var low := x % TWO_64;
    if low < TWO_63 then low else low - TWO_64
  }

  function ShiftLeft64(x: int, k: nat): int {
    if k >= 64 then 0 else ToInt64(x * Pow2(k))
  }

  /** How long the failure number `failures` locks the key. */
  function Backoff(p: Policy, failures: nat): (d: nat)
    requires failures >= p.threshold
    ensures 0 < p.lockMax ==> 0 < d <= p.lockMax
  {
    if !p.escalate then p.lockMax
    else
      var shifted := ShiftLeft64(p.lockBase, failures - p.threshold);
      if shifted <= 0 || shifted > p.lockMax then p.lockMax else shifted
  }

  // ---- abstract state ----------------------------------------------------------

  datatype State = State(streaks: map<string, Entry>, locks: map<string, Entry>, lastPrune: nat)

  function View(s: State, key: string): Option<Entry> {
    if key in s.locks then Some(s.locks[key])
    else if key in s.streaks then Some(s.streaks[key])
    else None
  }

  function Live(s: State, key: string, now: nat): Option<Entry> {
    var v := View(s, key);
    if v.Some? && !v.value.Expired(now) then v else None
  }

  predicate LockedAt(s: State, key: string, now: nat) {
    Live(s, key, now).Some? && now < Live(s, key, now).value.lockedUntil
  }

  /** What looking a key up leaves behind: an expired entry is dropped. */
  function Touched(s: State, key: string, now: nat): State {
    if key in s.locks then
      if s.locks[key].Expired(now) then s.(locks := s.locks - {key}) else s
    else if key in s.streaks && s.streaks[key].Expired(now) then s.(streaks := s.streaks - {key})
    else s
  }

  function Unexpired(m: map<string, Entry>, now: nat): (r: map<string, Entry>)
    ensures |r| <= |m|
  {
    var r := map k | k in m && !m[k].Expired(now) :: m[k];
    SubmapIsNoLarger(r, m);
    r
  }

  function Pruned(s: State, now: nat): State {
    if now - s.lastPrune < PRUNE_EVERY then s
    else State(Unexpired(s.streaks, now), Unexpired(s.locks, now), now)
  }

  predicate Protected(p: Policy, e: Entry, now: nat) {
    !e.Expired(now) && (now < e.lockedUntil || e.failures >= p.threshold)
  }

  predicate Evictable(p: Policy, s: State, now: nat, k: string) {
    k in s.streaks && !Protected(p, s.streaks[k], now)
  }

  /** An evictable key whose entry stops mattering soonest. */
  ghost predicate IsVictim(p: Policy, s: State, now: nat, v: string) {
    && Evictable(p, s, now, v)
    && forall k | Evictable(p, s, now, k) :: s.streaks[v].ExpiresAt() <= s.streaks[k].ExpiresAt()
  }

  ghost predicate Saturated(p: Policy, s: State, now: nat) {
    |s.streaks| >= p.maxStreaks && forall k :: !Evictable(p, s, now, k)
  }

  function Without(s: State, key: string): State {
    s.(streaks := s.streaks - {key}, locks := s.locks - {key})
  }

  /** s' is s with room in the streak map, at the cost of at most one victim. */
  ghost predicate RoomMade(p: Policy, s: State, now: nat, s': State) {
    if |s.streaks| < p.maxStreaks then s' == s
    else exists v :: IsVictim(p, s, now, v) && s' == s.(streaks := s.streaks - {v})
  }

  function Bumped(p: Policy, e: Entry, now: nat): Entry {
    var base := if now - e.lastFailure > FAILURE_DECAY then 0 else e.failures;
    var failures := base + 1;
    if failures >= p.threshold then Entry(failures, now, now + Backoff(p, failures), false)
    else Entry(failures, now, e.lockedUntil, e.blockSeen)
  }

  function Placed(p: Policy, s: State, key: string, e: Entry): State {
    if key in s.locks then s.(locks := s.locks[key := e])
    else if e.failures >= p.threshold && |s.locks| < p.maxLocks then
      s.(streaks := s.streaks - {key}, locks := s.locks[key := e])
    else s.(streaks := s.streaks[key := e])
  }

  /** One counted failure; `tracked` is false only when nothing could be recorded. */
  ghost predicate Recorded(p: Policy, s: State, key: string, now: nat, s': State, engaged: bool, tracked: bool) {
    var s1 := Touched(Pruned(s, now), key, now);
    var live := View(s1, key);
    if live.Some? then
      && tracked
      && s' == Placed(p, s1, key, Bumped(p, live.value, now))
      && engaged == (Bumped(p, live.value, now).failures >= p.threshold)
    else if Saturated(p, s1, now) then !tracked && !engaged && s' == s1
    else
      && tracked
      && engaged == (Bumped(p, FRESH, now).failures >= p.threshold)
      && exists s2 :: RoomMade(p, s1, now, s2) && s' == Placed(p, s2, key, Bumped(p, FRESH, now))
  }

  predicate EntryOk(p: Policy, e: Entry) {
    && e.failures >= 1
    && (e.failures < p.threshold ==> e.lockedUntil == 0)
    && (e.failures >= p.threshold ==> e.lockedUntil == e.lastFailure + Backoff(p, e.failures))
  }

  ghost predicate Inv(p: Policy, s: State) {
    && s.streaks.Keys !! s.locks.Keys
    && |s.streaks| <= p.maxStreaks
    && |s.locks| <= p.maxLocks
    && "" !in s.streaks && "" !in s.locks
    && (forall k | k in s.streaks :: EntryOk(p, s.streaks[k]))
    && (forall k | k in s.locks :: EntryOk(p, s.locks[k]) && s.locks[k].failures >= p.threshold)
  }

  // ---- every change keeps the invariant ----------------------------------------------

  lemma SubmapIsNoLarger(small: map<string, Entry>, large: map<string, Entry>)
    requires small.Keys <= large.Keys
    ensures |small| <= |large|
  {
    var rest := large.Keys - small.Keys;
    assert large.Keys == small.Keys + rest;
    assert |large.Keys| == |small.Keys| + |rest|;
  }

  lemma PrunedKeepsInv(p: Policy, s: State, now: nat)
    requires Inv(p, s)
    ensures Inv(p, Pruned(s, now))
  {
    hide EntryOk;
  }

  lemma TouchedKeepsInv(p: Policy, s: State, key: string, now: nat)
    requires Inv(p, s)
    ensures Inv(p, Touched(s, key, now))
    ensures View(Touched(s, key, now), key) == Live(s, key, now) == Live(Touched(s, key, now), key, now)
    ensures Touched(Touched(s, key, now), key, now) == Touched(s, key, now)
  {
    hide EntryOk;
  }

  lemma RoomKeepsInv(p: Policy, s: State, now: nat, s': State)
    requires Inv(p, s) && RoomMade(p, s, now, s')
    ensures Inv(p, s') && |s'.streaks| < p.maxStreaks
  {
  }

  /** A live entry's next failure extends its streak: the decay reset never fires on it. */
  lemma LiveStreakGrows(p: Policy, e: Entry, now: nat)
    requires ValidPolicy(p)
    requires e == FRESH || (EntryOk(p, e) && !e.Expired(now))
    ensures Bumped(p, e, now).failures == e.failures + 1
    ensures EntryOk(p, Bumped(p, e, now))
  {
  }

  lemma SizeWith(m: map<string, Entry>, key: string, e: Entry)
    ensures |m[key := e]| == |m| + if key in m then 0 else 1
  {
    assert m[key := e].Keys == m.Keys + {key};
    if key in m {
      assert m[key := e].Keys == m.Keys;
    }
  }

  lemma PlacedFits(p: Policy, s: State, key: string, e: Entry)
    requires |s.streaks| <= p.maxStreaks && |s.locks| <= p.maxLocks
    requires View(s, key) == None ==> |s.streaks| < p.maxStreaks
    ensures |Placed(p, s, key, e).streaks| <= p.maxStreaks && |Placed(p, s, key, e).locks| <= p.maxLocks
  {
    SizeWith(s.locks, key, e);
    SizeWith(s.streaks, key, e);
    SubmapIsNoLarger(s.streaks - {key}, s.streaks);
  }

  lemma PlacedKeepsInv(p: Policy, s: State, key: string, e: Entry)
    requires Inv(p, s) && key != "" && EntryOk(p, e)
    requires key in s.locks ==> e.failures >= p.threshold
    requires View(s, key) == None ==> |s.streaks| < p.maxStreaks
    ensures Inv(p, Placed(p, s, key, e))
  {
    hide EntryOk, Placed;
    PlacedFits(p, s, key, e);
    PlacedKeepsEntries(p, s, key, e);
  }

  lemma PlacedKeepsEntries(p: Policy, s: State, key: string, e: Entry)
    requires Inv(p, s) && key != "" && EntryOk(p, e)
    requires key in s.locks ==> e.failures >= p.threshold
    ensures var s' := Placed(p, s, key, e);
      && s'.streaks.Keys !! s'.locks.Keys && "" !in s'.streaks && "" !in s'.locks
      && (forall k | k in s'.streaks :: EntryOk(p, s'.streaks[k]))
      && (forall k | k in s'.locks :: EntryOk(p, s'.locks[k]) && s'.locks[k].failures >= p.threshold)
  {
    hide EntryOk;
  }

  // ---- the limiter's requests, as steps -------------------------------------------

  /** The requests that reach a tracker. Check is AllowAccount, Fail is RecordFailure,
      Reserve is ReserveSecondFactorAttempt, Peek is secondFactorLocked. */
  datatype Op = Check(key: string) | Fail(key: string) | Reserve(key: string) | Peek(key: string) | Reset(key: string)

  function BlockNoted(s: State, key: string): State
    requires View(s, key).Some?
  {
    if key in s.locks then s.(locks := s.locks[key := s.locks[key].(blockSeen := true)])
    else s.(streaks := s.streaks[key := s.streaks[key].(blockSeen := true)])
  }

  ghost predicate Step(p: Policy, s: State, op: Op, now: nat, s': State, allowed: bool) {
    var s1 := Touched(s, op.key, now);
    match op
    case Check(key) =>
      if Live(s, key, now).Some? || Saturated(p, s1, now) then
        s' == s1 && allowed == (Live(s, key, now).Some? && !LockedAt(s, key, now))
      else allowed && RoomMade(p, s1, now, s')
    case Fail(key) => exists engaged :: Recorded(p, s, key, now, s', engaged, allowed)
    case Reserve(key) =>
      if LockedAt(s, key, now) then !allowed && s' == BlockNoted(s1, key)
      else exists engaged :: Recorded(p, s1, key, now, s', engaged, allowed)
    case Peek(key) => s' == s1 && allowed == !LockedAt(s, key, now)
    case Reset(key) => allowed && s' == Without(s, key)
  }

  // ---- the tracker -------------------------------------------------------------------

  class FailureTracker {
    var streaks: map<string, Entry>
    var locks: map<string, Entry>
    var lastPrune: nat
    const policy: Policy

    function Abs(): State
      reads this
    {
      State(streaks, locks, lastPrune)
    }

    ghost predicate Valid()
      reads this
    {
      ValidPolicy(policy) && Inv(policy, Abs())
    }

    constructor (policy: Policy)
      requires ValidPolicy(policy)
      ensures Valid() && this.policy == policy
      ensures Abs() == State(map[], map[], 0)
    {
      this.policy := policy;
      streaks, locks, lastPrune := map[], map[], 0;
    }

    method Get(key: string, now: nat) returns (e: Option<Entry>)
      requires Valid()
      modifies this
      ensures Valid()
      ensures e == Live(old(Abs()), key, now) && Abs() == Touched(old(Abs()), key, now)
    {
      if key in locks {
        if !locks[key].Expired(now) {
          return Some(locks[key]);
        }
        locks := locks - {key};
        return None;
      }
      if key in streaks {
        if !streaks[key].Expired(now) {
          return Some(streaks[key]);
        }
        streaks := streaks - {key};
      }
      return None;
    }

    method Locked(key: string, now: nat) returns (yes: bool)
      requires Valid()
      modifies this
      ensures Valid()
      ensures yes == LockedAt(old(Abs()), key, now) && Abs() == Touched(old(Abs()), key, now)
    {
      var e := Get(key, now);
      yes := e.Some? && now < e.value.lockedUntil;
    }

    method CanTrack(key: string, now: nat) returns (ok: bool)
      requires Valid()
      modifies this
      ensures Valid()
      ensures var s1 := Touched(old(Abs()), key, now);
        if Live(old(Abs()), key, now).Some? then ok && Abs() == s1
        else ok == !Saturated(policy, s1, now) && (if ok then RoomMade(policy, s1, now, Abs()) else Abs() == s1)
    {
      var e := Get(key, now);
      if e.Some? {
        ok := true;
      } else {
        ok := MakeRoom(now);
      }
    }

    method Reset(key: string)
      requires Valid()
      modifies this
      ensures Valid() && Abs() == Without(old(Abs()), key)
    {
      streaks := streaks - {key};
      locks := locks - {key};
    }

    method RecordFailure(key: string, now: nat) returns (engaged: bool, tracked: bool)
      requires Valid() && key != ""
      modifies this
      ensures Valid()
      ensures Recorded(policy, old(Abs()), key, now, Abs(), engaged, tracked)
    {
      hide Bumped, Placed, RoomMade, Saturated, Pruned, EntryOk;
      PruneExpired(now);
      var found := Get(key, now);
      var e := FRESH;
      if found.Some? {
        e := found.value;
      } else {
        var room := MakeRoom(now);
        if !room {
          return false, false;
        }
      }
      engaged := Count(key, e, now);
      tracked := true;
    }

    /** The counting half of recordFailure: e is the key's live entry or a fresh one. */
    method Count(key: string, entry: Entry, now: nat) returns (engaged: bool)
      requires Valid() && key != ""
      requires
        || (View(Abs(), key) == Some(entry) && !entry.Expired(now))
        || (View(Abs(), key) == None && entry == FRESH && |streaks| < policy.maxStreaks)
      modifies this
      ensures Valid()
      ensures Abs() == Placed(policy, old(Abs()), key, Bumped(policy, entry, now))
      ensures engaged == (Bumped(policy, entry, now).failures >= policy.threshold)
    {
      hide Bumped, Placed, EntryOk;
      LiveStreakGrows(policy, entry, now);
      PlacedKeepsInv(policy, Abs(), key, Bumped(policy, entry, now));
      var e;
      e, engaged := Bump(entry, now);
      Store(key, e);
    }

    /** The entry after one failure more, and whether it engages a lock. */
    method Bump(entry: Entry, now: nat) returns (e: Entry, engaged: bool)
      ensures e == Bumped(policy, entry, now) && engaged == (e.failures >= policy.threshold)
    {
      e := entry;
      if now - e.lastFailure > FAILURE_DECAY {
        e := e.(failures := 0);
      }
      e := e.(failures := e.failures + 1, lastFailure := now);
      engaged := false;
      if e.failures >= policy.threshold {
        var backoff := LockTime(e.failures);
        e := e.(lockedUntil := now + backoff, blockSeen := false);
        engaged := true;
      }
    }

    /** Write e to key's slot, moving it to the lock map once it has reached the threshold. */
    method Store(key: string, e: Entry)
      modifies this
      ensures Abs() == Placed(policy, old(Abs()), key, e)
    {
      if key in locks {
        locks := locks[key := e];
      } else if e.failures >= policy.threshold && |locks| < policy.maxLocks {
        streaks := streaks - {key};
        locks := locks[key := e];
      } else {
        streaks := streaks[key := e];
      }
    }

    /** Overwrite the block mark of a live entry in place. */
    method Mark(key: string, e: Entry)
      requires Valid() && View(Abs(), key).Some? && e == View(Abs(), key).value.(blockSeen := true)
      modifies this
      ensures Valid() && Abs() == BlockNoted(old(Abs()), key)
    {
      if key in locks {
        locks := locks[key := e];
        assert locks.Keys == old(locks.Keys);
      } else {
        streaks := streaks[key := e];
        assert streaks.Keys == old(streaks.Keys);
      }
    }

    method LockTime(failures: nat) returns (backoff: nat)
      requires failures >= policy.threshold
      ensures backoff == Backoff(policy, failures)
    {
      backoff := policy.lockMax;
      if policy.escalate {
        var shifted := ShiftLeft64(policy.lockBase, failures - policy.threshold);
        if !(shifted <= 0 || shifted > policy.lockMax) {
          backoff := shifted;
        }
      }
    }

    method PruneExpired(now: nat)
      requires Valid()
      modifies this
      ensures Valid() && Abs() == Pruned(old(Abs()), now)
    {
      if now - lastPrune < PRUNE_EVERY {
        return;
      }
      PrunedKeepsInv(policy, Abs(), now);
      lastPrune := now;
      streaks := Sweep(streaks, now);
      locks := Sweep(locks, now);
    }

    /** One of pruneExpired's two passes, in whatever order the map yields its keys. */
    static method Sweep(entries: map<string, Entry>, now: nat) returns (kept: map<string, Entry>)
      ensures kept == Unexpired(entries, now)
    {
      kept := entries;
      var todo := entries.Keys;
      while todo != {}
        invariant todo <= entries.Keys
        invariant kept == map k | k in entries && (k in todo || !entries[k].Expired(now)) :: entries[k]
      {
        var k :| k in todo;
        todo := todo - {k};
        if kept[k].Expired(now) {
          kept := kept - {k};
        }
      }
    }

    method MakeRoom(now: nat) returns (ok: bool)
      requires Valid()
      modifies this
      ensures Valid()
      ensures ok == !Saturated(policy, old(Abs()), now)
      ensures if ok then RoomMade(policy, old(Abs()), now, Abs()) && |streaks| < policy.maxStreaks
              else Abs() == old(Abs())
    {
      if |streaks| < policy.maxStreaks {
        return true;
      }
      var victim, soonest := "", 0;
      var todo := streaks.Keys;
      while todo != {}
        invariant todo <= streaks.Keys
        invariant victim == "" ==> forall k | k in streaks.Keys - todo :: Protected(policy, streaks[k], now)
        invariant victim != "" ==> victim in streaks && !Protected(policy, streaks[victim], now)
        invariant victim != "" ==> soonest == streaks[victim].ExpiresAt()
        invariant victim != "" ==>
          forall k | k in streaks.Keys - todo && !Protected(policy, streaks[k], now) :: soonest <= streaks[k].ExpiresAt()
      {
        var k :| k in todo;
        todo := todo - {k};
        if !Protected(policy, streaks[k], now) {
          var e := streaks[k].ExpiresAt();
          if victim == "" || e < soonest {
            victim, soonest := k, e;
          }
        }
      }
      if victim == "" {
        return false;
      }
      assert IsVictim(policy, old(Abs()), now, victim);
      streaks := streaks - {victim};
      return true;
    }
  }
}
