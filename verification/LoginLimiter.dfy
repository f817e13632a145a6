/** LoginLimiter's account and second-factor requests (backend/internal/auth/ratelimit.go). */
module LoginLimiting {
  import opened Wrappers
  import opened Lockout
  import opened LockoutRuns

  /** SecondFactorVerdict: what reserving one second-factor attempt answers. */
  datatype Verdict = Verdict(allowed: bool, engagesLock: bool, firstBlock: bool)

  /** The two trackers of LoginLimiter. Keys are the digests accountKey computes, or user ids. */
  class LoginLimiter {
    const accounts: FailureTracker
    const secondFactor: FailureTracker

    ghost predicate Valid()
      reads this, accounts, secondFactor
    {
      && accounts != secondFactor
      && accounts.Valid() && accounts.policy == PASSWORD
      && secondFactor.Valid() && secondFactor.policy == SECOND_FACTOR
    }

    constructor ()
      ensures Valid() && fresh(accounts) && fresh(secondFactor)
      ensures accounts.Abs() == State(map[], map[], 0) == secondFactor.Abs()
    {
      accounts := new FailureTracker(PASSWORD);
      secondFactor := new FailureTracker(SECOND_FACTOR);
    }

    method AllowAccount(key: string, now: nat) returns (allowed: bool, saturated: bool)
      requires Valid()
      modifies accounts
      ensures Valid()
      ensures Step(PASSWORD, old(accounts.Abs()), Check(key), now, accounts.Abs(), allowed)
      ensures saturated <==> !allowed && !LockedAt(old(accounts.Abs()), key, now)
      ensures LockedAt(old(accounts.Abs()), key, now) ==> !allowed
      ensures Live(old(accounts.Abs()), key, now).Some? ==> allowed == !LockedAt(old(accounts.Abs()), key, now)
    {
      var locked := accounts.Locked(key, now);
      if locked {
        return false, false;
      }
      TouchedKeepsInv(PASSWORD, old(accounts.Abs()), key, now);
      hide Inv, Touched, Saturated, RoomMade, View;
      var tracks := accounts.CanTrack(key, now);
      if !tracks {
        return false, true;
      }
      return true, false;
    }

    method RecordFailure(key: string, now: nat) returns (ghost tracked: bool)
      requires Valid() && key != ""
      modifies accounts
      ensures Valid()
      ensures Step(PASSWORD, old(accounts.Abs()), Fail(key), now, accounts.Abs(), tracked)
    {
      var engaged, counted := accounts.RecordFailure(key, now);
      tracked := counted;
    }

    method ResetAccount(key: string)
      requires Valid()
      modifies accounts
      ensures Valid() && accounts.Abs() == Without(old(accounts.Abs()), key)
    {
      accounts.Reset(key);
    }

    /** The lock check and the count are one step; only the first refusal of a lock reports firstBlock. */
    method ReserveSecondFactorAttempt(user: string, now: nat) returns (v: Verdict)
      requires Valid() && user != ""
      modifies secondFactor
      ensures Valid()
      ensures Step(SECOND_FACTOR, old(secondFactor.Abs()), Reserve(user), now, secondFactor.Abs(), v.allowed)
      ensures v.firstBlock <==>
        LockedAt(old(secondFactor.Abs()), user, now) && !Live(old(secondFactor.Abs()), user, now).value.blockSeen
      ensures v.engagesLock ==> v.allowed && LockedAt(secondFactor.Abs(), user, now)
      ensures v.allowed && !v.engagesLock ==> !LockedAt(secondFactor.Abs(), user, now)
    {
      var found := secondFactor.Get(user, now);
      if found.Some? && now < found.value.lockedUntil {
        var e := found.value.(blockSeen := true);
        secondFactor.Mark(user, e);
        return Verdict(false, false, !found.value.blockSeen);
      }
      ghost var s1 := secondFactor.Abs();
      var engaged, tracked := secondFactor.RecordFailure(user, now);
      if !tracked {
        return Verdict(false, false, false);
      }
      EngagedMeansLocked(SECOND_FACTOR, s1, user, now, secondFactor.Abs(), engaged);
      return Verdict(true, engaged, false);
    }

    method SecondFactorLocked(user: string, now: nat) returns (locked: bool)
      requires Valid()
      modifies secondFactor
      ensures Valid()
      ensures Step(SECOND_FACTOR, old(secondFactor.Abs()), Peek(user), now, secondFactor.Abs(), !locked)
    {
      locked := secondFactor.Locked(user, now);
    }

    method ResetSecondFactor(user: string)
      requires Valid()
      modifies secondFactor
      ensures Valid() && secondFactor.Abs() == Without(old(secondFactor.Abs()), user)
    {
      secondFactor.Reset(user);
    }
  }
}
