/** How fast second-factor codes can be tried: the login protocol with the limiter's tracker
    carried along (backend/internal/auth/totp.go, backend/internal/auth/ratelimit.go). */
module LoginTries {
  import opened Clock
  import opened Counting
  import opened Wrappers
  import opened LoginProtocol
  import L = Lockout
  import LR = LockoutRuns

  /** Event n, as the second-factor tracker sees it. */
  ghost function TrackerEvent(s: State, e: Event): seq<LR.Event>
    requires Enabled(s, e)
  {
    if e.Reserve? then [LR.Event(L.Op.Reserve(s.challenges[s.requests[e.req].ch].user), s.now, e.allowed)]
    else if e.UseTracker? then [LR.Event(e.op, s.now, e.allowed)]
    else []
  }

  ghost function TrackerEvents(states: seq<State>, events: seq<Event>, n: nat): seq<LR.Event>
    requires IsRun(states, events) && n <= |events|
  {
    if n == 0 then [] else TrackerEvents(states, events, n - 1) + TrackerEvent(states[n - 1], events[n - 1])
  }

  ghost function TrackerStates(states: seq<State>, events: seq<Event>, n: nat): seq<L.State>
    requires IsRun(states, events) && n <= |events|
  {
    if n == 0 then [states[0].tracker]
    else TrackerStates(states, events, n - 1) + if TrackerEvent(states[n - 1], events[n - 1]) == [] then [] else [states[n].tracker]
  }

  ghost predicate TrackedTo(trackers: seq<L.State>, evs: seq<LR.Event>, s: State) {
    && LR.IsRun(L.SECOND_FACTOR, trackers, evs)
    && trackers[|evs|] == s.tracker
    && forall i | 0 <= i < |evs| :: evs[i].now <= s.now && (evs[i].op.Reserve? || evs[i].op.Reset? || evs[i].op.Peek?)
  }

  lemma TrackedStep(trackers: seq<L.State>, evs: seq<LR.Event>, s: State, e: Event, n: nat)
    requires Enabled(s, e) && TrackedTo(trackers, evs, s)
    ensures var more, s' := TrackerEvent(s, e), Next(s, e, n);
      TrackedTo(trackers + if more == [] then [] else [s'.tracker], evs + more, s')
  {
    hide L.Step, L.Inv, Spend, Replace, Matching;
    var more, s' := TrackerEvent(s, e), Next(s, e, n);
    if more == [] {
      assert evs + more == evs;
      assert trackers + [] == trackers;
    } else {
      var trackers', evs' := trackers + [s'.tracker], evs + more;
      forall i | 0 <= i < |evs'|
        ensures evs'[i].op.key != ""
        ensures L.Step(L.SECOND_FACTOR, trackers'[i], evs'[i].op, evs'[i].now, trackers'[i + 1], evs'[i].allowed)
      {
        if i < |evs| {
          assert evs'[i] == evs[i] && trackers'[i] == trackers[i] && trackers'[i + 1] == trackers[i + 1];
        }
      }
    }
  }

  /** The tracker's own view of a run of the protocol is a run of the tracker. */
  lemma {:induction false} TrackerRuns(states: seq<State>, events: seq<Event>, n: nat)
    requires IsRun(states, events) && n <= |events|
    ensures |states| == |events| + 1
    ensures TrackedTo(TrackerStates(states, events, n), TrackerEvents(states, events, n), states[n])
  {
    hide Next, Enabled, TrackedTo, TrackerEvent, L.Step, L.Inv;
    if n == 0 {
      TrackerStarts(states[0]);
    } else {
      TrackerRuns(states, events, n - 1);
      RunStep(states, events, n - 1);
      TrackedStep(TrackerStates(states, events, n - 1), TrackerEvents(states, events, n - 1), states[n - 1], events[n - 1], n - 1);
    }
  }

  lemma TrackerStarts(s: State)
    requires Initial(s)
    ensures TrackedTo([s.tracker], [], s)
  {
    hide L.Inv;
  }

  predicate CountsFor(s: State, e: Event, user: string) {
    e.Reserve? && e.allowed && UserOf(s, e.req) == Some(user)
  }

  predicate TriesFor(s: State, e: Event, user: string) {
    Tries(e) && UserOf(s, e.req) == Some(user)
  }

  /** Codes tried against the user's second factor, on all challenges together. */
  function TriesUpTo(states: seq<State>, events: seq<Event>, user: string, n: nat): nat
    requires n <= |events| < |states|
  {
    if n == 0 then 0
    else TriesUpTo(states, events, user, n - 1) + if TriesFor(states[n - 1], events[n - 1], user) then 1 else 0
  }

  /** The requests whose attempt the limiter has counted, and those that have tried their code. */
  ghost function CountedBy(states: seq<State>, events: seq<Event>, user: string, n: nat): set<nat>
    requires n <= |events| < |states|
  {
    if n == 0 then {}
    else if CountsFor(states[n - 1], events[n - 1], user) then CountedBy(states, events, user, n - 1) + {events[n - 1].req}
    else CountedBy(states, events, user, n - 1)
  }

  ghost function TriedBy(states: seq<State>, events: seq<Event>, user: string, n: nat): set<nat>
    requires n <= |events| < |states|
  {
    if n == 0 then {}
    else if TriesFor(states[n - 1], events[n - 1], user) then TriedBy(states, events, user, n - 1) + {events[n - 1].req}
    else TriedBy(states, events, user, n - 1)
  }

  /** Every request that may still try a code, or has, was counted; each was counted once. */
  ghost predicate Accounted(s: State, user: string, counted: set<nat>, tried: set<nat>, counts: nat, tries: nat) {
    && tried <= counted && |counted| == counts && |tried| == tries
    && (forall q | q in counted :: Stage(s, q) >= 2)
    && (forall q | q in tried :: Stage(s, q) == 4)
    && (forall q | 2 <= Stage(s, q) <= 3 && UserOf(s, q) == Some(user) :: q in counted)
  }

  lemma AccountedStep(s: State, e: Event, n: nat, user: string, counted: set<nat>, tried: set<nat>, counts: nat, tries: nat)
    requires Enabled(s, e) && Accounted(s, user, counted, tried, counts, tries) && forall q :: KnowsChallenge(s, q)
    ensures var c, t := CountsFor(s, e, user), TriesFor(s, e, user);
      Accounted(Next(s, e, n), user, if c then counted + {e.req} else counted, if t then tried + {e.req} else tried,
                counts + if c then 1 else 0, tries + if t then 1 else 0)
  {
    hide Enabled, Next, Stage, UserOf, KnowsChallenge;
    var s' := Next(s, e, n);
    forall q: nat
      ensures Stage(s, q) <= Stage(s', q) <= 4
      ensures 2 <= Stage(s', q) <= 3 ==> StaysWith(s, e, s', q)
    {
      StageMoves(s, e, n, q);
    }
    if CountsFor(s, e, user) || TriesFor(s, e, user) {
      StageMoves(s, e, n, e.req);
    }
  }

  lemma {:induction false} EveryTryIsAccounted(states: seq<State>, events: seq<Event>, user: string, n: nat)
    requires IsRun(states, events) && n <= |events| < |states|
    ensures Accounted(states[n], user, CountedBy(states, events, user, n), TriedBy(states, events, user, n),
                      |LR.Times(TrackerEvents(states, events, n), L.Op.Reserve(user))|, TriesUpTo(states, events, user, n))
  {
    hide Enabled, Next, Accounted, KnowsChallenge, LR.Times, TrackerEvent, CountsFor, TriesFor;
    if n == 0 {
      NothingTried(states[0], user);
    } else {
      EveryTryIsAccounted(states, events, user, n - 1);
      RunStep(states, events, n - 1);
      ChallengesAreKnown(states, events, n - 1);
      TimesMore(TrackerEvents(states, events, n - 1), states[n - 1], events[n - 1], user);
      AccountedStep(states[n - 1], events[n - 1], n - 1, user,
                    CountedBy(states, events, user, n - 1), TriedBy(states, events, user, n - 1),
                    |LR.Times(TrackerEvents(states, events, n - 1), L.Op.Reserve(user))|, TriesUpTo(states, events, user, n - 1));
    }
  }

  lemma ChallengesAreKnown(states: seq<State>, events: seq<Event>, n: nat)
    requires IsRun(states, events) && n <= |events| < |states|
    ensures forall q :: KnowsChallenge(states[n], q)
  {
    hide Enabled, Next, ChallengeOk, RowOk, SessionOk;
    EveryStateIsClaimed(states, events, n);
    forall q
      ensures KnowsChallenge(states[n], q)
    {
      assert RequestOk(states[n], ClaimsAt(states, events, n), q);
    }
  }

  lemma NothingTried(s: State, user: string)
    requires Initial(s)
    ensures Accounted(s, user, {}, {}, |LR.Times([], L.Op.Reserve(user))|, 0)
  {
    hide L.Inv;
  }

  lemma TimesMore(evs: seq<LR.Event>, s: State, e: Event, user: string)
    requires Enabled(s, e)
    ensures |LR.Times(evs + TrackerEvent(s, e), L.Op.Reserve(user))|
         == |LR.Times(evs, L.Op.Reserve(user))| + if CountsFor(s, e, user) then 1 else 0
  {
    hide Tracks;
    var more := TrackerEvent(s, e);
    if more == [] {
      assert evs + more == evs;
    } else {
      assert (evs + more)[..|evs|] == evs;
    }
  }

  /** The tracker's key of the user is never reset, nor evicted while live. */
  ghost predicate FactorKept(states: seq<State>, events: seq<Event>, user: string, n: nat)
    requires IsRun(states, events) && n <= |events|
  {
    var trackers, evs := TrackerStates(states, events, n), TrackerEvents(states, events, n);
    |trackers| == |evs| + 1 && LR.KeyKept(trackers, evs, user)
  }

  /** However requests and challenges interleave: whenever n codes have been tried for a user whose
      second factor was not reset, at least n attempts were counted, and the clock stands at least
      12 min * (n - 10) past the first of them. */
  lemma TriesAreRationed(states: seq<State>, events: seq<Event>, user: string, n: nat)
    requires IsRun(states, events) && n <= |events| < |states| && FactorKept(states, events, user, n)
    ensures var ts := LR.Times(TrackerEvents(states, events, n), L.Op.Reserve(user));
      var tries := TriesUpTo(states, events, user, n);
      tries <= |ts| && (tries > 0 ==> 12 * MINUTE * (tries - 10) <= states[n].now - ts[0])
  {
    hide Enabled, Next, LR.Times, TrackerEvent, L.Step, L.Inv, TriesUpTo, LR.KeyKept;
    TrackerRuns(states, events, n);
    EveryTryIsAccounted(states, events, user, n);
    var trackers, evs := TrackerStates(states, events, n), TrackerEvents(states, events, n);
    var ts := LR.Times(evs, L.Op.Reserve(user));
    var counted, tried := CountedBy(states, events, user, n), TriedBy(states, events, user, n);
    SubsetSize(tried, counted);
    if ts != [] {
      OnlyReservesAndPeeks(trackers, evs, user, states[n]);
      LR.SecondFactorAttemptsAreRationed(L.SECOND_FACTOR, trackers, evs, user);
      TimesAreEvents(evs, L.Op.Reserve(user), states[n].now);
    }
  }

  lemma OnlyReservesAndPeeks(trackers: seq<L.State>, evs: seq<LR.Event>, user: string, s: State)
    requires TrackedTo(trackers, evs, s) && |trackers| == |evs| + 1 && LR.KeyKept(trackers, evs, user)
    ensures forall i | 0 <= i < |evs| && evs[i].op.key == user :: evs[i].op.Reserve? || evs[i].op.Peek?
  {
    hide L.Step, L.Inv;
    forall i | 0 <= i < |evs| && evs[i].op.key == user
      ensures evs[i].op.Reserve? || evs[i].op.Peek?
    {
      assert evs[i].op != L.Op.Reset(user);
    }
  }

  lemma {:induction false} TimesAreEvents(evs: seq<LR.Event>, op: L.Op, now: nat)
    requires forall i | 0 <= i < |evs| :: evs[i].now <= now
    ensures forall i | 0 <= i < |LR.Times(evs, op)| :: LR.Times(evs, op)[i] <= now
  {
    if evs != [] {
      TimesAreEvents(evs[..|evs| - 1], op, now);
    }
  }
}
