/** What a session of the login protocol proves about its user: the password, and the second factor
    whenever it was on (backend/internal/auth/handlers.go, backend/internal/auth/totp.go). */
module LoginFactors {
  import opened Wrappers
  import opened LoginProtocol

  // ---- the password, and whether it is enough ---------------------------------------------------

  /** The second factor was on for the user. */
  predicate FactorOn(s: State, user: string) {
    user in s.totpOn && s.totpOn[user]
  }

  /** A request past the read of its user remembers whether the factor was on then. */
  ghost predicate Recalls(states: seq<State>, r: Request, n: nat) {
    r.Read? || r.Passed? ==> r.readAt < n <= |states| && r.totp == FactorOn(states[r.readAt], r.user)
  }

  lemma MoverRecalls(states: seq<State>, s: State, e: Event, n: nat)
    requires n < |states| && states[n] == s && Enabled(s, e)
    requires !e.Tick? && !e.SetTotp? && !e.ReplaceCodes? && !e.UseTracker?
    requires e.req in s.requests ==> Recalls(states, s.requests[e.req], n)
    ensures e.req in Next(s, e, n).requests && Recalls(states, Next(s, e, n).requests[e.req], n + 1)
  {
    hide Tracks, Spend, Replace, Matching, Issued;
  }

  lemma {:induction false} RequestsRecall(states: seq<State>, events: seq<Event>, n: nat, q: nat)
    requires IsRun(states, events) && n <= |events| < |states| && q in states[n].requests
    ensures Recalls(states, states[n].requests[q], n)
  {
    hide Next, Enabled;
    if n > 0 {
      RunStep(states, events, n - 1);
      var s, e := states[n - 1], events[n - 1];
      if q in s.requests {
        RequestsRecall(states, events, n - 1, q);
      }
      if Moves(e, q) {
        MoverRecalls(states, s, e, n - 1);
      } else {
        OthersStay(s, e, n - 1, q);
      }
    }
  }

  /** Every session stands as its own issuing event made it. */
  lemma {:induction false} SessionsAreIssued(states: seq<State>, events: seq<Event>, n: nat, i: nat)
    requires IsRun(states, events) && n <= |events| < |states| && i < |states[n].sessions|
    ensures var x := states[n].sessions[i];
      && x.at < n && Enabled(states[x.at], events[x.at]) && Issues(events[x.at])
      && x == Issued(states[x.at], events[x.at], x.at)
  {
    hide Next, Enabled;
    if n == 0 {
      NoSessionYet(states, events);
    } else {
      RunStep(states, events, n - 1);
      OnlyIssuesAdd(states[n - 1], events[n - 1], n - 1);
      if i < |states[n - 1].sessions| {
        SessionsAreIssued(states, events, n - 1, i);
      }
    }
  }

  lemma NoSessionYet(states: seq<State>, events: seq<Event>)
    requires IsRun(states, events)
    ensures |states| == |events| + 1 && states[0].sessions == [] && states[0].challenges == map[] && states[0].requests == map[]
  {
    hide Next, Enabled;
  }

  lemma PasswordSessionStep(s: State, e: Event, n: nat)
    requires Enabled(s, e) && Issues(e) && Issued(s, e, n).ByPassword?
    ensures var x := Issued(s, e, n);
      e.req in s.requests && s.requests[e.req] == Passed(x.user, false, x.readAt, x.passedAt)
  {
    hide Tracks;
  }

  /** A password alone yields a session only where the user's second factor was off when the
      request read the user. */
  lemma PasswordAloneNeedsFactorOff(states: seq<State>, events: seq<Event>, n: nat, i: nat)
    requires IsRun(states, events) && n <= |events| < |states| && i < |states[n].sessions|
    requires states[n].sessions[i].ByPassword?
    ensures var x := states[n].sessions[i];
      && x.readAt < x.passedAt < x.at < n
      && events[x.readAt] == ReadUser(x.req, x.user) && events[x.passedAt] == CheckPassword(x.req, true)
      && !(x.user in states[x.readAt].totpOn && states[x.readAt].totpOn[x.user])
  {
    hide Next, Enabled, IsRun;
    var x := states[n].sessions[i];
    SessionsAreIssued(states, events, n, i);
    PasswordSessionStep(states[x.at], events[x.at], x.at);
    RequestsRecall(states, events, x.at, events[x.at].req);
    SessionsAreEarned(states, events, n);
    assert SessionTraced(events[..n], x);
  }

  // ---- where a challenge comes from ------------------------------------------------------------

  lemma MintStep(s: State, e: Event, n: nat)
    requires Enabled(s, e) && e.Mint?
    ensures e.req in s.requests && s.requests[e.req].Passed? && s.requests[e.req].totp
    ensures e.ch in Next(s, e, n).challenges
    ensures Next(s, e, n).challenges[e.ch] == Challenge(s.requests[e.req].user, 0, false, s.now + e.ttl)
  {
    hide Tracks, Spend, Replace, Matching, Issued;
  }

  /** Event m minted ch, after its own request read the user with the factor on, at place r, and
      checked the password, at place p. */
  ghost predicate Minted(states: seq<State>, events: seq<Event>, ch: nat, user: string, r: nat, p: nat, m: nat) {
    && r < p < m < |events| < |states|
    && events[m].Mint? && events[m].ch == ch
    && events[r] == ReadUser(events[m].req, user) && events[p] == CheckPassword(events[m].req, true)
    && user in states[r].totpOn && states[r].totpOn[user]
  }

  /** Every challenge is minted, unconsumed and without a failure, behind a correct password of a
      user whose second factor was on. */
  lemma MintsFollowThePassword(states: seq<State>, events: seq<Event>, m: nat) returns (user: string, r: nat, p: nat)
    requires IsRun(states, events) && m < |events| && events[m].Mint?
    ensures |states| == |events| + 1 && Minted(states, events, events[m].ch, user, r, p, m)
    ensures events[m].ch in states[m + 1].challenges
    ensures states[m + 1].challenges[events[m].ch] == Challenge(user, 0, false, states[m].now + events[m].ttl)
  {
    hide Next, Enabled, IsRun;
    RunStep(states, events, m);
    MintStep(states[m], events[m], m);
    SessionsAreEarned(states, events, m);
    var req := events[m].req;
    RequestsRecall(states, events, m, req);
    var q := states[m].requests[req];
    assert Traced(events[..m], req, q);
    user, r, p := q.user, q.readAt, q.passedAt;
  }

  lemma OnlyMintsAdd(s: State, e: Event, n: nat, ch: nat)
    requires Enabled(s, e) && ch in Next(s, e, n).challenges && ch !in s.challenges
    ensures e.Mint? && e.ch == ch
  {
    hide Tracks, Spend, Replace, Matching, Issued;
  }

  /** The event that minted a challenge, whose user and expiry have stayed since. */
  lemma {:induction false} ChallengesAreMinted(states: seq<State>, events: seq<Event>, n: nat, ch: nat) returns (m: nat)
    requires IsRun(states, events) && n <= |events| < |states| && ch in states[n].challenges
    ensures m < n && events[m].Mint? && events[m].ch == ch && ch in states[m + 1].challenges
    ensures states[n].challenges[ch].user == states[m + 1].challenges[ch].user
    ensures states[n].challenges[ch].expiresAt == states[m + 1].challenges[ch].expiresAt
  {
    hide Next, Enabled;
    if n == 0 {
      NoSessionYet(states, events);
    } else {
      RunStep(states, events, n - 1);
      if ch in states[n - 1].challenges {
        m := ChallengesAreMinted(states, events, n - 1, ch);
        ChallengesStay(states[n - 1], events[n - 1], n - 1, ch);
      } else {
        OnlyMintsAdd(states[n - 1], events[n - 1], n - 1, ch);
        m := n - 1;
      }
    }
  }

  // ---- where a challenge is taken up -----------------------------------------------------------

  /** Request q took its challenge up at place l, while it was open and in time. */
  ghost predicate TakenUp(states: seq<State>, events: seq<Event>, q: nat, ch: nat, l: nat) {
    && l < |events| < |states| && events[l] == Lookup(q, ch)
    && ch in states[l].challenges && !states[l].challenges[ch].consumed && states[l].now <= states[l].challenges[ch].expiresAt
  }

  lemma TakingUpStep(s: State, e: Event, n: nat)
    requires Enabled(s, e) && !e.Tick? && !e.SetTotp? && !e.ReplaceCodes? && !e.UseTracker?
    requires e.req in Next(s, e, n).requests && HasChallenge(Next(s, e, n).requests[e.req])
    ensures var r' := Next(s, e, n).requests[e.req];
      if e.Lookup? then
        r'.LookedUp? && r'.ch == e.ch && e.ch in s.challenges && !s.challenges[e.ch].consumed
        && s.now <= s.challenges[e.ch].expiresAt
      else e.req in s.requests && HasChallenge(s.requests[e.req]) && s.requests[e.req].ch == r'.ch
    ensures var r' := Next(s, e, n).requests[e.req];
      !e.Lookup? && !r'.Invalid? && s.requests[e.req].LookedUp? ==> r'.Counted? && r'.countedAt == n
    ensures var r' := Next(s, e, n).requests[e.req];
      !e.Lookup? && !r'.Invalid? && !s.requests[e.req].LookedUp? ==>
        !r'.LookedUp? && !s.requests[e.req].Invalid? && r'.countedAt == s.requests[e.req].countedAt
  {
    hide Tracks, Spend, Replace, Matching, Issued;
  }

  /** Every request at the second factor took its challenge up first. */
  lemma {:induction false} RequestsTookUp(states: seq<State>, events: seq<Event>, n: nat, q: nat) returns (l: nat)
    requires IsRun(states, events) && n <= |events| < |states|
    requires q in states[n].requests && HasChallenge(states[n].requests[q])
    ensures var r := states[n].requests[q];
      && l < n && TakenUp(states, events, q, r.ch, l)
      && (!r.LookedUp? && !r.Invalid? ==> l < r.countedAt)
  {
    hide Next, Enabled;
    if n == 0 {
      NoSessionYet(states, events);
    } else {
      RunStep(states, events, n - 1);
      var s, e := states[n - 1], events[n - 1];
      if Moves(e, q) {
        TakingUpStep(s, e, n - 1);
        if e.Lookup? {
          l := n - 1;
        } else {
          l := RequestsTookUp(states, events, n - 1, q);
        }
      } else {
        OthersStay(s, e, n - 1, q);
        l := RequestsTookUp(states, events, n - 1, q);
      }
    }
  }

  // ---- what a recovery code had to be ----------------------------------------------------------

  /** rows are exactly the unused codes of the user that have the hash. */
  ghost predicate AreTheCodes(s: State, rows: set<nat>, user: string, hash: string) {
    forall k :: k in rows <==> k in s.codes && s.codes[k] == CodeRow(user, hash, false)
  }

  /** e shows the factor, for request q on ch's user: a TOTP code that matches, or a recovery code
      that this user has and has not used. */
  ghost predicate ProvenBy(s: State, e: Event, q: nat, ch: nat, factor: Factor) {
    && ch in s.challenges
    && match factor
       case Totp => e == CheckTotp(q, true)
       case Recovery(rows) =>
         e.CheckCode? && e.req == q && rows != {} && AreTheCodes(s, rows, s.challenges[ch].user, e.hash)
  }

  lemma ProvingStep(s: State, e: Event, n: nat)
    requires Enabled(s, e) && !e.Tick? && !e.SetTotp? && !e.ReplaceCodes? && !e.UseTracker?
    requires e.req in Next(s, e, n).requests
    ensures var r' := Next(s, e, n).requests[e.req];
      r'.Valid? ==> r'.checkedAt == n && ProvenBy(s, e, e.req, r'.ch, r'.factor)
    ensures var r' := Next(s, e, n).requests[e.req];
      r'.Won? ==>
        && e.req in s.requests && s.requests[e.req].Valid? && s.requests[e.req].ch == r'.ch
        && s.requests[e.req].checkedAt == r'.checkedAt && s.requests[e.req].factor == r'.factor
  {
    hide Tracks, Spend, Replace, Issued;
  }

  lemma {:induction false} RequestsAreProven(states: seq<State>, events: seq<Event>, n: nat, q: nat)
    requires IsRun(states, events) && n <= |events| < |states|
    requires q in states[n].requests && (states[n].requests[q].Valid? || states[n].requests[q].Won?)
    ensures var r := states[n].requests[q]; r.checkedAt < n && ProvenBy(states[r.checkedAt], events[r.checkedAt], q, r.ch, r.factor)
  {
    hide Next, Enabled, AreTheCodes;
    if n == 0 {
      NoSessionYet(states, events);
    } else {
      RunStep(states, events, n - 1);
      var s, e := states[n - 1], events[n - 1];
      if Moves(e, q) {
        ProvingStep(s, e, n - 1);
        if states[n].requests[q].Won? {
          RequestsAreProven(states, events, n - 1, q);
        }
      } else {
        OthersStay(s, e, n - 1, q);
        RequestsAreProven(states, events, n - 1, q);
      }
    }
  }

  /** Fresh codes take the place of all the user's old ones, and of nobody else's. */
  lemma ReplacingRevokes(s: State, e: Event, n: nat)
    requires e.ReplaceCodes? && forall k | k in s.codes :: k < s.nextRow
    ensures var codes := Next(s, e, n).codes;
      && (forall k | k in codes && codes[k].user == e.user ::
            s.nextRow <= k < s.nextRow + |e.hashes| && codes[k] == CodeRow(e.user, e.hashes[k - s.nextRow], false))
      && (forall k: nat | s.nextRow <= k < s.nextRow + |e.hashes| :: k in codes && codes[k].user == e.user)
      && (forall k | k in s.codes && s.codes[k].user != e.user :: k in codes && codes[k] == s.codes[k])
  {
    hide Inserted;
  }

  // ---- both factors ------------------------------------------------------------------------------

  lemma FactorSessionStep(s: State, e: Event, n: nat)
    requires Enabled(s, e) && Issues(e) && Issued(s, e, n).BySecondFactor?
    ensures var x := Issued(s, e, n);
      && e.req == x.req && e.req in s.requests && s.requests[e.req] == Won(x.ch, x.countedAt, x.checkedAt, x.factor, x.wonAt)
      && x.ch in s.challenges && x.user == s.challenges[x.ch].user
  {
    hide Tracks;
  }

  lemma {:induction false} ChallengeKeepsUser(states: seq<State>, events: seq<Event>, i: nat, n: nat, ch: nat)
    requires IsRun(states, events) && i <= n <= |events| < |states| && ch in states[i].challenges
    ensures ch in states[n].challenges && states[n].challenges[ch].user == states[i].challenges[ch].user
    ensures states[n].challenges[ch].expiresAt == states[i].challenges[ch].expiresAt
    decreases n
  {
    hide Next, Enabled;
    if i < n {
      ChallengeKeepsUser(states, events, i, n - 1, ch);
      RunStep(states, events, n - 1);
      ChallengesStay(states[n - 1], events[n - 1], n - 1, ch);
    }
  }

  /** A session LoginTOTP issued goes back to one login: some request read the session's user with
      the factor on and checked the password, then minted the challenge; the session's own
      request took the challenge up in time, was counted, and showed a TOTP code that matches or
      a recovery code that this user had and had not used. */
  lemma SecondFactorSessionsProveBoth(states: seq<State>, events: seq<Event>, n: nat, i: nat)
    returns (r: nat, p: nat, m: nat, l: nat)
    requires IsRun(states, events) && n <= |events| < |states| && i < |states[n].sessions|
    requires states[n].sessions[i].BySecondFactor?
    ensures var x := states[n].sessions[i];
      && r < p < m < l < x.countedAt < x.checkedAt < x.wonAt < x.at < n
      && Minted(states, events, x.ch, x.user, r, p, m)
      && events[l] == Lookup(x.req, x.ch) && states[l].now <= states[m].now + events[m].ttl
      && (x.factor.Totp? ==> events[x.checkedAt] == CheckTotp(x.req, true))
      && (x.factor.Recovery? ==>
           && events[x.checkedAt].CheckCode? && events[x.checkedAt].req == x.req && x.factor.rows != {}
           && AreTheCodes(states[x.checkedAt], x.factor.rows, x.user, events[x.checkedAt].hash))
  {
    hide Next, Enabled, IsRun, AreTheCodes;
    var x := states[n].sessions[i];
    SessionsAreIssued(states, events, n, i);
    FactorSessionStep(states[x.at], events[x.at], x.at);
    SessionsAreEarned(states, events, n);
    assert SessionTraced(events[..n], x);
    RequestsAreProven(states, events, x.at, x.req);
    ChallengeKeepsUser(states, events, x.checkedAt, x.at, x.ch);
    l := RequestsTookUp(states, events, x.at, x.req);
    m := ChallengesAreMinted(states, events, l, x.ch);
    var user;
    user, r, p := MintsFollowThePassword(states, events, m);
    ChallengeKeepsUser(states, events, l, x.at, x.ch);
  }

  // ---- failures against one challenge ------------------------------------------------------------

  /** Event n is a failure recorded on ch while it is open. */
  predicate FailsOn(s: State, e: Event, ch: nat) {
    && e.RecordFailure? && e.req in s.requests && HasChallenge(s.requests[e.req]) && s.requests[e.req].ch == ch
    && ch in s.challenges && !s.challenges[ch].consumed
  }

  predicate WinsOn(s: State, e: Event, ch: nat) {
    && e.Consume? && e.req in s.requests && HasChallenge(s.requests[e.req]) && s.requests[e.req].ch == ch
    && ch in s.challenges && !s.challenges[ch].consumed
  }

  function FailuresOn(states: seq<State>, events: seq<Event>, ch: nat, n: nat): nat
    requires n <= |events| < |states|
  {
    if n == 0 then 0 else FailuresOn(states, events, ch, n - 1) + if FailsOn(states[n - 1], events[n - 1], ch) then 1 else 0
  }

  function WinsUpTo(states: seq<State>, events: seq<Event>, ch: nat, n: nat): nat
    requires n <= |events| < |states|
  {
    if n == 0 then 0 else WinsUpTo(states, events, ch, n - 1) + if WinsOn(states[n - 1], events[n - 1], ch) then 1 else 0
  }

  /** A challenge's counter and flag, from what was recorded on it. */
  ghost predicate Tallied(s: State, ch: nat, failures: nat, wins: nat) {
    if ch in s.challenges then
      s.challenges[ch].attempts == failures <= 5 && (s.challenges[ch].consumed <==> failures == 5 || wins > 0)
    else failures == wins == 0
  }

  lemma TallyStep(s: State, e: Event, n: nat, ch: nat, failures: nat, wins: nat)
    requires Enabled(s, e) && Tallied(s, ch, failures, wins)
    ensures Tallied(Next(s, e, n), ch, failures + if FailsOn(s, e, ch) then 1 else 0, wins + if WinsOn(s, e, ch) then 1 else 0)
  {
    hide Tracks, Spend, Replace, Matching, Issued;
  }

  /** A challenge's attempts are the failures recorded on it while it was open; the fifth closes
      it, and so does a win; nothing else does. */
  lemma {:induction false} FiveFailuresCloseAChallenge(states: seq<State>, events: seq<Event>, n: nat, ch: nat)
    requires IsRun(states, events) && n <= |events| < |states|
    ensures Tallied(states[n], ch, FailuresOn(states, events, ch, n), WinsUpTo(states, events, ch, n))
  {
    hide Next, Enabled, Tallied, FailsOn, WinsOn;
    if n == 0 {
      NoSessionYet(states, events);
      NothingTallied(states[0], ch);
    } else {
      FiveFailuresCloseAChallenge(states, events, n - 1, ch);
      RunStep(states, events, n - 1);
      TallyStep(states[n - 1], events[n - 1], n - 1, ch, FailuresOn(states, events, ch, n - 1), WinsUpTo(states, events, ch, n - 1));
    }
  }

  lemma NothingTallied(s: State, ch: nat)
    requires s.challenges == map[]
    ensures Tallied(s, ch, 0, 0)
  {
  }
}
