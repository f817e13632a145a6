/** Two-step login as an interleaving of requests: Login (backend/internal/auth/handlers.go)
    and LoginTOTP (backend/internal/auth/totp.go). Every step is one store, limiter or audit
    call of one request; the steps of different requests interleave freely. */
module LoginProtocol {
  import opened Wrappers
  import L = Lockout

  const MAX_TOTP_ATTEMPTS: nat := 5

  // ---- state --------------------------------------------------------------------------

  datatype Challenge = Challenge(user: string, attempts: nat, consumed: bool, expiresAt: nat)
  datatype CodeRow = CodeRow(user: string, hash: string, used: bool)

  /** What a second factor was: a TOTP code, or the recovery-code rows one update spent. */
  datatype Factor = Totp | Recovery(rows: set<nat>)

  /** Where a request stands. The numbers are positions in the run, for the steps taken so far. */
  datatype Request =
    | Read(user: string, totp: bool, readAt: nat)
    | Passed(user: string, totp: bool, readAt: nat, passedAt: nat)
    | LookedUp(ch: nat)
    | Counted(ch: nat, countedAt: nat)
    | Begun(ch: nat, countedAt: nat)
    | Valid(ch: nat, countedAt: nat, checkedAt: nat, factor: Factor)
    | Invalid(ch: nat)
    | Won(ch: nat, countedAt: nat, checkedAt: nat, factor: Factor, wonAt: nat)
    | Over

  datatype Session =
    | ByPassword(req: nat, user: string, readAt: nat, passedAt: nat, at: nat)
    | BySecondFactor(req: nat, user: string, ch: nat, countedAt: nat, checkedAt: nat, factor: Factor, wonAt: nat, at: nat)

  datatype State = State(
    now: nat,
    totpOn: map<string, bool>,
    challenges: map<nat, Challenge>,
    codes: map<nat, CodeRow>,
    nextRow: nat,
    requests: map<nat, Request>,
    sessions: seq<Session>,
    tracker: L.State)

  datatype Event =
    // Login
    | ReadUser(req: nat, user: string)
    | CheckPassword(req: nat, ok: bool)
    | IssueAtOnce(req: nat)
    | Mint(req: nat, ch: nat, ttl: nat)
    // LoginTOTP
    | Lookup(req: nat, ch: nat)
    | Reserve(req: nat, allowed: bool, tracker: L.State)
    | Begin(req: nat)
    | CheckTotp(req: nat, matches: bool)
    | CheckCode(req: nat, hash: string)
    | Consume(req: nat)
    | RecordFailure(req: nat)
    | Issue(req: nat)
    // any request may end early: refused, or a store, audit or session error
    | GiveUp(req: nat)
    // the rest of the system
    | Tick(elapsed: nat)
    | SetTotp(user: string, on: bool)
    | ReplaceCodes(user: string, hashes: seq<string>)
    // the second-factor tracker, reset after a success or asked whether it is locked
    | UseTracker(op: L.Op, allowed: bool, tracker: L.State)

  // ---- steps -----------------------------------------------------------------------------

  /** The rows a recovery code of the user matches: ConsumeRecoveryCode spends all of them. */
  function Matching(codes: map<nat, CodeRow>, user: string, hash: string): set<nat> {
    set k | k in codes && codes[k].user == user && codes[k].hash == hash && !codes[k].used
  }

  function Spend(codes: map<nat, CodeRow>, rows: set<nat>): map<nat, CodeRow> {
    map k | k in codes :: if k in rows then codes[k].(used := true) else codes[k]
  }

  /** ReplaceRecoveryCodes: the user's rows go, fresh ones come. */
  function Replace(codes: map<nat, CodeRow>, user: string, hashes: seq<string>, nextRow: nat): map<nat, CodeRow> {
    (map k | k in codes && codes[k].user != user :: codes[k])
    + Inserted(user, hashes, nextRow)
  }

  /** One unused row per hash, with ids from nextRow on. */
  function Inserted(user: string, hashes: seq<string>, nextRow: nat): (rows: map<nat, CodeRow>)
    ensures forall k :: k in rows <==> nextRow <= k < nextRow + |hashes|
    ensures forall k | k in rows :: rows[k] == CodeRow(user, hashes[k - nextRow], false)
  {
    if hashes == [] then map[]
    else
      var last := |hashes| - 1;
      Inserted(user, hashes[..last], nextRow)[nextRow + last := CodeRow(user, hashes[last], false)]
  }

  function Failed(c: Challenge): Challenge {
    c.(attempts := c.attempts + 1, consumed := c.attempts + 1 >= MAX_TOTP_ATTEMPTS)
  }

  predicate At(s: State, req: nat) {
    req in s.requests && (HasChallenge(s.requests[req]) ==> s.requests[req].ch in s.challenges)
  }

  predicate HasChallenge(r: Request) {
    !r.Read? && !r.Passed? && !r.Over?
  }

  /** The user whose second factor request req is about. */
  function UserOf(s: State, req: nat): Option<string> {
    if req in s.requests && HasChallenge(s.requests[req]) && s.requests[req].ch in s.challenges
    then Some(s.challenges[s.requests[req].ch].user) else None
  }

  ghost predicate Tracks(s: State, op: L.Op, tracker: L.State, allowed: bool) {
    op.key != "" && L.Step(L.SECOND_FACTOR, s.tracker, op, s.now, tracker, allowed)
  }

  ghost predicate Enabled(s: State, e: Event) {
    match e
    case ReadUser(req, user) => req !in s.requests
    case CheckPassword(req, ok) => At(s, req) && s.requests[req].Read?
    case IssueAtOnce(req) => At(s, req) && s.requests[req].Passed? && !s.requests[req].totp
    case Mint(req, ch, ttl) => At(s, req) && s.requests[req].Passed? && s.requests[req].totp && ch !in s.challenges
    case Lookup(req, ch) =>
      req !in s.requests && ch in s.challenges && !s.challenges[ch].consumed && s.now <= s.challenges[ch].expiresAt
    case Reserve(req, allowed, tracker) =>
      && At(s, req) && s.requests[req].LookedUp?
      && Tracks(s, L.Op.Reserve(s.challenges[s.requests[req].ch].user), tracker, allowed)
    case Begin(req) => At(s, req) && s.requests[req].Counted?
    case CheckTotp(req, matches) => At(s, req) && s.requests[req].Begun?
    case CheckCode(req, hash) => At(s, req) && s.requests[req].Begun?
    case Consume(req) => At(s, req) && s.requests[req].Valid?
    case RecordFailure(req) => At(s, req) && s.requests[req].Invalid?
    case Issue(req) => At(s, req) && s.requests[req].Won?
    case GiveUp(req) => At(s, req)
    case UseTracker(op, allowed, tracker) => (op.Reset? || op.Peek?) && Tracks(s, op, tracker, allowed)
    case _ => true
  }

  function With(s: State, req: nat, r: Request): State {
    s.(requests := s.requests[req := r])
  }

  predicate Issues(e: Event) {
    e.IssueAtOnce? || e.Issue?
  }

  function Issued(s: State, e: Event, n: nat): Session
    requires Enabled(s, e) && Issues(e)
  {
    var r := s.requests[e.req];
    if e.IssueAtOnce? then ByPassword(e.req, r.user, r.readAt, r.passedAt, n)
    else BySecondFactor(e.req, s.challenges[r.ch].user, r.ch, r.countedAt, r.checkedAt, r.factor, r.wonAt, n)
  }

  /** The state after event number n. */
  function Next(s: State, e: Event, n: nat): State
    requires Enabled(s, e)
  {
    match e
    case ReadUser(req, user) => With(s, req, Read(user, user in s.totpOn && s.totpOn[user], n))
    case CheckPassword(req, ok) =>
      var r := s.requests[req];
      With(s, req, if ok then Passed(r.user, r.totp, r.readAt, n) else Over)
    case IssueAtOnce(req) => With(s, req, Over).(sessions := s.sessions + [Issued(s, e, n)])
    case Mint(req, ch, ttl) =>
      With(s, req, Over).(challenges := s.challenges[ch := Challenge(s.requests[req].user, 0, false, s.now + ttl)])
    case Lookup(req, ch) => With(s, req, LookedUp(ch))
    case Reserve(req, allowed, tracker) =>
      With(s, req, if allowed then Counted(s.requests[req].ch, n) else Over).(tracker := tracker)
    case Begin(req) => With(s, req, Begun(s.requests[req].ch, s.requests[req].countedAt))
    case CheckTotp(req, matches) =>
      var r := s.requests[req];
      With(s, req, if matches then Valid(r.ch, r.countedAt, n, Totp) else Invalid(r.ch))
    case CheckCode(req, hash) =>
      var r := s.requests[req];
      var rows := Matching(s.codes, s.challenges[r.ch].user, hash);
      With(s, req, if rows != {} then Valid(r.ch, r.countedAt, n, Recovery(rows)) else Invalid(r.ch)).
        (codes := Spend(s.codes, rows))
    case Consume(req) =>
      var r := s.requests[req];
      var c := s.challenges[r.ch];
      if c.consumed then With(s, req, Over)
      else With(s, req, Won(r.ch, r.countedAt, r.checkedAt, r.factor, n)).
             (challenges := s.challenges[r.ch := c.(consumed := true)])
    case RecordFailure(req) =>
      var ch := s.requests[req].ch;
      if s.challenges[ch].consumed then With(s, req, Over)
      else With(s, req, Over).(challenges := s.challenges[ch := Failed(s.challenges[ch])])
    case Issue(req) => With(s, req, Over).(sessions := s.sessions + [Issued(s, e, n)])
    case GiveUp(req) => With(s, req, Over)
    case Tick(elapsed) => s.(now := s.now + elapsed)
    case SetTotp(user, on) => s.(totpOn := s.totpOn[user := on])
    case ReplaceCodes(user, hashes) =>
      s.(codes := Replace(s.codes, user, hashes, s.nextRow), nextRow := s.nextRow + |hashes|)
    case UseTracker(op, allowed, tracker) => s.(tracker := tracker)
  }

  /** Any start: users with or without a second factor and any recovery codes, but no request yet. */
  ghost predicate Initial(s: State) {
    && s.challenges == map[] && s.requests == map[] && s.sessions == []
    && (forall k | k in s.codes :: k < s.nextRow)
    && L.Inv(L.SECOND_FACTOR, s.tracker)
  }

  ghost predicate IsRun(states: seq<State>, events: seq<Event>) {
    && |states| == |events| + 1 && Initial(states[0])
    && forall i | 0 <= i < |events| :: Enabled(states[i], events[i]) && states[i + 1] == Next(states[i], events[i], i)
  }

  lemma RunStep(states: seq<State>, events: seq<Event>, n: nat)
    requires IsRun(states, events) && n < |events|
    ensures |states| == |events| + 1 && Enabled(states[n], events[n]) && states[n + 1] == Next(states[n], events[n], n)
  {
    hide Next, Enabled;
  }

  // ---- the order of a request's own steps -----------------------------------------------------

  predicate CheckedBy(e: Event, req: nat, factor: Factor) {
    match factor
    case Totp => e == CheckTotp(req, true)
    case Recovery(rows) => e.CheckCode? && e.req == req && rows != {}
  }

  predicate Place(events: seq<Event>, i: nat, e: Event) {
    i < |events| && events[i] == e
  }

  predicate ReservedAt(events: seq<Event>, i: nat, req: nat) {
    i < |events| && events[i].Reserve? && events[i].req == req && events[i].allowed
  }

  predicate Ordered(events: seq<Event>, req: nat, countedAt: nat, checkedAt: nat, factor: Factor) {
    countedAt < checkedAt < |events| && ReservedAt(events, countedAt, req) && CheckedBy(events[checkedAt], req, factor)
  }

  /** The positions a request carries are those of its own steps, in their order. */
  predicate Traced(events: seq<Event>, req: nat, r: Request) {
    match r
    case Read(user, totp, readAt) => Place(events, readAt, ReadUser(req, user))
    case Passed(user, totp, readAt, passedAt) =>
      readAt < passedAt && Place(events, readAt, ReadUser(req, user)) && Place(events, passedAt, CheckPassword(req, true))
    case Counted(ch, countedAt) => ReservedAt(events, countedAt, req)
    case Begun(ch, countedAt) => ReservedAt(events, countedAt, req)
    case Valid(ch, countedAt, checkedAt, factor) => Ordered(events, req, countedAt, checkedAt, factor)
    case Won(ch, countedAt, checkedAt, factor, wonAt) =>
      checkedAt < wonAt && Ordered(events, req, countedAt, checkedAt, factor) && Place(events, wonAt, Consume(req))
    case _ => true
  }

  predicate SessionTraced(events: seq<Event>, x: Session) {
    match x
    case ByPassword(req, user, readAt, passedAt, at) =>
      && readAt < passedAt < at && Place(events, readAt, ReadUser(req, user))
      && Place(events, passedAt, CheckPassword(req, true)) && Place(events, at, IssueAtOnce(req))
    case BySecondFactor(req, user, ch, countedAt, checkedAt, factor, wonAt, at) =>
      && checkedAt < wonAt < at && Ordered(events, req, countedAt, checkedAt, factor)
      && Place(events, wonAt, Consume(req)) && Place(events, at, Issue(req))
  }

  ghost predicate AllTraced(events: seq<Event>, s: State) {
    && (forall q | q in s.requests :: Traced(events, q, s.requests[q]))
    && (forall i | 0 <= i < |s.sessions| :: SessionTraced(events, s.sessions[i]))
  }

  lemma TracedStays(events: seq<Event>, e: Event, req: nat, r: Request)
    ensures Traced(events, req, r) ==> Traced(events + [e], req, r)
  {
  }

  lemma SessionTracedStays(events: seq<Event>, e: Event, x: Session)
    ensures SessionTraced(events, x) ==> SessionTraced(events + [e], x)
  {
  }

  predicate Moves(e: Event, req: nat) {
    !e.Tick? && !e.SetTotp? && !e.ReplaceCodes? && !e.UseTracker? && e.req == req
  }

  lemma OthersStay(s: State, e: Event, n: nat, req: nat)
    requires Enabled(s, e) && !Moves(e, req)
    ensures req in Next(s, e, n).requests <==> req in s.requests
    ensures req in s.requests ==> Next(s, e, n).requests[req] == s.requests[req]
  {
    hide Tracks, Spend, Replace, Matching;
  }

  lemma ChallengesStay(s: State, e: Event, n: nat, ch: nat)
    requires Enabled(s, e) && ch in s.challenges
    ensures ch in Next(s, e, n).challenges && Next(s, e, n).challenges[ch].user == s.challenges[ch].user
    ensures Next(s, e, n).challenges[ch].expiresAt == s.challenges[ch].expiresAt
  {
    hide Tracks, Spend, Replace, Matching, Issued;
  }

  lemma OnlyIssuesAdd(s: State, e: Event, n: nat)
    requires Enabled(s, e)
    ensures Next(s, e, n).sessions == if Issues(e) then s.sessions + [Issued(s, e, n)] else s.sessions
  {
    hide Tracks, Spend, Replace, Matching, Issued;
  }

  predicate Certain(events: seq<Event>, e: Event, more: seq<Event>) {
    more == events + [e]
  }

  /** The request an event moves. */
  lemma MovedIsTraced(events: seq<Event>, s: State, e: Event, more: seq<Event>)
    requires Enabled(s, e) && Certain(events, e, more) && !e.Tick? && !e.SetTotp? && !e.ReplaceCodes? && !e.UseTracker?
    requires e.req in s.requests ==> Traced(more, e.req, s.requests[e.req]) && Traced(events, e.req, s.requests[e.req])
    ensures Moves(e, e.req) && e.req in Next(s, e, |events|).requests
    ensures Traced(more, e.req, Next(s, e, |events|).requests[e.req])
  {
    hide Tracks, Spend, Replace, Matching, Certain;
    LastOf(events, e, more);
  }

  lemma LastOf(events: seq<Event>, e: Event, more: seq<Event>)
    ensures Certain(events, e, more) ==> |more| == |events| + 1 && more[|events|] == e
  {
  }

  lemma IssuedIsTraced(events: seq<Event>, s: State, e: Event)
    requires AllTraced(events, s) && Enabled(s, e) && Issues(e)
    ensures SessionTraced(events + [e], Issued(s, e, |events|))
  {
    hide Tracks;
    assert Traced(events, e.req, s.requests[e.req]);
  }

  lemma TracedStep(events: seq<Event>, s: State, e: Event)
    requires AllTraced(events, s) && Enabled(s, e)
    ensures AllTraced(events + [e], Next(s, e, |events|))
  {
    hide Next, Enabled, Traced, SessionTraced;
    var s' := Next(s, e, |events|);
    forall q | q in s'.requests
      ensures Traced(events + [e], q, s'.requests[q])
    {
      if q in s.requests {
        TracedStays(events, e, q, s.requests[q]);
      }
      if Moves(e, q) {
        MovedIsTraced(events, s, e, events + [e]);
      } else {
        OthersStay(s, e, |events|, q);
      }
    }
    OnlyIssuesAdd(s, e, |events|);
    if Issues(e) {
      IssuedIsTraced(events, s, e);
    }
    hide Issued;
    forall i | 0 <= i < |s'.sessions|
      ensures SessionTraced(events + [e], s'.sessions[i])
    {
      if i < |s.sessions| {
        assert s'.sessions[i] == s.sessions[i];
        SessionTracedStays(events, e, s.sessions[i]);
      }
    }
  }

  /** In every reachable state, every session LoginTOTP issued follows a counted reservation, a
      valid factor and a won consume of its own request, in that order; every session Login
      issued follows its own read of the user and a correct password. */
  lemma {:induction false} SessionsAreEarned(states: seq<State>, events: seq<Event>, n: nat)
    requires IsRun(states, events) && n <= |events|
    ensures |states| == |events| + 1 && AllTraced(events[..n], states[n])
  {
    hide AllTraced, Next, Enabled;
    if n == 0 {
      NothingYet(states[0]);
    } else {
      SessionsAreEarned(states, events, n - 1);
      RunStep(states, events, n - 1);
      assert events[..n] == events[..n - 1] + [events[n - 1]];
      TracedStep(events[..n - 1], states[n - 1], events[n - 1]);
    }
  }

  lemma NothingYet(s: State)
    ensures Initial(s) ==> AllTraced([], s)
  {
  }

  // ---- what each challenge and each recovery code is good for ------------------------------------

  /** Who won each challenge, and who spent each recovery-code row. */
  datatype Claims = Claims(winner: map<nat, nat>, spender: map<nat, nat>)

  function Spent(s: State, e: Event): set<nat>
    requires Enabled(s, e)
  {
    if e.CheckCode? then Matching(s.codes, s.challenges[s.requests[e.req].ch].user, e.hash) else {}
  }

  function NextClaims(c: Claims, s: State, e: Event): Claims
    requires Enabled(s, e)
  {
    match e
    case Consume(req) =>
      var ch := s.requests[req].ch;
      if s.challenges[ch].consumed then c else c.(winner := c.winner[ch := req])
    case CheckCode(req, hash) => c.(spender := c.spender + map k | k in Spent(s, e) :: req)
    case _ => c
  }

  ghost predicate ChallengeOk(s: State, c: Claims, ch: nat) {
    && (ch in s.challenges ==>
          && s.challenges[ch].attempts <= MAX_TOTP_ATTEMPTS
          && (s.challenges[ch].attempts == MAX_TOTP_ATTEMPTS ==> s.challenges[ch].consumed))
    && (ch in c.winner ==> ch in s.challenges && s.challenges[ch].consumed && s.challenges[ch].attempts < MAX_TOTP_ATTEMPTS)
  }

  ghost predicate RowOk(s: State, c: Claims, k: nat) {
    && (k in s.codes ==> k < s.nextRow)
    && (k in c.spender ==> k < s.nextRow && (k in s.codes ==> s.codes[k].used))
  }

  ghost predicate OwnsFactor(c: Claims, req: nat, factor: Factor) {
    factor.Recovery? ==> forall k | k in factor.rows :: k in c.spender && c.spender[k] == req
  }

  ghost predicate RequestOk(s: State, c: Claims, req: nat) {
    req in s.requests ==>
      var r := s.requests[req];
      && (HasChallenge(r) ==> r.ch in s.challenges)
      && (r.Valid? || r.Won? ==> OwnsFactor(c, req, r.factor))
      && (r.Won? ==> r.ch in c.winner && c.winner[r.ch] == req)
  }

  ghost predicate SessionOk(s: State, c: Claims, x: Session) {
    && x.req in s.requests && s.requests[x.req] == Over
    && (x.BySecondFactor? ==>
          && x.ch in c.winner && c.winner[x.ch] == x.req && x.ch in s.challenges
          && s.challenges[x.ch].user == x.user && OwnsFactor(c, x.req, x.factor))
  }

  ghost predicate OncePerRequest(xs: seq<Session>) {
    forall i, j | 0 <= i < j < |xs| :: xs[i].req != xs[j].req
  }

  ghost predicate Claimed(s: State, c: Claims) {
    && (forall ch :: ChallengeOk(s, c, ch))
    && (forall k :: RowOk(s, c, k))
    && (forall q :: RequestOk(s, c, q))
    && (forall i | 0 <= i < |s.sessions| :: SessionOk(s, c, s.sessions[i]))
    && OncePerRequest(s.sessions)
  }

  lemma ChallengeStep(s: State, c: Claims, e: Event, n: nat, ch: nat)
    requires Claimed(s, c) && Enabled(s, e)
    ensures ChallengeOk(Next(s, e, n), NextClaims(c, s, e), ch)
    ensures ch in c.winner ==> ch in NextClaims(c, s, e).winner && NextClaims(c, s, e).winner[ch] == c.winner[ch]
    ensures ch in s.challenges ==> ch in Next(s, e, n).challenges && Next(s, e, n).challenges[ch].user == s.challenges[ch].user
  {
    hide RowOk, RequestOk, SessionOk, OncePerRequest, Tracks, Spend, Replace, Matching, Spent;
    assert ChallengeOk(s, c, ch);
  }

  lemma RowStep(s: State, c: Claims, e: Event, n: nat, k: nat)
    requires Claimed(s, c) && Enabled(s, e)
    ensures RowOk(Next(s, e, n), NextClaims(c, s, e), k)
    ensures k in c.spender ==> k in NextClaims(c, s, e).spender && NextClaims(c, s, e).spender[k] == c.spender[k]
  {
    hide ChallengeOk, RequestOk, SessionOk, OncePerRequest, Tracks, Issued;
    assert RowOk(s, c, k);
  }

  /** No claim is ever lost or passed on. */
  lemma ClaimsStay(s: State, c: Claims, e: Event, n: nat)
    requires Claimed(s, c) && Enabled(s, e)
    ensures var c' := NextClaims(c, s, e);
      && (forall ch | ch in c.winner :: ch in c'.winner && c'.winner[ch] == c.winner[ch])
      && (forall k | k in c.spender :: k in c'.spender && c'.spender[k] == c.spender[k])
    ensures forall ch | ch in s.challenges ::
      ch in Next(s, e, n).challenges && Next(s, e, n).challenges[ch].user == s.challenges[ch].user
  {
    hide Claimed, Next, NextClaims, Enabled, ChallengeOk, RowOk;
    forall ch | ch in c.winner
      ensures ch in NextClaims(c, s, e).winner && NextClaims(c, s, e).winner[ch] == c.winner[ch]
    {
      ChallengeStep(s, c, e, n, ch);
    }
    forall ch | ch in s.challenges
      ensures ch in Next(s, e, n).challenges && Next(s, e, n).challenges[ch].user == s.challenges[ch].user
    {
      ChallengeStep(s, c, e, n, ch);
    }
    forall k | k in c.spender
      ensures k in NextClaims(c, s, e).spender && NextClaims(c, s, e).spender[k] == c.spender[k]
    {
      RowStep(s, c, e, n, k);
    }
  }

  lemma RequestStep(s: State, c: Claims, e: Event, n: nat, req: nat)
    requires Claimed(s, c) && Enabled(s, e)
    ensures RequestOk(Next(s, e, n), NextClaims(c, s, e), req)
    ensures req in s.requests && s.requests[req] == Over ==>
      req in Next(s, e, n).requests && Next(s, e, n).requests[req] == Over
  {
    hide ChallengeOk, RowOk, SessionOk, OncePerRequest, Next, NextClaims, Enabled;
    assert RequestOk(s, c, req);
    if Moves(e, req) {
      MoverStep(s, c, e, n);
    } else {
      ClaimsStay(s, c, e, n);
      OthersStay(s, e, n, req);
    }
  }

  lemma MoverStep(s: State, c: Claims, e: Event, n: nat)
    requires !e.Tick? && !e.SetTotp? && !e.ReplaceCodes? && !e.UseTracker?
    requires RequestOk(s, c, e.req) && Enabled(s, e)
    ensures RequestOk(Next(s, e, n), NextClaims(c, s, e), e.req)
    ensures e.req in s.requests && s.requests[e.req] == Over ==>
      e.req in Next(s, e, n).requests && Next(s, e, n).requests[e.req] == Over
  {
    hide Tracks, Spend, Replace, Matching, Issued;
  }

  lemma OldSessionStep(s: State, c: Claims, e: Event, n: nat, x: Session)
    requires Claimed(s, c) && Enabled(s, e) && SessionOk(s, c, x)
    ensures SessionOk(Next(s, e, n), NextClaims(c, s, e), x)
  {
    hide ChallengeOk, RowOk, RequestOk, OncePerRequest, Next, NextClaims, Enabled, Claimed;
    ClaimsStay(s, c, e, n);
    RequestStep(s, c, e, n, x.req);
  }

  lemma NewSessionStep(s: State, c: Claims, e: Event, n: nat)
    requires Issues(e) && Enabled(s, e) && RequestOk(s, c, e.req)
    ensures SessionOk(Next(s, e, n), NextClaims(c, s, e), Issued(s, e, n))
    ensures Issued(s, e, n).req == e.req && e.req in s.requests && s.requests[e.req] != Over
  {
    hide Tracks, Spend, Replace, Matching, OwnsFactor;
  }

  lemma SessionStep(s: State, c: Claims, e: Event, n: nat, i: nat)
    requires Claimed(s, c) && Enabled(s, e) && i < |Next(s, e, n).sessions|
    ensures SessionOk(Next(s, e, n), NextClaims(c, s, e), Next(s, e, n).sessions[i])
    ensures i < |s.sessions| ==> Next(s, e, n).sessions[i] == s.sessions[i]
    ensures i >= |s.sessions| ==>
      && i == |s.sessions| && Next(s, e, n).sessions[i].req in s.requests
      && s.requests[Next(s, e, n).sessions[i].req] != Over
  {
    hide ChallengeOk, RowOk, RequestOk, SessionOk, OncePerRequest, Next, NextClaims, Enabled, Issued;
    OnlyIssuesAdd(s, e, n);
    if i < |s.sessions| {
      OldSessionStep(s, c, e, n, s.sessions[i]);
    } else {
      NewSessionStep(s, c, e, n);
    }
  }

  lemma ClaimedStep(s: State, c: Claims, e: Event, n: nat)
    requires Claimed(s, c) && Enabled(s, e)
    ensures Claimed(Next(s, e, n), NextClaims(c, s, e))
  {
    hide Next, NextClaims, Enabled, ChallengeOk, RowOk, RequestOk;
    var s', c' := Next(s, e, n), NextClaims(c, s, e);
    forall ch
      ensures ChallengeOk(s', c', ch)
    {
      ChallengeStep(s, c, e, n, ch);
    }
    forall k
      ensures RowOk(s', c', k)
    {
      RowStep(s, c, e, n, k);
    }
    forall q
      ensures RequestOk(s', c', q)
    {
      RequestStep(s, c, e, n, q);
    }
    forall i | 0 <= i < |s'.sessions|
      ensures SessionOk(s', c', s'.sessions[i])
      ensures i < |s.sessions| ==> s'.sessions[i] == s.sessions[i]
      ensures i >= |s.sessions| ==> i == |s.sessions| && s'.sessions[i].req in s.requests && s.requests[s'.sessions[i].req] != Over
    {
      SessionStep(s, c, e, n, i);
    }
  }

  ghost function ClaimsAt(states: seq<State>, events: seq<Event>, n: nat): Claims
    requires IsRun(states, events) && n <= |events|
  {
    if n == 0 then Claims(map[], map[])
    else NextClaims(ClaimsAt(states, events, n - 1), states[n - 1], events[n - 1])
  }

  lemma {:induction false} EveryStateIsClaimed(states: seq<State>, events: seq<Event>, n: nat)
    requires IsRun(states, events) && n <= |events|
    ensures |states| == |events| + 1 && Claimed(states[n], ClaimsAt(states, events, n))
  {
    hide Claimed, Next, NextClaims, Enabled;
    if n == 0 {
      NothingClaimed(states[0]);
    } else {
      EveryStateIsClaimed(states, events, n - 1);
      RunStep(states, events, n - 1);
      ClaimedStep(states[n - 1], ClaimsAt(states, events, n - 1), events[n - 1], n - 1);
    }
  }

  lemma NothingClaimed(s: State)
    ensures Initial(s) ==> Claimed(s, Claims(map[], map[]))
  {
  }

  /** In every reachable state: a challenge yields at most one session, and none at all once its
      fifth failure is recorded; a recovery-code row backs at most one session; and a session
      goes to the user the challenge was minted for. */
  lemma EachProofBacksOneSession(states: seq<State>, events: seq<Event>, n: nat)
    requires IsRun(states, events) && n <= |events|
    ensures |states| == |events| + 1
    ensures forall i, j | 0 <= i < j < |states[n].sessions| ::
      var x, y := states[n].sessions[i], states[n].sessions[j];
      x.BySecondFactor? && y.BySecondFactor? ==>
        x.ch != y.ch && (x.factor.Recovery? && y.factor.Recovery? ==> x.factor.rows !! y.factor.rows)
    ensures forall i | 0 <= i < |states[n].sessions| && states[n].sessions[i].BySecondFactor? ::
      var x := states[n].sessions[i];
      x.ch in states[n].challenges && x.user == states[n].challenges[x.ch].user
      && states[n].challenges[x.ch].attempts < MAX_TOTP_ATTEMPTS
  {
    hide RowOk, RequestOk, NextClaims, Next, Enabled;
    EveryStateIsClaimed(states, events, n);
    var s, c := states[n], ClaimsAt(states, events, n);
    assert OncePerRequest(s.sessions);
    forall i | 0 <= i < |s.sessions|
      ensures SessionOk(s, c, s.sessions[i])
      ensures s.sessions[i].BySecondFactor? ==> ChallengeOk(s, c, s.sessions[i].ch)
    {
    }
  }

  // ---- every code that is tried has been counted ----------------------------------------------

  /** How far a request has come; its steps only ever move it on. */
  function Stage(s: State, req: nat): (stage: nat)
    ensures stage <= 4
  {
    if req !in s.requests then 0
    else match s.requests[req]
      case LookedUp(_) => 1
      case Counted(_, _) => 2
      case Begun(_, _) => 3
      case _ => 4
  }

  predicate Tries(e: Event) {
    e.CheckTotp? || e.CheckCode?
  }

  predicate KnowsChallenge(s: State, q: nat) {
    q in s.requests && HasChallenge(s.requests[q]) ==> s.requests[q].ch in s.challenges
  }

  /** A request that awaits its try did so before, or has just been counted, for the same user. */
  predicate StaysWith(s: State, e: Event, s': State, q: nat) {
    UserOf(s', q) == UserOf(s, q) && (2 <= Stage(s, q) <= 3 || (e.Reserve? && e.req == q && e.allowed))
  }

  lemma StageMoves(s: State, e: Event, n: nat, q: nat)
    requires Enabled(s, e)
    ensures Stage(s, q) <= Stage(Next(s, e, n), q)
    ensures Tries(e) && e.req == q ==> Stage(s, q) == 3 && Stage(Next(s, e, n), q) == 4
    ensures e.Reserve? && e.req == q ==> Stage(s, q) == 1 && Stage(Next(s, e, n), q) == if e.allowed then 2 else 4
    ensures KnowsChallenge(s, q) && 2 <= Stage(Next(s, e, n), q) <= 3 ==> StaysWith(s, e, Next(s, e, n), q)
  {
    hide Next, Enabled;
    if Moves(e, q) {
      MoverStage(s, e, n);
    } else {
      OthersStay(s, e, n, q);
      if UserOf(s, q).Some? {
        ChallengesStay(s, e, n, s.requests[q].ch);
      }
    }
  }

  lemma MoverStage(s: State, e: Event, n: nat)
    requires !e.Tick? && !e.SetTotp? && !e.ReplaceCodes? && !e.UseTracker?
    requires Enabled(s, e)
    ensures Stage(s, e.req) <= Stage(Next(s, e, n), e.req)
    ensures Tries(e) ==> Stage(s, e.req) == 3 && Stage(Next(s, e, n), e.req) == 4
    ensures e.Reserve? ==> Stage(s, e.req) == 1 && Stage(Next(s, e, n), e.req) == if e.allowed then 2 else 4
    ensures 2 <= Stage(Next(s, e, n), e.req) <= 3 ==> StaysWith(s, e, Next(s, e, n), e.req)
  {
    hide Tracks, Spend, Replace, Matching, Issued;
  }

  lemma {:induction false} TriedStays(states: seq<State>, events: seq<Event>, i: nat, n: nat, req: nat)
    requires IsRun(states, events) && i <= n <= |events| < |states| && Stage(states[i], req) == 4
    ensures Stage(states[n], req) == 4
    decreases n
  {
    hide IsRun, Next, Enabled, Stage;
    if i < n {
      TriedStays(states, events, i, n - 1, req);
      RunStep(states, events, n - 1);
      StageMoves(states[n - 1], events[n - 1], n - 1, req);
    }
  }

  /** Every code checked, right or wrong, was first counted by the limiter for its own request,
      and no request gets a second check out of one count. */
  lemma EveryTryIsCounted(states: seq<State>, events: seq<Event>, k: nat)
    requires IsRun(states, events) && k < |events| && Tries(events[k])
    ensures exists j: nat :: j < k && ReservedAt(events, j, events[k].req)
    ensures forall i | 0 <= i < |events| && i != k && Tries(events[i]) :: events[i].req != events[k].req
  {
    hide IsRun, Next, Stage, AllTraced;
    RunStep(states, events, k);
    SessionsAreEarned(states, events, k);
    var j := ReservedBefore(states[k], events[..k], events[k]);
    assert ReservedAt(events, j, events[k].req);
    forall i | 0 <= i < |events| && i != k && Tries(events[i])
      ensures events[i].req != events[k].req
    {
      NeverTwice(states, events, if i < k then i else k, if i < k then k else i);
    }
  }

  lemma ReservedBefore(s: State, before: seq<Event>, e: Event) returns (j: nat)
    requires AllTraced(before, s) && Enabled(s, e) && Tries(e)
    ensures ReservedAt(before, j, e.req)
  {
    assert Traced(before, e.req, s.requests[e.req]);
    j := s.requests[e.req].countedAt;
  }

  lemma NeverTwice(states: seq<State>, events: seq<Event>, i: nat, k: nat)
    requires IsRun(states, events) && i < k < |events| && Tries(events[i]) && Tries(events[k])
    ensures events[i].req != events[k].req
  {
    hide IsRun, Next, Enabled, Stage;
    RunStep(states, events, i);
    RunStep(states, events, k);
    StageMoves(states[i], events[i], i, events[i].req);
    TriedStays(states, events, i + 1, k, events[i].req);
    StageMoves(states[k], events[k], k, events[k].req);
  }
}
