/** Idle and absolute expiry of a session with throttled touches (backend/internal/auth/session.go). */
module Sessions {
  import opened Clock

  const TOUCH_THROTTLE: nat := MINUTE

  datatype Row = Row(revoked: bool, absoluteExpiresAt: nat, lastSeenAt: nat)

  /** Verify's checks on the row: both deadlines still count as in time. */
  predicate InTime(row: Row, idleTtl: nat, now: nat) {
    !row.revoked && now <= row.absoluteExpiresAt && now <= row.lastSeenAt + idleTtl
  }

  /** Live's checks: both deadlines already count as past. */
  predicate Live(row: Row, idleTtl: nat, now: nat) {
    !row.revoked && now < row.absoluteExpiresAt && now < row.lastSeenAt + idleTtl
  }

  /** One request with the cookie: when, whether its user loads and is enabled, whether a touch succeeds. */
  datatype Use = Use(now: nat, userOk: bool, touchOk: bool)

  function After(row: Row, idleTtl: nat, use: Use): Row {
    if InTime(row, idleTtl, use.now) && use.userOk && use.now >= row.lastSeenAt + TOUCH_THROTTLE && use.touchOk
    then row.(lastSeenAt := use.now) else row
  }

  class SessionStore {
    var row: Row
    const idleTtl: nat

    constructor (idleTtl: nat, lifetime: nat, now: nat)
      ensures this.idleTtl == idleTtl && row == Row(false, now + lifetime, now)
    {
      this.idleTtl := idleTtl;
      row := Row(false, now + lifetime, now);
    }

    method Verify(use: Use) returns (ok: bool)
      modifies this`row
      ensures ok <==> InTime(old(row), idleTtl, use.now) && use.userOk
      ensures ok <==>
        && !old(row).revoked && use.userOk
        && use.now <= old(row).absoluteExpiresAt && use.now <= old(row).lastSeenAt + idleTtl
      ensures row == After(old(row), idleTtl, use)
      ensures row == old(row).(lastSeenAt :=
        if ok && use.touchOk && use.now >= old(row).lastSeenAt + 60_000_000_000 then use.now else old(row).lastSeenAt)
    {
      if row.revoked || use.now > row.absoluteExpiresAt || use.now > row.lastSeenAt + idleTtl {
        return false;
      }
      if !use.userOk {
        return false;
      }
      if use.now - row.lastSeenAt >= TOUCH_THROTTLE {
        if use.touchOk {
          row := row.(lastSeenAt := use.now);
        }
      }
      return true;
    }

    method Revoke()
      modifies this`row
      ensures row == old(row).(revoked := true)
    {
      row := row.(revoked := true);
    }
  }

  // ---- a session's whole life --------------------------------------------------------------

  /** The row before the n-th use. */
  function RowAt(row: Row, idleTtl: nat, uses: seq<Use>, n: nat): Row
    requires n <= |uses|
  {
    if n == 0 then row else After(RowAt(row, idleTtl, uses, n - 1), idleTtl, uses[n - 1])
  }

  predicate Accepted(row: Row, idleTtl: nat, uses: seq<Use>, n: nat)
    requires n < |uses|
  {
    InTime(RowAt(row, idleTtl, uses, n), idleTtl, uses[n].now) && uses[n].userOk
  }

  ghost predicate InOrder(row: Row, uses: seq<Use>) {
    && (forall i | 0 <= i < |uses| :: row.lastSeenAt <= uses[i].now)
    && (forall i, j | 0 <= i <= j < |uses| :: uses[i].now <= uses[j].now)
  }

  /** Nothing but lastSeenAt ever moves, and only up to the uses seen. */
  lemma {:induction false} RowMovesOn(row: Row, idleTtl: nat, uses: seq<Use>, n: nat)
    requires InOrder(row, uses) && n <= |uses|
    ensures var r := RowAt(row, idleTtl, uses, n);
      && r.revoked == row.revoked && r.absoluteExpiresAt == row.absoluteExpiresAt
      && row.lastSeenAt <= r.lastSeenAt <= if n == 0 then row.lastSeenAt else uses[n - 1].now
  {
    if n > 0 {
      RowMovesOn(row, idleTtl, uses, n - 1);
    }
  }

  /** Used with gaps that stay below the idle TTL by the longest age that starts no touch, by an
      enabled user and with working touches, a session is accepted at every use up to its absolute
      expiry. */
  lemma {:induction false} SteadyUseIsAccepted(row: Row, idleTtl: nat, uses: seq<Use>, n: nat)
    requires InOrder(row, uses) && n < |uses| && !row.revoked && idleTtl >= TOUCH_THROTTLE - 1
    requires forall i | 0 <= i <= n :: uses[i].userOk && uses[i].touchOk && uses[i].now <= row.absoluteExpiresAt
    requires forall i | 0 <= i <= n ::
      uses[i].now <= (if i == 0 then row.lastSeenAt else uses[i - 1].now) + (idleTtl - (TOUCH_THROTTLE - 1))
    ensures Accepted(row, idleTtl, uses, n)
  {
    RowMovesOn(row, idleTtl, uses, n);
    if n > 0 {
      RowMovesOn(row, idleTtl, uses, n - 1);
      SteadyUseIsAccepted(row, idleTtl, uses, n - 1);
    }
  }

  /** A use after the absolute expiry, or more than the idle TTL after the use before it, is
      rejected, and so is every later one. */
  lemma {:induction false} ExpiryIsForGood(row: Row, idleTtl: nat, uses: seq<Use>, n: nat, m: nat)
    requires InOrder(row, uses) && n <= m < |uses|
    requires uses[n].now > row.absoluteExpiresAt
          || uses[n].now > (if n == 0 then row.lastSeenAt else uses[n - 1].now) + idleTtl
    ensures !InTime(RowAt(row, idleTtl, uses, m), idleTtl, uses[m].now)
    ensures RowAt(row, idleTtl, uses, m) == RowAt(row, idleTtl, uses, n)
    decreases m
  {
    RowMovesOn(row, idleTtl, uses, n);
    if n < m {
      ExpiryIsForGood(row, idleTtl, uses, n, m - 1);
    }
  }

  // ---- touches that land late -----------------------------------------------------------------

  /** A request reads the row at place `readAt` of the run, at its own or before it, and the clock
      at `now`; the touch it may start carries that instant and lands later, whatever was written
      meanwhile. */
  datatype Event = Request(now: nat, userOk: bool, readAt: nat) | Land(now: nat, value: nat)

  datatype World = World(row: Row, touches: multiset<nat>)

  /** The row the event at place n has before it. */
  function ReadBy(ws: seq<World>, evs: seq<Event>, n: nat): Row
    requires n < |evs| < |ws|
  {
    if evs[n].Request? && evs[n].readAt < n then ws[evs[n].readAt].row else ws[n].row
  }

  ghost predicate Step(w: World, read: Row, e: Event, w': World, idleTtl: nat) {
    match e
    case Request(now, userOk, _) =>
      var touches := InTime(read, idleTtl, now) && userOk && now >= read.lastSeenAt + TOUCH_THROTTLE;
      w' == if touches then w.(touches := w.touches + multiset{now}) else w
    case Land(_, value) =>
      value in w.touches && w' == World(w.row.(lastSeenAt := value), w.touches - multiset{value})
  }

  /** evs leads through ws, in the order of their instants, from a row with no touch under way. */
  ghost predicate IsRun(ws: seq<World>, evs: seq<Event>, idleTtl: nat) {
    && |ws| == |evs| + 1 && ws[0].touches == multiset{}
    && (forall n | 0 <= n < |evs| ::
          Step(ws[n], ReadBy(ws, evs, n), evs[n], ws[n + 1], idleTtl) && ws[0].row.lastSeenAt <= evs[n].now)
    && (forall m, n | 0 <= m <= n < |evs| :: evs[m].now <= evs[n].now)
  }

  /** Every request reads the clock within `lag` of the row. */
  ghost predicate Prompt(evs: seq<Event>, lag: nat) {
    forall m, n | 0 <= m < n < |evs| && evs[n].Request? && evs[n].readAt <= m :: evs[n].now <= evs[m].now + lag
  }

  /** Every touch lands within `delay` of its request. */
  ghost predicate Timely(ws: seq<World>, evs: seq<Event>, delay: nat)
    requires |ws| == |evs| + 1
  {
    forall n, v | 0 <= n < |evs| && v in ws[n].touches :: evs[n].now <= v + delay
  }

  /** The latest request before place n, or the start. */
  function Previous(evs: seq<Event>, start: nat, n: nat): nat
    requires n <= |evs|
  {
    if n == 0 then start
    else if evs[n - 1].Request? then evs[n - 1].now
    else Previous(evs, start, n - 1)
  }

  /** Requests come at most `gap` apart, from enabled users, up to the absolute expiry. */
  ghost predicate Steady(ws: seq<World>, evs: seq<Event>, gap: nat, n: nat)
    requires n <= |evs| < |ws|
  {
    forall m | 0 <= m < n && evs[m].Request? ::
      && evs[m].userOk && evs[m].now <= ws[0].row.absoluteExpiresAt
      && evs[m].now <= Previous(evs, ws[0].row.lastSeenAt, m) + gap
  }

  /** The row was last seen, and every touch under way made, from start to the latest request. */
  ghost predicate Between(w: World, start: nat, latest: nat) {
    start <= w.row.lastSeenAt <= latest && forall v | v in w.touches :: start <= v <= latest
  }

  lemma StepStaysBetween(w: World, read: Row, e: Event, w': World, idleTtl: nat, start: nat, latest: nat)
    requires Step(w, read, e, w', idleTtl) && Between(w, start, latest) && latest <= e.now
    ensures Between(w', start, if e.Request? then e.now else latest)
    ensures w'.row.revoked == w.row.revoked && w'.row.absoluteExpiresAt == w.row.absoluteExpiresAt
  {
    hide InTime;
  }

  lemma {:induction false} LandingsMoveOnlyLastSeen(ws: seq<World>, evs: seq<Event>, idleTtl: nat, n: nat)
    requires IsRun(ws, evs, idleTtl) && n <= |evs|
    ensures ws[n].row.revoked == ws[0].row.revoked && ws[n].row.absoluteExpiresAt == ws[0].row.absoluteExpiresAt
    ensures Between(ws[n], ws[0].row.lastSeenAt, Previous(evs, ws[0].row.lastSeenAt, n))
  {
    hide Step;
    if n > 0 {
      LandingsMoveOnlyLastSeen(ws, evs, idleTtl, n - 1);
      PreviousGrows(ws, evs, idleTtl, n - 1, n - 1);
      var start := ws[0].row.lastSeenAt;
      hide Between;
      StepStaysBetween(ws[n - 1], ReadBy(ws, evs, n - 1), evs[n - 1], ws[n], idleTtl, start, Previous(evs, start, n - 1));
    }
  }

  lemma {:induction false} PreviousGrows(ws: seq<World>, evs: seq<Event>, idleTtl: nat, m: nat, n: nat)
    requires IsRun(ws, evs, idleTtl) && m <= n <= |evs|
    ensures Previous(evs, ws[0].row.lastSeenAt, m) <= Previous(evs, ws[0].row.lastSeenAt, n)
    ensures n < |evs| ==> Previous(evs, ws[0].row.lastSeenAt, n) <= evs[n].now
    decreases n
  {
    hide Step;
    if n > 0 {
      PreviousGrows(ws, evs, idleTtl, if m < n then m else n - 1, n - 1);
      assert n < |evs| ==> evs[n - 1].now <= evs[n].now;
    }
  }

  function Larger(a: nat, b: nat): nat {
    if a < b then b else a
  }

  /** How long ago the row may have last been seen when a request has just been accepted: a touch
      was not due, or an older one landed after it was read. */
  function Forgotten(delay: nat, lag: nat): nat {
    Larger(TOUCH_THROTTLE - 1, delay + lag)
  }

  /** Until a request at place n has read the clock, no landing since its read writes an instant
      earlier than delay and lag before it. */
  lemma {:induction false} LandingsSinceTheRead(
    ws: seq<World>, evs: seq<Event>, idleTtl: nat, delay: nat, lag: nat, n: nat, k: nat)
    requires IsRun(ws, evs, idleTtl) && Timely(ws, evs, delay) && Prompt(evs, lag)
    requires n < |evs| && evs[n].Request? && evs[n].readAt <= k <= n
    ensures ws[k].row.lastSeenAt == ws[evs[n].readAt].row.lastSeenAt || ws[k].row.lastSeenAt + delay + lag >= evs[n].now
    decreases k
  {
    hide Step;
    if evs[n].readAt < k {
      LandingsSinceTheRead(ws, evs, idleTtl, delay, lag, n, k - 1);
      var read := ReadBy(ws, evs, k - 1);
      assert Step(ws[k - 1], read, evs[k - 1], ws[k], idleTtl);
      assert evs[n].now <= evs[k - 1].now + lag;
      OnlyLandingsWrite(ws[k - 1], read, evs[k - 1], ws[k], idleTtl);
    }
  }

  lemma OnlyLandingsWrite(w: World, read: Row, e: Event, w': World, idleTtl: nat)
    requires Step(w, read, e, w', idleTtl)
    ensures if e.Land? then e.value in w.touches && w'.row.lastSeenAt == e.value else w'.row == w.row
  {
    hide InTime;
  }

  lemma AcceptedStep(w: World, read: Row, e: Event, w': World, idleTtl: nat)
    requires Step(w, read, e, w', idleTtl) && e.Request? && e.userOk && InTime(read, idleTtl, e.now)
    ensures e.now in w'.touches || (w'.row == w.row && e.now < read.lastSeenAt + TOUCH_THROTTLE)
  {
  }

  lemma LaterStep(w: World, read: Row, e: Event, w': World, idleTtl: nat, t: nat, forgotten: nat)
    requires Step(w, read, e, w', idleTtl) && (e.Land? ==> e.value + forgotten >= t)
    requires w.row.lastSeenAt + forgotten >= t || t in w.touches
    ensures w'.row.lastSeenAt + forgotten >= t || t in w'.touches
  {
    hide InTime;
  }

  /** Once a request at place i is accepted, the row never forgets more of it than that, but for
      its own touch still under way. */
  lemma {:induction false} AcceptedIsRemembered(
    ws: seq<World>, evs: seq<Event>, idleTtl: nat, delay: nat, lag: nat, i: nat, n: nat)
    requires IsRun(ws, evs, idleTtl) && Timely(ws, evs, delay) && Prompt(evs, lag)
    requires i < n <= |evs| && evs[i].Request? && InTime(ReadBy(ws, evs, i), idleTtl, evs[i].now) && evs[i].userOk
    ensures ws[n].row.lastSeenAt + Forgotten(delay, lag) >= evs[i].now || evs[i].now in ws[n].touches
    decreases n
  {
    hide InTime, Step;
    var read := ReadBy(ws, evs, n - 1);
    assert Step(ws[n - 1], read, evs[n - 1], ws[n], idleTtl);
    if i < n - 1 {
      AcceptedIsRemembered(ws, evs, idleTtl, delay, lag, i, n - 1);
      assert evs[i].now <= evs[n - 1].now;
      OnlyLandingsWrite(ws[n - 1], read, evs[n - 1], ws[n], idleTtl);
      LaterStep(ws[n - 1], read, evs[n - 1], ws[n], idleTtl, evs[i].now, Forgotten(delay, lag));
    } else {
      AcceptedStep(ws[i], read, evs[i], ws[n], idleTtl);
      if evs[i].readAt < i {
        LandingsSinceTheRead(ws, evs, idleTtl, delay, lag, i, i);
      }
    }
  }

  /** The latest request before place n and more than `delay` before t, if there is one. */
  ghost function LongEnoughAgo(evs: seq<Event>, n: nat, delay: nat, t: nat): (i: int)
    requires n <= |evs|
    ensures -1 <= i < n
    ensures i >= 0 ==> evs[i].Request? && evs[i].now + delay < t
    ensures forall m | i < m < n && evs[m].Request? :: evs[m].now + delay >= t
  {
    if n == 0 then -1
    else if evs[n - 1].Request? && evs[n - 1].now + delay < t then n - 1
    else LongEnoughAgo(evs, n - 1, delay, t)
  }

  /** The first request after place i, up to the one at n. */
  ghost function NextRequest(evs: seq<Event>, i: int, n: nat): (m: nat)
    requires -1 <= i < n < |evs| && evs[n].Request?
    ensures i < m <= n && evs[m].Request? && forall j | i < j < m :: !evs[j].Request?
    decreases n - i
  {
    if evs[i + 1].Request? then i + 1 else NextRequest(evs, i + 1, n)
  }

  lemma {:induction false} PreviousIs(evs: seq<Event>, start: nat, i: int, m: nat)
    requires -1 <= i < m <= |evs| && (i >= 0 ==> evs[i].Request?) && forall j | i < j < m :: !evs[j].Request?
    ensures Previous(evs, start, m) == if i < 0 then start else evs[i].now
    decreases m
  {
    if m > 0 && i < m - 1 {
      PreviousIs(evs, start, i, m - 1);
    }
  }

  /** Requests are accepted up to the absolute expiry, though touches land out of order and between
      the two reads of a request, while the gaps leave the idle TTL room for one touch under way
      and for what the row may have forgotten. */
  lemma {:induction false} SteadyUseSurvivesLateTouches(
    ws: seq<World>, evs: seq<Event>, idleTtl: nat, delay: nat, lag: nat, gap: nat, n: nat)
    requires IsRun(ws, evs, idleTtl) && Timely(ws, evs, delay) && Prompt(evs, lag) && n < |evs| && evs[n].Request?
    requires !ws[0].row.revoked && Steady(ws, evs, gap, n + 1)
    requires gap + delay + lag + Forgotten(delay, lag) <= idleTtl
    ensures InTime(ReadBy(ws, evs, n), idleTtl, evs[n].now)
    decreases n
  {
    hide Step, Forgotten;
    var r := if evs[n].readAt < n then evs[n].readAt else n;
    LandingsMoveOnlyLastSeen(ws, evs, idleTtl, r);
    var t, start := evs[n].now, ws[0].row.lastSeenAt;
    var i := LongEnoughAgo(evs, n, delay + lag, t);
    var m := NextRequest(evs, i, n);
    PreviousIs(evs, start, i, m);
    assert evs[m].now <= Previous(evs, start, m) + gap;
    if i >= 0 {
      SteadyUseSurvivesLateTouches(ws, evs, idleTtl, delay, lag, gap, i);
      assert t <= evs[r].now + lag;
      assert evs[i].now < evs[r].now;
      AcceptedIsRemembered(ws, evs, idleTtl, delay, lag, i, r);
    }
  }

  /** Every steady run of requests is accepted throughout, up to the absolute expiry. */
  ghost predicate SteadyUseNeverExpires(idleTtl: nat, delay: nat, lag: nat, gap: nat) {
    forall ws: seq<World>, evs: seq<Event>, n |
      && IsRun(ws, evs, idleTtl) && Timely(ws, evs, delay) && Prompt(evs, lag)
      && 0 <= n < |evs| && evs[n].Request? && !ws[0].row.revoked && Steady(ws, evs, gap, n + 1) ::
      InTime(ReadBy(ws, evs, n), idleTtl, evs[n].now)
  }

  /** Two requests: the first comes just too early for a touch. */
  lemma TooWideAGap(idleTtl: nat, delay: nat, lag: nat, gap: nat)
    requires gap >= TOUCH_THROTTLE && TOUCH_THROTTLE - 1 + gap > idleTtl
    ensures !SteadyUseNeverExpires(idleTtl, delay, lag, gap)
  {
    var t: nat := TOUCH_THROTTLE - 1;
    var w := World(Row(false, t + gap, 0), multiset{});
    var ws, evs := [w, w, w], [Request(t, true, 0), Request(t + gap, true, 1)];
    assert IsRun(ws, evs, idleTtl) && Timely(ws, evs, delay) && Prompt(evs, lag);
    assert evs[1].Request? && !InTime(ReadBy(ws, evs, 1), idleTtl, evs[1].now);
    SteadyPair(ws, evs, gap);
  }

  lemma SteadyPair(ws: seq<World>, evs: seq<Event>, gap: nat)
    requires 2 <= |evs| < |ws| && evs[0].Request? && evs[1].Request? && evs[0].userOk && evs[1].userOk
    requires evs[0].now <= ws[0].row.absoluteExpiresAt && evs[1].now <= ws[0].row.absoluteExpiresAt
    requires evs[0].now <= ws[0].row.lastSeenAt + gap && evs[1].now <= evs[0].now + gap
    ensures Steady(ws, evs, gap, 2)
  {
  }

  /** A third request reads the row just before the second one's touch lands. */
  lemma LateTouchRun(idleTtl: nat, t: nat, u: nat, landing: nat, end: nat) returns (ws: seq<World>, evs: seq<Event>)
    requires t < TOUCH_THROTTLE <= u <= idleTtl < end && t <= u <= landing <= end
    ensures |ws| == 5 && evs == [Request(t, true, 0), Request(u, true, 1), Land(landing, u), Request(end, true, 2)]
    ensures IsRun(ws, evs, idleTtl) && ws[0].row == Row(false, end, 0) == ws[2].row
    ensures forall n, v | 0 <= n < 4 && v in ws[n].touches :: n == 2 && v == u
  {
    var row := Row(false, end, 0);
    var w, touched, landed := World(row, multiset{}), World(row, multiset{u}), World(row.(lastSeenAt := u), multiset{});
    ws := [w, w, touched, landed, landed];
    evs := [Request(t, true, 0), Request(u, true, 1), Land(landing, u), Request(end, true, 2)];
  }

  lemma TooLateATouch(idleTtl: nat, delay: nat, lag: nat, gap: nat)
    requires gap >= TOUCH_THROTTLE && TOUCH_THROTTLE - 1 + gap <= idleTtl
    requires delay + lag <= gap && gap + delay + lag + (TOUCH_THROTTLE - 1) > idleTtl
    ensures !SteadyUseNeverExpires(idleTtl, delay, lag, gap)
  {
    hide IsRun;
    var t: nat := TOUCH_THROTTLE - 1;
    var u, end := t + gap, t + gap + delay + lag;
    var ws, evs := LateTouchRun(idleTtl, t, u, u + delay, end);
    assert Timely(ws, evs, delay) && Prompt(evs, lag);
    assert evs[3].Request? && !InTime(ReadBy(ws, evs, 3), idleTtl, evs[3].now);
    SteadyPair(ws, evs, gap);
    assert Previous(evs, 0, 3) == Previous(evs, 0, 2) == u;
    assert Steady(ws, evs, gap, 4);
  }

  /** With touches and reads that together take less than the throttle, as they should, and gaps
      no shorter than it, the room needed is exact to the nanosecond. */
  lemma SteadyUseNeverExpiresIff(idleTtl: nat, delay: nat, lag: nat, gap: nat)
    requires delay + lag < TOUCH_THROTTLE <= gap
    ensures SteadyUseNeverExpires(idleTtl, delay, lag, gap) <==> gap + delay + lag + (TOUCH_THROTTLE - 1) <= idleTtl
  {
    if gap + delay + lag + (TOUCH_THROTTLE - 1) <= idleTtl {
      forall ws: seq<World>, evs: seq<Event>, n |
        && IsRun(ws, evs, idleTtl) && Timely(ws, evs, delay) && Prompt(evs, lag)
        && 0 <= n < |evs| && evs[n].Request? && !ws[0].row.revoked && Steady(ws, evs, gap, n + 1)
        ensures InTime(ReadBy(ws, evs, n), idleTtl, evs[n].now)
      {
        SteadyUseSurvivesLateTouches(ws, evs, idleTtl, delay, lag, gap, n);
      }
    } else if TOUCH_THROTTLE - 1 + gap > idleTtl {
      TooWideAGap(idleTtl, delay, lag, gap);
    } else {
      TooLateATouch(idleTtl, delay, lag, gap);
    }
  }

  /** A request more than the idle TTL after the one before it, or past the absolute expiry, is
      rejected, and so is every later one, whatever touches still land and however old the row
      that it read. */
  lemma LateTouchesReviveNothing(ws: seq<World>, evs: seq<Event>, idleTtl: nat, n: nat, m: nat)
    requires IsRun(ws, evs, idleTtl) && n <= m < |evs| && evs[n].Request? && evs[m].Request?
    requires evs[n].now > ws[0].row.absoluteExpiresAt || evs[n].now > Previous(evs, ws[0].row.lastSeenAt, n) + idleTtl
    ensures !InTime(ReadBy(ws, evs, m), idleTtl, evs[m].now)
  {
    hide Step;
    StaysBehind(ws, evs, idleTtl, n, if evs[m].readAt < m then evs[m].readAt else m);
    assert evs[n].now <= evs[m].now;
  }

  lemma {:induction false} StaysBehind(ws: seq<World>, evs: seq<Event>, idleTtl: nat, n: nat, k: nat)
    requires IsRun(ws, evs, idleTtl) && n < |evs| && k <= |evs| && evs[n].Request?
    requires evs[n].now > ws[0].row.absoluteExpiresAt || evs[n].now > Previous(evs, ws[0].row.lastSeenAt, n) + idleTtl
    ensures ws[k].row.absoluteExpiresAt == ws[0].row.absoluteExpiresAt
    ensures evs[n].now <= ws[0].row.absoluteExpiresAt ==>
      && ws[k].row.lastSeenAt + idleTtl < evs[n].now
      && forall v | v in ws[k].touches :: v + idleTtl < evs[n].now
    decreases k
  {
    if k <= n {
      LandingsMoveOnlyLastSeen(ws, evs, idleTtl, k);
      PreviousGrows(ws, evs, idleTtl, k, n);
    } else {
      StaysBehind(ws, evs, idleTtl, n, k - 1);
      if evs[k - 1].Request? && evs[k - 1].readAt < k - 1 {
        StaysBehind(ws, evs, idleTtl, n, evs[k - 1].readAt);
      }
      assert Step(ws[k - 1], ReadBy(ws, evs, k - 1), evs[k - 1], ws[k], idleTtl);
      assert evs[n].now <= evs[k - 1].now;
    }
  }

  /** A session that Live shows passes Verify's checks; the two differ exactly on the instant of
      a deadline, which Verify still accepts. */
  lemma LiveImpliesInTime(row: Row, idleTtl: nat, now: nat)
    ensures Live(row, idleTtl, now) ==> InTime(row, idleTtl, now)
    ensures InTime(row, idleTtl, now) && !Live(row, idleTtl, now) <==>
      InTime(row, idleTtl, now) && (now == row.absoluteExpiresAt || now == row.lastSeenAt + idleTtl)
  {
  }
}
