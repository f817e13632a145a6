/** The global API throttle: a fixed-window counter per client
    (backend/internal/httpserver/ratelimit.go). */
module ApiLimiter {
  import opened Clock
  import opened Crowd
  import opened Wrappers

  const MAX_BUCKETS: nat := 16_384
  const MAX_SESSIONS: nat := 8_192
  const SESSION_MARK_TTL: nat := 15 * MINUTE

  datatype Bucket = Bucket(start: nat, count: nat)
  datatype SessionMark = SessionMark(user: string, seen: nat)

  type Buckets = map<string, Bucket>

  /** The window a request of key falls in: the running one, or one opened now. */
  function Current(m: Buckets, key: string, now: nat, window: nat): Bucket {
    if key in m && now - m[key].start < window then m[key] else Bucket(now, 0)
  }

  ghost predicate RoomMade(m: Buckets, m': Buckets) {
    && m'.Keys <= m.Keys
    && (forall k | k in m' :: m'[k] == m[k])
    && (|m| < MAX_BUCKETS ==> m' == m)
    && |m'| < MAX_BUCKETS
  }

  ghost predicate Roomy(m: Buckets, key: string, room: Buckets) {
    if key in m then room == m else RoomMade(m, room)
  }

  ghost predicate AllowStep(limit: nat, window: nat, m: Buckets, key: string, now: nat, m': Buckets, ok: bool) {
    var b := Current(m, key, now, window);
    && ok == (b.count < limit)
    && exists room :: Roomy(m, key, room) && m' == room[key := if ok then Bucket(b.start, b.count + 1) else b]
  }

  class ApiRateLimiter {
    var buckets: Buckets
    var sessions: map<nat, SessionMark>
    var lastPrune: nat
    var prunes: nat
    const limit: nat
    const window: nat

    ghost predicate Valid()
      reads this
    {
      |buckets| <= MAX_BUCKETS && |sessions| <= MAX_SESSIONS
    }

    constructor (limit: nat, window: nat)
      ensures Valid() && this.limit == limit && this.window == window
      ensures buckets == map[] && sessions == map[]
    {
      this.limit, this.window := limit, window;
      buckets, sessions, lastPrune, prunes := map[], map[], 0, 0;
    }

    method Allow(key: string, now: nat) returns (ok: bool)
      requires Valid()
      modifies this
      ensures Valid() && sessions == old(sessions)
      ensures AllowStep(limit, window, old(buckets), key, now, buckets, ok)
    {
      var b;
      if key !in buckets {
        MakeRoom(now);
        b := Bucket(now, 0);
      } else if now - buckets[key].start >= window {
        b := Bucket(now, 0);
      } else {
        b := buckets[key];
      }
      assert Roomy(old(buckets), key, buckets);
      if b.count >= limit {
        buckets := buckets[key := b];
        return false;
      }
      buckets := buckets[key := b.(count := b.count + 1)];
      return true;
    }

    method MakeRoom(now: nat)
      requires Valid()
      modifies this`buckets, this`lastPrune, this`prunes
      ensures Valid() && RoomMade(old(buckets), buckets)
      ensures var swept := |old(buckets)| >= MAX_BUCKETS && now - old(lastPrune) >= PRUNE_EVERY;
        && lastPrune == (if swept then now else old(lastPrune))
        && prunes == old(prunes) + (if swept then 1 else 0)
        && (swept ==> forall k | k in buckets :: now - buckets[k].start < window)
        && forall k | k in old(buckets) && k !in buckets ::
             (swept && now - old(buckets)[k].start >= window) || |buckets| == MAX_BUCKETS - 1
    {
      if |buckets| < MAX_BUCKETS {
        return;
      }
      ghost var swept := now - lastPrune >= PRUNE_EVERY;
      if now - lastPrune >= PRUNE_EVERY {
        lastPrune, prunes := now, prunes + 1;
        var todo := buckets.Keys;
        while todo != {}
          invariant buckets.Keys <= old(buckets.Keys) && todo <= buckets.Keys && |buckets| <= MAX_BUCKETS
          invariant forall k | k in buckets :: buckets[k] == old(buckets)[k]
          invariant lastPrune == now && prunes == old(prunes) + 1
          invariant forall k | k in buckets && k !in todo :: now - buckets[k].start < window
          invariant forall k | k in old(buckets) && k !in buckets :: now - old(buckets)[k].start >= window
        {
          var k :| k in todo;
          todo := todo - {k};
          if now - buckets[k].start >= window {
            buckets := buckets - {k};
          }
        }
      }
      while |buckets| >= MAX_BUCKETS
        invariant buckets.Keys <= old(buckets.Keys) && |buckets| <= MAX_BUCKETS
        invariant forall k | k in buckets :: buckets[k] == old(buckets)[k]
        invariant lastPrune == (if swept then now else old(lastPrune)) && prunes == old(prunes) + if swept then 1 else 0
        invariant swept ==> forall k | k in buckets :: now - buckets[k].start < window
        invariant forall k | k in old(buckets) && k !in buckets ::
          (swept && now - old(buckets)[k].start >= window) || |buckets| >= MAX_BUCKETS - 1
        decreases |buckets|
      {
        var k :| k in buckets;
        buckets := buckets - {k};
      }
    }

    /** cookie is the hash of the session cookie, if the request carries one. A cookie buys
        its user's bucket only while Authenticate has accepted it within the mark's lifetime. */
    method KeyFor(cookie: Option<nat>, ipKey: string, now: nat) returns (key: string)
      requires Valid()
      modifies this`sessions
      ensures Valid()
      ensures var marked := cookie.Some? && cookie.value in old(sessions) && now - old(sessions)[cookie.value].seen < SESSION_MARK_TTL;
        && key == (if marked then "u:" + old(sessions)[cookie.value].user else "ip:" + ipKey)
        && sessions == if marked || cookie.None? then old(sessions) else old(sessions) - {cookie.value}
    {
      if cookie.Some? && cookie.value in sessions {
        var m := sessions[cookie.value];
        if now - m.seen < SESSION_MARK_TTL {
          return "u:" + m.user;
        }
        sessions := sessions - {cookie.value};
      }
      return "ip:" + ipKey;
    }

    method RememberSession(h: nat, user: string, now: nat)
      requires Valid()
      modifies this`sessions
      ensures Valid() && h in sessions && sessions[h] == SessionMark(user, now)
      ensures sessions.Keys <= old(sessions.Keys) + {h}
      ensures forall g | g in sessions && g != h :: sessions[g] == old(sessions)[g]
      ensures h in old(sessions) || |old(sessions)| < MAX_SESSIONS ==> sessions == old(sessions)[h := SessionMark(user, now)]
    {
      if h !in sessions {
        while |sessions| >= MAX_SESSIONS
          invariant sessions.Keys <= old(sessions.Keys) && |sessions| <= MAX_SESSIONS
          invariant forall g | g in sessions :: sessions[g] == old(sessions)[g]
          invariant |old(sessions)| < MAX_SESSIONS ==> sessions == old(sessions)
          decreases |sessions|
        {
          var g :| g in sessions;
          sessions := sessions - {g};
        }
      }
      sessions := sessions[h := SessionMark(user, now)];
    }

    method ForgetSession(h: nat)
      requires Valid()
      modifies this`sessions
      ensures Valid() && sessions == old(sessions) - {h}
    {
      sessions := sessions - {h};
    }
  }

  // ---- runs ---------------------------------------------------------------------------

  datatype Event = Event(key: string, now: nat, ok: bool)

  /** evs leads through ms from an empty map. Instants are read before the mutex is taken, so in
      the order of the events one may lie up to skew before an earlier one. */
  ghost predicate IsRun(limit: nat, window: nat, ms: seq<Buckets>, evs: seq<Event>, skew: nat) {
    && |ms| == |evs| + 1
    && ms[0] == map[]
    && (forall i | 0 <= i < |evs| :: AllowStep(limit, window, ms[i], evs[i].key, evs[i].now, ms[i + 1], evs[i].ok))
    && (forall i, j | 0 <= i <= j < |evs| :: evs[i].now <= evs[j].now + skew)
  }

  /** k's bucket is never evicted while its window is running. */
  ghost predicate KeyKept(window: nat, ms: seq<Buckets>, evs: seq<Event>, k: string)
    requires |ms| == |evs| + 1
  {
    forall i | 0 <= i < |evs| ::
      k in ms[i] && evs[i].now - ms[i][k].start < window ==> k in ms[i + 1]
  }

  /** Each admission of k as its instant and the start of the window it was counted in. */
  function Admitted(ms: seq<Buckets>, evs: seq<Event>, k: string): seq<(nat, nat)>
    requires |ms| == |evs| + 1
  {
    if evs == [] then []
    else
      var n := |evs| - 1;
      Admitted(ms[..n + 1], evs[..n], k) +
      if evs[n].key == k && evs[n].ok && k in ms[n + 1] then [(evs[n].now, ms[n + 1][k].start)] else []
  }

  /** The latest of the first n instants. */
  function Latest(evs: seq<Event>, n: nat): nat
    requires n <= |evs|
  {
    if n == 0 then 0
    else if Latest(evs, n - 1) < evs[n - 1].now then evs[n - 1].now
    else Latest(evs, n - 1)
  }

  lemma {:induction false} LatestIsNear(limit: nat, window: nat, ms: seq<Buckets>, evs: seq<Event>, skew: nat, n: nat, i: nat)
    requires IsRun(limit, window, ms, evs, skew) && n <= i < |evs|
    ensures Latest(evs, n) <= evs[i].now + skew
  {
    hide AllowStep;
    if n > 0 {
      LatestIsNear(limit, window, ms, evs, skew, n - 1, i);
      assert evs[n - 1].now <= evs[i].now + skew;
    }
  }

  /** The window an admission was counted in had closed, but for the skew, before the limit-th
      admission after it was made, or its window opened. */
  ghost predicate WellSpaced(limit: nat, window: nat, skew: nat, h: seq<(nat, nat)>) {
    && (h != [] ==> limit > 0)
    && (forall i | 0 <= i < |h| :: h[i].0 < h[i].1 + window)
    && (limit == 1 ==> forall i | 0 <= i < |h| :: h[i].0 == h[i].1)
    && (forall i, j | 0 <= i && i + limit <= j < |h| ::
          h[i].1 + window <= h[j].1 + skew && h[i].1 + window <= h[j].0 + skew)
  }

  /** The last count admissions are in the running window; all others are in windows that had
      closed by the latest instant. */
  ghost predicate InStep(limit: nat, window: nat, skew: nat, h: seq<(nat, nat)>, m: Buckets, k: string, latest: nat) {
    if k in m then
      var b := m[k];
      && b.count <= |h| && b.count <= limit && (limit > 0 ==> b.count > 0)
      && (forall i | 0 <= i < |h| - b.count :: h[i].1 + window <= b.start + skew && h[i].1 + window <= latest)
      && (forall i | |h| - b.count <= i < |h| :: h[i].1 == b.start)
    else
      forall i | 0 <= i < |h| :: h[i].1 + window <= latest
  }

  lemma StepEffect(limit: nat, window: nat, m: Buckets, ev: Event, m': Buckets, k: string)
    requires AllowStep(limit, window, m, ev.key, ev.now, m', ev.ok)
    ensures ev.key == k ==>
      var b := Current(m, k, ev.now, window);
      ev.ok == (b.count < limit) && k in m' && m'[k] == if ev.ok then Bucket(b.start, b.count + 1) else b
    ensures ev.key != k && k in m' ==> k in m && m'[k] == m[k]
  {
  }

  lemma {:induction false} AdmissionsAreWellSpaced(
    limit: nat, window: nat, ms: seq<Buckets>, evs: seq<Event>, skew: nat, k: string, n: nat)
    requires window > 0 && |ms| == |evs| + 1 && IsRun(limit, window, ms, evs, skew) && KeyKept(window, ms, evs, k) && n <= |evs|
    ensures var h := Admitted(ms[..n + 1], evs[..n], k);
      && WellSpaced(limit, window, skew, h)
      && InStep(limit, window, skew, h, ms[n], k, Latest(evs, n))
  {
    hide IsRun, KeyKept, Current, Admitted, WellSpaced, InStep;
    if n == 0 {
      StartsEmpty(limit, window, ms, evs, skew);
      NothingAdmitted(limit, window, skew, ms[..1], evs[..0], k);
    } else {
      RunEffect(limit, window, ms, evs, skew, k, n);
      AdmissionsAreWellSpaced(limit, window, ms, evs, skew, k, n - 1);
      var h, ev := Admitted(ms[..n], evs[..n - 1], k), evs[n - 1];
      if ev.key != k {
        OtherStaysInStep(limit, window, skew, h, ms[n - 1], ms[n], k, Latest(evs, n - 1), ev.now, Latest(evs, n));
      } else {
        LatestIsNear(limit, window, ms, evs, skew, n - 1, n - 1);
        ServedStaysInStep(limit, window, skew, h, ms[n - 1], k, Latest(evs, n - 1), ev.now, Latest(evs, n));
        var b := Current(ms[n - 1], k, ev.now, window);
        SameBucket(limit, window, skew, Admitted(ms[..n + 1], evs[..n], k),
                   ms[n - 1][k := if ev.ok then Bucket(b.start, b.count + 1) else b], ms[n], k, Latest(evs, n));
      }
    }
  }

  /** What the last event of a run did to k's bucket and its history. */
  lemma RunEffect(limit: nat, window: nat, ms: seq<Buckets>, evs: seq<Event>, skew: nat, k: string, n: nat)
    requires |ms| == |evs| + 1 && IsRun(limit, window, ms, evs, skew) && KeyKept(window, ms, evs, k) && 0 < n <= |evs|
    ensures var ev, m, m' := evs[n - 1], ms[n - 1], ms[n];
      var h, b := Admitted(ms[..n], evs[..n - 1], k), Current(m, k, ev.now, window);
      if ev.key == k then
        && ev.ok == (b.count < limit)
        && k in m' && m'[k] == (if ev.ok then Bucket(b.start, b.count + 1) else b)
        && Admitted(ms[..n + 1], evs[..n], k) == if ev.ok then h + [(ev.now, b.start)] else h
      else
        && Admitted(ms[..n + 1], evs[..n], k) == h
        && (if k in m' then k in m && m'[k] == m[k] else k in m ==> m[k].start + window <= ev.now)
  {
    hide AllowStep;
    assert AllowStep(limit, window, ms[n - 1], evs[n - 1].key, evs[n - 1].now, ms[n], evs[n - 1].ok);
    StepEffect(limit, window, ms[n - 1], evs[n - 1], ms[n], k);
    AdmittedSnoc(ms, evs, k, n);
    hide Admitted;
  }

  lemma AdmittedSnoc(ms: seq<Buckets>, evs: seq<Event>, k: string, n: nat)
    requires |ms| == |evs| + 1 && 0 < n <= |evs|
    ensures var ev := evs[n - 1];
      Admitted(ms[..n + 1], evs[..n], k) == Admitted(ms[..n], evs[..n - 1], k) +
        if ev.key == k && ev.ok && k in ms[n] then [(ev.now, ms[n][k].start)] else []
  {
    assert ms[..n + 1][..n] == ms[..n] && evs[..n][..n - 1] == evs[..n - 1];
  }

  lemma StartsEmpty(limit: nat, window: nat, ms: seq<Buckets>, evs: seq<Event>, skew: nat)
    requires |ms| == |evs| + 1 && IsRun(limit, window, ms, evs, skew)
    ensures ms[0] == map[]
  {
  }

  lemma NothingAdmitted(limit: nat, window: nat, skew: nat, ms: seq<Buckets>, evs: seq<Event>, k: string)
    requires |ms| == 1 && evs == []
    ensures WellSpaced(limit, window, skew, Admitted(ms, evs, k)) && InStep(limit, window, skew, Admitted(ms, evs, k), map[], k, 0)
  {
  }

  lemma SameBucket(limit: nat, window: nat, skew: nat, h: seq<(nat, nat)>, m: Buckets, m': Buckets, k: string, latest: nat)
    requires k in m && k in m' && m[k] == m'[k]
    ensures InStep(limit, window, skew, h, m, k, latest) == InStep(limit, window, skew, h, m', k, latest)
  {
  }

  /** Another client's request leaves k's bucket alone, or drops it once its window has closed. */
  lemma OtherStaysInStep(
    limit: nat, window: nat, skew: nat, h: seq<(nat, nat)>, m: Buckets, m': Buckets, k: string, latest: nat, now: nat, latest': nat)
    requires latest' == (if latest < now then now else latest) && InStep(limit, window, skew, h, m, k, latest)
    requires if k in m' then k in m && m'[k] == m[k] else k in m ==> m[k].start + window <= now
    ensures InStep(limit, window, skew, h, m', k, latest')
  {
  }

  lemma ServedStaysInStep(
    limit: nat, window: nat, skew: nat, h: seq<(nat, nat)>, m: Buckets, k: string, latest: nat, now: nat, latest': nat)
    requires window > 0 && latest <= now + skew && latest' == (if latest < now then now else latest)
    requires WellSpaced(limit, window, skew, h) && InStep(limit, window, skew, h, m, k, latest)
    ensures var b := Current(m, k, now, window);
      && (b.count >= limit ==> InStep(limit, window, skew, h, m[k := b], k, latest'))
      && (b.count < limit ==>
           var h', m' := h + [(now, b.start)], m[k := Bucket(b.start, b.count + 1)];
           WellSpaced(limit, window, skew, h') && InStep(limit, window, skew, h', m', k, latest'))
  {
    var b := Current(m, k, now, window);
    assert forall i | 0 <= i < |h| - b.count :: h[i].1 + window <= b.start + skew && h[i].1 + window <= latest';
    if b.count < limit {
      var h' := h + [(now, b.start)];
      forall i, j | 0 <= i && i + limit <= j < |h'|
        ensures h'[i].1 + window <= h'[j].1 + skew && h'[i].1 + window <= h'[j].0 + skew
      {
        if j < |h| {
          assert h[i].1 + window <= h[j].1 + skew;
        } else {
          assert i < |h| - b.count && h'[i] == h[i];
        }
      }
    }
  }

  /** Any 2·limit + 1 admissions of one client span more than a window less twice the skew. */
  lemma ManyAdmissionsSpanAWindow(
    limit: nat, window: nat, ms: seq<Buckets>, evs: seq<Event>, skew: nat, k: string, i: nat, j: nat)
    requires window > 0 && |ms| == |evs| + 1 && IsRun(limit, window, ms, evs, skew) && KeyKept(window, ms, evs, k)
    requires i + 2 * limit <= j < |Admitted(ms, evs, k)|
    ensures var h := Admitted(ms, evs, k);
      limit > 0 && h[j].0 - h[i].0 > window - 2 * skew && (limit == 1 ==> h[j].0 - h[i].0 >= 2 * (window - skew))
  {
    hide AllowStep;
    AdmissionsAreWellSpaced(limit, window, ms, evs, skew, k, |evs|);
    assert ms[..|evs| + 1] == ms && evs[..|evs|] == evs;
    var h := Admitted(ms, evs, k);
    assert h[i].1 + window <= h[i + limit].1 + skew;
    assert h[i + limit].1 + window <= h[j].0 + skew;
  }

  // ---- exactly when twice the limit holds -------------------------------------------------------

  /** How many of h were made from lo to hi, both included. */
  function CountIn(h: seq<(nat, nat)>, lo: int, hi: int): nat {
    if h == [] then 0
    else CountIn(h[..|h| - 1], lo, hi) + if lo <= h[|h| - 1].0 <= hi then 1 else 0
  }

  /** No run has more than 2·limit admissions of a client in a closed interval len long. */
  ghost predicate AtMostTwice(limit: nat, window: nat, skew: nat, len: int) {
    forall ms, evs, k, lo, hi |
      && |ms| == |evs| + 1 && IsRun(limit, window, ms, evs, skew) && KeyKept(window, ms, evs, k)
      && hi - lo <= len ::
      CountIn(Admitted(ms, evs, k), lo, hi) <= 2 * limit
  }

  /** Among n counted admissions, some two lie n - 1 apart. */
  lemma {:induction false} CountedSpread(h: seq<(nat, nat)>, lo: int, hi: int, n: nat) returns (i: nat, j: nat)
    requires 0 < n <= CountIn(h, lo, hi)
    ensures i + n - 1 <= j < |h| && lo <= h[i].0 && h[j].0 <= hi && lo <= hi
  {
    var last := |h| - 1;
    if lo <= h[last].0 <= hi {
      if n == 1 {
        i, j := last, last;
      } else {
        i, j := CountedSpread(h[..last], lo, hi, n - 1);
        j := last;
      }
    } else {
      i, j := CountedSpread(h[..last], lo, hi, n);
    }
  }

  lemma TwiceHolds(limit: nat, window: nat, skew: nat, len: int)
    requires window > 0
    requires limit == 0 || len < 0 || len <= window - 2 * skew || (limit == 1 && len < 2 * (window - skew))
    ensures AtMostTwice(limit, window, skew, len)
  {
    hide IsRun, KeyKept, CountIn, Admitted;
    forall ms, evs, k, lo, hi |
      && |ms| == |evs| + 1 && IsRun(limit, window, ms, evs, skew) && KeyKept(window, ms, evs, k)
      && hi - lo <= len
      ensures CountIn(Admitted(ms, evs, k), lo, hi) <= 2 * limit
    {
      if CountIn(Admitted(ms, evs, k), lo, hi) > 2 * limit {
        var i, j := CountedSpread(Admitted(ms, evs, k), lo, hi, 2 * limit + 1);
        ManyAdmissionsSpanAWindow(limit, window, ms, evs, skew, k, i, j);
      }
    }
  }

  /** What a run is to show: CLIENT's admissions from lo to hi. */
  datatype Probe = Probe(limit: nat, window: nat, skew: nat, lo: nat, hi: nat) {
    predicate Counts(now: nat) {
      lo <= now <= hi
    }
  }

  ghost predicate Shows(p: Probe, ms: seq<Buckets>, evs: seq<Event>, m: Buckets, n: nat, latest: nat) {
    && |ms| == |evs| + 1 && ms[|evs|] == m
    && IsRun(p.limit, p.window, ms, evs, p.skew) && KeyKept(p.window, ms, evs, CLIENT)
    && n == CountIn(Admitted(ms, evs, CLIENT), p.lo, p.hi)
    && forall i | 0 <= i < |evs| :: evs[i].now <= latest
  }

  /** Some run ends in m with n of the admissions looked for and no instant past latest. */
  ghost predicate Reached(p: Probe, m: Buckets, n: nat, latest: nat) {
    exists ms, evs :: Shows(p, ms, evs, m, n, latest)
  }

  lemma NothingReached(p: Probe)
    ensures Reached(p, map[], 0, 0)
  {
    assert Shows(p, [map[]], [], map[], 0, 0);
  }

  lemma CountSnoc(h: seq<(nat, nat)>, t: (nat, nat), lo: int, hi: int)
    ensures CountIn(h + [t], lo, hi) == CountIn(h, lo, hi) + if lo <= t.0 <= hi then 1 else 0
  {
    assert (h + [t])[..|h|] == h;
  }

  lemma AppendRun(limit: nat, window: nat, skew: nat, ms: seq<Buckets>, evs: seq<Event>, ev: Event, m': Buckets)
    requires |ms| == |evs| + 1 && IsRun(limit, window, ms, evs, skew)
    requires AllowStep(limit, window, ms[|evs|], ev.key, ev.now, m', ev.ok)
    requires forall i | 0 <= i < |evs| :: evs[i].now <= ev.now + skew
    ensures IsRun(limit, window, ms + [m'], evs + [ev], skew)
  {
    hide AllowStep;
    var ms', evs' := ms + [m'], evs + [ev];
    forall i | 0 <= i < |evs'|
      ensures AllowStep(limit, window, ms'[i], evs'[i].key, evs'[i].now, ms'[i + 1], evs'[i].ok)
    {
      assert i < |evs| ==> AllowStep(limit, window, ms[i], evs[i].key, evs[i].now, ms[i + 1], evs[i].ok);
    }
    forall i, j | 0 <= i <= j < |evs'|
      ensures evs'[i].now <= evs'[j].now + skew
    {
      assert j < |evs| ==> evs[i].now <= evs[j].now + skew;
    }
  }

  lemma AppendCount(p: Probe, ms: seq<Buckets>, evs: seq<Event>, ev: Event, m': Buckets)
    requires |ms| == |evs| + 1 && ev.ok && ev.key in m'
    ensures CountIn(Admitted(ms + [m'], evs + [ev], CLIENT), p.lo, p.hi) ==
      CountIn(Admitted(ms, evs, CLIENT), p.lo, p.hi) + if ev.key == CLIENT && p.Counts(ev.now) then 1 else 0
  {
    hide CountIn, Admitted;
    var ms', evs' := ms + [m'], evs + [ev];
    AdmittedSnoc(ms', evs', CLIENT, |evs'|);
    assert evs'[..|evs'|] == evs' && evs'[..|evs|] == evs && ms'[..|ms'|] == ms' && ms'[..|ms|] == ms;
    var h, last := Admitted(ms, evs, CLIENT), (ev.now, m'[ev.key].start);
    assert Admitted(ms', evs', CLIENT) == if ev.key == CLIENT then h + [last] else h;
    CountSnoc(h, last, p.lo, p.hi);
  }

  /** One more admitted request: its key's bucket becomes b. */
  lemma Extend(p: Probe, m: Buckets, room: Buckets, n: nat, latest: nat, key: string, now: nat, b: Bucket, latest': nat)
    requires Reached(p, m, n, latest) && Roomy(m, key, room)
    requires latest <= now + p.skew && latest' == if latest < now then now else latest
    requires b == Current(m, key, now, p.window) && b.count < p.limit
    requires CLIENT in m && CLIENT !in room ==> now - m[CLIENT].start >= p.window
    ensures Reached(p, room[key := Bucket(b.start, b.count + 1)],
                    if key == CLIENT && p.Counts(now) then n + 1 else n, latest')
  {
    hide Current, Roomy, CountIn, Admitted, IsRun;
    var m', ev := room[key := Bucket(b.start, b.count + 1)], Event(key, now, true);
    var ms, evs :| Shows(p, ms, evs, m, n, latest);
    assert AllowStep(p.limit, p.window, m, key, now, m', true);
    hide AllowStep;
    AppendRun(p.limit, p.window, p.skew, ms, evs, ev, m');
    AppendCount(p, ms, evs, ev, m');
    assert KeyKept(p.window, ms + [m'], evs + [ev], CLIENT);
    assert Shows(p, ms + [m'], evs + [ev], m', if key == CLIENT && p.Counts(now) then n + 1 else n, latest');
  }

  /** CLIENT's running bucket takes more admissions, all at one instant. */
  lemma {:induction false} Serve(p: Probe, others: Buckets, start: nat, c: nat, times: nat, n: nat, latest: nat, now: nat)
    requires Reached(p, others[CLIENT := Bucket(start, c)], n, latest)
    requires now <= latest <= now + p.skew && now - start < p.window && c + times <= p.limit
    ensures Reached(p, others[CLIENT := Bucket(start, c + times)], if p.Counts(now) then n + times else n, latest)
  {
    hide Reached;
    if times > 0 {
      Serve(p, others, start, c, times - 1, n, latest, now);
      var m, b := others[CLIENT := Bucket(start, c + times - 1)], Bucket(start, c + times - 1);
      Extend(p, m, m, if p.Counts(now) then n + (times - 1) else n, latest, CLIENT, now, b, latest);
      assert m[CLIENT := Bucket(start, c + times)] == others[CLIENT := Bucket(start, c + times)];
    }
  }

  /** Other clients fill the map at t. */
  lemma {:induction false} Fill(p: Probe, b: Bucket, n: nat, latest: nat, t: nat, i: nat)
    requires Reached(p, map[CLIENT := b], n, latest) && latest <= t && i < MAX_BUCKETS && p.limit > 0
    ensures Reached(p, Others(i, Bucket(t, 1))[CLIENT := b], n, if i == 0 then latest else t)
  {
    hide Reached;
    if i > 0 {
      Fill(p, b, n, latest, t, i - 1);
      var m := Others(i - 1, Bucket(t, 1))[CLIENT := b];
      OneMoreOther(i - 1, Bucket(t, 1), b);
      hide Others;
      Extend(p, m, m, n, if i == 1 then latest else t, Name(i - 1), t, Bucket(t, 0), t);
    }
  }

  /** A newcomer at t, the end of CLIENT's window, takes its place; CLIENT, whose clock was read
      earlier, takes it back with a window that opens at now. */
  lemma Reopen(p: Probe, others: Buckets, b: Bucket, n: nat, latest: nat, t: nat, now: nat)
    requires Reached(p, others[CLIENT := b], n, latest) && |others| == MAX_BUCKETS - 1 && p.limit > 0
    requires CLIENT !in others && NEWCOMER !in others
    requires latest <= t == b.start + p.window && now <= t <= now + p.skew
    ensures Reached(p, others[CLIENT := Bucket(now, 1)], if p.Counts(now) then n + 1 else n, t)
  {
    hide Reached;
    var m, m' := others[CLIENT := b], others[NEWCOMER := Bucket(t, 1)];
    OneMore(others, CLIENT, b);
    OneMore(others, NEWCOMER, Bucket(t, 1));
    assert RoomMade(m, others) && RoomMade(m', others);
    Extend(p, m, others, n, latest, NEWCOMER, t, Bucket(t, 0), t);
    Extend(p, m', others, n, t, CLIENT, now, Bucket(now, 0), t);
  }

  lemma Later(p: Probe, m: Buckets, n: nat, latest: nat, latest': nat)
    requires Reached(p, m, n, latest) && latest <= latest'
    ensures Reached(p, m, n, latest')
  {
    var ms, evs :| Shows(p, ms, evs, m, n, latest);
    assert Shows(p, ms, evs, m, n, latest');
  }

  /** A window opened at 0 takes its other admissions in its last instant. */
  lemma FirstWindow(p: Probe)
    requires p.limit > 0 && p.window > 0 && (p.limit > 1 ==> p.Counts(p.window - 1))
    ensures Reached(p, map[CLIENT := Bucket(0, p.limit)], p.limit - 1 + if p.Counts(0) then 1 else 0, p.window - 1)
  {
    hide Reached;
    NothingReached(p);
    Extend(p, map[], map[], 0, 0, CLIENT, 0, Bucket(0, 0), 0);
    var n: nat := if p.Counts(0) then 1 else 0;
    Later(p, map[CLIENT := Bucket(0, 1)], n, 0, p.window - 1);
    Serve(p, map[], 0, 1, p.limit - 1, n, p.window - 1, p.window - 1);
  }

  /** The window opened at 0 is dropped at its end; the next one opens `early` before that, and
      the one after it, dropped in the same way, `late` before its predecessor's end. */
  lemma ThreeWindows(p: Probe, early: nat, late: nat) returns (m: Buckets, n: nat, latest: nat)
    requires p.limit > 0 && p.window > 0 && early <= p.window && late <= p.window
    requires early <= p.skew && late <= p.skew
    requires p.lo <= p.hi == 2 * p.window - early - late
    requires if p.limit == 1 then p.lo == 0 else p.lo == p.window - 1
    ensures Reached(p, m, n, latest)
    ensures n >= 3 * p.limit - if p.limit == 1 then 0 else if early <= 1 then 1 else 2
  {
    hide Reached, Others;
    var w, rest, size: nat := p.window, p.limit - 1, MAX_BUCKETS - 1;
    FirstWindow(p);
    n := rest + if p.Counts(0) then 1 else 0;
    Fill(p, Bucket(0, p.limit), n, w - 1, w, size);
    var others := Others(size, Bucket(w, 1));
    OthersAreOthers(size, Bucket(w, 1));
    Reopen(p, others, Bucket(0, p.limit), n, w, w, w - early);
    n := if p.Counts(w - early) then n + 1 else n;
    Serve(p, others, w - early, 1, rest, n, w, if early == 0 then w else w - 1);
    n := if p.Counts(if early == 0 then w else w - 1) then n + rest else n;
    Reopen(p, others, Bucket(w - early, p.limit), n, w, 2 * w - early, p.hi);
    Serve(p, others, p.hi, 1, rest, n + 1, 2 * w - early, p.hi);
    m, n, latest := others[CLIENT := Bucket(p.hi, p.limit)], n + 1 + rest, 2 * w - early;
  }

  lemma ThreeWindowsBreakTwice(p: Probe, early: nat, late: nat, len: int)
    requires p.window > 0 && early <= p.window && late <= p.window && early <= p.skew && late <= p.skew
    requires p.lo <= p.hi == 2 * p.window - early - late && p.hi - p.lo <= len
    requires if p.limit == 1 then p.lo == 0 else p.lo == p.window - 1
    requires p.limit == 1 || (p.limit == 2 && early <= 1) || p.limit >= 3
    ensures !AtMostTwice(p.limit, p.window, p.skew, len)
  {
    hide IsRun, KeyKept, CountIn, Admitted;
    var m, n, latest := ThreeWindows(p, early, late);
    var ms, evs :| Shows(p, ms, evs, m, n, latest);
    assert CountIn(Admitted(ms, evs, CLIENT), p.lo, p.hi) > 2 * p.limit;
  }

  /** Twice the limit is the most any closed interval len long can see, in all runs of a client:
      exactly when len does not exceed a window less twice the skew (a limit of one sees two
      openings a window apart and does better; for a limit of two see the next lemma). */
  lemma TwiceHoldsExactlyWhen(limit: nat, window: nat, skew: nat, len: int)
    requires window > 0 && limit != 2
    ensures AtMostTwice(limit, window, skew, len) <==>
      limit == 0 || len < 0 || len <= if limit == 1 then 2 * (window - skew) - 1 else window - 2 * skew
  {
    hide AtMostTwice;
    if limit == 0 || len < 0 || len <= if limit == 1 then 2 * (window - skew) - 1 else window - 2 * skew {
      TwiceHolds(limit, window, skew, len);
    } else {
      var early: nat := if skew <= window then skew else window;
      if limit == 1 {
        ThreeWindowsBreakTwice(Probe(1, window, skew, 0, 2 * window - 2 * early), early, early, len);
      } else {
        var late: nat := if skew <= window + 1 - early then skew else window + 1 - early;
        ThreeWindowsBreakTwice(Probe(limit, window, skew, window - 1, 2 * window - early - late), early, late, len);
      }
    }
  }

  /** Twice the limit per window, the classic bound of a fixed-window counter, holds of all runs
      only while the clock is read in lock order, or for a limit of none, or of one and a skew
      below half a window. */
  lemma TwiceAWindowHoldsIff(limit: nat, window: nat, skew: nat)
    requires window > 0
    ensures AtMostTwice(limit, window, skew, window) <==>
      limit == 0 || skew == 0 || (limit == 1 && 2 * skew < window)
  {
    hide AtMostTwice;
    if limit != 2 {
      TwiceHoldsExactlyWhen(limit, window, skew, window);
    } else if skew == 0 {
      TwiceHolds(limit, window, skew, window);
    } else {
      ThreeWindowsBreakTwice(Probe(2, window, skew, window - 1, 2 * window - 1), 1, 0, window);
    }
  }
}
