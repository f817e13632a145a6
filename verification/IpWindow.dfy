/** The per-IP login window: a sliding log of admissions, compacted in place
    (backend/internal/auth/ratelimit.go). */
module IpWindow {
  import opened Clock
  import opened Crowd

  const LOGIN_WINDOW: nat := MINUTE
  const MAX_PER_IP: nat := 5
  const MAX_ENTRIES: nat := 10_000

  /** The instants of s later than cutoff, in order. */
  function After(s: seq<nat>, cutoff: int): (r: seq<nat>)
    ensures |r| <= |s|
  {
    if s == [] then []
    else
      var t := s[|s| - 1];
      After(s[..|s| - 1], cutoff) + if t > cutoff then [t] else []
  }

  type Logs = map<string, seq<nat>>

  function LogOf(m: Logs, key: string): seq<nat> {
    if key in m then m[key] else []
  }

  /** m' is what is left of m once room has been made for one more key. */
  ghost predicate RoomMade(m: Logs, m': Logs) {
    && m'.Keys <= m.Keys
    && (forall k | k in m' :: m'[k] == m[k])
    && (|m| < MAX_ENTRIES ==> m' == m)
    && |m'| < MAX_ENTRIES
  }

  ghost predicate Roomy(m: Logs, key: string, room: Logs) {
    if key in m then room == m else RoomMade(m, room)
  }

  ghost predicate AllowStep(m: Logs, key: string, now: nat, m': Logs, ok: bool) {
    var log := After(LogOf(m, key), now - LOGIN_WINDOW);
    && ok == (|log| < MAX_PER_IP)
    && exists room :: Roomy(m, key, room) && m' == room[key := if ok then log + [now] else log]
  }

  /** A Go slice: the first len elements of a backing array. */
  datatype Slice = Slice(buf: array<nat>, len: nat)

  ghost predicate Holds(s: Slice, contents: seq<nat>)
    reads s.buf
  {
    s.len <= s.buf.Length && s.buf[..s.len] == contents
  }

  /** kept := s[:0], then append every element later than cutoff: the writes land in s's own array. */
  method Compact(s: Slice, cutoff: int) returns (kept: Slice)
    requires s.len <= s.buf.Length
    modifies s.buf
    ensures kept.buf == s.buf && kept.len <= s.len
    ensures kept.buf[..kept.len] == After(old(s.buf[..s.len]), cutoff)
  {
    var w := 0;
    ghost var before := s.buf[..s.len];
    for i := 0 to s.len
      invariant w <= i
      invariant s.buf[..w] == After(before[..i], cutoff)
      invariant forall j | i <= j < s.len :: s.buf[j] == before[j]
    {
      assert before[..i + 1][..i] == before[..i];
      if s.buf[i] > cutoff {
        s.buf[w] := s.buf[i];
        w := w + 1;
      }
    }
    assert before[..s.len] == before;
    kept := Slice(s.buf, w);
  }

  /** Go's append: in place while there is capacity, otherwise into a larger copy. */
  method Append(s: Slice, t: nat) returns (r: Slice)
    requires s.len <= s.buf.Length
    modifies s.buf
    ensures r.len == s.len + 1 <= r.buf.Length
    ensures r.buf == s.buf || fresh(r.buf)
    ensures r.buf[..r.len] == old(s.buf[..s.len]) + [t]
  {
    if s.len < s.buf.Length {
      s.buf[s.len] := t;
      return Slice(s.buf, s.len + 1);
    }
    var copy := new nat[2 * s.len + 1](_ => 0);
    for i := 0 to s.len
      invariant forall j | 0 <= j < i :: copy[j] == s.buf[j]
      invariant s.buf[..s.len] == old(s.buf[..s.len])
    {
      copy[i] := s.buf[i];
    }
    copy[s.len] := t;
    return Slice(copy, s.len + 1);
  }

  ghost predicate SlotOk(owner: map<array<nat>, string>, key: string, s: Slice, log: seq<nat>)
    reads s.buf
  {
    s.buf in owner && owner[s.buf] == key && Holds(s, log)
  }

  ghost predicate AllOk(owner: map<array<nat>, string>, attempts: map<string, Slice>, logs: Logs)
    requires logs.Keys == attempts.Keys
    reads owner.Keys
  {
    forall k | k in attempts :: attempts[k].buf in owner && SlotOk(owner, k, attempts[k], logs[k])
  }

  lemma OkWithout(owner: map<array<nat>, string>, attempts: map<string, Slice>, logs: Logs, key: string)
    requires logs.Keys == attempts.Keys && AllOk(owner, attempts, logs)
    ensures AllOk(owner, attempts - {key}, logs - {key})
  {
    hide SlotOk;
  }

  lemma OkWith(owner: map<array<nat>, string>, attempts: map<string, Slice>, logs: Logs, key: string, s: Slice, held: seq<nat>)
    requires logs.Keys == attempts.Keys && Holds(s, held)
    requires forall j | j in attempts && j != key ::
      attempts[j].buf in owner && SlotOk(owner, j, attempts[j], logs[j]) && attempts[j].buf != s.buf
    ensures AllOk(owner[s.buf := key], attempts[key := s], logs[key := held])
  {
    hide Holds;
  }

  ghost predicate Fits(m: map<string, Slice>) {
    |m| <= MAX_ENTRIES
  }

  /** key is in m, or there is room for it. */
  ghost predicate FitsWith(m: map<string, Slice>, key: string) {
    Fits(m) && (key in m || |m| < MAX_ENTRIES)
  }

  lemma OneMoreFits(m: map<string, Slice>, key: string, s: Slice)
    requires FitsWith(m, key)
    ensures Fits(m[key := s])
  {
    assert m[key := s].Keys == m.Keys + {key};
    if key in m {
      assert m[key := s].Keys == m.Keys;
    }
  }

  lemma OneFewerFits(m: map<string, Slice>, key: string)
    requires Fits(m)
    ensures Fits(m - {key})
  {
    var rest := m - {key};
    assert m.Keys == rest.Keys + m.Keys * {key};
    assert |m.Keys| == |rest.Keys| + |m.Keys * {key}|;
  }

  /** No instant of the log is later than cutoff. */
  predicate IsStale(log: seq<nat>, cutoff: int) {
    log == [] || log[|log| - 1] <= cutoff
  }

  class IpLimiter {
    var attempts: map<string, Slice>
    var lastPrune: nat
    /** What the slices hold, and which key each backing array belongs to. */
    ghost var logs: Logs
    ghost var owner: map<array<nat>, string>

    /** The map is within its cap; each key's slice is in bounds and shares its array with no
        other key. */
    ghost predicate Valid()
      reads this, owner.Keys
    {
      logs.Keys == attempts.Keys && Fits(attempts) && AllOk(owner, attempts, logs)
    }

    constructor ()
      ensures Valid() && fresh(owner.Keys) && logs == map[]
    {
      attempts, lastPrune, logs, owner := map[], 0, map[], map[];
    }

    method Allow(key: string, now: nat) returns (ok: bool)
      requires Valid()
      modifies this, owner.Keys
      ensures Valid() && fresh(owner.Keys - old(owner.Keys))
      ensures AllowStep(old(logs), key, now, logs, ok)
    {
      hide After;
      var cutoff := now - LOGIN_WINDOW;
      if key !in attempts {
        MakeRoomForIP(now, cutoff);
      }
      assert Roomy(old(logs), key, logs);
      assert LogOf(logs, key) == LogOf(old(logs), key);
      ok := Admit(key, now, cutoff);
    }

    /** Compact key's log in place and, if it has room, append now. */
    method Admit(key: string, now: nat, cutoff: int) returns (ok: bool)
      requires Valid() && FitsWith(attempts, key)
      modifies this, owner.Keys
      ensures Valid() && fresh(owner.Keys - old(owner.Keys))
      ensures var log := After(LogOf(old(logs), key), cutoff);
        && ok == (|log| < MAX_PER_IP)
        && logs == old(logs)[key := if ok then log + [now] else log]
    {
      hide After;
      var log;
      if key in attempts {
        log := attempts[key];
      } else {
        var empty := new nat[0];
        log := Slice(empty, 0);
      }
      ghost var filtered := After(LogOf(logs, key), cutoff);
      assert Holds(log, LogOf(logs, key));
      assert forall j | j in attempts && j != key :: attempts[j].buf != log.buf;
      var kept := Compact(log, cutoff);
      ok := kept.len < MAX_PER_IP;
      if ok {
        kept := Append(kept, now);
      }
      ghost var held := if ok then filtered + [now] else filtered;
      assert Holds(kept, held);
      Put(key, kept, held);
    }

    method Put(key: string, s: Slice, ghost held: seq<nat>)
      requires logs.Keys == attempts.Keys && FitsWith(attempts, key)
      requires forall j | j in attempts && j != key ::
        attempts[j].buf in owner && SlotOk(owner, j, attempts[j], logs[j]) && attempts[j].buf != s.buf
      requires Holds(s, held)
      modifies this`attempts, this`owner, this`logs
      ensures Valid() && logs == old(logs)[key := held] && owner == old(owner)[s.buf := key]
    {
      hide Holds, Fits, FitsWith, SlotOk, AllOk;
      var more := attempts[key := s];
      OkWith(owner, attempts, logs, key, s, held);
      OneMoreFits(attempts, key, s);
      assert Fits(more);
      attempts := more;
      owner := owner[s.buf := key];
      logs := logs[key := held];
    }

    method MakeRoomForIP(now: nat, cutoff: int)
      requires Valid()
      modifies this`attempts, this`logs, this`lastPrune
      ensures Valid() && RoomMade(old(logs), logs) && |attempts| < MAX_ENTRIES
      ensures var swept := |old(attempts)| >= MAX_ENTRIES && now - old(lastPrune) >= PRUNE_EVERY;
        && lastPrune == (if swept then now else old(lastPrune))
        && (swept ==> forall k | k in logs :: !IsStale(logs[k], cutoff))
        && forall k | k in old(logs) && k !in logs ::
             (swept && IsStale(old(logs)[k], cutoff)) || |attempts| == MAX_ENTRIES - 1
    {
      if |attempts| < MAX_ENTRIES {
        return;
      }
      if now - lastPrune >= PRUNE_EVERY {
        lastPrune := now;
        Sweep(cutoff);
      }
      Evict();
    }

    method Sweep(cutoff: int)
      requires Valid()
      modifies this`attempts, this`logs
      ensures Valid() && logs.Keys <= old(logs.Keys)
      ensures forall k | k in logs :: logs[k] == old(logs)[k]
      ensures forall k | k in old(logs) :: k in logs <==> !IsStale(old(logs)[k], cutoff)
    {
      hide AllOk, SlotOk, Fits, IsStale;
      var todo := attempts.Keys;
      while todo != {}
        invariant Valid() && logs.Keys <= old(logs.Keys) && todo <= logs.Keys
        invariant forall k | k in logs :: logs[k] == old(logs)[k]
        invariant forall k | k in old(logs) :: k in logs <==> k in todo || !IsStale(old(logs)[k], cutoff)
      {
        var k :| k in todo;
        todo := todo - {k};
        var stale := Stale(k, cutoff);
        if stale {
          Reset(k);
        }
      }
    }

    method Evict()
      requires Valid()
      modifies this`attempts, this`logs
      ensures Valid() && logs.Keys <= old(logs.Keys) && |attempts| < MAX_ENTRIES
      ensures forall k | k in logs :: logs[k] == old(logs)[k]
      ensures logs == old(logs) || |attempts| == MAX_ENTRIES - 1
    {
      hide AllOk, SlotOk;
      while |attempts| >= MAX_ENTRIES
        invariant Valid() && logs.Keys <= old(logs.Keys)
        invariant forall k | k in logs :: logs[k] == old(logs)[k]
        invariant logs == old(logs) || |attempts| >= MAX_ENTRIES - 1
        decreases logs.Keys
      {
        var k :| k in attempts;
        Reset(k);
      }
    }

    method Stale(key: string, cutoff: int) returns (stale: bool)
      requires Valid() && key in attempts
      ensures stale <==> IsStale(logs[key], cutoff)
    {
      var ts := attempts[key];
      assert Holds(ts, logs[key]);
      stale := ts.len == 0 || ts.buf[ts.len - 1] <= cutoff;
    }

    /** Reset, and every delete(attempts, key). */
    method Reset(key: string)
      requires Valid()
      modifies this`attempts, this`logs
      ensures Valid() && logs == old(logs) - {key}
    {
      hide AllOk, Fits;
      var rest := attempts - {key};
      OkWithout(owner, attempts, logs, key);
      OneFewerFits(attempts, key);
      assert Fits(rest);
      attempts := rest;
      logs := logs - {key};
    }
  }

  // ---- runs ------------------------------------------------------------------------

  datatype Event = Allow(key: string, now: nat, ok: bool) | Reset(key: string, now: nat)

  ghost predicate Step(m: Logs, ev: Event, m': Logs) {
    match ev
    case Allow(key, now, ok) => AllowStep(m, key, now, m', ok)
    case Reset(key, now) => m' == m - {key}
  }

  /** evs leads through ms from an empty map. Instants are read before the mutex is taken, so in
      the order of the events one may lie up to skew before an earlier one. */
  ghost predicate IsRun(ms: seq<Logs>, evs: seq<Event>, skew: nat) {
    && |ms| == |evs| + 1
    && ms[0] == map[]
    && (forall i | 0 <= i < |evs| :: Step(ms[i], evs[i], ms[i + 1]))
    && (forall i, j | 0 <= i <= j < |evs| :: evs[i].now <= evs[j].now + skew)
  }

  /** When a key's log may leave the map: never, by a sweep only, or once all its admissions lie
      before the last minute but for slack. */
  datatype Keeping = Always | Swept | Within(slack: nat)

  /** A sweep looks at the last admission logged. */
  predicate MayDrop(rule: Keeping, log: seq<nat>, now: nat) {
    match rule
    case Always => false
    case Swept => IsStale(log, now - LOGIN_WINDOW)
    case Within(slack) => After(log, now - LOGIN_WINDOW + slack) == []
  }

  /** k is not reset, nor dropped but as the rule allows. */
  ghost predicate Kept(ms: seq<Logs>, evs: seq<Event>, k: string, rule: Keeping)
    requires |ms| == |evs| + 1
  {
    forall i | 0 <= i < |evs| ::
      && !(evs[i].Reset? && evs[i].key == k)
      && (k in ms[i] && k !in ms[i + 1] ==> MayDrop(rule, ms[i][k], evs[i].now))
  }

  /** Every admission of k, ever, in the order they were made. */
  function Admitted(evs: seq<Event>, k: string): seq<nat> {
    if evs == [] then []
    else
      var ev := evs[|evs| - 1];
      Admitted(evs[..|evs| - 1], k) + if ev.Allow? && ev.key == k && ev.ok then [ev.now] else []
  }

  /** How many of s lie from lo to hi, both included. */
  function CountIn(s: seq<nat>, lo: int, hi: int): nat {
    if s == [] then 0
    else CountIn(s[..|s| - 1], lo, hi) + if lo <= s[|s| - 1] <= hi then 1 else 0
  }

  lemma {:induction false} AfterTwice(s: seq<nat>, c: int, d: int)
    ensures |After(After(s, c), d)| <= |After(s, d)|
    ensures c <= d ==> After(After(s, c), d) == After(s, d)
  {
    if s != [] {
      var init, t := s[..|s| - 1], s[|s| - 1];
      assert s == init + [t];
      AfterTwice(init, c, d);
      AfterSnoc(After(init, c), t, d);
      assert t <= c ==> After(s, c) == After(init, c);
    }
  }

  lemma AfterOfNothing(d: int)
    ensures After([], d) == []
  {
  }

  lemma AfterSnoc(s: seq<nat>, t: nat, c: int)
    ensures After(s + [t], c) == After(s, c) + if t > c then [t] else []
  {
    assert (s + [t])[..|s|] == s;
  }

  lemma AdmittedSnoc(evs: seq<Event>, k: string, n: nat)
    requires 0 < n <= |evs|
    ensures var ev := evs[n - 1];
      Admitted(evs[..n], k) ==
        if ev.Allow? && ev.key == k && ev.ok then Admitted(evs[..n - 1], k) + [ev.now] else Admitted(evs[..n - 1], k)
  {
    assert evs[..n][..n - 1] == evs[..n - 1];
  }

  lemma CountSnoc(s: seq<nat>, t: nat, lo: int, hi: int)
    ensures CountIn(s + [t], lo, hi) == CountIn(s, lo, hi) + if lo <= t <= hi then 1 else 0
  {
    assert (s + [t])[..|s|] == s;
  }

  lemma {:induction false} CountedLieAfter(s: seq<nat>, lo: int, hi: int, c: int)
    requires c < lo
    ensures CountIn(s, lo, hi) <= |After(s, c)|
  {
    if s != [] {
      CountedLieAfter(s[..|s| - 1], lo, hi, c);
    }
  }

  lemma StepEffect(m: Logs, ev: Event, m': Logs, k: string)
    requires Step(m, ev, m')
    ensures ev.Allow? && ev.key == k ==>
      var kept := After(LogOf(m, k), ev.now - LOGIN_WINDOW);
      ev.ok == (|kept| < MAX_PER_IP) && LogOf(m', k) == if ev.ok then kept + [ev.now] else kept
    ensures ev.key != k && k in m' ==> k in m && m'[k] == m[k]
  {
  }

  /** What the last event of a run did to k's log. */
  lemma RunEffect(ms: seq<Logs>, evs: seq<Event>, k: string, skew: nat, slack: nat, n: nat)
    requires IsRun(ms, evs, skew) && Kept(ms, evs, k, Within(slack)) && 0 < n <= |evs|
    ensures var ev, log := evs[n - 1], LogOf(ms[n - 1], k);
      var kept := After(log, ev.now - LOGIN_WINDOW);
      if ev.Allow? && ev.key == k then
        ev.ok == (|kept| < MAX_PER_IP) && LogOf(ms[n], k) == if ev.ok then kept + [ev.now] else kept
      else LogOf(ms[n], k) == log || (LogOf(ms[n], k) == [] == After(log, ev.now - LOGIN_WINDOW + slack))
  {
    StepEffect(ms[n - 1], evs[n - 1], ms[n], k);
    hide Step, After;
    AfterOfNothing(evs[n - 1].now - LOGIN_WINDOW + slack);
  }

  lemma StartsEmpty(ms: seq<Logs>, evs: seq<Event>, k: string, skew: nat)
    requires |ms| == |evs| + 1 && IsRun(ms, evs, skew)
    ensures LogOf(ms[0], k) == []
  {
  }

  /** Beyond every cutoff used so far, the compacted, pruned log and the full history agree. */
  lemma {:induction false} LogRemembersTheWindow(
    ms: seq<Logs>, evs: seq<Event>, k: string, skew: nat, slack: nat, n: nat, d: int)
    requires |ms| == |evs| + 1 && IsRun(ms, evs, skew) && Kept(ms, evs, k, Within(slack)) && n <= |evs|
    requires forall i | 0 <= i < n :: evs[i].now - LOGIN_WINDOW + slack <= d
    ensures After(LogOf(ms[n], k), d) == After(Admitted(evs[..n], k), d)
  {
    hide IsRun, Kept, After, LogOf;
    StartsEmpty(ms, evs, k, skew);
    assert evs[..0] == [];
    if n > 0 {
      RunEffect(ms, evs, k, skew, slack, n);
      AdmittedSnoc(evs, k, n);
      hide Admitted;
      var ev, c := evs[n - 1], evs[n - 1].now - LOGIN_WINDOW;
      var log, history := LogOf(ms[n - 1], k), Admitted(evs[..n - 1], k);
      LogRemembersTheWindow(ms, evs, k, skew, slack, n - 1, d);
      AfterTwice(log, c, d);
      AfterTwice(log, c + slack, d);
      AfterOfNothing(d);
      AfterSnoc(After(log, c), ev.now, d);
      AfterSnoc(history, ev.now, d);
    }
  }

  /** The log never holds more than the history. */
  lemma {:induction false} LogIsPartOfHistory(
    ms: seq<Logs>, evs: seq<Event>, k: string, skew: nat, slack: nat, n: nat, d: int)
    requires |ms| == |evs| + 1 && IsRun(ms, evs, skew) && Kept(ms, evs, k, Within(slack)) && n <= |evs|
    ensures |After(LogOf(ms[n], k), d)| <= |After(Admitted(evs[..n], k), d)|
  {
    hide IsRun, Kept, After, LogOf;
    StartsEmpty(ms, evs, k, skew);
    AfterOfNothing(d);
    assert evs[..0] == [];
    if n > 0 {
      RunEffect(ms, evs, k, skew, slack, n);
      AdmittedSnoc(evs, k, n);
      hide Admitted;
      var ev, c := evs[n - 1], evs[n - 1].now - LOGIN_WINDOW;
      var log, history := LogOf(ms[n - 1], k), Admitted(evs[..n - 1], k);
      LogIsPartOfHistory(ms, evs, k, skew, slack, n - 1, d);
      AfterTwice(log, c, d);
      AfterSnoc(After(log, c), ev.now, d);
      AfterSnoc(history, ev.now, d);
    }
  }

  /** A request is admitted if fewer than five of the whole history's admissions fall in the last
      minute, and only if fewer than five fall in the last minute but skew and slack: with clocks
      read in lock order, exactly when. */
  lemma AllowRefinesFullHistory(ms: seq<Logs>, evs: seq<Event>, k: string, skew: nat, slack: nat, n: nat)
    requires |ms| == |evs| + 1 && IsRun(ms, evs, skew) && Kept(ms, evs, k, Within(slack)) && n < |evs|
    requires evs[n].Allow? && evs[n].key == k
    ensures |After(Admitted(evs[..n], k), evs[n].now - LOGIN_WINDOW)| < MAX_PER_IP ==> evs[n].ok
    ensures evs[n].ok ==> |After(Admitted(evs[..n], k), evs[n].now - LOGIN_WINDOW + skew + slack)| < MAX_PER_IP
  {
    hide Kept, After, Admitted, Step;
    var c := evs[n].now - LOGIN_WINDOW;
    RunEffect(ms, evs, k, skew, slack, n + 1);
    LogIsPartOfHistory(ms, evs, k, skew, slack, n, c);
    LogRemembersTheWindow(ms, evs, k, skew, slack, n, c + skew + slack);
    AfterShrinks(LogOf(ms[n], k), c, c + skew + slack);
  }

  lemma {:induction false} AfterShrinks(s: seq<nat>, c: int, d: int)
    requires c <= d
    ensures |After(s, d)| <= |After(s, c)|
  {
    if s != [] {
      AfterShrinks(s[..|s| - 1], c, d);
    }
  }

  /** No stretch shorter than a minute less skew and slack, wherever it lies, holds more than
      five admissions of one client. */
  lemma {:induction false} NoStretchAdmitsMoreThanFive(
    ms: seq<Logs>, evs: seq<Event>, k: string, skew: nat, slack: nat, n: nat, lo: int, hi: int)
    requires |ms| == |evs| + 1 && IsRun(ms, evs, skew) && Kept(ms, evs, k, Within(slack)) && n <= |evs|
    requires hi - lo < LOGIN_WINDOW - skew - slack
    ensures CountIn(Admitted(evs[..n], k), lo, hi) <= MAX_PER_IP
  {
    hide IsRun, Kept, After, CountIn, Admitted;
    if n == 0 {
      NothingAdmitted(k, lo, hi);
      assert evs[..0] == [];
    } else {
      NoStretchAdmitsMoreThanFive(ms, evs, k, skew, slack, n - 1, lo, hi);
      AdmittedSnoc(evs, k, n);
      var ev, history := evs[n - 1], Admitted(evs[..n - 1], k);
      if ev.Allow? && ev.key == k && ev.ok {
        CountSnoc(history, ev.now, lo, hi);
        if lo <= ev.now <= hi {
          AllowRefinesFullHistory(ms, evs, k, skew, slack, n - 1);
          CountedLieAfter(history, lo, hi, ev.now - LOGIN_WINDOW + skew + slack);
        }
      }
    }
  }

  lemma NothingAdmitted(k: string, lo: int, hi: int)
    ensures CountIn(Admitted([], k), lo, hi) == 0
  {
  }

  // ---- what a sweep may drop ------------------------------------------------------------------

  /** Each instant of the log lies at most skew after any later one, and after `now`. */
  ghost predicate SkewOrdered(log: seq<nat>, skew: nat, now: int) {
    && (forall i, j | 0 <= i <= j < |log| :: log[i] <= log[j] + skew)
    && (forall i | 0 <= i < |log| :: log[i] <= now + skew)
  }

  lemma {:induction false} AfterIsOrdered(log: seq<nat>, c: int, skew: nat, now: int)
    requires SkewOrdered(log, skew, now)
    ensures SkewOrdered(After(log, c), skew, now)
    ensures forall i | 0 <= i < |After(log, c)| :: exists j :: 0 <= j < |log| && log[j] == After(log, c)[i]
  {
    if log != [] {
      var init := log[..|log| - 1];
      AfterIsOrdered(init, c, skew, now);
      forall i | 0 <= i < |After(log, c)|
        ensures exists j :: 0 <= j < |log| && log[j] == After(log, c)[i]
      {
        if i < |After(init, c)| {
          var j :| 0 <= j < |init| && init[j] == After(init, c)[i];
          assert log[j] == After(log, c)[i];
        } else {
          assert log[|log| - 1] == After(log, c)[i];
        }
      }
      forall i | 0 <= i < |After(init, c)|
        ensures After(init, c)[i] <= log[|log| - 1] + skew
      {
        var j :| 0 <= j < |init| && init[j] == After(init, c)[i];
        assert log[j] <= log[|log| - 1] + skew;
      }
    }
  }

  lemma {:induction false} LogIsSkewOrdered(ms: seq<Logs>, evs: seq<Event>, k: string, skew: nat, n: nat, now: int)
    requires |ms| == |evs| + 1 && IsRun(ms, evs, skew) && n <= |evs|
    requires forall i | 0 <= i < n :: evs[i].now <= now + skew
    ensures SkewOrdered(LogOf(ms[n], k), skew, now)
  {
    hide Step, After;
    if n == 0 {
      StartsEmpty(ms, evs, k, skew);
    } else {
      var ev := evs[n - 1];
      LogIsSkewOrdered(ms, evs, k, skew, n - 1, now);
      LogIsSkewOrdered(ms, evs, k, skew, n - 1, ev.now);
      AfterIsOrdered(LogOf(ms[n - 1], k), ev.now - LOGIN_WINDOW, skew, now);
      AfterIsOrdered(LogOf(ms[n - 1], k), ev.now - LOGIN_WINDOW, skew, ev.now);
      StepKeepsLogs(ms[n - 1], ev, ms[n], k);
    }
  }

  lemma StepKeepsLogs(m: Logs, ev: Event, m': Logs, k: string)
    requires Step(m, ev, m')
    ensures var kept := After(LogOf(m, k), ev.now - LOGIN_WINDOW);
      LogOf(m', k) in {[], LogOf(m, k), kept, kept + [ev.now]}
  {
    StepEffect(m, ev, m', k);
  }

  lemma {:induction false} NothingAfter(log: seq<nat>, c: int)
    requires forall i | 0 <= i < |log| :: log[i] <= c
    ensures After(log, c) == []
  {
    if log != [] {
      NothingAfter(log[..|log| - 1], c);
    }
  }

  /** A sweep drops nothing later than its cutoff by more than the skew. */
  lemma SweepsCostTheSkew(ms: seq<Logs>, evs: seq<Event>, k: string, skew: nat)
    requires |ms| == |evs| + 1 && IsRun(ms, evs, skew) && Kept(ms, evs, k, Swept)
    ensures Kept(ms, evs, k, Within(skew))
  {
    hide Step, After;
    forall i | 0 <= i < |evs| && k in ms[i] && IsStale(ms[i][k], evs[i].now - LOGIN_WINDOW)
      ensures After(ms[i][k], evs[i].now - LOGIN_WINDOW + skew) == []
    {
      LogIsSkewOrdered(ms, evs, k, skew, i, evs[i].now);
      NothingAfter(ms[i][k], evs[i].now - LOGIN_WINDOW + skew);
    }
  }

  /** While an address is neither reset nor evicted for room, no stretch shorter than a minute
      less twice the skew holds more than five of its admissions. */
  lemma NoMinuteAdmitsMoreThanFive(ms: seq<Logs>, evs: seq<Event>, k: string, skew: nat, lo: int, hi: int)
    requires |ms| == |evs| + 1 && IsRun(ms, evs, skew) && Kept(ms, evs, k, Swept)
    requires hi - lo < LOGIN_WINDOW - 2 * skew
    ensures CountIn(Admitted(evs, k), lo, hi) <= MAX_PER_IP
  {
    hide IsRun, Kept, CountIn, Admitted;
    SweepsCostTheSkew(ms, evs, k, skew);
    NoStretchAdmitsMoreThanFive(ms, evs, k, skew, skew, |evs|, lo, hi);
    assert evs[..|evs|] == evs;
  }

  lemma {:induction false} AdmittedIsSorted(ms: seq<Logs>, evs: seq<Event>, k: string, n: nat)
    requires IsRun(ms, evs, 0) && n <= |evs|
    ensures var h := Admitted(evs[..n], k);
      && (forall i, j | 0 <= i <= j < |h| :: h[i] <= h[j])
      && (forall i | 0 <= i < |h| :: n > 0 && h[i] <= evs[n - 1].now)
  {
    if n > 0 {
      hide Step, Admitted;
      AdmittedIsSorted(ms, evs, k, n - 1);
      AdmittedSnoc(evs, k, n);
      assert n > 1 ==> evs[n - 2].now <= evs[n - 1].now;
    }
  }

  lemma {:induction false} SortedRangeIsCounted(s: seq<nat>, i: nat, n: nat, hi: int)
    requires i < n <= |s| && (forall p, q | 0 <= p <= q < |s| :: s[p] <= s[q]) && s[n - 1] <= hi
    ensures CountIn(s[..n], s[i], hi) >= n - i
    decreases n
  {
    assert s[..n][..n - 1] == s[..n - 1];
    if i < n - 1 {
      SortedRangeIsCounted(s, i, n - 1, hi);
    }
  }

  /** With clocks read in lock order, six admissions of one client span at least a minute. */
  lemma SixAdmissionsSpanAMinute(ms: seq<Logs>, evs: seq<Event>, k: string, i: nat)
    requires |ms| == |evs| + 1 && IsRun(ms, evs, 0) && Kept(ms, evs, k, Swept)
    requires i + MAX_PER_IP < |Admitted(evs, k)|
    ensures Admitted(evs, k)[i + MAX_PER_IP] - Admitted(evs, k)[i] >= LOGIN_WINDOW
  {
    hide IsRun, Kept, CountIn, Admitted;
    var h := Admitted(evs, k);
    AdmittedIsSorted(ms, evs, k, |evs|);
    assert evs[..|evs|] == evs;
    var lo, hi := h[i], h[i + MAX_PER_IP];
    if hi - lo < LOGIN_WINDOW {
      NoMinuteAdmitsMoreThanFive(ms, evs, k, 0, lo, hi);
      SortedRangeIsCounted(h, i, i + MAX_PER_IP + 1, hi);
      CountGrows(h, i + MAX_PER_IP + 1, lo, hi);
    }
  }

  lemma {:induction false} CountGrows(s: seq<nat>, n: nat, lo: int, hi: int)
    requires n <= |s|
    ensures CountIn(s[..n], lo, hi) <= CountIn(s, lo, hi)
  {
    if n < |s| {
      assert s[..|s| - 1][..n] == s[..n];
      CountGrows(s[..|s| - 1], n, lo, hi);
    } else {
      assert s[..n] == s;
    }
  }

  // ---- exactly when five a minute holds ---------------------------------------------------------

  /** What a rule costs the guarantee, beside the skew itself. */
  function Cost(rule: Keeping, skew: nat): nat {
    match rule
    case Always => 0
    case Swept => skew
    case Within(slack) => slack
  }

  /** No run has more than five admissions of a client in a stretch shorter than len. */
  ghost predicate AlwaysFive(skew: nat, rule: Keeping, len: int) {
    forall ms, evs, k, lo, hi |
      |ms| == |evs| + 1 && IsRun(ms, evs, skew) && Kept(ms, evs, k, rule) && hi - lo < len ::
      CountIn(Admitted(evs, k), lo, hi) <= 5
  }

  lemma KeptWithinCost(ms: seq<Logs>, evs: seq<Event>, k: string, skew: nat, rule: Keeping)
    requires |ms| == |evs| + 1 && IsRun(ms, evs, skew) && Kept(ms, evs, k, rule)
    ensures Kept(ms, evs, k, Within(Cost(rule, skew)))
  {
    hide IsRun, After;
    if rule.Swept? {
      SweepsCostTheSkew(ms, evs, k, skew);
    }
  }

  /** What a run is to show: CLIENT's admissions from lo to hi, under this skew and rule. */
  datatype Probe = Probe(skew: nat, rule: Keeping, lo: nat, hi: nat)

  ghost predicate Shows(p: Probe, ms: seq<Logs>, evs: seq<Event>, m: Logs, n: nat, latest: nat) {
    && |ms| == |evs| + 1 && ms[|evs|] == m
    && IsRun(ms, evs, p.skew) && Kept(ms, evs, CLIENT, p.rule)
    && n <= CountIn(Admitted(evs, CLIENT), p.lo, p.hi)
    && forall i | 0 <= i < |evs| :: evs[i].now <= latest
  }

  /** Some run ends in m with at least n of the admissions looked for and no instant past latest. */
  ghost predicate Reached(p: Probe, m: Logs, n: nat, latest: nat) {
    exists ms, evs :: Shows(p, ms, evs, m, n, latest)
  }

  lemma NothingReached(p: Probe, latest: nat)
    ensures Reached(p, map[], 0, latest)
  {
    assert Shows(p, [map[]], [], map[], 0, latest);
  }

  lemma Extend(p: Probe, m: Logs, n: nat, latest: nat, ev: Event, m': Logs, n': nat, latest': nat)
    requires Reached(p, m, n, latest) && Step(m, ev, m') && ev.Allow?
    requires latest <= ev.now + p.skew && latest <= latest' && ev.now <= latest'
    requires CLIENT in m && CLIENT !in m' ==> MayDrop(p.rule, m[CLIENT], ev.now)
    requires n' == n + if ev.key == CLIENT && ev.ok && p.lo <= ev.now <= p.hi then 1 else 0
    ensures Reached(p, m', n', latest')
  {
    hide Step, MayDrop, CountIn, Admitted;
    var ms, evs :| Shows(p, ms, evs, m, n, latest);
    var ms', evs' := ms + [m'], evs + [ev];
    AdmittedSnoc(evs', CLIENT, |evs'|);
    assert evs'[..|evs'|] == evs' && evs'[..|evs|] == evs;
    CountSnoc(Admitted(evs, CLIENT), ev.now, p.lo, p.hi);
    forall i | 0 <= i < |evs'|
      ensures Step(ms'[i], evs'[i], ms'[i + 1])
    {
      assert i < |evs| ==> Step(ms[i], evs[i], ms[i + 1]);
    }
    assert IsRun(ms', evs', p.skew);
    assert Kept(ms', evs', CLIENT, p.rule);
    assert Shows(p, ms', evs', m', n', latest');
  }

  lemma {:induction false} AllAfter(log: seq<nat>, c: int)
    requires forall i | 0 <= i < |log| :: log[i] > c
    ensures After(log, c) == log
  {
    if log != [] {
      var init := log[..|log| - 1];
      AllAfter(init, c);
      assert log == init + [log[|log| - 1]];
    }
  }

  /** A client new to the map, which holds others beside it or has to make room by them. */
  lemma Enter(p: Probe, m: Logs, others: Logs, key: string, n: nat, latest: nat, now: nat, latest': nat)
    requires Reached(p, m, n, latest) && key !in m && RoomMade(m, others)
    requires latest <= now + p.skew && latest <= latest' && now <= latest'
    requires CLIENT in m && CLIENT !in others ==> MayDrop(p.rule, m[CLIENT], now)
    ensures Reached(p, others[key := [now]], n + if key == CLIENT && p.lo <= now <= p.hi then 1 else 0, latest')
  {
    hide MayDrop, RoomMade, Reached;
    AfterOfNothing(now - LOGIN_WINDOW);
    hide After;
    assert Roomy(m, key, others);
    assert [] + [now] == [now];
    assert AllowStep(m, key, now, others[key := [now]], true);
    Extend(p, m, n, latest, Allow(key, now, true), others[key := [now]],
           n + if key == CLIENT && p.lo <= now <= p.hi then 1 else 0, latest');
  }

  /** CLIENT, in the map with this log, is admitted once more. */
  lemma Serve(p: Probe, others: Logs, log: seq<nat>, kept: seq<nat>, n: nat, latest: nat, now: nat, latest': nat)
    requires Reached(p, others[CLIENT := log], n, latest)
    requires latest <= now + p.skew && latest <= latest' && now <= latest'
    requires After(log, now - LOGIN_WINDOW) == kept && |kept| < MAX_PER_IP
    ensures Reached(p, others[CLIENT := kept + [now]], n + if p.lo <= now <= p.hi then 1 else 0, latest')
  {
    hide MayDrop, Reached, After;
    var m := others[CLIENT := log];
    assert Roomy(m, CLIENT, m) && LogOf(m, CLIENT) == log;
    assert others[CLIENT := kept + [now]] == m[CLIENT := kept + [now]];
    assert AllowStep(m, CLIENT, now, others[CLIENT := kept + [now]], true);
    Extend(p, m, n, latest, Allow(CLIENT, now, true), others[CLIENT := kept + [now]],
           n + if p.lo <= now <= p.hi then 1 else 0, latest');
  }

  function Times(t: nat, n: nat): (r: seq<nat>)
    ensures |r| == n && forall i | 0 <= i < n :: r[i] == t
  {
    seq(n, _ => t)
  }

  /** CLIENT is admitted over and over at one instant. */
  lemma {:induction false} ServeTimes(p: Probe, others: Logs, c: nat, times: nat, n: nat, now: nat, latest: nat)
    requires Reached(p, others[CLIENT := Times(now, c)], n, latest)
    requires now <= latest <= now + p.skew && p.lo <= now <= p.hi && c + times <= MAX_PER_IP
    ensures Reached(p, others[CLIENT := Times(now, c + times)], n + times, latest)
  {
    hide Reached, After;
    if times > 0 {
      ServeTimes(p, others, c, times - 1, n, now, latest);
      var log := Times(now, c + times - 1);
      AllAfter(log, now - LOGIN_WINDOW);
      Serve(p, others, log, log, n + times - 1, latest, now, latest);
      assert log + [now] == Times(now, c + times);
    }
  }

  /** Four admissions at t, from the start. */
  lemma FourServed(p: Probe, t: nat)
    requires p.lo <= t <= p.hi
    ensures Reached(p, map[CLIENT := Times(t, 4)], 4, t)
  {
    hide Reached;
    NothingReached(p, t);
    assert RoomMade(map[], map[]);
    Enter(p, map[], map[], CLIENT, 0, t, t, t);
    assert [t] == Times(t, 1);
    ServeTimes(p, map[], 1, 3, 1, t, t);
  }

  /** Other clients fill the map at t. */
  lemma {:induction false} Fill(p: Probe, log: seq<nat>, n: nat, latest: nat, t: nat, i: nat)
    requires Reached(p, map[CLIENT := log], n, latest) && latest <= t && i < MAX_ENTRIES
    ensures Reached(p, Others(i, [t])[CLIENT := log], n, if i == 0 then latest else t)
  {
    hide Reached, MayDrop, Name;
    if i > 0 {
      Fill(p, log, n, latest, t, i - 1);
      var m := Others(i - 1, [t])[CLIENT := log];
      OneMoreOther(i - 1, [t], log);
      hide Others;
      assert RoomMade(m, m);
      Enter(p, m, m, Name(i - 1), n, if i == 1 then latest else t, t, t);
    }
  }

  /** A newcomer at t sweeps CLIENT away, and CLIENT comes back in its place with five admissions. */
  lemma FiveMore(p: Probe, others: Logs, log: seq<nat>, n: nat, t: nat, now: nat)
    requires Reached(p, others[CLIENT := log], n, t) && |others| == MAX_ENTRIES - 1
    requires CLIENT !in others && NEWCOMER !in others && MayDrop(p.rule, log, t)
    requires now <= t <= now + p.skew && p.lo <= now <= p.hi
    ensures Reached(p, others[CLIENT := Times(now, 5)], n + 5, t)
  {
    hide Reached, MayDrop;
    var m, m' := others[CLIENT := log], others[NEWCOMER := [t]];
    OneMore(others, CLIENT, log);
    OneMore(others, NEWCOMER, [t]);
    assert RoomMade(m, others) && RoomMade(m', others);
    Enter(p, m, others, NEWCOMER, n, t, t, t);
    Enter(p, m', others, CLIENT, n, t, now, t);
    assert [now] == Times(now, 1);
    ServeTimes(p, others, 1, 4, n + 1, now, t);
  }

  /** Four admissions at a and one at b; a minute after the clock's start CLIENT is dropped and
      five more follow. */
  lemma NineOrTen(p: Probe, a: nat, b: nat, now: nat)
    requires b <= a <= b + p.skew && a <= LOGIN_WINDOW && now <= LOGIN_WINDOW <= now + p.skew
    requires p.lo <= a <= p.hi && p.lo <= now <= p.hi
    requires MayDrop(p.rule, Times(a, 4) + [b], LOGIN_WINDOW)
    ensures exists m :: Reached(p, m, 9, LOGIN_WINDOW)
  {
    hide Reached, MayDrop, After, Others;
    FourServed(p, a);
    AllAfter(Times(a, 4), b - LOGIN_WINDOW);
    Serve(p, map[], Times(a, 4), Times(a, 4), 4, a, b, a);
    var log, size: nat, n := Times(a, 4) + [b], MAX_ENTRIES - 1, 4 + if p.lo <= b <= p.hi then 1 else 0;
    Fill(p, log, n, a, LOGIN_WINDOW, size);
    OthersAreOthers(size, [LOGIN_WINDOW]);
    FiveMore(p, Others(size, [LOGIN_WINDOW]), log, n, LOGIN_WINDOW, now);
    AtLeast(p, Others(size, [LOGIN_WINDOW])[CLIENT := Times(now, 5)], n + 5, 9, LOGIN_WINDOW);
  }

  lemma AtLeast(p: Probe, m: Logs, n: nat, n': nat, latest: nat)
    requires Reached(p, m, n, latest) && n' <= n
    ensures Reached(p, m, n', latest)
  {
    var ms, evs :| Shows(p, ms, evs, m, n, latest);
    assert Shows(p, ms, evs, m, n', latest);
  }

  /** The seventh request read its clock before the sixth and took the lock after it. */
  lemma SixWithoutADrop(p: Probe, now: nat)
    requires now <= LOGIN_WINDOW <= now + p.skew && p.lo == 0 && now <= p.hi
    ensures exists m :: Reached(p, m, 6, LOGIN_WINDOW)
  {
    hide Reached, After;
    FourServed(p, 0);
    AllAfter(Times(0, 4), 0 - LOGIN_WINDOW);
    Serve(p, map[], Times(0, 4), Times(0, 4), 4, 0, 0, 0);
    var log := Times(0, 4) + [0];
    NothingAfter(log, 0);
    var n: nat := 5 + if LOGIN_WINDOW <= p.hi then 1 else 0;
    Serve(p, map[], log, [], 5, 0, LOGIN_WINDOW, LOGIN_WINDOW);
    assert [] + [LOGIN_WINDOW] == [LOGIN_WINDOW];
    AllAfter([LOGIN_WINDOW], now - LOGIN_WINDOW);
    Serve(p, map[], [LOGIN_WINDOW], [LOGIN_WINDOW], n, LOGIN_WINDOW, now, LOGIN_WINDOW);
    AtLeast(p, map[CLIENT := [LOGIN_WINDOW] + [now]], n + 1, 6, LOGIN_WINDOW);
  }

  lemma ReachedBreaksFive(p: Probe, m: Logs, n: nat, latest: nat, len: int)
    requires Reached(p, m, n, latest) && n > MAX_PER_IP && p.hi - p.lo < len
    ensures !AlwaysFive(p.skew, p.rule, len)
  {
    hide IsRun, Kept, CountIn, Admitted;
    var ms, evs :| Shows(p, ms, evs, m, n, latest);
    assert CountIn(Admitted(evs, CLIENT), p.lo, p.hi) > MAX_PER_IP;
  }

  /** A sweep at the last instant logged plus a minute lets nine admissions through in a minute
      less twice the skew. */
  lemma SweptRunAdmitsNine(skew: nat) returns (ms: seq<Logs>, evs: seq<Event>)
    requires 2 * skew <= LOGIN_WINDOW
    ensures |ms| == |evs| + 1 && IsRun(ms, evs, skew) && Kept(ms, evs, CLIENT, Swept)
    ensures CountIn(Admitted(evs, CLIENT), skew, LOGIN_WINDOW - skew) >= 9
  {
    hide IsRun, Kept, CountIn, Admitted;
    var p := Probe(skew, Swept, skew, LOGIN_WINDOW - skew);
    NineOrTen(p, skew, 0, LOGIN_WINDOW - skew);
    var m :| Reached(p, m, 9, LOGIN_WINDOW);
    ms, evs :| Shows(p, ms, evs, m, 9, LOGIN_WINDOW);
  }

  lemma SweptBreaksFive(skew: nat, len: int)
    requires len > 0 && len > LOGIN_WINDOW - 2 * skew
    ensures !AlwaysFive(skew, Swept, len)
  {
    hide AlwaysFive, Reached;
    var d: nat := if 2 * skew <= LOGIN_WINDOW then skew else LOGIN_WINDOW / 2;
    var p := Probe(skew, Swept, d, LOGIN_WINDOW - d);
    NineOrTen(p, d, 0, LOGIN_WINDOW - d);
    var m :| Reached(p, m, 9, LOGIN_WINDOW);
    ReachedBreaksFive(p, m, 9, LOGIN_WINDOW, len);
  }

  lemma WithinBreaksFive(skew: nat, slack: nat, len: int)
    requires len > 0 && len > LOGIN_WINDOW - skew - slack
    ensures !AlwaysFive(skew, Within(slack), len)
  {
    hide AlwaysFive, Reached, After;
    var s: nat := if slack <= LOGIN_WINDOW then slack else LOGIN_WINDOW;
    var d: nat := if skew + s <= LOGIN_WINDOW then skew else LOGIN_WINDOW - s;
    var p := Probe(skew, Within(slack), s, LOGIN_WINDOW - d);
    NothingAfter(Times(s, 4) + [s], slack);
    NineOrTen(p, s, s, LOGIN_WINDOW - d);
    var m :| Reached(p, m, 9, LOGIN_WINDOW);
    ReachedBreaksFive(p, m, 9, LOGIN_WINDOW, len);
  }

  /** Two requests that take the lock in the other order than they read the clock: six admissions
      in a minute less the skew, with no log dropped. */
  lemma SkewedReadsAdmitSix(skew: nat, len: int)
    requires len > 0 && len > LOGIN_WINDOW - skew
    ensures !AlwaysFive(skew, Always, len)
  {
    hide AlwaysFive, Reached;
    var d: nat := if skew <= LOGIN_WINDOW then skew else LOGIN_WINDOW;
    var p := Probe(skew, Always, 0, LOGIN_WINDOW - d);
    SixWithoutADrop(p, LOGIN_WINDOW - d);
    var m :| Reached(p, m, 6, LOGIN_WINDOW);
    ReachedBreaksFive(p, m, 6, LOGIN_WINDOW, len);
  }

  /** Five admissions at most in every stretch shorter than len, in all runs of an address: exactly
      when len does not exceed a minute less the skew and what dropping its log costs. */
  lemma FiveHoldsExactlyWhen(skew: nat, rule: Keeping, len: int)
    ensures AlwaysFive(skew, rule, len) <==> len <= 0 || len <= LOGIN_WINDOW - skew - Cost(rule, skew)
  {
    if len <= 0 || len <= LOGIN_WINDOW - skew - Cost(rule, skew) {
      FiveHolds(skew, rule, len);
    } else {
      hide AlwaysFive;
      match rule
      case Always => SkewedReadsAdmitSix(skew, len);
      case Swept => SweptBreaksFive(skew, len);
      case Within(slack) => WithinBreaksFive(skew, slack, len);
    }
  }

  lemma FiveHolds(skew: nat, rule: Keeping, len: int)
    requires len <= 0 || len <= LOGIN_WINDOW - skew - Cost(rule, skew)
    ensures AlwaysFive(skew, rule, len)
  {
    hide IsRun, Kept, CountIn, Admitted, Cost;
    forall ms, evs, k, lo, hi |
      |ms| == |evs| + 1 && IsRun(ms, evs, skew) && Kept(ms, evs, k, rule) && hi - lo < len
      ensures CountIn(Admitted(evs, k), lo, hi) <= MAX_PER_IP
    {
      if len <= 0 {
        CountInNothing(Admitted(evs, k), lo, hi);
      } else {
        KeptWithinCost(ms, evs, k, skew, rule);
        NoStretchAdmitsMoreThanFive(ms, evs, k, skew, Cost(rule, skew), |evs|, lo, hi);
        assert evs[..|evs|] == evs;
      }
    }
  }

  lemma {:induction false} CountInNothing(s: seq<nat>, lo: int, hi: int)
    requires hi < lo
    ensures CountIn(s, lo, hi) == 0
  {
    if s != [] {
      CountInNothing(s[..|s| - 1], lo, hi);
    }
  }

  /** Five a minute, as promised, holds of all runs only while the clock is read in lock order,
      whether or not logs are ever swept. */
  lemma FiveAMinuteHoldsIffInLockOrder(skew: nat)
    ensures AlwaysFive(skew, Swept, LOGIN_WINDOW) <==> skew == 0
    ensures AlwaysFive(skew, Always, LOGIN_WINDOW) <==> skew == 0
  {
    hide AlwaysFive;
    FiveHoldsExactlyWhen(skew, Swept, LOGIN_WINDOW);
    FiveHoldsExactlyWhen(skew, Always, LOGIN_WINDOW);
  }
}
