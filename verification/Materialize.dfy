/** Projecting TTLs and shutdown schedules into scheduler jobs
    (backend/internal/lifecycle/ttl.go, backend/internal/lifecycle/autoshutdown.go). */
module Materialize {
  import opened Clock
  import opened Wrappers
  import Text
  import Cron

  const HOUR: nat := 60 * MINUTE
  const WARN_LEAD_24H: nat := 24 * HOUR
  const WARN_LEAD_1H: nat := HOUR
  const DEFAULT_GRACE: nat := 120
  const TTL_PREFIX := "ttl."
  const SHUTDOWN_PREFIX := "autoshutdown."

  // ---- rows ------------------------------------------------------------------------------

  datatype Owner = Owner(vmid: nat, tombstoned: bool, node: string, guestType: string, tenant: string, project: string)

  datatype Ttl = Ttl(id: string, expiresAt: int, original: int, action: string, warned24h: bool, warned1h: bool)

  datatype Schedule = Schedule(
    id: string, enabled: bool, optOut: bool, shutdownTime: string, startTime: string,
    days: seq<int>, timezone: string, graceSeconds: int)

  datatype Payload =
    | ForTtl(ttlId: string, action: string, which: string)
    | ForSchedule(scheduleId: string, graceSeconds: int, shutdownTime: string)

  datatype Job = Job(
    handler: string, owner: Owner, recurring: bool, cron: string, timezone: string,
    runAt: int, missed: string, payload: Payload)

  /** A job row is live while it is scheduled or running. */
  datatype Row = Row(job: Job, live: bool)

  /** A store read: it may fail, find nothing, or find a row. */
  datatype Lookup<T> = Broken | Missing | Found(row: T)

  /** handler LIKE prefix || '%' */
  predicate HasPrefix(handler: string, prefix: string) {
    prefix <= handler
  }

  predicate Matches(job: Job, vmid: nat, prefix: string) {
    job.owner.vmid == vmid && HasPrefix(job.handler, prefix)
  }

  ghost function Live(rows: seq<Row>): multiset<Job> {
    if rows == [] then multiset{}
    else
      var last := rows[|rows| - 1];
      if last.live then Live(rows[..|rows| - 1]) + multiset{last.job} else Live(rows[..|rows| - 1])
  }

  function AsRows(jobs: seq<Job>): (rows: seq<Row>)
    ensures |rows| == |jobs| && forall i | 0 <= i < |jobs| :: rows[i] == Row(jobs[i], true)
  {
    seq(|jobs|, i requires 0 <= i < |jobs| => Row(jobs[i], true))
  }

  /** after is before, but with exactly these jobs under this guest's prefix. */
  ghost predicate Rewritten(before: multiset<Job>, after: multiset<Job>, vmid: nat, prefix: string, jobs: seq<Job>) {
    forall job :: after[job] == if Matches(job, vmid, prefix) then multiset(jobs)[job] else before[job]
  }

  // ---- what a TTL asks for ---------------------------------------------------------------------

  function WarnJob(own: Owner, ttl: Ttl, which: string, lead: nat, already: bool, now: int): seq<Job> {
    if already || ttl.expiresAt - lead <= now then []
    else [Job("ttl.warn", own, false, "", "", ttl.expiresAt - lead, "run_late", ForTtl(ttl.id, ttl.action, which))]
  }

  function ExpireJob(own: Owner, ttl: Ttl): Job {
    Job("ttl.expire", own, false, "", "", ttl.expiresAt, "run_late", ForTtl(ttl.id, ttl.action, ""))
  }

  function TtlJobs(own: Owner, ttl: Ttl, now: int): seq<Job> {
    WarnJob(own, ttl, "24h", WARN_LEAD_24H, ttl.warned24h, now)
    + WarnJob(own, ttl, "1h", WARN_LEAD_1H, ttl.warned1h, now)
    + [ExpireJob(own, ttl)]
  }

  /** The jobs the TTL row calls for now, or None when it cannot be read. */
  function TtlTarget(own: Owner, ttl: Lookup<Ttl>, now: int): Option<seq<Job>> {
    if own.tombstoned then Some([])
    else match ttl
      case Broken => None
      case Missing => Some([])
      case Found(row) => Some(TtlJobs(own, row, now))
  }

  // ---- what a schedule asks for -------------------------------------------------------------------

  /** NextCron at the current time: None for a line or timezone that does not parse. */
  type NextCron = (string, string) -> Option<int>

  /** A resource row wins outright; only without one does the project's apply. */
  function Resolve(resource: Lookup<Schedule>, project: Lookup<Schedule>): Lookup<Schedule> {
    match resource
    case Broken => Broken
    case Found(row) => if row.optOut || !row.enabled then Missing else resource
    case Missing =>
      match project
      case Broken => Broken
      case Missing => Missing
      case Found(row) => if row.enabled then project else Missing
  }

  function Recurring(own: Owner, sc: Schedule, handler: string, clock: Cron.Clock, days: seq<int>, missed: string, next: NextCron): Option<seq<Job>> {
    var line := Text.Join(Cron.Fields(clock, days), ' ');
    if next(line, sc.timezone).None? then None
    else Some([Job(handler, own, true, line, sc.timezone, next(line, sc.timezone).value, missed,
                   ForSchedule(sc.id, if sc.graceSeconds <= 0 then DEFAULT_GRACE else sc.graceSeconds, sc.shutdownTime))])
  }

  function Then(a: Option<seq<Job>>, b: Option<seq<Job>>): Option<seq<Job>> {
    if a.None? || b.None? then None else Some(a.value + b.value)
  }

  function StartJobs(own: Owner, sc: Schedule, next: NextCron): Option<seq<Job>> {
    if sc.startTime == "" then Some([])
    else
      var start := Cron.ParseHHMM(sc.startTime);
      if start.None? then None
      else Recurring(own, sc, "autoshutdown.start", start.value, sc.days, "catch_up", next)
  }

  function ScheduleJobs(own: Owner, sc: Schedule, next: NextCron): Option<seq<Job>> {
    var stop := Cron.ParseHHMM(sc.shutdownTime);
    if sc.days == [] || stop.None? then None
    else
      Then(Then(Recurring(own, sc, "autoshutdown.stop", stop.value, sc.days, "catch_up", next),
                Recurring(own, sc, "autoshutdown.warn", Cron.WarnClock(stop.value), Cron.WarnDays(stop.value, sc.days), "run_late", next)),
           StartJobs(own, sc, next))
  }

  function ScheduleTarget(own: Owner, resource: Lookup<Schedule>, project: Lookup<Schedule>, next: NextCron): Option<seq<Job>> {
    if own.tombstoned then Some([])
    else match Resolve(resource, project)
      case Broken => None
      case Missing => Some([])
      case Found(sc) => ScheduleJobs(own, sc, next)
  }

  // ---- the store ---------------------------------------------------------------------------------

  function Cancelled(rows: seq<Row>, vmid: nat, prefix: string): (r: seq<Row>)
    ensures |r| == |rows|
  {
    if rows == [] then []
    else
      var last := rows[|rows| - 1];
      Cancelled(rows[..|rows| - 1], vmid, prefix) + [if Matches(last.job, vmid, prefix) then last.(live := false) else last]
  }

  /** What the store's calls answer during one transaction: the n-th enqueue succeeds or not. */
  datatype Answers = Answers(cancelOk: bool, enqueueOk: nat -> bool, commitOk: bool)

  ghost predicate AllOk(answers: Answers) {
    answers.cancelOk && forall i :: answers.enqueueOk(i)
  }

  ghost predicate Replaced(before: seq<Row>, after: seq<Row>, vmid: nat, prefix: string, target: Option<seq<Job>>) {
    target.Some? && after == Cancelled(before, vmid, prefix) + AsRows(target.value)
  }

  /** The live jobs are those of before, with the target's in place of this guest's own. */
  ghost predicate Projected(before: seq<Row>, after: seq<Row>, vmid: nat, prefix: string, target: Option<seq<Job>>) {
    target.Some? && Rewritten(Live(before), Live(after), vmid, prefix, target.value)
  }

  class JobStore {
    var rows: seq<Row>
    var ttls: map<nat, Ttl>

    constructor ()
      ensures rows == [] && ttls == map[]
    {
      rows, ttls := [], map[];
    }

    method CancelJobsForVMIDByPrefix(vmid: nat, prefix: string)
      modifies this`rows
      ensures rows == Cancelled(old(rows), vmid, prefix)
    {
      var kept: seq<Row> := [];
      for i := 0 to |rows|
        invariant rows == old(rows)
        invariant kept == Cancelled(rows[..i], vmid, prefix)
      {
        assert rows[..i + 1][..i] == rows[..i];
        kept := kept + [if Matches(rows[i].job, vmid, prefix) then rows[i].(live := false) else rows[i]];
      }
      assert rows[..|rows|] == rows;
      rows := kept;
    }

    method EnqueueJob(job: Job)
      modifies this`rows
      ensures rows == old(rows) + [Row(job, true)]
    {
      rows := rows + [Row(job, true)];
    }

    /** TTL.materializeTx, on the store inside the transaction. */
    method TtlTx(own: Owner, readOk: bool, now: int, answers: Answers) returns (err: bool)
      modifies this`rows
      ensures !err ==> Replaced(old(rows), rows, own.vmid, TTL_PREFIX, TtlTarget(own, Look(ttls, own.vmid, readOk), now))
      ensures AllOk(answers) && readOk ==> !err
    {
      if !answers.cancelOk {
        return true;
      }
      CancelJobsForVMIDByPrefix(own.vmid, TTL_PREFIX);
      if own.tombstoned {
        return false;
      }
      if !readOk {
        return true;
      }
      if own.vmid !in ttls {
        return false;
      }
      err := EmitTtl(own, ttls[own.vmid], now, answers);
    }

    /** TTL.emit: the two warnings still worth giving, then the expiry, each an enqueue of its own. */
    method EmitTtl(own: Owner, ttl: Ttl, now: int, answers: Answers) returns (err: bool)
      modifies this`rows
      ensures !err ==> rows == old(rows) + AsRows(TtlJobs(own, ttl, now))
      ensures AllOk(answers) ==> !err
    {
      var n := 0;
      if !ttl.warned24h && ttl.expiresAt - WARN_LEAD_24H > now {
        if !answers.enqueueOk(n) {
          return true;
        }
        EnqueueJob(WarnJob(own, ttl, "24h", WARN_LEAD_24H, false, now)[0]);
        n := n + 1;
      }
      assert rows == old(rows) + AsRows(WarnJob(own, ttl, "24h", WARN_LEAD_24H, ttl.warned24h, now));
      if !ttl.warned1h && ttl.expiresAt - WARN_LEAD_1H > now {
        if !answers.enqueueOk(n) {
          return true;
        }
        EnqueueJob(WarnJob(own, ttl, "1h", WARN_LEAD_1H, false, now)[0]);
        n := n + 1;
      }
      if !answers.enqueueOk(n) {
        return true;
      }
      EnqueueJob(ExpireJob(own, ttl));
      return false;
    }

    /** TTL.MaterializeForGuest: all or nothing. */
    method MaterializeTtl(own: Owner, readOk: bool, now: int, answers: Answers) returns (err: bool)
      modifies this`rows
      ensures err ==> rows == old(rows)
      ensures !err ==> Replaced(old(rows), rows, own.vmid, TTL_PREFIX, TtlTarget(own, Look(ttls, own.vmid, readOk), now))
      ensures !err ==> Projected(old(rows), rows, own.vmid, TTL_PREFIX, TtlTarget(own, Look(ttls, own.vmid, readOk), now))
      ensures AllOk(answers) && readOk && answers.commitOk ==> !err
      ensures !readOk && !own.tombstoned ==> err
    {
      var saved := rows;
      err := TtlTx(own, readOk, now, answers);
      if err || !answers.commitOk {
        rows := saved;
        return true;
      }
      ghost var jobs := TtlTarget(own, Look(ttls, own.vmid, readOk), now).value;
      TtlTargetIsOurs(own, Look(ttls, own.vmid, readOk), now);
      CancelThenAdd(saved, own.vmid, TTL_PREFIX, jobs);
    }

    /** ExtendTTL: move the expiry, clear the warnings and re-project, all or nothing. */
    method ExtendTtl(own: Owner, ttl: Ttl, maxTtl: int, now: int, updateOk: bool, readOk: bool, answers: Answers)
      returns (err: bool, expiry: int)
      modifies this
      ensures expiry <= now + maxTtl && expiry <= ttl.expiresAt + ttl.original
      ensures expiry == now + maxTtl || expiry == ttl.expiresAt + ttl.original
      ensures err ==> rows == old(rows) && ttls == old(ttls)
      ensures !err ==>
        && own.vmid in old(ttls)
        && ttls == old(ttls)[own.vmid := old(ttls)[own.vmid].(expiresAt := expiry, warned24h := false, warned1h := false)]
      ensures !err && !own.tombstoned ==> Live(rows)[ExpireJob(own, ttls[own.vmid])] == 1
      ensures !err ==> forall job: Job | job.owner.vmid == own.vmid && job.handler == "ttl.expire" && job in Live(rows) ::
        !own.tombstoned && job.runAt == expiry
      ensures own.vmid in old(ttls) && updateOk && readOk && AllOk(answers) && answers.commitOk ==> !err
    {
      hide Live, Replaced, Projected, Rewritten, TtlTarget, ExpireJob;
      expiry := CapExtension(now, ttl.expiresAt, ttl.original, maxTtl);
      if !updateOk || own.vmid !in ttls {
        return true, expiry;
      }
      var saved := ttls;
      ttls := ttls[own.vmid := ttls[own.vmid].(expiresAt := expiry, warned24h := false, warned1h := false)];
      ghost var before := rows;
      err := MaterializeTtl(own, readOk, now, answers);
      if err {
        ttls := saved;
        assert ttls == old(ttls);
        return true, expiry;
      }
      ProjectedExpiry(own, ttls, readOk, now, before, rows);
    }

    /** AutoShutdown.MaterializeForGuest: all or nothing. */
    method MaterializeSchedule(own: Owner, resource: Lookup<Schedule>, project: Lookup<Schedule>, next: NextCron, answers: Answers)
      returns (err: bool)
      modifies this`rows
      ensures err ==> rows == old(rows)
      ensures !err ==> Replaced(old(rows), rows, own.vmid, SHUTDOWN_PREFIX, ScheduleTarget(own, resource, project, next))
      ensures !err ==> Projected(old(rows), rows, own.vmid, SHUTDOWN_PREFIX, ScheduleTarget(own, resource, project, next))
      ensures AllOk(answers) && answers.commitOk && ScheduleTarget(own, resource, project, next).Some? ==> !err
    {
      var saved := rows;
      err := ScheduleTx(own, resource, project, next, answers);
      if err || !answers.commitOk {
        rows := saved;
        return true;
      }
      ScheduleTargetIsOurs(own, resource, project, next);
      CancelThenAdd(saved, own.vmid, SHUTDOWN_PREFIX, ScheduleTarget(own, resource, project, next).value);
    }

    method ScheduleTx(own: Owner, resource: Lookup<Schedule>, project: Lookup<Schedule>, next: NextCron, answers: Answers)
      returns (err: bool)
      modifies this`rows
      ensures !err ==> Replaced(old(rows), rows, own.vmid, SHUTDOWN_PREFIX, ScheduleTarget(own, resource, project, next))
      ensures AllOk(answers) && ScheduleTarget(own, resource, project, next).Some? ==> !err
    {
      if !answers.cancelOk {
        return true;
      }
      CancelJobsForVMIDByPrefix(own.vmid, SHUTDOWN_PREFIX);
      if own.tombstoned {
        return false;
      }
      match Resolve(resource, project)
      case Broken => return true;
      case Missing => return false;
      case Found(sc) => err := EmitSchedule(own, sc, next, answers);
    }

    method EnqueueRecurring(
      own: Owner, sc: Schedule, handler: string, line: string, missed: string, next: NextCron, ok: bool,
      ghost clock: Cron.Clock, ghost days: seq<int>)
      returns (err: bool)
      requires line == Text.Join(Cron.Fields(clock, days), ' ')
      modifies this`rows
      ensures err <==> Recurring(own, sc, handler, clock, days, missed, next).None? || !ok
      ensures !err ==> rows == old(rows) + AsRows(Recurring(own, sc, handler, clock, days, missed, next).value)
    {
      var at := next(line, sc.timezone);
      if at.None? || !ok {
        return true;
      }
      var grace := if sc.graceSeconds <= 0 then DEFAULT_GRACE else sc.graceSeconds;
      EnqueueJob(Job(handler, own, true, line, sc.timezone, at.value, missed, ForSchedule(sc.id, grace, sc.shutdownTime)));
      return false;
    }

    /** AutoShutdown.emit. */
    method EmitSchedule(own: Owner, sc: Schedule, next: NextCron, answers: Answers) returns (err: bool)
      modifies this`rows
      ensures !err ==> ScheduleJobs(own, sc, next).Some? && rows == old(rows) + AsRows(ScheduleJobs(own, sc, next).value)
      ensures AllOk(answers) && ScheduleJobs(own, sc, next).Some? ==> !err
    {
      hide Recurring, Cron.Fields, Cron.ParseHHMM, Cron.WarnClock, Cron.WarnDays, Cron.MovedBack, Text.Join;
      if sc.days == [] {
        return true;
      }
      var stop := Cron.ParseHHMM(sc.shutdownTime);
      if stop.None? {
        return true;
      }
      var line := Cron.CronExpr(stop.value, sc.days);
      err := EnqueueRecurring(own, sc, "autoshutdown.stop", line, "catch_up", next, answers.enqueueOk(0), stop.value, sc.days);
      if err {
        return;
      }
      var w, wdays := Cron.WarnTime(stop.value, sc.days);
      line := Cron.CronExpr(w, wdays);
      err := EnqueueRecurring(own, sc, "autoshutdown.warn", line, "run_late", next, answers.enqueueOk(1), w, wdays);
      if err {
        return;
      }
      if sc.startTime != "" {
        var start := Cron.ParseHHMM(sc.startTime);
        if start.None? {
          return true;
        }
        line := Cron.CronExpr(start.value, sc.days);
        err := EnqueueRecurring(own, sc, "autoshutdown.start", line, "catch_up", next, answers.enqueueOk(2), start.value, sc.days);
      }
    }
  }

  function Look(ttls: map<nat, Ttl>, vmid: nat, readOk: bool): Lookup<Ttl> {
    if !readOk then Broken else if vmid in ttls then Found(ttls[vmid]) else Missing
  }

  function CapExtension(now: int, expiresAt: int, original: int, maxTtl: int): int {
    if expiresAt + original > now + maxTtl then now + maxTtl else expiresAt + original
  }

  // ---- the projection --------------------------------------------------------------------------------

  lemma {:induction false} LiveOfCancelled(rows: seq<Row>, vmid: nat, prefix: string, job: Job)
    ensures Live(Cancelled(rows, vmid, prefix))[job] == if Matches(job, vmid, prefix) then 0 else Live(rows)[job]
  {
    if rows != [] {
      LiveOfCancelled(rows[..|rows| - 1], vmid, prefix, job);
      var c := Cancelled(rows, vmid, prefix);
      assert c[..|rows| - 1] == Cancelled(rows[..|rows| - 1], vmid, prefix);
    }
  }

  lemma LiveOfOneMore(rows: seq<Row>, row: Row)
    ensures Live(rows + [row]) == if row.live then Live(rows) + multiset{row.job} else Live(rows)
  {
    assert (rows + [row])[..|rows|] == rows;
  }

  lemma {:induction false} LiveOfAdded(rows: seq<Row>, jobs: seq<Job>)
    ensures Live(rows + AsRows(jobs)) == Live(rows) + multiset(jobs)
  {
    hide Live;
    if jobs == [] {
      assert rows + AsRows(jobs) == rows;
    } else {
      var init, last := jobs[..|jobs| - 1], jobs[|jobs| - 1];
      LiveOfAdded(rows, init);
      assert jobs == init + [last];
      assert AsRows(jobs) == AsRows(init) + [Row(last, true)];
      assert rows + AsRows(jobs) == (rows + AsRows(init)) + [Row(last, true)];
      LiveOfOneMore(rows + AsRows(init), Row(last, true));
    }
  }

  ghost predicate AllMatch(jobs: seq<Job>, vmid: nat, prefix: string) {
    forall i | 0 <= i < |jobs| :: Matches(jobs[i], vmid, prefix)
  }

  lemma CancelThenAdd(rows: seq<Row>, vmid: nat, prefix: string, jobs: seq<Job>)
    requires AllMatch(jobs, vmid, prefix)
    ensures Rewritten(Live(rows), Live(Cancelled(rows, vmid, prefix) + AsRows(jobs)), vmid, prefix, jobs)
  {
    var kept := Cancelled(rows, vmid, prefix);
    LiveOfAdded(kept, jobs);
    forall job
      ensures (Live(kept) + multiset(jobs))[job] == if Matches(job, vmid, prefix) then multiset(jobs)[job] else Live(rows)[job]
    {
      LiveOfCancelled(rows, vmid, prefix, job);
      assert job in multiset(jobs) ==> job in jobs;
    }
  }

  lemma TtlTargetIsOurs(own: Owner, ttl: Lookup<Ttl>, now: int)
    ensures var t := TtlTarget(own, ttl, now); t.Some? ==> AllMatch(t.value, own.vmid, TTL_PREFIX)
  {
    assert TTL_PREFIX <= "ttl.warn" && TTL_PREFIX <= "ttl.expire";
  }

  lemma RecurringIsOurs(own: Owner, sc: Schedule, handler: string, clock: Cron.Clock, days: seq<int>, missed: string, next: NextCron)
    requires HasPrefix(handler, SHUTDOWN_PREFIX)
    ensures var r := Recurring(own, sc, handler, clock, days, missed, next);
      r.Some? ==> AllMatch(r.value, own.vmid, SHUTDOWN_PREFIX)
  {
    hide Cron.Fields, Text.Join;
  }

  lemma HandlersHavePrefix()
    ensures HasPrefix("autoshutdown.stop", SHUTDOWN_PREFIX) && HasPrefix("autoshutdown.warn", SHUTDOWN_PREFIX)
    ensures HasPrefix("autoshutdown.start", SHUTDOWN_PREFIX)
  {
  }

  lemma ScheduleJobsAreOurs(own: Owner, sc: Schedule, next: NextCron)
    ensures var t := ScheduleJobs(own, sc, next); t.Some? ==> AllMatch(t.value, own.vmid, SHUTDOWN_PREFIX)
  {
    hide Recurring, HasPrefix, Cron.ParseHHMM, Cron.WarnClock, Cron.WarnDays;
    HandlersHavePrefix();
    if sc.days != [] && Cron.ParseHHMM(sc.shutdownTime).Some? {
      var stop := Cron.ParseHHMM(sc.shutdownTime).value;
      RecurringIsOurs(own, sc, "autoshutdown.stop", stop, sc.days, "catch_up", next);
      RecurringIsOurs(own, sc, "autoshutdown.warn", Cron.WarnClock(stop), Cron.WarnDays(stop, sc.days), "run_late", next);
      if sc.startTime != "" && Cron.ParseHHMM(sc.startTime).Some? {
        RecurringIsOurs(own, sc, "autoshutdown.start", Cron.ParseHHMM(sc.startTime).value, sc.days, "catch_up", next);
      }
    }
  }

  lemma ScheduleTargetIsOurs(own: Owner, resource: Lookup<Schedule>, project: Lookup<Schedule>, next: NextCron)
    ensures var t := ScheduleTarget(own, resource, project, next); t.Some? ==> AllMatch(t.value, own.vmid, SHUTDOWN_PREFIX)
  {
    hide ScheduleJobs, HasPrefix;
    var r := Resolve(resource, project);
    if r.Found? {
      ScheduleJobsAreOurs(own, r.row, next);
    }
  }

  /** After a projection the guest has one expiry job, at its TTL's time, or none. */
  lemma OneExpiry(own: Owner, ttl: Lookup<Ttl>, now: int, before: multiset<Job>, after: multiset<Job>)
    requires TtlTarget(own, ttl, now).Some?
    requires Rewritten(before, after, own.vmid, TTL_PREFIX, TtlTarget(own, ttl, now).value)
    ensures forall job: Job | job.owner.vmid == own.vmid && job.handler == "ttl.expire" ::
      after[job] == if !own.tombstoned && ttl.Found? && job == ExpireJob(own, ttl.row) then 1 else 0
  {
    assert TTL_PREFIX <= "ttl.expire";
    assert "ttl.warn"[4] != "ttl.expire"[4];
    var jobs := TtlTarget(own, ttl, now).value;
    forall job: Job | job.owner.vmid == own.vmid && job.handler == "ttl.expire"
      ensures after[job] == if !own.tombstoned && ttl.Found? && job == ExpireJob(own, ttl.row) then 1 else 0
    {
      assert after[job] == multiset(jobs)[job];
    }
  }

  lemma ProjectedExpiry(own: Owner, ttls: map<nat, Ttl>, readOk: bool, now: int, before: seq<Row>, after: seq<Row>)
    requires own.vmid in ttls && Projected(before, after, own.vmid, TTL_PREFIX, TtlTarget(own, Look(ttls, own.vmid, readOk), now))
    ensures !own.tombstoned ==> Live(after)[ExpireJob(own, ttls[own.vmid])] == 1
    ensures forall job: Job | job.owner.vmid == own.vmid && job.handler == "ttl.expire" && job in Live(after) ::
      !own.tombstoned && job.runAt == ttls[own.vmid].expiresAt
  {
    hide Live, Rewritten;
    OneExpiry(own, Look(ttls, own.vmid, readOk), now, Live(before), Live(after));
  }

  /** Projecting again what was just projected changes nothing. */
  lemma ProjectingTwiceIsOnce(rows: seq<Row>, vmid: nat, prefix: string, jobs: seq<Job>)
    requires AllMatch(jobs, vmid, prefix)
    ensures var once := Cancelled(rows, vmid, prefix) + AsRows(jobs);
      Live(Cancelled(once, vmid, prefix) + AsRows(jobs)) == Live(once)
  {
    hide Live, Cancelled, AsRows, AllMatch;
    var once := Cancelled(rows, vmid, prefix) + AsRows(jobs);
    CancelThenAdd(rows, vmid, prefix, jobs);
    CancelThenAdd(once, vmid, prefix, jobs);
  }

  /** A rewrite leaves every job of another guest, and of the other feature, as it was. */
  lemma RewriteTouchesOnlyItsOwn(a: multiset<Job>, b: multiset<Job>, vmid: nat, prefix: string, jobs: seq<Job>, job: Job)
    requires Rewritten(a, b, vmid, prefix, jobs)
    requires job.owner.vmid != vmid
          || (prefix == TTL_PREFIX && HasPrefix(job.handler, SHUTDOWN_PREFIX))
          || (prefix == SHUTDOWN_PREFIX && HasPrefix(job.handler, TTL_PREFIX))
    ensures b[job] == a[job]
  {
    PrefixesAreApart(job.handler);
  }

  lemma PrefixesAreApart(handler: string)
    ensures !(HasPrefix(handler, TTL_PREFIX) && HasPrefix(handler, SHUTDOWN_PREFIX))
  {
    assert HasPrefix(handler, TTL_PREFIX) ==> |handler| >= 4 && handler[0] == TTL_PREFIX[0];
    assert HasPrefix(handler, SHUTDOWN_PREFIX) ==> |handler| >= 4 && handler[0] == SHUTDOWN_PREFIX[0];
  }

  lemma RewritesCommute(
    a: multiset<Job>, b1: multiset<Job>, b2: multiset<Job>, c1: multiset<Job>, c2: multiset<Job>,
    v1: nat, v2: nat, jobs1: seq<Job>, jobs2: seq<Job>)
    requires Rewritten(a, b1, v1, TTL_PREFIX, jobs1) && Rewritten(b1, b2, v2, SHUTDOWN_PREFIX, jobs2)
    requires Rewritten(a, c1, v2, SHUTDOWN_PREFIX, jobs2) && Rewritten(c1, c2, v1, TTL_PREFIX, jobs1)
    ensures b2 == c2
  {
    forall job
      ensures b2[job] == c2[job]
    {
      PrefixesAreApart(job.handler);
    }
  }

  /** Re-projecting a guest's TTL and re-projecting a guest's schedule, in either order, leave
      the same live jobs. */
  lemma ProjectionsCommute(rows: seq<Row>, v1: nat, v2: nat, a: seq<Job>, b: seq<Job>)
    requires AllMatch(a, v1, TTL_PREFIX) && AllMatch(b, v2, SHUTDOWN_PREFIX)
    ensures var ttlFirst := Cancelled(rows, v1, TTL_PREFIX) + AsRows(a);
      var scheduleFirst := Cancelled(rows, v2, SHUTDOWN_PREFIX) + AsRows(b);
      Live(Cancelled(ttlFirst, v2, SHUTDOWN_PREFIX) + AsRows(b))
      == Live(Cancelled(scheduleFirst, v1, TTL_PREFIX) + AsRows(a))
  {
    hide Live, Cancelled, AsRows, AllMatch, Rewritten;
    var ttlFirst := Cancelled(rows, v1, TTL_PREFIX) + AsRows(a);
    var scheduleFirst := Cancelled(rows, v2, SHUTDOWN_PREFIX) + AsRows(b);
    var b2 := Cancelled(ttlFirst, v2, SHUTDOWN_PREFIX) + AsRows(b);
    var c2 := Cancelled(scheduleFirst, v1, TTL_PREFIX) + AsRows(a);
    CancelThenAdd(rows, v1, TTL_PREFIX, a);
    CancelThenAdd(ttlFirst, v2, SHUTDOWN_PREFIX, b);
    CancelThenAdd(rows, v2, SHUTDOWN_PREFIX, b);
    CancelThenAdd(scheduleFirst, v1, TTL_PREFIX, a);
    RewritesCommute(Live(rows), Live(ttlFirst), Live(b2), Live(scheduleFirst), Live(c2), v1, v2, a, b);
  }
}
