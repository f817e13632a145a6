/** When the jobs of a TTL and of a schedule fire, and when there are none
    (backend/internal/lifecycle/ttl.go, backend/internal/lifecycle/autoshutdown.go). */
module JobTimes {
  import opened Clock
  import opened Wrappers
  import opened Materialize
  import Text
  import Cron

  // ---- TTL jobs ----------------------------------------------------------------------------------

  lemma WarnJobIs(own: Owner, ttl: Ttl, which: string, lead: nat, already: bool, now: int, job: Job)
    requires job.handler == "ttl.warn"
    ensures multiset(WarnJob(own, ttl, which, lead, already, now))[job] ==
      if !already && ttl.expiresAt - lead > now
         && job == Job("ttl.warn", own, false, "", "", ttl.expiresAt - lead, "run_late", ForTtl(ttl.id, ttl.action, which))
      then 1 else 0
  {
  }

  /** The warnings that a projection leaves live: the day's lies exactly 24 hours before the expiry
      and the hour's exactly one, each once, if that is still to come and it was not sent; no
      other. */
  lemma WarningsLeadTheExpiry(own: Owner, ttl: Ttl, now: int, before: multiset<Job>, after: multiset<Job>, job: Job)
    requires !own.tombstoned && Rewritten(before, after, own.vmid, TTL_PREFIX, TtlTarget(own, Found(ttl), now).value)
    requires job.handler == "ttl.warn" && job.owner.vmid == own.vmid
    ensures var day, hour := ttl.expiresAt - 24 * 3_600_000_000_000, ttl.expiresAt - 3_600_000_000_000;
      after[job] ==
        if !ttl.warned24h && day > now
           && job == Job("ttl.warn", own, false, "", "", day, "run_late", ForTtl(ttl.id, ttl.action, "24h")) then 1
        else if !ttl.warned1h && hour > now
           && job == Job("ttl.warn", own, false, "", "", hour, "run_late", ForTtl(ttl.id, ttl.action, "1h")) then 1
        else 0
  {
    assert TTL_PREFIX <= "ttl.warn";
    var a := WarnJob(own, ttl, "24h", WARN_LEAD_24H, ttl.warned24h, now);
    var b := WarnJob(own, ttl, "1h", WARN_LEAD_1H, ttl.warned1h, now);
    WarnJobIs(own, ttl, "24h", WARN_LEAD_24H, ttl.warned24h, now, job);
    WarnJobIs(own, ttl, "1h", WARN_LEAD_1H, ttl.warned1h, now, job);
    assert "24h" != "1h" && "ttl.warn" != "ttl.expire";
    assert multiset(TtlJobs(own, ttl, now))[job] == multiset(a)[job] + multiset(b)[job];
  }

  /** The one expiry a projection leaves live is due at the TTL's expiry. */
  lemma TheExpiryIsOnTime(own: Owner, ttl: Ttl, now: int, before: multiset<Job>, after: multiset<Job>, job: Job)
    requires !own.tombstoned && Rewritten(before, after, own.vmid, TTL_PREFIX, TtlTarget(own, Found(ttl), now).value)
    requires job.handler == "ttl.expire" && job.owner.vmid == own.vmid
    ensures after[job] ==
      if job == Job("ttl.expire", own, false, "", "", ttl.expiresAt, "run_late", ForTtl(ttl.id, ttl.action, "")) then 1 else 0
  {
    OneExpiry(own, Found(ttl), now, before, after);
  }

  /** No TTL, or no owner any more, leaves no live TTL job; a TTL that cannot be read changes
      nothing. */
  lemma NoTtlNoJobs(own: Owner, now: int, before: multiset<Job>, after: multiset<Job>, ttl: Lookup<Ttl>, job: Job)
    requires TtlTarget(own, ttl, now).Some? && Rewritten(before, after, own.vmid, TTL_PREFIX, TtlTarget(own, ttl, now).value)
    requires job.owner.vmid == own.vmid && "ttl." <= job.handler
    ensures own.tombstoned || ttl.Missing? ==> after[job] == 0
    ensures own.tombstoned || !ttl.Broken?
  {
  }

  // ---- schedule jobs -----------------------------------------------------------------------------

  /** The job is the schedule's, under this handler, and fires every week at clock time c, `lead`
      minutes early, on the schedule's days; it is due next when the cron library says so. */
  ghost predicate FiresFor(
    job: Job, own: Owner, sc: Schedule, handler: string, missed: string, c: Cron.Clock, lead: nat, next: NextCron)
  {
    && job.handler == handler && job.owner == own && job.recurring && job.timezone == sc.timezone && job.missed == missed
    && job.payload == ForSchedule(sc.id, if sc.graceSeconds <= 0 then 120 else sc.graceSeconds, sc.shutdownTime)
    && next(job.cron, sc.timezone) == Some(job.runAt)
    && forall t: int :: Cron.Fires(job.cron, t) <==>
         exists i :: 0 <= i < |sc.days| && sc.days[i] % 7 * 1440 + c.hh * 60 + c.mm == (t + lead) % 10080
  }

  /** The jobs of a schedule: its stop, its warning a quarter of an hour before, and its start if it
      has one, each at its own time. */
  ghost predicate JobsOf(jobs: seq<Job>, own: Owner, sc: Schedule, next: NextCron) {
    var stop, start := Cron.ParseHHMM(sc.shutdownTime), Cron.ParseHHMM(sc.startTime);
    && stop.Some? && sc.days != [] && |jobs| == (if sc.startTime == "" then 2 else 3)
    && FiresFor(jobs[0], own, sc, "autoshutdown.stop", "catch_up", stop.value, 0, next)
    && FiresFor(jobs[1], own, sc, "autoshutdown.warn", "run_late", stop.value, 15, next)
    && (sc.startTime != "" ==>
          start.Some? && FiresFor(jobs[2], own, sc, "autoshutdown.start", "catch_up", start.value, 0, next))
  }

  lemma LineFires(c: Cron.Clock, days: seq<int>, t: int)
    requires Cron.ValidClock(c) && days != []
    ensures Cron.Fires(Text.Join(Cron.Fields(c, days), ' '), t) <==>
      exists i :: 0 <= i < |days| && days[i] % 7 * 1440 + c.hh * 60 + c.mm == t % 10080
  {
    hide Cron.Fires, Cron.Fields, Text.Join;
    Cron.FiresWhen(c, days, t);
    forall i | 0 <= i < |days|
      ensures Cron.WeekMinuteOf(days[i], c) == days[i] % 7 * 1440 + c.hh * 60 + c.mm
    {
    }
  }

  lemma RecurringFires(own: Owner, sc: Schedule, handler: string, c: Cron.Clock, missed: string, next: NextCron)
    requires Cron.ValidClock(c) && sc.days != []
    ensures var r := Recurring(own, sc, handler, c, sc.days, missed, next);
      r.Some? ==> |r.value| == 1 && FiresFor(r.value[0], own, sc, handler, missed, c, 0, next)
  {
    hide Cron.Fires, Cron.Fields, Text.Join;
    forall t: int
      ensures Cron.Fires(Text.Join(Cron.Fields(c, sc.days), ' '), t) <==>
        exists i :: 0 <= i < |sc.days| && sc.days[i] % 7 * 1440 + c.hh * 60 + c.mm == (t + 0) % 10080
    {
      LineFires(c, sc.days, t);
    }
  }

  lemma WarningFires(own: Owner, sc: Schedule, c: Cron.Clock, next: NextCron)
    requires Cron.ValidClock(c) && sc.days != []
    ensures var r := Recurring(own, sc, "autoshutdown.warn", Cron.WarnClock(c), Cron.WarnDays(c, sc.days), "run_late", next);
      r.Some? ==> |r.value| == 1 && FiresFor(r.value[0], own, sc, "autoshutdown.warn", "run_late", c, 15, next)
  {
    hide Cron.Fires, Cron.Fields, Text.Join, Cron.MovedBack;
    var w, wdays := Cron.WarnClock(c), Cron.WarnDays(c, sc.days);
    Cron.WarnMovesBack(c, sc.days);
    forall t: int
      ensures Cron.Fires(Text.Join(Cron.Fields(w, wdays), ' '), t) <==>
        exists i :: 0 <= i < |sc.days| && sc.days[i] % 7 * 1440 + c.hh * 60 + c.mm == (t + 15) % 10080
    {
      Cron.SameInstants(c, sc.days, w, wdays, t);
      LineFires(c, sc.days, t + 15);
    }
  }

  lemma ScheduleJobsFire(own: Owner, sc: Schedule, next: NextCron)
    ensures var jobs := ScheduleJobs(own, sc, next); jobs.Some? ==> JobsOf(jobs.value, own, sc, next)
  {
    hide Recurring, FiresFor, Cron.ParseHHMM, Cron.WarnClock, Cron.WarnDays;
    if ScheduleJobs(own, sc, next).Some? {
      var stop := Cron.ParseHHMM(sc.shutdownTime).value;
      RecurringFires(own, sc, "autoshutdown.stop", stop, "catch_up", next);
      WarningFires(own, sc, stop, next);
      if sc.startTime != "" {
        RecurringFires(own, sc, "autoshutdown.start", Cron.ParseHHMM(sc.startTime).value, "catch_up", next);
      }
    }
  }

  /** Which schedule applies: a guest's own row outright, and only without one its project's; none
      while the owner is gone, or the row that applies is opted out or disabled. */
  lemma TheScheduleThatApplies(own: Owner, resource: Lookup<Schedule>, project: Lookup<Schedule>, next: NextCron)
    ensures var target := ScheduleTarget(own, resource, project, next);
      if own.tombstoned then target == Some([])
      else match resource
        case Broken => target == None
        case Found(sc) =>
          if sc.optOut || !sc.enabled then target == Some([]) else target.Some? ==> JobsOf(target.value, own, sc, next)
        case Missing =>
          match project
          case Broken => target == None
          case Missing => target == Some([])
          case Found(sc) => if !sc.enabled then target == Some([]) else target.Some? ==> JobsOf(target.value, own, sc, next)
  {
    hide ScheduleJobs, JobsOf;
    var r := Resolve(resource, project);
    if r.Found? {
      ScheduleJobsFire(own, r.row, next);
    }
  }

  /** Opting a guest out, or disabling its schedule, leaves it no live shutdown job. */
  lemma OptedOutHasNoJobs(
    own: Owner, sc: Schedule, project: Lookup<Schedule>, next: NextCron, before: seq<Row>, after: seq<Row>, job: Job)
    requires sc.optOut || !sc.enabled
    requires Projected(before, after, own.vmid, SHUTDOWN_PREFIX, ScheduleTarget(own, Found(sc), project, next))
    requires job.owner.vmid == own.vmid && "autoshutdown." <= job.handler
    ensures Live(after)[job] == 0
  {
    hide Live;
    TheScheduleThatApplies(own, Found(sc), project, next);
  }
}
