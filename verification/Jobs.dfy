/** Settling claimed jobs: success, retry with backoff, dead-letter, drain
    (backend/internal/scheduler/scheduler.go, backend/internal/store/jobs.go). */
module Jobs {
  import opened Clock
  import opened Wrappers
  import Lockout

  const BASE_BACKOFF: nat := 30 * SECOND
  const MAX_BACKOFF: nat := 60 * MINUTE

  datatype Kind = OneShot | Recurring
  datatype Status = Scheduled | Running | Succeeded | Failed | Cancelled
  datatype Job = Job(
    kind: Kind, status: Status, runAt: nat, attempts: nat, maxAttempts: nat,
    lockedAt: Option<nat>, skipMissed: bool)

  // ---- backoff ----------------------------------------------------------------------

  function Doubled(base: nat, times: nat): nat {
    if times == 0 then base else 2 * Doubled(base, times - 1)
  }

  /** base doubled once per earlier attempt, but never more than max. */
  function Backoff(base: nat, max: nat, attempts: nat): nat {
    if Doubled(base, attempts) < max then Doubled(base, attempts) else max
  }

  /** The loop keeps its value in 64 bits; below 2^62 ns (146 years) no doubling wraps. */
  method BackoffLoop(base: int, max: int, attempts: nat) returns (d: int)
    ensures var b, m := if base <= 0 then BASE_BACKOFF else base, if max <= 0 then MAX_BACKOFF else max;
      m <= Lockout.TWO_63 / 2 ==> d == Backoff(b, m, attempts)
  {
    var b := if base <= 0 then BASE_BACKOFF else base;
    var m := if max <= 0 then MAX_BACKOFF else max;
    d := b;
    var i := 0;
    while i < attempts && d < m
      invariant i <= attempts
      invariant m <= Lockout.TWO_63 / 2 ==> d == Doubled(b, i)
      decreases attempts - i
    {
      d := Lockout.ToInt64(d * 2);
      i := i + 1;
    }
    DoublingGrows(b, i, attempts);
    if d > m {
      d := m;
    }
  }

  /** The first retry waits the base, each further one twice as long as the one before, and none
      more than the cap. */
  lemma BackoffDoubles(base: nat, max: nat, attempts: nat)
    ensures Backoff(base, max, 0) == if base < max then base else max
    ensures Backoff(base, max, attempts + 1) ==
      if 2 * Backoff(base, max, attempts) < max then 2 * Backoff(base, max, attempts) else max
  {
    DoublingGrows(base, attempts, attempts + 1);
  }

  lemma {:induction false} DoublingGrows(b: nat, i: nat, j: nat)
    requires i <= j
    ensures Doubled(b, i) <= Doubled(b, j)
  {
    if i < j {
      DoublingGrows(b, i, j - 1);
    }
  }

  // ---- the store's guarded row updates --------------------------------------------------

  /** CompleteJob. */
  function Completed(job: Job): Job {
    if job.status != Running then job else job.(status := Succeeded, lockedAt := None)
  }

  /** RescheduleRecurring. */
  function Rearmed(job: Job, next: nat): Job {
    if job.status != Running then job
    else job.(status := Scheduled, runAt := next, attempts := 0, lockedAt := None)
  }

  /** FailJob. */
  function FailedOnce(job: Job, retryAt: nat): Job {
    if job.status != Running then job
    else if job.attempts + 1 >= job.maxAttempts then
      job.(status := Failed, attempts := job.attempts + 1, lockedAt := None)
    else job.(status := Scheduled, attempts := job.attempts + 1, runAt := retryAt, lockedAt := None)
  }

  // ---- one process call -------------------------------------------------------------------

  /** How a process call leaves its row: settled, failed, or still running for a later reclaim. */
  datatype Verdict = Settle | Fail | Leave

  /** What a handler call ended in. */
  datatype Handled = Nil | Error | Panic

  /** A row in flight: the tick that claimed it, and its attempts as claimed. */
  datatype Worker = Worker(now: nat, attempts: nat)

  datatype Tuning = Tuning(base: nat, max: nat)

  function Settled(job: Job, worker: Worker, verdict: Verdict, next: nat, tuning: Tuning): Job {
    match verdict
    case Leave => job
    case Fail => FailedOnce(job, worker.now + Backoff(tuning.base, tuning.max, worker.attempts))
    case Settle => if job.kind == Recurring then Rearmed(job, next) else Completed(job)
  }

  /** What becomes of a running row: a success finishes a one-shot job and moves a recurring one to
      its next time; a failure moves it to the retry, or ends it with the last attempt; and a
      drained call leaves it running. */
  predicate SettledAs(job: Job, job': Job, verdict: Verdict, next: nat, retryAt: nat) {
    match verdict
    case Leave => job' == job
    case Settle =>
      job'.lockedAt == None
      && if job.kind == OneShot then job'.status == Succeeded
         else job'.status == Scheduled && job'.runAt == next && job'.attempts == 0
    case Fail =>
      job'.lockedAt == None && job'.attempts == job.attempts + 1
      && if job.attempts + 1 >= job.maxAttempts then job'.status == Failed
         else job'.status == Scheduled && job'.runAt == retryAt
  }

  class JobTable {
    var rows: map<string, Job>

    constructor ()
      ensures rows == map[]
    {
      rows := map[];
    }

    method CompleteJob(id: string)
      requires id in rows
      modifies this
      ensures rows == old(rows)[id := Completed(old(rows)[id])]
      ensures rows[id].status == if old(rows)[id].status == Running then Succeeded else old(rows)[id].status
    {
      if rows[id].status == Running {
        rows := rows[id := rows[id].(status := Succeeded, lockedAt := None)];
      }
      assert rows == old(rows)[id := rows[id]];
    }

    method RescheduleRecurring(id: string, next: nat)
      requires id in rows
      modifies this
      ensures rows == old(rows)[id := Rearmed(old(rows)[id], next)]
      ensures old(rows)[id].status == Running ==> rows[id].status == Scheduled && rows[id].runAt == next && rows[id].attempts == 0
    {
      if rows[id].status == Running {
        rows := rows[id := rows[id].(status := Scheduled, runAt := next, attempts := 0, lockedAt := None)];
      }
      assert rows == old(rows)[id := rows[id]];
    }

    method FailJob(id: string, retryAt: nat) returns (deadLettered: bool)
      requires id in rows
      modifies this
      ensures rows == old(rows)[id := FailedOnce(old(rows)[id], retryAt)]
      ensures old(rows)[id].status == Running ==> rows[id].attempts == old(rows)[id].attempts + 1
      ensures old(rows)[id].status == Running && !deadLettered ==> rows[id].status == Scheduled && rows[id].runAt == retryAt
      ensures deadLettered <==> old(rows)[id].status == Running && rows[id].status == Failed
    {
      deadLettered := false;
      var job := rows[id];
      if job.status == Running {
        var attempts := job.attempts + 1;
        if attempts >= job.maxAttempts {
          rows := rows[id := job.(status := Failed, attempts := attempts, lockedAt := None)];
          deadLettered := true;
        } else {
          rows := rows[id := job.(status := Scheduled, attempts := attempts, runAt := retryAt, lockedAt := None)];
        }
      }
      assert rows == old(rows)[id := rows[id]];
    }

    method CancelJob(id: string)
      requires id in rows
      modifies this
      ensures rows == old(rows)[id := Cancelling(old(rows)[id])]
      ensures rows[id].status ==
        if old(rows)[id].status == Scheduled || old(rows)[id].status == Running then Cancelled else old(rows)[id].status
    {
      if rows[id].status == Scheduled || rows[id].status == Running {
        rows := rows[id := rows[id].(status := Cancelled, lockedAt := None)];
      }
      assert rows == old(rows)[id := rows[id]];
    }

    /** settleSuccess and settleSkip. `next` is what NextCron answers, None for a cron that
        is missing or does not parse. */
    method SettleDone(id: string, job: Job, now: nat, next: Option<nat>, tuning: Tuning) returns (verdict: Verdict)
      requires id in rows && rows[id].kind == job.kind
      modifies this
      ensures verdict == if job.kind == Recurring && next.None? then Fail else Settle
      ensures rows == old(rows)[id :=
        Settled(old(rows)[id], Worker(now, job.attempts), verdict, if next.Some? then next.value else 0, tuning)]
    {
      if job.kind == Recurring {
        if next.None? {
          var _ := FailJob(id, now + Backoff(tuning.base, tuning.max, job.attempts));
          return Fail;
        }
        RescheduleRecurring(id, next.value);
        return Settle;
      }
      CompleteJob(id);
      return Settle;
    }

    /** process: `job` is the row as claimed, `handled` how the handler's call ends, `draining`
        whether the tick's own context is cancelled by then, and `cancelled` whether the
        row is cancelled while the handler runs (its guest was destroyed). */
    method Process(
      id: string, job: Job, now: nat, missedThreshold: nat, known: bool,
      handled: Handled, draining: bool, cancelled: bool, next: Option<nat>, tuning: Tuning)
      returns (ran: bool, verdict: Verdict)
      requires id in rows && rows[id].kind == job.kind
      modifies this
      ensures ran <==> known && !(job.skipMissed && now > job.runAt + missedThreshold)
      ensures verdict == Leave <==> ran && draining && handled == Error
      ensures verdict == Fail <==>
        if ran then (handled == Panic || (handled == Error && !draining) || (handled == Nil && job.kind == Recurring && next.None?))
        else if known || (job.skipMissed && now > job.runAt + missedThreshold) then job.kind == Recurring && next.None?
        else true
      ensures rows == old(rows)[id :=
        Settled(if ran && cancelled then Cancelling(old(rows)[id]) else old(rows)[id],
                Worker(now, job.attempts), verdict, if next.Some? then next.value else 0, tuning)]
      ensures old(rows)[id].status == Running && !(ran && cancelled) ==>
        SettledAs(old(rows)[id], rows[id], verdict, if next.Some? then next.value else 0,
                  now + Backoff(tuning.base, tuning.max, job.attempts))
      ensures old(rows)[id].status != Running && !(ran && cancelled) ==> rows[id] == old(rows)[id]
      ensures ran && cancelled ==> rows[id] == Cancelling(old(rows)[id])
    {
      ran := false;
      if job.skipMissed && now > job.runAt + missedThreshold {
        verdict := SettleDone(id, job, now, next, tuning);
        return;
      }
      if !known {
        var _ := FailJob(id, now + Backoff(tuning.base, tuning.max, job.attempts));
        return false, Fail;
      }
      ran := true;
      if cancelled {
        CancelJob(id);
      }
      if handled != Nil {
        if handled != Panic && draining {
          assert rows == old(rows)[id := rows[id]];
          return true, Leave;
        }
        var _ := FailJob(id, now + Backoff(tuning.base, tuning.max, job.attempts));
        return true, Fail;
      }
      verdict := SettleDone(id, job, now, next, tuning);
    }
  }

  /** CancelJobsForVMID, on one of the guest's rows. */
  function Cancelling(job: Job): Job {
    if job.status == Scheduled || job.status == Running then job.(status := Cancelled, lockedAt := None) else job
  }

  // ---- one row over time ----------------------------------------------------------------

  /** The row, and the process calls still in flight for it, on any instance. */
  datatype World = World(row: Job, workers: multiset<Worker>)

  datatype Event =
    | Claim(now: nat)
    | Finish(worker: Worker, verdict: Verdict, next: nat)
    | Crash(worker: Worker)
    | Reclaim
    | Cancel
    | Bump(runAt: nat)

  ghost predicate Step(w: World, e: Event, w': World, tuning: Tuning) {
    match e
    case Claim(now) =>
      && w.row.status == Scheduled && w.row.runAt <= now
      && w' == World(w.row.(status := Running, lockedAt := Some(now)),
                     w.workers + multiset{Worker(now, w.row.attempts)})
    case Finish(worker, verdict, next) =>
      && worker in w.workers
      && w' == World(Settled(w.row, worker, verdict, next, tuning), w.workers - multiset{worker})
    case Crash(worker) => worker in w.workers && w' == w.(workers := w.workers - multiset{worker})
    case Reclaim =>
      w' == w.(row := if w.row.status == Running then w.row.(status := Scheduled, lockedAt := None) else w.row)
    case Cancel => w' == w.(row := Cancelling(w.row))
    case Bump(runAt) => w' == w.(row := if w.row.status == Scheduled then w.row.(runAt := runAt) else w.row)
  }

  ghost predicate Enqueued(job: Job) {
    job.status == Scheduled && job.attempts == 0 && job.maxAttempts >= 1 && job.lockedAt == None
  }

  ghost predicate IsRun(states: seq<World>, events: seq<Event>, tuning: Tuning) {
    && |states| == |events| + 1
    && Enqueued(states[0].row) && states[0].workers == multiset{}
    && forall i | 0 <= i < |events| :: Step(states[i], events[i], states[i + 1], tuning)
  }

  /** A process call's verdict that still finds its row running. */
  predicate Lands(w: World, e: Event, verdict: Verdict) {
    e.Finish? && e.verdict == verdict && w.row.status == Running
  }

  function NextStreak(w: World, e: Event, streak: nat): nat {
    if Lands(w, e, Fail) then streak + 1
    else if Lands(w, e, Settle) && w.row.kind == Recurring then 0
    else streak
  }

  /** Failures that landed since the job was enqueued or last rearmed. */
  function Streak(states: seq<World>, events: seq<Event>, n: nat): nat
    requires n <= |events| < |states|
  {
    if n == 0 then 0 else NextStreak(states[n - 1], events[n - 1], Streak(states, events, n - 1))
  }

  ghost predicate Sound(w: World, streak: nat) {
    && w.row.attempts == streak <= w.row.maxAttempts
    && (w.row.status == Failed <==> streak == w.row.maxAttempts)
    && (w.row.lockedAt.Some? <==> w.row.status == Running)
  }

  lemma RunStep(states: seq<World>, events: seq<Event>, tuning: Tuning, n: nat)
    requires IsRun(states, events, tuning) && n < |events|
    ensures |states| == |events| + 1 && Step(states[n], events[n], states[n + 1], tuning)
  {
    hide Step;
  }

  lemma RunStart(states: seq<World>, events: seq<Event>, tuning: Tuning)
    requires IsRun(states, events, tuning)
    ensures |states| == |events| + 1 && Enqueued(states[0].row) && states[0].workers == multiset{}
  {
    hide Step;
  }

  /** A verdict that comes too late leaves the row as it is. */
  lemma LateVerdict(job: Job, worker: Worker, verdict: Verdict, next: nat, tuning: Tuning)
    requires job.status != Running
    ensures Settled(job, worker, verdict, next, tuning) == job
  {
    hide Backoff;
  }

  lemma SoundFinish(w: World, e: Event, w': World, tuning: Tuning, streak: nat)
    requires Step(w, e, w', tuning) && Sound(w, streak) && e.Finish?
    ensures Sound(w', NextStreak(w, e, streak))
    ensures w'.row.maxAttempts == w.row.maxAttempts && (Terminal(w.row.status) ==> w'.row == w.row)
  {
    hide Backoff;
  }

  lemma SoundOther(w: World, e: Event, w': World, tuning: Tuning, streak: nat)
    requires Step(w, e, w', tuning) && Sound(w, streak) && !e.Finish?
    ensures Sound(w', streak)
    ensures w'.row.maxAttempts == w.row.maxAttempts && (Terminal(w.row.status) ==> w'.row == w.row)
  {
    hide Settled;
  }

  lemma SoundStep(w: World, e: Event, w': World, tuning: Tuning, streak: nat)
    requires Step(w, e, w', tuning) && Sound(w, streak)
    ensures Sound(w', NextStreak(w, e, streak))
    ensures w'.row.maxAttempts == w.row.maxAttempts && (Terminal(w.row.status) ==> w'.row == w.row)
  {
    hide Step, Sound;
    if e.Finish? {
      SoundFinish(w, e, w', tuning, streak);
    } else {
      SoundOther(w, e, w', tuning, streak);
    }
  }

  /** In every state of every run the attempts are the failures since the last success, and a
      job is dead-lettered exactly when they reach its maximum: whatever workers overlap,
      reclaim, cancel or bump it. */
  lemma {:induction false} DeadLetteredAfterMaxFailuresInARow(states: seq<World>, events: seq<Event>, tuning: Tuning, n: nat)
    requires IsRun(states, events, tuning) && n <= |events|
    ensures |states| == |events| + 1 && Sound(states[n], Streak(states, events, n))
    ensures states[n].row.maxAttempts == states[0].row.maxAttempts
  {
    hide IsRun, Step;
    RunStart(states, events, tuning);
    if n > 0 {
      DeadLetteredAfterMaxFailuresInARow(states, events, tuning, n - 1);
      RunStep(states, events, tuning, n - 1);
      SoundStep(states[n - 1], events[n - 1], states[n], tuning, Streak(states, events, n - 1));
    }
  }

  predicate Terminal(status: Status) {
    status == Succeeded || status == Failed || status == Cancelled
  }

  /** No late verdict, reclaim or bump brings a finished or cancelled job back. */
  lemma {:induction false} TerminalIsForever(states: seq<World>, events: seq<Event>, tuning: Tuning, i: nat, j: nat)
    requires IsRun(states, events, tuning) && i <= j <= |events| < |states| && Terminal(states[i].row.status)
    ensures states[j].row == states[i].row
    decreases j
  {
    hide IsRun, Step, Streak, NextStreak, Sound;
    if i < j {
      TerminalIsForever(states, events, tuning, i, j - 1);
      DeadLetteredAfterMaxFailuresInARow(states, events, tuning, j - 1);
      RunStep(states, events, tuning, j - 1);
      SoundStep(states[j - 1], events[j - 1], states[j], tuning, Streak(states, events, j - 1));
    }
  }

  // ---- what a verdict brings about ------------------------------------------------------------

  /** A verdict that finds its row running settles it; one that comes too late changes nothing. */
  lemma VerdictsTakeEffect(states: seq<World>, events: seq<Event>, tuning: Tuning, n: nat)
    requires IsRun(states, events, tuning) && n < |events| < |states| && events[n].Finish?
    ensures var e, job, job' := events[n], states[n].row, states[n + 1].row;
      if job.status == Running then
        SettledAs(job, job', e.verdict, e.next, e.worker.now + Backoff(tuning.base, tuning.max, e.worker.attempts))
        && job'.kind == job.kind && job'.maxAttempts == job.maxAttempts
      else job' == job
  {
    hide Backoff;
    assert Step(states[n], events[n], states[n + 1], tuning);
  }

  /** Once a success lands on a one-shot job the job stays succeeded, in every later state of every
      run: no second one lands, and no worker claims it again. */
  lemma SuccessIsForGood(states: seq<World>, events: seq<Event>, tuning: Tuning, n: nat, m: nat)
    requires IsRun(states, events, tuning) && n < m <= |events| < |states|
    requires states[n].row.kind == OneShot && states[n].row.status == Running
    requires events[n].Finish? && events[n].verdict == Settle
    ensures states[m].row.status == Succeeded && states[m].row == states[n + 1].row
    ensures m < |events| ==> !events[m].Claim? && states[m + 1].row.status == Succeeded
  {
    hide IsRun, Step;
    VerdictsTakeEffect(states, events, tuning, n);
    TerminalIsForever(states, events, tuning, n + 1, m);
    if m < |events| {
      TerminalIsForever(states, events, tuning, n + 1, m + 1);
      RunStep(states, events, tuning, m);
      if events[m].Claim? {
        ClaimsAreDue(states[m], events[m], states[m + 1], tuning);
      }
    }
  }

  /** A worker claims a scheduled row that is due, and no other. */
  lemma ClaimsAreDue(w: World, e: Event, w': World, tuning: Tuning)
    requires Step(w, e, w', tuning) && e.Claim?
    ensures w.row.status == Scheduled && w.row.runAt <= e.now
    ensures w'.row.status == Running && w'.row.lockedAt == Some(e.now) && w'.workers[Worker(e.now, w.row.attempts)] > 0
  {
  }

  /** Cancelling ends a job that waits or runs, and a claim, a bump and a reclaim keep their bounds. */
  lemma OtherEventsTakeEffect(w: World, e: Event, w': World, tuning: Tuning)
    requires Step(w, e, w', tuning)
    ensures e.Cancel? ==>
      w'.row.status == if w.row.status == Scheduled || w.row.status == Running then Cancelled else w.row.status
    ensures e.Bump? ==> w'.row == if w.row.status == Scheduled then w.row.(runAt := e.runAt) else w.row
    ensures e.Reclaim? ==> w'.row.status == (if w.row.status == Running then Scheduled else w.row.status)
                           && w'.row.attempts == w.row.attempts && w'.row.runAt == w.row.runAt
    ensures e.Crash? ==> w'.row == w.row
  {
    hide Settled;
  }

  // ---- how fast a job can burn its attempts ------------------------------------------------

  function TotalBackoff(tuning: Tuning, attempts: nat): nat {
    if attempts == 0 then 0
    else TotalBackoff(tuning, attempts - 1) + Backoff(tuning.base, tuning.max, attempts - 1)
  }

  function NextStart(w: World, e: Event, streak: nat, start: nat): nat {
    if Lands(w, e, Fail) && streak == 0 then e.worker.now else start
  }

  /** The claim whose failure began the current streak. */
  function StreakStart(states: seq<World>, events: seq<Event>, n: nat): nat
    requires n <= |events| < |states|
  {
    if n == 0 then 0
    else NextStart(states[n - 1], events[n - 1], Streak(states, events, n - 1), StreakStart(states, events, n - 1))
  }

  /** At most one process call is in flight, the current claim's, unless the job was cancelled. */
  ghost predicate OneInFlight(w: World) {
    || w.workers == multiset{}
    || w.row.status == Cancelled
    || (w.row.status == Running && w.row.lockedAt.Some?
        && w.workers == multiset{Worker(w.row.lockedAt.value, w.row.attempts)})
  }

  ghost predicate WaitsOut(w: World, due: int) {
    && (w.row.attempts > 0 && w.row.status == Scheduled ==> w.row.runAt >= due)
    && (w.row.attempts > 0 && w.row.status == Running ==>
          w.row.runAt >= due && w.row.lockedAt.Some? && w.row.lockedAt.value >= due)
  }

  /** One process call at a time, and the row waits out its backoffs. */
  ghost predicate Paced(w: World, start: nat, tuning: Tuning) {
    OneInFlight(w) && WaitsOut(w, start + TotalBackoff(tuning, w.row.attempts))
  }

  /** Nobody moves the row's time, and it is reclaimed only when no process call for it is in
      flight: after a drain or a crash. */
  predicate Undisturbed(w: World, e: Event) {
    !e.Bump? && (e.Reclaim? ==> w.workers == multiset{})
  }

  ghost predicate NeverDisturbed(states: seq<World>, events: seq<Event>)
    requires |states| == |events| + 1
  {
    forall i | 0 <= i < |events| :: Undisturbed(states[i], events[i])
  }

  lemma PacedFinish(w: World, e: Event, w': World, tuning: Tuning, streak: nat, start: nat)
    requires Step(w, e, w', tuning) && Sound(w, streak) && Paced(w, start, tuning) && e.Finish? && w.row.status == Running
    ensures Paced(w', NextStart(w, e, streak, start), tuning)
    ensures w'.row.status == Failed ==> e.worker.now >= NextStart(w, e, streak, start) + TotalBackoff(tuning, streak)
  {
    hide Backoff, Cancelling;
    assert w.workers == multiset{e.worker};
    assert w'.workers == multiset{};
  }

  lemma OneInFlightOther(w: World, e: Event, w': World, tuning: Tuning)
    requires Step(w, e, w', tuning) && OneInFlight(w) && Undisturbed(w, e) && !(e.Finish? && w.row.status == Running)
    ensures OneInFlight(w')
  {
    hide Settled;
    if e.Finish? {
      LateVerdict(w.row, e.worker, e.verdict, e.next, tuning);
    }
  }

  lemma WaitsOutOther(w: World, e: Event, w': World, tuning: Tuning, due: int)
    requires Step(w, e, w', tuning) && WaitsOut(w, due) && !e.Bump? && !(e.Finish? && w.row.status == Running)
    ensures WaitsOut(w', due) && w'.row.attempts == w.row.attempts
    ensures !(w.row.status == Running && w'.row.status == Failed)
  {
    hide Backoff;
  }

  lemma PacedOther(w: World, e: Event, w': World, tuning: Tuning, start: nat)
    requires Step(w, e, w', tuning) && Paced(w, start, tuning) && Undisturbed(w, e)
    requires !(e.Finish? && w.row.status == Running)
    ensures Paced(w', start, tuning) && !(w.row.status == Running && w'.row.status == Failed)
  {
    hide Step, OneInFlight, WaitsOut, TotalBackoff;
    OneInFlightOther(w, e, w', tuning);
    WaitsOutOther(w, e, w', tuning, start + TotalBackoff(tuning, w.row.attempts));
  }

  lemma PacedStep(w: World, e: Event, w': World, tuning: Tuning, streak: nat, start: nat)
    requires Step(w, e, w', tuning) && Sound(w, streak) && Paced(w, start, tuning) && Undisturbed(w, e)
    ensures Paced(w', NextStart(w, e, streak, start), tuning)
    ensures w.row.status == Running && w'.row.status == Failed ==>
      e.Finish? && e.worker.now >= NextStart(w, e, streak, start) + TotalBackoff(tuning, streak)
  {
    hide Step, Sound, Paced, TotalBackoff;
    if e.Finish? && w.row.status == Running {
      PacedFinish(w, e, w', tuning, streak, start);
    } else {
      PacedOther(w, e, w', tuning, start);
    }
  }

  lemma {:induction false} RunIsPaced(states: seq<World>, events: seq<Event>, tuning: Tuning, n: nat)
    requires IsRun(states, events, tuning) && |states| == |events| + 1 && NeverDisturbed(states, events) && n <= |events|
    ensures Paced(states[n], StreakStart(states, events, n), tuning)
  {
    hide IsRun, Step;
    RunStart(states, events, tuning);
    if n > 0 {
      RunIsPaced(states, events, tuning, n - 1);
      DeadLetteredAfterMaxFailuresInARow(states, events, tuning, n - 1);
      RunStep(states, events, tuning, n - 1);
      PacedStep(states[n - 1], events[n - 1], states[n], tuning, Streak(states, events, n - 1), StreakStart(states, events, n - 1));
    }
  }

  /** A job that is never bumped, nor reclaimed under a process call still in flight, is
      dead-lettered no sooner than the sum of all its backoffs after the claim whose failure
      began the streak: drains, crashes and reclaims on the way do not speed it up. */
  lemma DeadLetterTakesEveryBackoff(states: seq<World>, events: seq<Event>, tuning: Tuning, n: nat)
    requires IsRun(states, events, tuning) && |states| == |events| + 1 && NeverDisturbed(states, events) && n < |events|
    requires states[n].row.status == Running && states[n + 1].row.status == Failed
    ensures events[n].Finish? && states[0].row.maxAttempts >= 1
    ensures events[n].worker.now >= StreakStart(states, events, n + 1) + TotalBackoff(tuning, states[0].row.maxAttempts - 1)
  {
    hide IsRun, Step, TotalBackoff;
    RunStart(states, events, tuning);
    RunIsPaced(states, events, tuning, n);
    DeadLetteredAfterMaxFailuresInARow(states, events, tuning, n);
    DeadLetteredAfterMaxFailuresInARow(states, events, tuning, n + 1);
    RunStep(states, events, tuning, n);
    PacedStep(states[n], events[n], states[n + 1], tuning, Streak(states, events, n), StreakStart(states, events, n));
  }

  /** With the defaults, five failures take at least seven and a half minutes. */
  lemma DefaultTotal()
    ensures TotalBackoff(Tuning(BASE_BACKOFF, MAX_BACKOFF), 4) == 450 * SECOND
  {
    assert Doubled(BASE_BACKOFF, 1) == 60 * SECOND && Doubled(BASE_BACKOFF, 2) == 120 * SECOND;
    var t := Tuning(BASE_BACKOFF, MAX_BACKOFF);
    assert TotalBackoff(t, 1) == 30 * SECOND && TotalBackoff(t, 2) == 90 * SECOND && TotalBackoff(t, 3) == 210 * SECOND;
  }
}
