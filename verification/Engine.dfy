/** One deployment run: create or clone, optionally start, optionally configure
    (backend/internal/deploy/engine.go). */
module Engine {
  import opened Counting

  // ---- deployments --------------------------------------------------------------

  datatype StepKey = Prepare | Create | Start | Configuring
  datatype StepStatus = Pending | Running | Succeeded | Failed
  datatype Step = Step(key: StepKey, status: StepStatus)
  datatype RunStatus = InProgress | Done | Broken
  datatype Deployment = Deployment(steps: seq<Step>, status: RunStatus, connected: bool, expired: bool)

  datatype Request = Request(valid: bool, catalog: bool, startAfterCreate: bool)
  datatype Context = Context(ownershipId: string, snippetFilename: string, readinessPort: nat)

  datatype TaskEnd = TimedOut | Ended(succeeded: bool)

  /** Everything the outside world answers during one run. The i-th poll of the guest
      agent saw a routable address, or not, and ended past the deadline, or not. */
  datatype World = World(
    hasWriter: bool, writeOk: bool,
    createOk: bool, createTask: TaskEnd,
    startOk: bool, startTask: TaskEnd,
    agentHasIp: nat -> bool, agentLate: nat -> bool,
    probeOk: nat -> bool, probeLate: nat -> bool)

  /** The calls a run makes: progress updates and effects. */
  datatype Cmd =
    | Mark(key: StepKey, status: StepStatus)
    | Connect
    | End(outcome: RunStatus)
    | WriteSnippet
    | RemoveSnippet
    | SubmitCreate
    | SubmitStart
    | Finalize
    | Release

  function SetStep(steps: seq<Step>, key: StepKey, status: StepStatus): (r: seq<Step>)
    ensures |r| == |steps|
    ensures forall i | 0 <= i < |steps| ::
      r[i] == if steps[i].key == key then Step(key, status) else steps[i]
  {
    seq(|steps|, i requires 0 <= i < |steps| => if steps[i].key == key then Step(key, status) else steps[i])
  }

  function Apply(d: Deployment, c: Cmd): Deployment {
    match c
    case Mark(key, status) => d.(steps := SetStep(d.steps, key, status))
    case Connect => d.(connected := true)
    case End(outcome) => d.(status := outcome)
    case _ => d
  }

  function Play(d: Deployment, cmds: seq<Cmd>): Deployment {
    if cmds == [] then d else Apply(Play(d, cmds[..|cmds| - 1]), cmds[|cmds| - 1])
  }

  function Keys(req: Request): seq<StepKey> {
    (if req.catalog then [Prepare] else []) + [Create]
    + (if req.startAfterCreate then [Start] else [])
    + (if req.catalog then [Configuring] else [])
  }

  function Fresh(req: Request): Deployment {
    Deployment(seq(|Keys(req)|, i requires 0 <= i < |Keys(req)| => Step(Keys(req)[i], Pending)), InProgress, false, false)
  }

  // ---- what a run does -------------------------------------------------------------

  /** A poll answers before any poll has run past the deadline. */
  ghost predicate Arrives(ok: nat -> bool, late: nat -> bool) {
    exists i: nat :: ok(i) && forall j: nat | j < i :: !late(j)
  }

  predicate Removes(ctx: Context, w: World) {
    w.hasWriter && ctx.snippetFilename != ""
  }

  /** A reservation has been made for this run. */
  predicate Held(ctx: Context) {
    ctx.ownershipId != ""
  }

  function Removal(ctx: Context, w: World): seq<Cmd> {
    if Removes(ctx, w) then [RemoveSnippet] else []
  }

  function Releasing(ctx: Context): seq<Cmd> {
    if Held(ctx) then [Release] else []
  }

  function Finalizing(ctx: Context): seq<Cmd> {
    if Held(ctx) then [Finalize] else []
  }

  predicate PrepareOk(w: World) {
    w.hasWriter && w.writeOk
  }

  function PreparePart(w: World): seq<Cmd> {
    if !w.hasWriter then [Mark(Prepare, Running), Mark(Prepare, Failed)]
    else [Mark(Prepare, Running), WriteSnippet, Mark(Prepare, if w.writeOk then Succeeded else Failed)]
  }

  predicate TaskOk(submitted: bool, task: TaskEnd) {
    submitted && task.Ended? && task.succeeded
  }

  function CreatePart(ctx: Context, w: World): seq<Cmd> {
    if !w.createOk then
      [SubmitCreate] + Releasing(ctx) + Removal(ctx, w) + [Mark(Create, Failed), End(Broken)]
    else if !TaskOk(w.createOk, w.createTask) then
      [SubmitCreate, Mark(Create, Running), Mark(Create, Failed), End(Broken)] + Releasing(ctx) + Removal(ctx, w)
    else
      [SubmitCreate, Mark(Create, Running), Mark(Create, Succeeded)] + Finalizing(ctx)
  }

  function StartPart(ctx: Context, w: World): seq<Cmd> {
    if !w.startOk then
      [SubmitStart] + Removal(ctx, w) + [Mark(Start, Failed), End(Broken)]
    else if !TaskOk(w.startOk, w.startTask) then
      [SubmitStart, Mark(Start, Running), Mark(Start, Failed), End(Broken)] + Removal(ctx, w)
    else
      [SubmitStart, Mark(Start, Running), Mark(Start, Succeeded)]
  }

  ghost predicate ConfigureOk(ctx: Context, w: World) {
    Arrives(w.agentHasIp, w.agentLate) && (ctx.readinessPort > 0 ==> Arrives(w.probeOk, w.probeLate))
  }

  ghost function ConfigurePart(ctx: Context, w: World): seq<Cmd> {
    if ConfigureOk(ctx, w) then
      [Mark(Configuring, Running), Connect, Mark(Configuring, Succeeded), End(Done)]
    else
      [Mark(Configuring, Running), Mark(Configuring, Failed)] + Removal(ctx, w) + [End(Broken)]
  }

  ghost function AfterStart(req: Request, ctx: Context, w: World): seq<Cmd> {
    if req.catalog then ConfigurePart(ctx, w) else [End(Done)]
  }

  ghost function AfterCreate(req: Request, ctx: Context, w: World): seq<Cmd> {
    if !req.startAfterCreate then AfterStart(req, ctx, w)
    else if TaskOk(w.startOk, w.startTask) then StartPart(ctx, w) + AfterStart(req, ctx, w)
    else StartPart(ctx, w)
  }

  ghost function AfterPrepare(req: Request, ctx: Context, w: World): seq<Cmd> {
    if TaskOk(w.createOk, w.createTask) then CreatePart(ctx, w) + AfterCreate(req, ctx, w)
    else CreatePart(ctx, w)
  }

  ghost function Script(req: Request, ctx: Context, w: World): seq<Cmd> {
    if !req.catalog then AfterPrepare(req, ctx, w)
    else if PrepareOk(w) then PreparePart(w) + AfterPrepare(req, ctx, w)
    else PreparePart(w) + Releasing(ctx) + [End(Broken)]
  }

  // ---- the engine --------------------------------------------------------------------

  const MAX_RUNS: nat := 256

  /** The progress map, and every call made so far. */
  datatype Work = Work(runs: map<string, Deployment>, calls: seq<Cmd>)

  /** work after doing exactly cmds for id. */
  function Then(work: Work, id: string, cmds: seq<Cmd>): (r: Work)
    requires id in work.runs
    ensures id in r.runs
  {
    Work(work.runs[id := Play(work.runs[id], cmds)], work.calls + cmds)
  }

  /** Every poll of this world ends in time: by poll number p it is past the deadline. */
  ghost predicate TimesOutBy(w: World, p: nat) {
    w.agentLate(p) && w.probeLate(p)
  }

  ghost predicate TimesOut(w: World) {
    exists p :: TimesOutBy(w, p)
  }

  class Engine {
    var runs: map<string, Deployment>
    /** Every call made, in order: what the rest of the system sees of the engine. */
    var calls: seq<Cmd>

    constructor ()
      ensures runs == map[] && calls == []
    {
      runs, calls := map[], [];
    }

    ghost function Done(): Work
      reads this
    {
      Work(runs, calls)
    }

    method Submit(id: string, req: Request) returns (ok: bool)
      requires id !in runs
      modifies this`runs
      ensures ok == req.valid
      ensures !ok ==> runs == old(runs)
      ensures ok ==> id in runs && runs[id] == Fresh(req) && runs.Keys <= old(runs.Keys) + {id}
      ensures forall k | k in runs && k != id :: runs[k] == old(runs)[k]
      ensures forall k | k in old(runs) ::
        k in runs <==> !ok || |old(runs)| < MAX_RUNS || old(runs)[k].status == InProgress || !old(runs)[k].expired
    {
      if !req.valid {
        return false;
      }
      runs := runs[id := Fresh(req)];
      PruneRuns();
      return true;
    }

    /** Past the cap, exactly the runs that are over and past retention go. */
    method PruneRuns()
      modifies this`runs
      ensures runs.Keys <= old(runs.Keys)
      ensures forall k | k in runs :: runs[k] == old(runs)[k]
      ensures forall k | k in old(runs) ::
        k in runs <==> |old(runs)| <= MAX_RUNS || old(runs)[k].status == InProgress || !old(runs)[k].expired
    {
      if |runs| <= MAX_RUNS {
        return;
      }
      var todo := runs.Keys;
      while todo != {}
        invariant todo <= runs.Keys <= old(runs.Keys)
        invariant forall k | k in runs :: runs[k] == old(runs)[k]
        invariant forall k | k in old(runs) ::
          k in runs <==> k in todo || old(runs)[k].status == InProgress || !old(runs)[k].expired
      {
        var k :| k in todo;
        todo := todo - {k};
        if runs[k].status != InProgress && runs[k].expired {
          runs := runs - {k};
        }
      }
    }

    method UpdateStep(id: string, key: StepKey, status: StepStatus)
      requires id in runs
      modifies this
      ensures Done() == Then(old(Done()), id, [Mark(key, status)])
    {
      PlayOne(runs[id], Mark(key, status));
      var d := runs[id];
      runs := runs[id := d.(steps := SetStep(d.steps, key, status))];
      calls := calls + [Mark(key, status)];
    }

    method Finish(id: string, status: RunStatus)
      requires id in runs
      modifies this
      ensures Done() == Then(old(Done()), id, [End(status)])
    {
      PlayOne(runs[id], End(status));
      runs := runs[id := runs[id].(status := status)];
      calls := calls + [End(status)];
    }

    method SetConnection(id: string)
      requires id in runs
      modifies this
      ensures Done() == Then(old(Done()), id, [Connect])
    {
      PlayOne(runs[id], Connect);
      runs := runs[id := runs[id].(connected := true)];
      calls := calls + [Connect];
    }

    /** A call that leaves the deployment record alone. */
    method Note(id: string, cmds: seq<Cmd>)
      requires id in runs
      requires forall i | 0 <= i < |cmds| :: !cmds[i].Mark? && !cmds[i].Connect? && !cmds[i].End?
      modifies this`calls
      ensures Done() == Then(old(Done()), id, cmds)
    {
      EffectsLeaveTheRecord(runs[id], cmds);
      assert runs == runs[id := runs[id]];
      calls := calls + cmds;
    }

    method FailStep(id: string, key: StepKey)
      requires id in runs
      modifies this
      ensures Done() == Then(old(Done()), id, [Mark(key, Failed), End(Broken)])
    {
      hide Then;
      ThenMore(Done(), id, [Mark(key, Failed)], [End(Broken)]);
      assert [Mark(key, Failed)] + [End(Broken)] == [Mark(key, Failed), End(Broken)];
      UpdateStep(id, key, Failed);
      Finish(id, Broken);
    }

    method PrepareSnippet(id: string, w: World) returns (ok: bool)
      requires id in runs
      modifies this
      ensures ok == PrepareOk(w) && Done() == Then(old(Done()), id, PreparePart(w))
    {
      hide Then;
      ghost var start, did := Done(), [Mark(Prepare, Running)];
      UpdateStep(id, Prepare, Running);
      if !w.hasWriter {
        UpdateStep(id, Prepare, Failed);
        ThenMore(start, id, did, [Mark(Prepare, Failed)]);
        assert did + [Mark(Prepare, Failed)] == PreparePart(w);
        return false;
      }
      Note(id, [WriteSnippet]);
      ThenMore(start, id, did, [WriteSnippet]);
      var status := if w.writeOk then Succeeded else Failed;
      UpdateStep(id, Prepare, status);
      ThenMore(start, id, did + [WriteSnippet], [Mark(Prepare, status)]);
      assert did + [WriteSnippet] + [Mark(Prepare, status)] == PreparePart(w);
      return w.writeOk;
    }

    /** Wait for a tracked task; on anything but success, fail the step and the run. */
    method AwaitTask(id: string, key: StepKey, task: TaskEnd) returns (ok: bool)
      requires id in runs
      modifies this
      ensures ok == TaskOk(true, task)
      ensures Done() == Then(old(Done()), id, if ok then [Mark(key, Succeeded)] else [Mark(key, Failed), End(Broken)])
    {
      hide Then;
      if task.Ended? && task.succeeded {
        UpdateStep(id, key, Succeeded);
        return true;
      }
      FailStep(id, key);
      return false;
    }

    /** awaitGuestIP and awaitReadyPort: poll until an answer, giving up after the first
        unanswered poll that ends past the deadline, which comes at the latest by `patience`. */
    method PollUntil(ok: nat -> bool, late: nat -> bool, ghost patience: nat) returns (arrived: bool)
      requires late(patience)
      ensures arrived == Arrives(ok, late)
    {
      var i: nat := 0;
      while true
        invariant i <= patience
        invariant forall j: nat | j < i :: !ok(j) && !late(j)
        decreases patience - i
      {
        if ok(i) {
          return true;
        }
        if late(i) {
          return false;
        }
        i := i + 1;
      }
    }

    method CreatePhase(id: string, ctx: Context, w: World) returns (ok: bool)
      requires id in runs
      modifies this
      ensures ok == TaskOk(w.createOk, w.createTask) && Done() == Then(old(Done()), id, CreatePart(ctx, w))
    {
      hide Then;
      ghost var start, did := Done(), [SubmitCreate];
      Note(id, [SubmitCreate]);
      if !w.createOk {
        Note(id, Releasing(ctx));
        ThenMore(start, id, did, Releasing(ctx));
        did := did + Releasing(ctx);
        Note(id, Removal(ctx, w));
        ThenMore(start, id, did, Removal(ctx, w));
        did := did + Removal(ctx, w);
        FailStep(id, Create);
        ThenMore(start, id, did, [Mark(Create, Failed), End(Broken)]);
        return false;
      }
      UpdateStep(id, Create, Running);
      ThenMore(start, id, did, [Mark(Create, Running)]);
      did := did + [Mark(Create, Running)];
      ok := AwaitTask(id, Create, w.createTask);
      ghost var next := if ok then [Mark(Create, Succeeded)] else [Mark(Create, Failed), End(Broken)];
      ThenMore(start, id, did, next);
      did := did + next;
      var tail := if ok then Finalizing(ctx) else Releasing(ctx) + Removal(ctx, w);
      Note(id, tail);
      ThenMore(start, id, did, tail);
      assert did + tail == CreatePart(ctx, w);
    }

    method StartPhase(id: string, ctx: Context, w: World) returns (ok: bool)
      requires id in runs
      modifies this
      ensures ok == TaskOk(w.startOk, w.startTask) && Done() == Then(old(Done()), id, StartPart(ctx, w))
    {
      hide Then;
      ghost var start, did := Done(), [SubmitStart];
      Note(id, [SubmitStart]);
      if !w.startOk {
        Note(id, Removal(ctx, w));
        ThenMore(start, id, did, Removal(ctx, w));
        FailStep(id, Start);
        ThenMore(start, id, did + Removal(ctx, w), [Mark(Start, Failed), End(Broken)]);
        return false;
      }
      UpdateStep(id, Start, Running);
      ThenMore(start, id, did, [Mark(Start, Running)]);
      did := did + [Mark(Start, Running)];
      ok := AwaitTask(id, Start, w.startTask);
      ghost var next := if ok then [Mark(Start, Succeeded)] else [Mark(Start, Failed), End(Broken)];
      ThenMore(start, id, did, next);
      did := did + next;
      if !ok {
        Note(id, Removal(ctx, w));
        ThenMore(start, id, did, Removal(ctx, w));
        did := did + Removal(ctx, w);
      }
      assert did == StartPart(ctx, w);
    }

    method Configure(id: string, ctx: Context, w: World, ghost patience: nat)
      requires id in runs && w.agentLate(patience) && w.probeLate(patience)
      modifies this
      ensures Done() == Then(old(Done()), id, ConfigurePart(ctx, w))
    {
      hide Then;
      ghost var start, did := Done(), [Mark(Configuring, Running)];
      UpdateStep(id, Configuring, Running);
      var ready := PollUntil(w.agentHasIp, w.agentLate, patience);
      if ready && ctx.readinessPort > 0 {
        ready := PollUntil(w.probeOk, w.probeLate, patience);
      }
      if !ready {
        UpdateStep(id, Configuring, Failed);
        ThenMore(start, id, did, [Mark(Configuring, Failed)]);
        did := did + [Mark(Configuring, Failed)];
        Note(id, Removal(ctx, w));
        ThenMore(start, id, did, Removal(ctx, w));
        Finish(id, Broken);
        ThenMore(start, id, did + Removal(ctx, w), [End(Broken)]);
        assert did + Removal(ctx, w) + [End(Broken)] == ConfigurePart(ctx, w);
        return;
      }
      SetConnection(id);
      ThenMore(start, id, did, [Connect]);
      UpdateStep(id, Configuring, Succeeded);
      ThenMore(start, id, did + [Connect], [Mark(Configuring, Succeeded)]);
      Finish(id, RunStatus.Done);
      ThenMore(start, id, did + [Connect] + [Mark(Configuring, Succeeded)], [End(RunStatus.Done)]);
      assert did + [Connect] + [Mark(Configuring, Succeeded)] + [End(RunStatus.Done)] == ConfigurePart(ctx, w);
    }

    /** The deployment goroutine. */
    method Run(id: string, req: Request, ctx: Context, w: World, ghost patience: nat)
      requires id in runs && w.agentLate(patience) && w.probeLate(patience)
      modifies this
      ensures Done() == Then(old(Done()), id, Script(req, ctx, w))
      ensures calls == old(calls) + Script(req, ctx, w)
      ensures runs == old(runs)[id := Play(old(runs)[id], Script(req, ctx, w))]
    {
      hide Then, PreparePart, CreatePart, StartPart, ConfigurePart, Releasing;
      ghost var start, did := Done(), [];
      ThenNothing(start, id);
      ThenIs(start, id, Script(req, ctx, w));
      if req.catalog {
        var prepared := PrepareSnippet(id, w);
        did := PreparePart(w);
        if !prepared {
          ReleasingIsOneCall(ctx);
          Note(id, Releasing(ctx));
          ThenMore(start, id, did, Releasing(ctx));
          Finish(id, Broken);
          ThenMore(start, id, did + Releasing(ctx), [End(Broken)]);
          return;
        }
      }
      var created := CreatePhase(id, ctx, w);
      ThenMore(start, id, did, CreatePart(ctx, w));
      if !created {
        assert did + CreatePart(ctx, w) == Script(req, ctx, w);
        return;
      }
      FinishRun(id, req, ctx, w, patience);
      ThenMore(start, id, did + CreatePart(ctx, w), AfterCreate(req, ctx, w));
      assert did + CreatePart(ctx, w) + AfterCreate(req, ctx, w) == Script(req, ctx, w);
    }

    /** The rest of the run, once the guest exists. */
    method FinishRun(id: string, req: Request, ctx: Context, w: World, ghost patience: nat)
      requires id in runs && w.agentLate(patience) && w.probeLate(patience)
      modifies this
      ensures Done() == Then(old(Done()), id, AfterCreate(req, ctx, w))
    {
      hide Then, StartPart, ConfigurePart;
      ghost var start, did := Done(), [];
      ThenNothing(start, id);
      if req.startAfterCreate {
        var started := StartPhase(id, ctx, w);
        if !started {
          return;
        }
        did := StartPart(ctx, w);
      }
      if req.catalog {
        Configure(id, ctx, w, patience);
      } else {
        Finish(id, RunStatus.Done);
      }
      ThenMore(start, id, did, AfterStart(req, ctx, w));
      assert did + AfterStart(req, ctx, w) == AfterCreate(req, ctx, w);
    }
  }

  // ---- how scripts compose -----------------------------------------------------------

  lemma PlayOne(d: Deployment, c: Cmd)
    ensures Play(d, [c]) == Apply(d, c)
  {
    assert Play(d, [c][..0]) == d;
  }

  lemma {:induction false} PlayAppends(d: Deployment, a: seq<Cmd>, b: seq<Cmd>)
    ensures Play(d, a + b) == Play(Play(d, a), b)
  {
    if b == [] {
      assert a + b == a;
    } else {
      PlayAppends(d, a, b[..|b| - 1]);
      assert (a + b)[..|a + b| - 1] == a + b[..|b| - 1];
    }
  }

  lemma ThenMore(work: Work, id: string, a: seq<Cmd>, b: seq<Cmd>)
    requires id in work.runs
    ensures id in Then(work, id, a).runs
    ensures Then(Then(work, id, a), id, b) == Then(work, id, a + b)
  {
    PlayAppends(work.runs[id], a, b);
  }

  lemma ThenIs(work: Work, id: string, cmds: seq<Cmd>)
    requires id in work.runs
    ensures Then(work, id, cmds).calls == work.calls + cmds
    ensures Then(work, id, cmds).runs == work.runs[id := Play(work.runs[id], cmds)]
  {
  }

  lemma ThenNothing(work: Work, id: string)
    requires id in work.runs
    ensures Then(work, id, []) == work
  {
    assert work.runs[id := work.runs[id]] == work.runs;
  }

  lemma {:induction false} EffectsLeaveTheRecord(d: Deployment, cmds: seq<Cmd>)
    requires forall i | 0 <= i < |cmds| :: !cmds[i].Mark? && !cmds[i].Connect? && !cmds[i].End?
    ensures Play(d, cmds) == d
  {
    if cmds != [] {
      EffectsLeaveTheRecord(d, cmds[..|cmds| - 1]);
    }
  }

  // ---- what every run guarantees -------------------------------------------------------

  function Times(cmds: seq<Cmd>, c: Cmd): nat {
    multiset(cmds)[c]
  }

  /** How often each call that must balance occurs. */
  datatype Tally = Tally(dones: int, brokens: int, finalized: int, released: int, written: int, removed: int)

  function TallyOf(cmds: seq<Cmd>): Tally {
    Tally(Times(cmds, End(Done)), Times(cmds, End(Broken)), Times(cmds, Finalize), Times(cmds, Release),
          Times(cmds, WriteSnippet), Times(cmds, RemoveSnippet))
  }

  lemma TallyOfConcat(a: seq<Cmd>, b: seq<Cmd>)
    ensures var x, y, z := TallyOf(a), TallyOf(b), TallyOf(a + b);
      && z.dones == x.dones + y.dones && z.brokens == x.brokens + y.brokens
      && z.finalized == x.finalized + y.finalized && z.released == x.released + y.released
      && z.written == x.written + y.written && z.removed == x.removed + y.removed
  {
  }

  lemma TallyOfPieces(ctx: Context, w: World, k: StepKey, outcome: RunStatus)
    ensures TallyOf(Releasing(ctx)) == Tally(0, 0, 0, One(Held(ctx)), 0, 0)
    ensures TallyOf(Finalizing(ctx)) == Tally(0, 0, One(Held(ctx)), 0, 0, 0)
    ensures TallyOf(Removal(ctx, w)) == Tally(0, 0, 0, 0, 0, One(Removes(ctx, w)))
    ensures TallyOf([End(outcome)]) == Tally(One(outcome == Done), One(outcome == Broken), 0, 0, 0, 0)
    ensures TallyOf([Mark(k, Failed), End(Broken)]) == Tally(0, 1, 0, 0, 0, 0)
  {
  }

  lemma TallyOfHead(submit: Cmd, k: StepKey)
    requires submit == SubmitCreate || submit == SubmitStart
    ensures TallyOf([submit]) == Tally(0, 0, 0, 0, 0, 0)
    ensures TallyOf([submit, Mark(k, Running)]) == Tally(0, 0, 0, 0, 0, 0)
    ensures TallyOf([submit, Mark(k, Running), Mark(k, Succeeded)]) == Tally(0, 0, 0, 0, 0, 0)
  {
  }

  lemma TallyOfConfigured()
    ensures TallyOf([Mark(Configuring, Running), Mark(Configuring, Failed)]) == Tally(0, 0, 0, 0, 0, 0)
    ensures TallyOf([Mark(Configuring, Running), Connect, Mark(Configuring, Succeeded), End(Done)]) == Tally(1, 0, 0, 0, 0, 0)
  {
  }

  lemma TallyOfCreate(ctx: Context, w: World)
    ensures var ok, held := TaskOk(w.createOk, w.createTask), Held(ctx);
      TallyOf(CreatePart(ctx, w)) ==
        Tally(0, One(!ok), One(ok && held), One(!ok && held), 0, One(!ok && Removes(ctx, w)))
  {
    hide TallyOf, Removal, Releasing, Finalizing, Removes, Held;
    TallyOfPieces(ctx, w, Create, Broken);
    TallyOfHead(SubmitCreate, Create);
    var head, tail := [SubmitCreate, Mark(Create, Running)], [Mark(Create, Failed), End(Broken)];
    TallyOfConcat([SubmitCreate], Releasing(ctx));
    TallyOfConcat([SubmitCreate] + Releasing(ctx), Removal(ctx, w));
    TallyOfConcat([SubmitCreate] + Releasing(ctx) + Removal(ctx, w), tail);
    TallyOfConcat(head, tail);
    TallyOfConcat(head + tail, Releasing(ctx));
    TallyOfConcat(head + tail + Releasing(ctx), Removal(ctx, w));
    assert head + tail == [SubmitCreate, Mark(Create, Running), Mark(Create, Failed), End(Broken)];
    TallyOfConcat([SubmitCreate, Mark(Create, Running), Mark(Create, Succeeded)], Finalizing(ctx));
  }

  lemma TallyOfStart(ctx: Context, w: World)
    ensures var ok := TaskOk(w.startOk, w.startTask);
      TallyOf(StartPart(ctx, w)) == Tally(0, One(!ok), 0, 0, 0, One(!ok && Removes(ctx, w)))
  {
    hide TallyOf, Removal, Removes;
    TallyOfPieces(ctx, w, Start, Broken);
    TallyOfHead(SubmitStart, Start);
    var head, tail := [SubmitStart, Mark(Start, Running)], [Mark(Start, Failed), End(Broken)];
    TallyOfConcat([SubmitStart], Removal(ctx, w));
    TallyOfConcat([SubmitStart] + Removal(ctx, w), tail);
    TallyOfConcat(head, tail);
    TallyOfConcat(head + tail, Removal(ctx, w));
    assert head + tail == [SubmitStart, Mark(Start, Running), Mark(Start, Failed), End(Broken)];
  }

  lemma TallyOfConfigure(ctx: Context, w: World)
    ensures var ok := ConfigureOk(ctx, w);
      TallyOf(ConfigurePart(ctx, w)) == Tally(One(ok), One(!ok), 0, 0, 0, One(!ok && Removes(ctx, w)))
  {
    hide TallyOf, Removal, Removes, ConfigureOk;
    TallyOfPieces(ctx, w, Configuring, Broken);
    TallyOfConfigured();
    var head := [Mark(Configuring, Running), Mark(Configuring, Failed)];
    TallyOfConcat(head, Removal(ctx, w));
    TallyOfConcat(head + Removal(ctx, w), [End(Broken)]);
  }

  /** Once the guest exists, the run ends once and settles nothing. */
  predicate Closes(t: Tally, removal: bool) {
    && t.dones + t.brokens == 1
    && t.finalized == t.released == t.written == 0
    && t.removed == if removal then t.brokens else 0
  }

  lemma TallyOfAfterCreate(req: Request, ctx: Context, w: World)
    ensures Closes(TallyOf(AfterCreate(req, ctx, w)), Removes(ctx, w))
  {
    hide TallyOf, StartPart, ConfigurePart, Removal, Removes, TaskOk;
    TallyOfPieces(ctx, w, Create, Done);
    TallyOfConfigure(ctx, w);
    TallyOfStart(ctx, w);
    TallyOfConcat(StartPart(ctx, w), AfterStart(req, ctx, w));
  }

  predicate Created(req: Request, w: World) {
    (req.catalog ==> PrepareOk(w)) && TaskOk(w.createOk, w.createTask)
  }

  predicate Written(req: Request, w: World) {
    req.catalog && PrepareOk(w)
  }

  /** For every world: the run is finished exactly once; a reservation is settled exactly
      once, finalized if and only if the create task succeeded; and a written snippet that
      has a name is removed, once, exactly when the run fails (one without a name never is). */
  lemma EveryRunBalances(req: Request, ctx: Context, w: World)
    ensures var t := TallyOf(Script(req, ctx, w));
      && t.dones + t.brokens == 1
      && (Held(ctx) ==> t.finalized == One(Created(req, w)) && t.released == One(!Created(req, w)))
      && (!Held(ctx) ==> t.finalized == t.released == 0)
      && (Written(req, w) ==> t.written == 1 && t.removed == if ctx.snippetFilename != "" then t.brokens else 0)
  {
    hide TallyOf, CreatePart, AfterCreate, PreparePart, Releasing;
    TallyOfPieces(ctx, w, Prepare, Broken);
    TallyOfCreate(ctx, w);
    TallyOfAfterCreate(req, ctx, w);
    TallyOfPrepare(w);
    TallyOfConcat(CreatePart(ctx, w), AfterCreate(req, ctx, w));
    TallyOfConcat(PreparePart(w), AfterPrepare(req, ctx, w));
    TallyOfConcat(PreparePart(w), Releasing(ctx));
    TallyOfConcat(PreparePart(w) + Releasing(ctx), [End(Broken)]);
  }

  lemma TallyOfPrepare(w: World)
    ensures TallyOf(PreparePart(w)) == Tally(0, 0, 0, 0, One(w.hasWriter), 0)
  {
  }

  // ---- the step list, at every moment of every run ----------------------------------------

  /** succeeded*, then at most one step in any state, then pending*. */
  ghost predicate Shaped(steps: seq<Step>) {
    exists k :: ShapedAt(steps, k)
  }

  ghost predicate ShapedAt(steps: seq<Step>, k: int) {
    && 0 <= k <= |steps|
    && (forall i | 0 <= i < k :: steps[i].status == Succeeded)
    && (forall i | k < i < |steps| :: steps[i].status == Pending)
  }

  /** The step list once the first k steps have succeeded and the next has status s. */
  function StepsAt(req: Request, k: nat, s: StepStatus): seq<Step> {
    var keys := Keys(req);
    seq(|keys|, i requires 0 <= i < |keys| => Step(keys[i], if i < k then Succeeded else if i == k then s else Pending))
  }

  /** cmds keep the list in shape throughout, and leave it at (k, s) with the run's status. */
  ghost predicate Keeps(req: Request, cmds: seq<Cmd>, k: nat, s: StepStatus, status: RunStatus) {
    && k <= |Keys(req)|
    && (forall n | 0 <= n <= |cmds| :: Shaped(Play(Fresh(req), cmds[..n]).steps))
    && Play(Fresh(req), cmds).steps == StepsAt(req, k, s)
    && Play(Fresh(req), cmds).status == status
  }

  lemma KeepsMore(req: Request, cmds: seq<Cmd>, c: Cmd)
    requires forall n | 0 <= n <= |cmds| :: Shaped(Play(Fresh(req), cmds[..n]).steps)
    requires Shaped(Apply(Play(Fresh(req), cmds), c).steps)
    ensures forall n | 0 <= n <= |cmds + [c]| :: Shaped(Play(Fresh(req), (cmds + [c])[..n]).steps)
    ensures Play(Fresh(req), cmds + [c]) == Apply(Play(Fresh(req), cmds), c)
  {
    assert (cmds + [c])[..|cmds|] == cmds;
    forall n | 0 <= n <= |cmds + [c]|
      ensures Shaped(Play(Fresh(req), (cmds + [c])[..n]).steps)
    {
      if n <= |cmds| {
        assert (cmds + [c])[..n] == cmds[..n];
      } else {
        assert (cmds + [c])[..n] == cmds + [c];
      }
    }
  }

  lemma KeepsStart(req: Request)
    ensures Keeps(req, [], 0, Pending, InProgress)
  {
    assert Fresh(req).steps == StepsAt(req, 0, Pending);
    assert ShapedAt(Fresh(req).steps, 0);
  }

  lemma KeepsMark(req: Request, cmds: seq<Cmd>, k: nat, s: StepStatus, status: StepStatus)
    requires k < |Keys(req)| && Keeps(req, cmds, k, s, InProgress)
    ensures Keeps(req, cmds + [Mark(Keys(req)[k], status)], if status == Succeeded then k + 1 else k,
                  if status == Succeeded then Pending else status, InProgress)
  {
    StepsAtMark(req, k, s, status);
    KeepsMore(req, cmds, Mark(Keys(req)[k], status));
  }

  lemma StepsAtMark(req: Request, k: nat, s: StepStatus, status: StepStatus)
    requires k < |Keys(req)|
    ensures var steps := SetStep(StepsAt(req, k, s), Keys(req)[k], status);
      && Shaped(steps)
      && steps == StepsAt(req, k, status)
      && (status == Succeeded ==> steps == StepsAt(req, k + 1, Pending))
  {
    KeysAreDistinct(req);
    hide Keys;
    var steps := SetStep(StepsAt(req, k, s), Keys(req)[k], status);
    assert steps == StepsAt(req, k, status);
    assert status == Succeeded ==> steps == StepsAt(req, k + 1, Pending);
    assert ShapedAt(steps, k);
  }

  lemma KeysAreDistinct(req: Request)
    ensures forall i, j | 0 <= i < j < |Keys(req)| :: Keys(req)[i] != Keys(req)[j]
  {
  }

  lemma KeepsOther(req: Request, cmds: seq<Cmd>, k: nat, s: StepStatus, status: RunStatus, c: Cmd)
    requires Keeps(req, cmds, k, s, status) && !c.Mark?
    ensures Keeps(req, cmds + [c], k, s, if c.End? then c.outcome else status)
  {
    assert cmds[..|cmds|] == cmds;
    KeepsMore(req, cmds, c);
  }

  lemma {:induction false} KeepsEffects(req: Request, cmds: seq<Cmd>, k: nat, s: StepStatus, status: RunStatus, effects: seq<Cmd>)
    requires Keeps(req, cmds, k, s, status)
    requires forall i | 0 <= i < |effects| :: !effects[i].Mark? && !effects[i].End?
    ensures Keeps(req, cmds + effects, k, s, status)
    decreases |effects|
  {
    hide Keeps;
    if effects == [] {
      assert cmds + effects == cmds;
    } else {
      KeepsOther(req, cmds, k, s, status, effects[0]);
      KeepsEffects(req, cmds + [effects[0]], k, s, status, effects[1..]);
      assert cmds + [effects[0]] + effects[1..] == cmds + effects;
    }
  }

  /** A run either leaves every step succeeded, or stops at exactly one failed step. */
  ghost predicate EndsWell(req: Request, cmds: seq<Cmd>) {
    || Keeps(req, cmds, |Keys(req)|, Pending, Done)
    || exists k: nat :: k < |Keys(req)| && Keeps(req, cmds, k, Failed, Broken)
  }

  lemma CreateKeeps(req: Request, ctx: Context, w: World, done: seq<Cmd>, k: nat)
    requires k < |Keys(req)| && Keys(req)[k] == Create && Keeps(req, done, k, Pending, InProgress)
    ensures if TaskOk(w.createOk, w.createTask) then Keeps(req, done + CreatePart(ctx, w), k + 1, Pending, InProgress)
            else Keeps(req, done + CreatePart(ctx, w), k, Failed, Broken)
  {
    hide Keeps, Releasing, Removal, Finalizing;
    EffectsAreQuiet(ctx, w);
    KeepsOther(req, done, k, Pending, InProgress, SubmitCreate);
    var c1 := done + [SubmitCreate];
    if !w.createOk {
      CreateRefusedKeeps(req, ctx, w, c1, k);
      assert c1 + (Releasing(ctx) + Removal(ctx, w)) + [Mark(Create, Failed), End(Broken)] == done + CreatePart(ctx, w);
    } else {
      KeepsMark(req, c1, k, Pending, Running);
      var c2 := c1 + [Mark(Create, Running)];
      if TaskOk(w.createOk, w.createTask) {
        KeepsMark(req, c2, k, Running, Succeeded);
        KeepsEffects(req, c2 + [Mark(Create, Succeeded)], k + 1, Pending, InProgress, Finalizing(ctx));
        assert c2 + [Mark(Create, Succeeded)] + Finalizing(ctx) == done + CreatePart(ctx, w);
      } else {
        KeepsMark(req, c2, k, Running, Failed);
        KeepsOther(req, c2 + [Mark(Create, Failed)], k, Failed, InProgress, End(Broken));
        KeepsEffects(req, c2 + [Mark(Create, Failed)] + [End(Broken)], k, Failed, Broken, Releasing(ctx) + Removal(ctx, w));
        assert c2 + [Mark(Create, Failed)] + [End(Broken)] + (Releasing(ctx) + Removal(ctx, w)) == done + CreatePart(ctx, w);
      }
    }
  }

  lemma CreateRefusedKeeps(req: Request, ctx: Context, w: World, c1: seq<Cmd>, k: nat)
    requires k < |Keys(req)| && Keys(req)[k] == Create && Keeps(req, c1, k, Pending, InProgress)
    ensures Keeps(req, c1 + (Releasing(ctx) + Removal(ctx, w)) + [Mark(Create, Failed), End(Broken)], k, Failed, Broken)
  {
    hide Keeps, Releasing, Removal, Keys;
    EffectsAreQuiet(ctx, w);
    var c2 := c1 + (Releasing(ctx) + Removal(ctx, w));
    KeepsEffects(req, c1, k, Pending, InProgress, Releasing(ctx) + Removal(ctx, w));
    KeepsMark(req, c2, k, Pending, Failed);
    KeepsOther(req, c2 + [Mark(Create, Failed)], k, Failed, InProgress, End(Broken));
    assert c2 + [Mark(Create, Failed)] + [End(Broken)] == c2 + [Mark(Create, Failed), End(Broken)];
  }

  lemma EffectsAreQuiet(ctx: Context, w: World)
    ensures forall i | 0 <= i < |Releasing(ctx) + Removal(ctx, w)| ::
      !(Releasing(ctx) + Removal(ctx, w))[i].Mark? && !(Releasing(ctx) + Removal(ctx, w))[i].End?
    ensures forall i | 0 <= i < |Finalizing(ctx)| :: !Finalizing(ctx)[i].Mark? && !Finalizing(ctx)[i].End?
  {
  }

  lemma StartKeeps(req: Request, ctx: Context, w: World, done: seq<Cmd>, k: nat)
    requires k < |Keys(req)| && Keys(req)[k] == Start && Keeps(req, done, k, Pending, InProgress)
    ensures if TaskOk(w.startOk, w.startTask) then Keeps(req, done + StartPart(ctx, w), k + 1, Pending, InProgress)
            else Keeps(req, done + StartPart(ctx, w), k, Failed, Broken)
  {
    hide Keeps;
    var remove := Removal(ctx, w);
    KeepsOther(req, done, k, Pending, InProgress, SubmitStart);
    var c1 := done + [SubmitStart];
    if !w.startOk {
      KeepsEffects(req, c1, k, Pending, InProgress, remove);
      KeepsMark(req, c1 + remove, k, Pending, Failed);
      KeepsOther(req, c1 + remove + [Mark(Start, Failed)], k, Failed, InProgress, End(Broken));
      assert c1 + remove + [Mark(Start, Failed)] + [End(Broken)] == done + StartPart(ctx, w);
    } else {
      KeepsMark(req, c1, k, Pending, Running);
      var c2 := c1 + [Mark(Start, Running)];
      if TaskOk(w.startOk, w.startTask) {
        KeepsMark(req, c2, k, Running, Succeeded);
        assert c2 + [Mark(Start, Succeeded)] == done + StartPart(ctx, w);
      } else {
        KeepsMark(req, c2, k, Running, Failed);
        KeepsOther(req, c2 + [Mark(Start, Failed)], k, Failed, InProgress, End(Broken));
        KeepsEffects(req, c2 + [Mark(Start, Failed)] + [End(Broken)], k, Failed, Broken, remove);
        assert c2 + [Mark(Start, Failed)] + [End(Broken)] + remove == done + StartPart(ctx, w);
      }
    }
  }

  lemma ConfigureKeeps(req: Request, ctx: Context, w: World, done: seq<Cmd>, k: nat)
    requires k + 1 == |Keys(req)| && Keys(req)[k] == Configuring && Keeps(req, done, k, Pending, InProgress)
    ensures if ConfigureOk(ctx, w) then Keeps(req, done + ConfigurePart(ctx, w), k + 1, Pending, Done)
            else Keeps(req, done + ConfigurePart(ctx, w), k, Failed, Broken)
  {
    hide Keeps;
    KeepsMark(req, done, k, Pending, Running);
    var c1 := done + [Mark(Configuring, Running)];
    if ConfigureOk(ctx, w) {
      KeepsOther(req, c1, k, Running, InProgress, Connect);
      KeepsMark(req, c1 + [Connect], k, Running, Succeeded);
      KeepsOther(req, c1 + [Connect] + [Mark(Configuring, Succeeded)], k + 1, Pending, InProgress, End(Done));
      assert c1 + [Connect] + [Mark(Configuring, Succeeded)] + [End(Done)] == done + ConfigurePart(ctx, w);
    } else {
      KeepsMark(req, c1, k, Running, Failed);
      KeepsEffects(req, c1 + [Mark(Configuring, Failed)], k, Failed, InProgress, Removal(ctx, w));
      KeepsOther(req, c1 + [Mark(Configuring, Failed)] + Removal(ctx, w), k, Failed, InProgress, End(Broken));
      assert c1 + [Mark(Configuring, Failed)] + Removal(ctx, w) + [End(Broken)] == done + ConfigurePart(ctx, w);
    }
  }

  lemma AfterCreateKeeps(req: Request, ctx: Context, w: World, done: seq<Cmd>, k: nat)
    requires k < |Keys(req)| && Keys(req)[k] == Create && Keeps(req, done, k + 1, Pending, InProgress)
    ensures EndsWell(req, done + AfterCreate(req, ctx, w))
  {
    hide Keeps;
    var n := k + 1;
    var done' := done;
    if req.startAfterCreate {
      StartKeeps(req, ctx, w, done, n);
      if !TaskOk(w.startOk, w.startTask) {
        return;
      }
      n := n + 1;
      done' := done + StartPart(ctx, w);
    }
    if req.catalog {
      ConfigureKeeps(req, ctx, w, done', n);
    } else {
      KeepsOther(req, done', n, Pending, InProgress, End(Done));
    }
    assert done' + AfterStart(req, ctx, w) == done + AfterCreate(req, ctx, w);
  }

  /** At every moment of every run the step list is succeeded*, at most one running or
      failed step, pending*; and the run ends with all steps succeeded, or stops, failed,
      at its one failed step. */
  lemma StepListIsAlwaysShaped(req: Request, ctx: Context, w: World)
    ensures EndsWell(req, Script(req, ctx, w))
  {
    hide Keeps, CreatePart, AfterCreate, PreparePart, Releasing;
    KeepsStart(req);
    assert Keys(req)[if req.catalog then 1 else 0] == Create;
    var done, k := [], 0;
    if req.catalog {
      PrepareKeeps(req, w);
      done, k := PreparePart(w), 1;
      if !PrepareOk(w) {
        ReleasingIsOneCall(ctx);
        KeepsEffects(req, done, 0, Failed, InProgress, Releasing(ctx));
        KeepsOther(req, done + Releasing(ctx), 0, Failed, InProgress, End(Broken));
        return;
      }
    }
    CreateKeeps(req, ctx, w, done, k);
    assert [] + CreatePart(ctx, w) == CreatePart(ctx, w);
    if TaskOk(w.createOk, w.createTask) {
      AfterCreateKeeps(req, ctx, w, done + CreatePart(ctx, w), k);
      assert done + CreatePart(ctx, w) + AfterCreate(req, ctx, w) == Script(req, ctx, w);
    } else {
      assert done + CreatePart(ctx, w) == Script(req, ctx, w);
    }
  }

  lemma ReleasingIsOneCall(ctx: Context)
    ensures Releasing(ctx) == [] || Releasing(ctx) == [Release]
  {
  }

  lemma PrepareKeeps(req: Request, w: World)
    requires req.catalog
    ensures if PrepareOk(w) then Keeps(req, PreparePart(w), 1, Pending, InProgress)
            else Keeps(req, PreparePart(w), 0, Failed, InProgress)
  {
    KeepsStart(req);
    hide Keeps;
    assert Keys(req)[0] == Prepare;
    KeepsMark(req, [], 0, Pending, Running);
    var c1 := [] + [Mark(Prepare, Running)];
    if !w.hasWriter {
      KeepsMark(req, c1, 0, Running, Failed);
      assert c1 + [Mark(Prepare, Failed)] == PreparePart(w);
    } else {
      var status := if w.writeOk then Succeeded else Failed;
      KeepsOther(req, c1, 0, Running, InProgress, WriteSnippet);
      KeepsMark(req, c1 + [WriteSnippet], 0, Running, status);
      assert c1 + [WriteSnippet] + [Mark(Prepare, status)] == PreparePart(w);
    }
  }
}
