/** What a deployment run asks of the rest of the system, how often and in what order, and where it
    stops (backend/internal/deploy/engine.go). */
module EngineCalls {
  import opened Counting
  import opened Engine

  // ---- a run only goes forward --------------------------------------------------------------------

  /** The place of each call in a run that goes well; everything a failure brings comes last. */
  function Phase(c: Cmd): nat {
    match c
    case Mark(key, status) =>
      if status == Failed || status == Pending then 14
      else (match key case Prepare => 0 case Create => 4 case Start => 8 case Configuring => 10)
           + (if status == Running then 0 else if key == Prepare || key == Configuring then 2 else 1)
    case WriteSnippet => 1
    case SubmitCreate => 3
    case Finalize => 6
    case SubmitStart => 7
    case Connect => 11
    case End(outcome) => if outcome == Done then 13 else 14
    case Release => 14
    case RemoveSnippet => 14
  }

  /** Each call before the failing tail is made once, and in this order. */
  ghost predicate Forward(cmds: seq<Cmd>) {
    forall i, j | 0 <= i < j < |cmds| :: Phase(cmds[i]) < Phase(cmds[j]) || Phase(cmds[i]) == Phase(cmds[j]) == 14
  }

  ghost predicate Within(cmds: seq<Cmd>, lo: nat, hi: nat) {
    Forward(cmds) && forall i | 0 <= i < |cmds| :: lo <= Phase(cmds[i]) <= hi
  }

  lemma WithinJoins(a: seq<Cmd>, b: seq<Cmd>, lo: nat, m: nat, n: nat, hi: nat)
    requires Within(a, lo, m) && Within(b, n, hi) && lo <= n && m <= hi && (m < n || m == n == 14)
    ensures Within(a + b, lo, hi)
  {
    hide Phase;
  }

  lemma PreparingIsForward()
    ensures Within([Mark(Prepare, Running), WriteSnippet, Mark(Prepare, Succeeded)], 0, 2)
  {
  }

  lemma CreatingIsForward(ctx: Context)
    ensures Within([SubmitCreate, Mark(Create, Running), Mark(Create, Succeeded)] + Finalizing(ctx), 3, 6)
  {
  }

  lemma StartingIsForward()
    ensures Within([SubmitStart, Mark(Start, Running), Mark(Start, Succeeded)], 7, 9)
  {
  }

  lemma ConnectingIsForward()
    ensures Within([Mark(Configuring, Running), Connect, Mark(Configuring, Succeeded), End(Done)], 10, 13)
  {
  }

  lemma EndingIsForward()
    ensures Within([End(Done)], 13, 13) && Within([End(Broken)], 14, 14)
  {
  }

  lemma TailsAreForward(ctx: Context, w: World, key: StepKey)
    ensures Within(Releasing(ctx), 14, 14) && Within(Removal(ctx, w), 14, 14) && Within([End(Broken)], 14, 14)
    ensures Within([Mark(key, Failed), End(Broken)], 14, 14) && Within([Mark(key, Failed)], 14, 14)
  {
    AllLast(Releasing(ctx));
    AllLast(Removal(ctx, w));
    AllLast([Mark(key, Failed), End(Broken)]);
    AllLast([Mark(key, Failed)]);
    AllLast([End(Broken)]);
    hide Within;
  }

  lemma AllLast(cmds: seq<Cmd>)
    requires forall i | 0 <= i < |cmds| :: Phase(cmds[i]) == 14
    ensures Within(cmds, 14, 14)
  {
    hide Phase;
  }

  lemma HeadsAreForward()
    ensures Within([SubmitCreate], 3, 3) && Within([SubmitCreate, Mark(Create, Running)], 3, 4)
    ensures Within([SubmitStart], 7, 7) && Within([SubmitStart, Mark(Start, Running)], 7, 8)
    ensures Within([Mark(Configuring, Running)], 10, 10)
    ensures Within([Mark(Prepare, Running)], 0, 0) && Within([Mark(Prepare, Running), WriteSnippet], 0, 1)
  {
  }

  lemma PrepareIsForward(w: World)
    ensures Within(PreparePart(w), 0, if w.hasWriter && w.writeOk then 2 else 14)
  {
    hide Within;
    PreparingIsForward();
    HeadsAreForward();
    TailsAreForward(Context("", "", 0), w, Prepare);
    if !w.hasWriter {
      WithinJoins([Mark(Prepare, Running)], [Mark(Prepare, Failed)], 0, 0, 14, 14);
      assert [Mark(Prepare, Running)] + [Mark(Prepare, Failed)] == PreparePart(w);
    } else if !w.writeOk {
      WithinJoins([Mark(Prepare, Running), WriteSnippet], [Mark(Prepare, Failed)], 0, 1, 14, 14);
      assert [Mark(Prepare, Running), WriteSnippet] + [Mark(Prepare, Failed)] == PreparePart(w);
    }
  }

  lemma CreateIsForward(ctx: Context, w: World)
    ensures Within(CreatePart(ctx, w), 3, if TaskOk(w.createOk, w.createTask) then 6 else 14)
  {
    hide Within, Releasing, Removal, Finalizing;
    CreatingIsForward(ctx);
    HeadsAreForward();
    TailsAreForward(ctx, w, Create);
    var tail := [Mark(Create, Failed), End(Broken)];
    if !w.createOk {
      WithinJoins([SubmitCreate], Releasing(ctx), 3, 3, 14, 14);
      WithinJoins([SubmitCreate] + Releasing(ctx), Removal(ctx, w), 3, 14, 14, 14);
      WithinJoins([SubmitCreate] + Releasing(ctx) + Removal(ctx, w), tail, 3, 14, 14, 14);
    } else if !TaskOk(w.createOk, w.createTask) {
      var head := [SubmitCreate, Mark(Create, Running)];
      WithinJoins(head, tail, 3, 4, 14, 14);
      WithinJoins(head + tail, Releasing(ctx), 3, 14, 14, 14);
      WithinJoins(head + tail + Releasing(ctx), Removal(ctx, w), 3, 14, 14, 14);
      assert head + tail == [SubmitCreate, Mark(Create, Running), Mark(Create, Failed), End(Broken)];
    }
  }

  lemma StartIsForward(ctx: Context, w: World)
    ensures Within(StartPart(ctx, w), 7, if TaskOk(w.startOk, w.startTask) then 9 else 14)
  {
    hide Within, Removal;
    StartingIsForward();
    HeadsAreForward();
    TailsAreForward(ctx, w, Start);
    var tail := [Mark(Start, Failed), End(Broken)];
    if !w.startOk {
      WithinJoins([SubmitStart], Removal(ctx, w), 7, 7, 14, 14);
      WithinJoins([SubmitStart] + Removal(ctx, w), tail, 7, 14, 14, 14);
    } else if !TaskOk(w.startOk, w.startTask) {
      var head := [SubmitStart, Mark(Start, Running)];
      WithinJoins(head, tail, 7, 8, 14, 14);
      WithinJoins(head + tail, Removal(ctx, w), 7, 14, 14, 14);
      assert head + tail == [SubmitStart, Mark(Start, Running), Mark(Start, Failed), End(Broken)];
    }
  }

  lemma ConfigureIsForward(ctx: Context, w: World)
    ensures Within(ConfigurePart(ctx, w), 10, 14)
  {
    hide Within, Removal, ConfigureOk;
    ConnectingIsForward();
    HeadsAreForward();
    TailsAreForward(ctx, w, Configuring);
    WithinWidens([Mark(Configuring, Running), Connect, Mark(Configuring, Succeeded), End(Done)], 10, 13, 14);
    WithinJoins([Mark(Configuring, Running)], [Mark(Configuring, Failed)], 10, 10, 14, 14);
    var head := [Mark(Configuring, Running)] + [Mark(Configuring, Failed)];
    WithinJoins(head, Removal(ctx, w), 10, 14, 14, 14);
    WithinJoins(head + Removal(ctx, w), [End(Broken)], 10, 14, 14, 14);
    assert head == [Mark(Configuring, Running), Mark(Configuring, Failed)];
  }

  lemma WithinWidens(cmds: seq<Cmd>, lo: nat, m: nat, hi: nat)
    requires Within(cmds, lo, m) && m <= hi
    ensures Within(cmds, lo, hi)
  {
    hide Phase;
  }

  lemma AfterCreateIsForward(req: Request, ctx: Context, w: World)
    ensures Within(AfterCreate(req, ctx, w), 7, 14)
  {
    hide Within, StartPart, ConfigurePart;
    StartIsForward(ctx, w);
    ConfigureIsForward(ctx, w);
    EndingIsForward();
    var tail := AfterStart(req, ctx, w);
    WithinWidens([End(Done)], 13, 13, 14);
    WithinLowers(tail, if req.catalog then 10 else 13, 10, 14);
    if req.startAfterCreate && TaskOk(w.startOk, w.startTask) {
      WithinJoins(StartPart(ctx, w), tail, 7, 9, 10, 14);
    } else if !req.startAfterCreate {
      WithinLowers(tail, 10, 7, 14);
    }
  }

  lemma WithinLowers(cmds: seq<Cmd>, n: nat, lo: nat, hi: nat)
    requires Within(cmds, n, hi) && lo <= n
    ensures Within(cmds, lo, hi)
  {
    hide Phase;
  }

  /** Every run goes forward: the snippet is written before the create is asked for, the guest is
      created before its row is finalized, started after that, and connected at the end; nothing
      is asked for twice, and nothing but cleaning up follows a failure. */
  lemma EveryRunGoesForward(req: Request, ctx: Context, w: World)
    ensures Forward(Script(req, ctx, w))
  {
    hide Within, Forward, PreparePart, CreatePart, AfterCreate, Releasing;
    PrepareIsForward(w);
    CreateIsForward(ctx, w);
    AfterCreateIsForward(req, ctx, w);
    TailsAreForward(ctx, w, Prepare);
    var created := TaskOk(w.createOk, w.createTask);
    if created {
      WithinJoins(CreatePart(ctx, w), AfterCreate(req, ctx, w), 3, 6, 7, 14);
    }
    var rest := AfterPrepare(req, ctx, w);
    if req.catalog && PrepareOk(w) {
      WithinJoins(PreparePart(w), rest, 0, 2, 3, 14);
      WithinIsForward(PreparePart(w) + rest, 0, 14);
    } else if req.catalog {
      WithinJoins(PreparePart(w), Releasing(ctx), 0, 14, 14, 14);
      WithinJoins(PreparePart(w) + Releasing(ctx), [End(Broken)], 0, 14, 14, 14);
      WithinIsForward(PreparePart(w) + Releasing(ctx) + [End(Broken)], 0, 14);
    } else {
      WithinIsForward(rest, 3, 14);
    }
  }

  lemma WithinIsForward(cmds: seq<Cmd>, lo: nat, hi: nat)
    requires Within(cmds, lo, hi)
    ensures Forward(cmds)
  {
  }

  lemma {:induction false} ForwardIsOnce(cmds: seq<Cmd>, c: Cmd)
    requires Forward(cmds) && Phase(c) < 14
    ensures multiset(cmds)[c] == One(c in cmds)
  {
    hide Phase;
    if cmds != [] {
      var init, last := cmds[..|cmds| - 1], cmds[|cmds| - 1];
      assert cmds == init + [last];
      ForwardIsOnce(init, c);
      if c in init {
        var i :| 0 <= i < |init| && init[i] == c;
        assert cmds[i] == c;
      }
    }
  }

  // ---- what is asked for, and when ------------------------------------------------------------------

  /** An address was reported, and the readiness port answered if there is one, each before a poll
      had run past the deadline. */
  ghost predicate ComesUp(ctx: Context, w: World) {
    && (exists i: nat :: w.agentHasIp(i) && forall j: nat | j < i :: !w.agentLate(j))
    && (ctx.readinessPort > 0 ==> exists i: nat :: w.probeOk(i) && forall j: nat | j < i :: !w.probeLate(j))
  }

  /** How far the world lets the run come: the snippet is written, the create task succeeds, the
      start task succeeds, the service comes up. */
  predicate Prepares(req: Request, w: World) {
    req.catalog ==> w.hasWriter && w.writeOk
  }

  predicate Creates(req: Request, w: World) {
    Prepares(req, w) && w.createOk && w.createTask.Ended? && w.createTask.succeeded
  }

  predicate Starts(req: Request, w: World) {
    Creates(req, w) && (req.startAfterCreate ==> w.startOk && w.startTask.Ended? && w.startTask.succeeded)
  }

  ghost predicate Completes(req: Request, ctx: Context, w: World) {
    Starts(req, w) && (req.catalog ==> ComesUp(ctx, w))
  }

  /** The world in which a call is due. */
  ghost predicate Due(c: Cmd, req: Request, ctx: Context, w: World) {
    match c
    case WriteSnippet => req.catalog && w.hasWriter
    case SubmitCreate => Prepares(req, w)
    case Finalize => Creates(req, w) && ctx.ownershipId != ""
    case SubmitStart => Creates(req, w) && req.startAfterCreate
    case Connect => req.catalog && Completes(req, ctx, w)
    case End(outcome) => if Completes(req, ctx, w) then outcome == Done else outcome == Broken
    case Release => !Creates(req, w) && ctx.ownershipId != ""
    case RemoveSnippet => Prepares(req, w) && !Completes(req, ctx, w) && w.hasWriter && ctx.snippetFilename != ""
    case Mark(key, status) => MarkDue(key, status, req, ctx, w)
  }

  ghost predicate MarkDue(key: StepKey, status: StepStatus, req: Request, ctx: Context, w: World) {
    match status
    case Pending => false
    case Running =>
      (match key
       case Prepare => req.catalog
       case Create => Prepares(req, w) && w.createOk
       case Start => Creates(req, w) && req.startAfterCreate && w.startOk
       case Configuring => Starts(req, w) && req.catalog)
    case Succeeded =>
      (match key
       case Prepare => req.catalog && Prepares(req, w)
       case Create => Creates(req, w)
       case Start => Starts(req, w) && req.startAfterCreate
       case Configuring => Completes(req, ctx, w) && req.catalog)
    case Failed =>
      (match key
       case Prepare => !Prepares(req, w)
       case Create => Prepares(req, w) && !Creates(req, w)
       case Start => Creates(req, w) && !Starts(req, w)
       case Configuring => Starts(req, w) && !Completes(req, ctx, w))
  }

  lemma PrepareMakes(w: World, c: Cmd)
    ensures c in PreparePart(w) <==>
      || c == Mark(Prepare, Running) || (c == WriteSnippet && w.hasWriter)
      || c == Mark(Prepare, if w.hasWriter && w.writeOk then Succeeded else Failed)
  {
  }

  lemma CreateMakes(ctx: Context, w: World, c: Cmd)
    ensures var ok := w.createOk && w.createTask.Ended? && w.createTask.succeeded;
      c in CreatePart(ctx, w) <==>
        || c == SubmitCreate || (c == Mark(Create, Running) && w.createOk) || c == Mark(Create, if ok then Succeeded else Failed)
        || (ok && c == Finalize && ctx.ownershipId != "")
        || (!ok && (c == End(Broken) || (c == Release && ctx.ownershipId != "") || c in Removal(ctx, w)))
  {
    hide Removal;
  }

  lemma StartMakes(ctx: Context, w: World, c: Cmd)
    ensures var ok := w.startOk && w.startTask.Ended? && w.startTask.succeeded;
      c in StartPart(ctx, w) <==>
        || c == SubmitStart || (c == Mark(Start, Running) && w.startOk) || c == Mark(Start, if ok then Succeeded else Failed)
        || (!ok && (c == End(Broken) || c in Removal(ctx, w)))
  {
    hide Removal;
  }

  lemma ConfigureMakes(ctx: Context, w: World, c: Cmd)
    ensures var ok := ComesUp(ctx, w);
      c in ConfigurePart(ctx, w) <==>
        || c == Mark(Configuring, Running) || c == Mark(Configuring, if ok then Succeeded else Failed)
        || (ok && (c == Connect || c == End(Done))) || (!ok && (c == End(Broken) || c in Removal(ctx, w)))
  {
    hide Removal, ComesUp, ConfigureOk;
    ComesUpIsConfigureOk(ctx, w);
  }

  lemma ComesUpIsConfigureOk(ctx: Context, w: World)
    ensures ComesUp(ctx, w) <==> ConfigureOk(ctx, w)
  {
  }

  /** Once the guest exists. */
  lemma AfterCreateMakes(req: Request, ctx: Context, w: World, c: Cmd)
    requires Creates(req, w)
    ensures c in AfterCreate(req, ctx, w) <==>
      || (req.startAfterCreate && c in StartPart(ctx, w))
      || (Starts(req, w) && if req.catalog then c in ConfigurePart(ctx, w) else c == End(Done))
  {
    hide StartPart, ConfigurePart;
  }

  lemma ScriptMakes(req: Request, ctx: Context, w: World, c: Cmd)
    ensures c in Script(req, ctx, w) <==>
      || (req.catalog && c in PreparePart(w))
      || (!Prepares(req, w) && (c in Releasing(ctx) || c == End(Broken)))
      || (Prepares(req, w) && c in CreatePart(ctx, w))
      || (Creates(req, w) && c in AfterCreate(req, ctx, w))
  {
    hide PreparePart, CreatePart, AfterCreate, Releasing;
  }

  /** For every world a run makes exactly the calls that are due, the guest's creation and start
      among them, and makes each once; only a failure's cleaning up has no place of its own. */
  lemma EveryRunCalls(req: Request, ctx: Context, w: World, c: Cmd)
    ensures c in Script(req, ctx, w) <==> Due(c, req, ctx, w)
    ensures Phase(c) < 14 ==> multiset(Script(req, ctx, w))[c] == One(Due(c, req, ctx, w))
  {
    hide Script, PreparePart, CreatePart, StartPart, ConfigurePart, AfterCreate, ComesUp, Forward, Phase;
    ScriptMakes(req, ctx, w, c);
    PrepareMakes(w, c);
    CreateMakes(ctx, w, c);
    if Creates(req, w) {
      AfterCreateMakes(req, ctx, w, c);
      StartMakes(ctx, w, c);
      ConfigureMakes(ctx, w, c);
    }
    EveryRunGoesForward(req, ctx, w);
    if Phase(c) < 14 {
      ForwardIsOnce(Script(req, ctx, w), c);
    }
  }

  /** The same, place by place. */
  lemma CallsComeInOrder(req: Request, ctx: Context, w: World, i: nat, j: nat)
    requires i < |Script(req, ctx, w)| && j < |Script(req, ctx, w)|
    ensures var a, b := Script(req, ctx, w)[i], Script(req, ctx, w)[j];
      && (b == SubmitCreate && (a == WriteSnippet || a == Mark(Prepare, Succeeded)) ==> i < j)
      && (b == Finalize && (a == SubmitCreate || a == Mark(Create, Succeeded)) ==> i < j)
      && (b == SubmitStart && (a == SubmitCreate || a == Mark(Create, Succeeded) || a == Finalize) ==> i < j)
      && (b == Connect && (a == SubmitCreate || a == SubmitStart || a == Mark(Start, Succeeded)) ==> i < j)
      && (b == End(Done) && (a == SubmitCreate || a == Finalize || a == SubmitStart || a == Connect) ==> i < j)
      && (b == Release || b == RemoveSnippet ==> (a == WriteSnippet || a == SubmitCreate || a == SubmitStart ==> i < j))
  {
    hide Script;
    EveryRunGoesForward(req, ctx, w);
  }

  // ---- where a run stops -----------------------------------------------------------------------------

  lemma {:induction false} StatusIsMarked(d: Deployment, cmds: seq<Cmd>, i: nat)
    requires i < |d.steps|
    ensures |Play(d, cmds).steps| == |d.steps| && Play(d, cmds).steps[i].key == d.steps[i].key
    ensures Play(d, cmds).steps[i].status == d.steps[i].status
         || Mark(d.steps[i].key, Play(d, cmds).steps[i].status) in cmds
  {
    if cmds != [] {
      StatusIsMarked(d, cmds[..|cmds| - 1], i);
    }
  }

  lemma {:induction false} ConnectedIsCalled(d: Deployment, cmds: seq<Cmd>)
    requires !d.connected
    ensures Play(d, cmds).connected <==> Connect in cmds
    ensures Play(d, cmds).status == d.status || End(Play(d, cmds).status) in cmds
  {
    if cmds != [] {
      var init, last := cmds[..|cmds| - 1], cmds[|cmds| - 1];
      assert cmds == init + [last];
      ConnectedIsCalled(d, init);
    }
  }

  /** What a step shows in the end. */
  ghost function Shows(key: StepKey, req: Request, ctx: Context, w: World): StepStatus {
    match key
    case Prepare => if Prepares(req, w) then Succeeded else Failed
    case Create => if Creates(req, w) then Succeeded else if Prepares(req, w) then Failed else Pending
    case Start => if Starts(req, w) then Succeeded else if Creates(req, w) then Failed else Pending
    case Configuring => if Completes(req, ctx, w) then Succeeded else if Starts(req, w) then Failed else Pending
  }

  /** When the run is over, the record tells what happened: its status, whether the guest can be
      reached, and of each step whether it succeeded, failed or was never begun. */
  lemma TheRecordTellsTheTruth(req: Request, ctx: Context, w: World, i: nat)
    requires i < |Keys(req)|
    ensures var d := Play(Fresh(req), Script(req, ctx, w));
      && d.status == (if Completes(req, ctx, w) then Done else Broken)
      && d.connected == (req.catalog && Completes(req, ctx, w))
      && |d.steps| == |Keys(req)| && d.steps[i] == Step(Keys(req)[i], Shows(Keys(req)[i], req, ctx, w))
  {
    hide Script, Play, Completes;
    var s, start := Script(req, ctx, w), Fresh(req);
    ConnectedIsCalled(start, s);
    StatusIsMarked(start, s, i);
    var k := StopsSomewhere(req, ctx, w);
    if k < |Keys(req)| {
      StatusIsMarked(start, s, k);
    }
    var d := Play(start, s);
    EveryRunCalls(req, ctx, w, Connect);
    EveryRunCalls(req, ctx, w, End(d.status));
    EveryRunCalls(req, ctx, w, Mark(Keys(req)[i], Succeeded));
    if k < |Keys(req)| {
      EveryRunCalls(req, ctx, w, Mark(Keys(req)[k], Failed));
    }
    ComesThisFar(req, ctx, w, k, i);
  }

  /** The run stops with its first k steps succeeded. */
  lemma StopsSomewhere(req: Request, ctx: Context, w: World) returns (k: nat)
    ensures k <= |Keys(req)|
    ensures var d, over := Play(Fresh(req), Script(req, ctx, w)), k == |Keys(req)|;
      d.steps == StepsAt(req, k, if over then Pending else Failed) && d.status == if over then Done else Broken
  {
    hide Script, Play, StepsAt, Keys;
    StepListIsAlwaysShaped(req, ctx, w);
    var s := Script(req, ctx, w);
    if Keeps(req, s, |Keys(req)|, Pending, Done) {
      k := |Keys(req)|;
    } else {
      k :| k < |Keys(req)| && Keeps(req, s, k, Failed, Broken);
    }
  }

  lemma ComesThisFar(req: Request, ctx: Context, w: World, k: nat, i: nat)
    requires k <= |Keys(req)| && i < |Keys(req)|
    requires k == |Keys(req)| <==> Completes(req, ctx, w)
    requires i < k ==> MarkDue(Keys(req)[i], Succeeded, req, ctx, w)
    requires k < |Keys(req)| ==> MarkDue(Keys(req)[k], Failed, req, ctx, w)
    ensures StepsAt(req, k, if k == |Keys(req)| then Pending else Failed)[i] == Step(Keys(req)[i], Shows(Keys(req)[i], req, ctx, w))
  {
    hide ComesUp;
  }
}
