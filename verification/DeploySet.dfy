/** Provisioning the members of one deployment set, servers before agents
    (backend/internal/deploy/set.go). */
module DeploySet {
  import opened Engine

  datatype Role = Server | Agent | Other
  datatype Member = Member(role: Role, vmid: nat, req: Request, ctx: Context)

  function Rank(role: Role): nat {
    match role
    case Server => 0
    case Agent => 1
    case Other => 2
  }

  // ---- provision order ------------------------------------------------------------

  function OfRank(ms: seq<Member>, r: nat): seq<Member> {
    if ms == [] then []
    else
      var m := ms[|ms| - 1];
      OfRank(ms[..|ms| - 1], r) + if Rank(m.role) == r then [m] else []
  }

  /** What a stable sort by rank yields: servers, agents, then the rest, each in request order. */
  function ProvisionOrder(ms: seq<Member>): seq<Member> {
    OfRank(ms, 0) + OfRank(ms, 1) + OfRank(ms, 2)
  }

  ghost predicate SortedByRank(ms: seq<Member>) {
    forall i, j | 0 <= i <= j < |ms| :: Rank(ms[i].role) <= Rank(ms[j].role)
  }

  /** out is ms reordered, but never within one rank. */
  ghost predicate StablePermutation(ms: seq<Member>, out: seq<Member>) {
    multiset(out) == multiset(ms) && forall r: nat :: OfRank(out, r) == OfRank(ms, r)
  }

  lemma {:induction false} OfRankConcat(a: seq<Member>, b: seq<Member>, r: nat)
    ensures OfRank(a + b, r) == OfRank(a, r) + OfRank(b, r)
  {
    if b == [] {
      assert a + b == a;
    } else {
      var init := b[..|b| - 1];
      assert (a + b)[..|a + b| - 1] == a + init;
      OfRankConcat(a, init, r);
    }
  }

  lemma {:induction false} OfRankHasRank(ms: seq<Member>, r: nat)
    ensures forall i | 0 <= i < |OfRank(ms, r)| :: Rank(OfRank(ms, r)[i].role) == r
  {
    if ms != [] {
      OfRankHasRank(ms[..|ms| - 1], r);
    }
  }

  lemma {:induction false} OfRankOfUniform(ms: seq<Member>, r: nat, q: nat)
    requires forall i | 0 <= i < |ms| :: Rank(ms[i].role) == r
    ensures OfRank(ms, q) == if q == r then ms else []
  {
    if ms != [] {
      OfRankOfUniform(ms[..|ms| - 1], r, q);
    }
  }

  lemma {:induction false} RanksPartition(ms: seq<Member>)
    ensures multiset(ProvisionOrder(ms)) == multiset(ms)
  {
    if ms != [] {
      var init, m := ms[..|ms| - 1], ms[|ms| - 1];
      RanksPartition(init);
      assert ms == init + [m];
    }
  }

  /** The provision order is sorted by rank and a stable permutation of the members ... */
  lemma ProvisionOrderIsStableSort(ms: seq<Member>)
    ensures SortedByRank(ProvisionOrder(ms)) && StablePermutation(ms, ProvisionOrder(ms))
  {
    OrderIsSorted(ms);
    RanksPartition(ms);
    forall r: nat
      ensures OfRank(ProvisionOrder(ms), r) == OfRank(ms, r)
    {
      OrderKeepsRank(ms, r);
    }
    hide ProvisionOrder, OfRank, SortedByRank;
  }

  lemma OrderIsSorted(ms: seq<Member>)
    ensures SortedByRank(ProvisionOrder(ms))
  {
    OfRankHasRank(ms, 0);
    OfRankHasRank(ms, 1);
    OfRankHasRank(ms, 2);
    hide OfRank;
  }

  lemma OrderKeepsRank(ms: seq<Member>, r: nat)
    ensures OfRank(ProvisionOrder(ms), r) == OfRank(ms, r)
  {
    hide OfRank;
    var a, b, c := OfRank(ms, 0), OfRank(ms, 1), OfRank(ms, 2);
    OfRankHasRank(ms, 0);
    OfRankHasRank(ms, 1);
    OfRankHasRank(ms, 2);
    OfRankConcat(a + b, c, r);
    OfRankConcat(a, b, r);
    OfRankOfUniform(a, 0, r);
    OfRankOfUniform(b, 1, r);
    OfRankOfUniform(c, 2, r);
    if r > 2 {
      NoHigherRank(ms, 2, r);
    }
  }

  lemma {:induction false} NoHigherRank(ms: seq<Member>, top: nat, r: nat)
    requires top < r && forall i | 0 <= i < |ms| :: Rank(ms[i].role) <= top
    ensures OfRank(ms, r) == []
  {
    if ms != [] {
      NoHigherRank(ms[..|ms| - 1], top, r);
    }
  }

  /** ... and the only sequence that is both. */
  lemma StableSortIsUnique(ms: seq<Member>, out: seq<Member>)
    requires SortedByRank(out) && StablePermutation(ms, out)
    ensures out == ProvisionOrder(ms)
  {
    SortedIsItsOwnOrder(out);
  }

  lemma OfRankSnoc(init: seq<Member>, m: Member, r: nat)
    ensures OfRank(init + [m], r) == if Rank(m.role) == r then OfRank(init, r) + [m] else OfRank(init, r)
  {
    assert (init + [m])[..|init|] == init;
  }

  lemma {:induction false} SortedIsItsOwnOrder(out: seq<Member>)
    requires SortedByRank(out)
    ensures ProvisionOrder(out) == out
  {
    hide OfRank;
    if out == [] {
      NothingRanked();
    } else {
      var init, m := out[..|out| - 1], out[|out| - 1];
      assert out == init + [m];
      SortedIsItsOwnOrder(init);
      OfRankSnoc(init, m, 0);
      OfRankSnoc(init, m, 1);
      OfRankSnoc(init, m, 2);
      var a, b, c := OfRank(init, 0), OfRank(init, 1), OfRank(init, 2);
      if Rank(m.role) < 2 {
        NoHigherRank(init, Rank(m.role), 2);
        assert a + b + c == a + b;
      }
      if Rank(m.role) < 1 {
        NoHigherRank(init, Rank(m.role), 1);
        assert a + b == a;
      }
    }
  }

  lemma NothingRanked()
    ensures ProvisionOrder([]) == []
  {
  }

  // ---- the set run ------------------------------------------------------------------

  /** What happens to a member that is submitted: its run's world, and the status the
      orchestrator observes when its await returns (which may still be InProgress). */
  datatype Answer = Answer(w: World, observed: RunStatus)

  datatype SetStatus = Ready | Degraded | Dead

  datatype Call = Submit(i: nat) | ReleaseMember(i: nat) | UpdateStatus(status: SetStatus)

  /** The final status a submitted member is recorded with; Submit rejects invalid requests. */
  function Outcome(m: Member, a: Answer): RunStatus {
    if m.req.valid then a.observed else Broken
  }

  ghost predicate ServerFailed(ms: seq<Member>, answers: seq<Answer>, n: nat)
    requires n <= |ms| == |answers|
  {
    exists j | 0 <= j < n :: ms[j].role == Server && Outcome(ms[j], answers[j]) != Done
  }

  /** Member i is not a server and some server before it failed. */
  ghost predicate Skipped(ms: seq<Member>, answers: seq<Answer>, i: nat)
    requires i < |ms| == |answers|
  {
    ms[i].role != Server && ServerFailed(ms, answers, i)
  }

  ghost function Final(ms: seq<Member>, answers: seq<Answer>, i: nat): RunStatus
    requires i < |ms| == |answers|
  {
    if Skipped(ms, answers, i) then Broken else Outcome(ms[i], answers[i])
  }

  ghost predicate AnyFailed(ms: seq<Member>, answers: seq<Answer>, n: nat)
    requires n <= |ms| == |answers|
  {
    exists j | 0 <= j < n :: Final(ms, answers, j) != Done
  }

  ghost function CallsFor(ms: seq<Member>, answers: seq<Answer>, i: nat): seq<Call>
    requires i < |ms| == |answers|
  {
    if Skipped(ms, answers, i) then [ReleaseMember(i)]
    else if !ms[i].req.valid then [Submit(i), ReleaseMember(i)]
    else [Submit(i)]
  }

  ghost function CallsUpTo(ms: seq<Member>, answers: seq<Answer>, n: nat): seq<Call>
    requires n <= |ms| == |answers|
  {
    if n == 0 then [] else CallsUpTo(ms, answers, n - 1) + CallsFor(ms, answers, n - 1)
  }

  /** What a set run's status says: every member was accepted and seen to succeed; some server was
      not; or something in between. */
  ghost predicate SetStatusIs(ms: seq<Member>, answers: seq<Answer>, status: SetStatus)
    requires |ms| == |answers|
  {
    && (status == Ready <==> forall i | 0 <= i < |ms| :: ms[i].req.valid && answers[i].observed == Done)
    && (status == Dead <==> exists i :: 0 <= i < |ms| && ms[i].role == Server && !(ms[i].req.valid && answers[i].observed == Done))
  }

  method RunSet(ms: seq<Member>, answers: seq<Answer>)
    returns (status: SetStatus, finals: seq<RunStatus>, calls: seq<Call>)
    requires |ms| == |answers|
    ensures |finals| == |ms| && forall i | 0 <= i < |ms| :: finals[i] == Final(ms, answers, i)
    ensures calls == CallsUpTo(ms, answers, |ms|) + [UpdateStatus(status)]
    ensures status == Dead <==> exists i | 0 <= i < |ms| :: ms[i].role == Server && finals[i] != Done
    ensures status == Ready <==> forall i | 0 <= i < |ms| :: finals[i] == Done
    ensures forall i | 0 <= i < |ms| ::
      Submit(i) in calls <==>
        ms[i].role == Server || forall j | 0 <= j < i && ms[j].role == Server :: ms[j].req.valid && answers[j].observed == Done
    ensures forall i | 0 <= i < |ms| ::
      finals[i] == if Submit(i) in calls && ms[i].req.valid then answers[i].observed else Broken
    ensures forall i | 0 <= i < |ms| :: ReleaseMember(i) in calls <==> Submit(i) !in calls || !ms[i].req.valid
    ensures SetStatusIs(ms, answers, status)
  {
    hide ServerFailed, AnyFailed, SetStatusIs;
    finals, calls := [], [];
    var serverFailed, anyFailed := false, false;
    NoneFailed(ms, answers);
    for i := 0 to |ms|
      invariant |finals| == i && forall j | 0 <= j < i :: finals[j] == Final(ms, answers, j)
      invariant calls == CallsUpTo(ms, answers, i)
      invariant serverFailed == ServerFailed(ms, answers, i) && anyFailed == AnyFailed(ms, answers, i)
    {
      FailuresGrow(ms, answers, i);
      var m := ms[i];
      if serverFailed && m.role != Server {
        calls := calls + [ReleaseMember(i)];
        finals := finals + [Broken];
        anyFailed := true;
        continue;
      }
      var final := Broken;
      calls := calls + [Submit(i)];
      if m.req.valid {
        final := answers[i].observed;
      } else {
        calls := calls + [ReleaseMember(i)];
      }
      finals := finals + [final];
      if final != Done {
        anyFailed := true;
        if m.role == Server {
          serverFailed := true;
        }
      }
    }
    FailuresSeen(ms, answers, finals);
    status := if serverFailed then Dead else if anyFailed then Degraded else Ready;
    calls := calls + [UpdateStatus(status)];
    RunMeans(ms, answers, calls, finals, status);
  }

  /** Member i is a server, or comes after servers that were all seen to succeed. */
  ghost predicate Asked(ms: seq<Member>, answers: seq<Answer>, i: nat)
    requires i < |ms| == |answers|
  {
    ms[i].role == Server || forall j | 0 <= j < i && ms[j].role == Server :: ms[j].req.valid && answers[j].observed == Done
  }

  lemma CallsMean(ms: seq<Member>, answers: seq<Answer>, i: nat)
    requires i < |ms| == |answers|
    ensures var calls := CallsUpTo(ms, answers, |ms|);
      && (Submit(i) in calls <==> Asked(ms, answers, i))
      && (ReleaseMember(i) in calls <==> !Asked(ms, answers, i) || !ms[i].req.valid)
    ensures Final(ms, answers, i) == if Asked(ms, answers, i) && ms[i].req.valid then answers[i].observed else Broken
  {
    hide CallsUpTo;
    CallsMention(ms, answers, |ms|, i);
    var calls := CallsUpTo(ms, answers, |ms|);
    assert Submit(i) in calls <==> multiset(calls)[Submit(i)] > 0;
    assert ReleaseMember(i) in calls <==> multiset(calls)[ReleaseMember(i)] > 0;
  }

  lemma RunMeans(ms: seq<Member>, answers: seq<Answer>, calls: seq<Call>, finals: seq<RunStatus>, status: SetStatus)
    requires |finals| == |ms| == |answers| && calls == CallsUpTo(ms, answers, |ms|) + [UpdateStatus(status)]
    requires forall i | 0 <= i < |ms| :: finals[i] == Final(ms, answers, i)
    requires status == Dead <==> exists i | 0 <= i < |ms| :: ms[i].role == Server && finals[i] != Done
    requires status == Ready <==> forall i | 0 <= i < |ms| :: finals[i] == Done
    ensures forall i | 0 <= i < |ms| :: Submit(i) in calls <==> Asked(ms, answers, i)
    ensures forall i | 0 <= i < |ms| ::
      finals[i] == if Submit(i) in calls && ms[i].req.valid then answers[i].observed else Broken
    ensures forall i | 0 <= i < |ms| :: ReleaseMember(i) in calls <==> Submit(i) !in calls || !ms[i].req.valid
    ensures SetStatusIs(ms, answers, status)
  {
    hide CallsUpTo, Final;
    forall i | 0 <= i < |ms|
      ensures Submit(i) in calls <==> Asked(ms, answers, i)
      ensures ReleaseMember(i) in calls <==> !Asked(ms, answers, i) || !ms[i].req.valid
      ensures finals[i] == if Asked(ms, answers, i) && ms[i].req.valid then answers[i].observed else Broken
    {
      CallsMean(ms, answers, i);
    }
  }

  lemma NoneFailed(ms: seq<Member>, answers: seq<Answer>)
    requires |ms| == |answers|
    ensures !ServerFailed(ms, answers, 0) && !AnyFailed(ms, answers, 0)
  {
  }

  lemma FailuresGrow(ms: seq<Member>, answers: seq<Answer>, i: nat)
    requires i < |ms| == |answers|
    ensures ServerFailed(ms, answers, i + 1) <==>
      ServerFailed(ms, answers, i) || (ms[i].role == Server && Outcome(ms[i], answers[i]) != Done)
    ensures AnyFailed(ms, answers, i + 1) <==> AnyFailed(ms, answers, i) || Final(ms, answers, i) != Done
  {
    hide Final, Outcome;
  }

  lemma FailuresSeen(ms: seq<Member>, answers: seq<Answer>, finals: seq<RunStatus>)
    requires |finals| == |ms| == |answers| && forall i | 0 <= i < |ms| :: finals[i] == Final(ms, answers, i)
    ensures ServerFailed(ms, answers, |ms|) <==> exists i | 0 <= i < |ms| :: ms[i].role == Server && finals[i] != Done
    ensures AnyFailed(ms, answers, |ms|) <==> exists i | 0 <= i < |ms| :: finals[i] != Done
  {
  }

  // ---- what every set run guarantees ---------------------------------------------------

  lemma {:induction false} CallsMention(ms: seq<Member>, answers: seq<Answer>, n: nat, i: nat)
    requires n <= |ms| == |answers| && i < |ms|
    ensures var calls := multiset(CallsUpTo(ms, answers, n));
      && calls[Submit(i)] == (if i < n && !Skipped(ms, answers, i) then 1 else 0)
      && calls[ReleaseMember(i)] == (if i < n && (Skipped(ms, answers, i) || !ms[i].req.valid) then 1 else 0)
  {
    hide CallsFor, Skipped;
    if n > 0 {
      CallsMention(ms, answers, n - 1, i);
      CallsForMention(ms, answers, n - 1, i);
    }
  }

  lemma CallsForMention(ms: seq<Member>, answers: seq<Answer>, k: nat, i: nat)
    requires k < |ms| == |answers| && i < |ms|
    ensures var calls := multiset(CallsFor(ms, answers, k));
      && calls[Submit(i)] == (if i == k && !Skipped(ms, answers, i) then 1 else 0)
      && calls[ReleaseMember(i)] == (if i == k && (Skipped(ms, answers, i) || !ms[i].req.valid) then 1 else 0)
  {
    hide Skipped;
  }

  ghost predicate InTurn(calls: seq<Call>, lo: nat, hi: nat) {
    && (forall p | 0 <= p < |calls| :: !calls[p].UpdateStatus? && lo <= calls[p].i < hi)
    && forall p, q | 0 <= p < q < |calls| ::
         calls[p].i < calls[q].i || (calls[p].i == calls[q].i && calls[p].Submit? && calls[q].ReleaseMember?)
  }

  lemma CallsForInTurn(ms: seq<Member>, answers: seq<Answer>, k: nat)
    requires k < |ms| == |answers|
    ensures InTurn(CallsFor(ms, answers, k), k, k + 1)
  {
    hide Skipped;
  }

  lemma TurnsJoin(a: seq<Call>, b: seq<Call>, n: nat)
    requires InTurn(a, 0, n) && InTurn(b, n, n + 1)
    ensures InTurn(a + b, 0, n + 1)
  {
  }

  /** Members are submitted and released in their order, one after the other. */
  lemma {:induction false} CallsComeInTurn(ms: seq<Member>, answers: seq<Answer>, n: nat)
    requires n <= |ms| == |answers|
    ensures InTurn(CallsUpTo(ms, answers, n), 0, n)
  {
    hide CallsFor;
    if n > 0 {
      hide InTurn;
      CallsComeInTurn(ms, answers, n - 1);
      CallsForInTurn(ms, answers, n - 1);
      TurnsJoin(CallsUpTo(ms, answers, n - 1), CallsFor(ms, answers, n - 1), n - 1);
    }
  }

  /** No agent is submitted unless every server was observed succeeded. */
  lemma AgentsWaitForEveryServer(members: seq<Member>, answers: seq<Answer>, i: nat, j: nat)
    requires |answers| == |ProvisionOrder(members)| && i < |answers| && j < |answers|
    requires var ms := ProvisionOrder(members);
      Submit(i) in CallsUpTo(ms, answers, |ms|) && ms[i].role != Server && ms[j].role == Server
    ensures ProvisionOrder(members)[j].req.valid && answers[j].observed == Done
  {
    var ms := ProvisionOrder(members);
    ProvisionOrderIsStableSort(members);
    CallsMention(ms, answers, |ms|, i);
    assert multiset(CallsUpTo(ms, answers, |ms|))[Submit(i)] > 0;
    assert j < i;
  }

  /** How often member i's reservation is settled: released by the orchestrator, or
      finalized or released by the run of a member that was started. */
  ghost function Settlements(ms: seq<Member>, answers: seq<Answer>, i: nat): int
    requires i < |ms| == |answers|
  {
    var calls := CallsUpTo(ms, answers, |ms|);
    var t := TallyOf(Script(ms[i].req, ms[i].ctx, answers[i].w));
    multiset(calls)[ReleaseMember(i)] + if Submit(i) in calls && ms[i].req.valid then t.finalized + t.released else 0
  }

  /** Every member's reservation is settled exactly once, on every path through the set. */
  lemma EveryReservationIsSettledOnce(ms: seq<Member>, answers: seq<Answer>, i: nat)
    requires i < |ms| == |answers| && Held(ms[i].ctx)
    ensures Settlements(ms, answers, i) == 1
  {
    CallsMention(ms, answers, |ms|, i);
    assert Submit(i) in CallsUpTo(ms, answers, |ms|) <==> multiset(CallsUpTo(ms, answers, |ms|))[Submit(i)] > 0;
    EveryRunBalances(ms[i].req, ms[i].ctx, answers[i].w);
    hide TallyOf, Script, CallsUpTo;
  }
}
