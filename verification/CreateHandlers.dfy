/** Reserve, ensure the pool, submit, and compensate: the create handlers
    (backend/internal/handlers/create.go, backend/internal/handlers/deployment_sets.go). */
module CreateHandlers {
  import opened Engine
  import opened DeploySet

  datatype RowState = Reserved | Active

  /** The ownership rows and deployment-set rows, under the store's guarded updates. */
  class OwnershipStore {
    var rows: map<string, RowState>
    var sets: set<string>
    /** One element per release or finalize call made for a row. */
    ghost var settled: multiset<string>

    constructor ()
      ensures rows == map[] && sets == {} && settled == multiset{}
    {
      rows, sets, settled := map[], {}, multiset{};
    }

    method Reserve(id: string)
      modifies this`rows
      ensures rows == old(rows)[id := Reserved]
    {
      rows := rows[id := Reserved];
    }

    /** Delete the row while it is still pending. */
    method Release(id: string)
      modifies this`rows, this`settled
      ensures rows == (if id in old(rows) && old(rows)[id] == Reserved then old(rows) - {id} else old(rows))
      ensures settled == old(settled) + multiset{id}
    {
      if id in rows && rows[id] == Reserved {
        rows := rows - {id};
      }
      settled := settled + multiset{id};
    }

    /** Turn a pending row active. */
    method Finalize(id: string)
      modifies this`rows, this`settled
      ensures rows == (if id in old(rows) && old(rows)[id] == Reserved then old(rows)[id := Active] else old(rows))
      ensures settled == old(settled) + multiset{id}
    {
      if id in rows && rows[id] == Reserved {
        rows := rows[id := Active];
      }
      settled := settled + multiset{id};
    }
  }

  /** A pending row becomes active or goes; any other row stays. */
  function AfterSettling(rows: map<string, RowState>, id: string, created: bool): map<string, RowState> {
    if id !in rows || rows[id] != Reserved then rows
    else if created then rows[id := Active] else rows - {id}
  }

  // ---- a run's settlements ---------------------------------------------------------

  function Settlements(cmds: seq<Cmd>): nat {
    Times(cmds, Cmd.Finalize) + Times(cmds, Cmd.Release)
  }

  /** Carry a run's Finalize and Release calls out on its row. Whatever the calls are, each is
      made; a run that makes exactly one leaves the row as that one does. */
  method Replay(store: OwnershipStore, id: string, cmds: seq<Cmd>)
    modifies store`rows, store`settled
    ensures store.settled == old(store.settled)[id := old(store.settled)[id] + Settlements(cmds)]
    ensures Settlements(cmds) == 0 ==> store.rows == old(store.rows)
    ensures Settlements(cmds) == 1 ==> store.rows == AfterSettling(old(store.rows), id, Times(cmds, Cmd.Finalize) == 1)
  {
    hide Times;
    NoCalls();
    assert cmds[..0] == [];
    for i := 0 to |cmds|
      invariant store.settled == old(store.settled)[id := old(store.settled)[id] + Settlements(cmds[..i])]
      invariant Settlements(cmds[..i]) == 0 ==> store.rows == old(store.rows)
      invariant Settlements(cmds[..i]) == 1 ==>
        store.rows == AfterSettling(old(store.rows), id, Times(cmds[..i], Cmd.Finalize) == 1)
    {
      TimesSnoc(cmds, i);
      match cmds[i] {
        case Finalize => store.Finalize(id);
        case Release => store.Release(id);
        case _ =>
      }
    }
    assert cmds[..|cmds|] == cmds;
  }

  lemma NoCalls()
    ensures Times([], Cmd.Finalize) == Times([], Cmd.Release) == 0
  {
  }

  lemma TimesSnoc(cmds: seq<Cmd>, i: nat)
    requires i < |cmds|
    ensures forall c :: Times(cmds[..i + 1], c) == Times(cmds[..i], c) + if cmds[i] == c then 1 else 0
  {
    assert cmds[..i + 1] == cmds[..i] + [cmds[i]];
  }

  /** Submit a request to the engine and, if it is accepted, run it to its end. */
  method SubmitAndRun(store: OwnershipStore, engine: Engine, depId: string, req: Request, ctx: Context, w: World) returns (ok: bool)
    requires depId !in engine.runs && Held(ctx) && TimesOut(w)
    modifies store`rows, store`settled, engine
    ensures ok == req.valid
    ensures engine.runs.Keys <= old(engine.runs.Keys) + {depId}
    ensures !ok ==> store.rows == old(store.rows) && store.settled == old(store.settled)
    ensures ok ==>
      && store.settled == old(store.settled) + multiset{ctx.ownershipId}
      && store.rows == AfterSettling(old(store.rows), ctx.ownershipId, Created(req, w))
  {
    hide Script, AfterSettling, Play, Times;
    ok := engine.Submit(depId, req);
    if ok {
      var before := engine.calls;
      ghost var p :| TimesOutBy(w, p);
      engine.Run(depId, req, ctx, w, p);
      assert engine.calls == before + Script(req, ctx, w);
      EveryRunBalances(req, ctx, w);
      Replay(store, ctx.ownershipId, engine.calls[|before|..]);
    }
  }

  datatype GuestResult = Refused | PoolFailed | SubmitRejected | Accepted

  /** CreateGuest from its validation on, followed to the end of the run it starts.
      The request's context holds the id the store gives the reserved row; poolIdOk says whether
      the project's pool id, put on the request after the reservation, passes validation too. */
  method CreateGuest(
    store: OwnershipStore, engine: Engine, depId: string, m: Member,
    reserveOk: bool, poolOk: bool, poolIdOk: bool, w: World)
    returns (result: GuestResult)
    requires Held(m.ctx) && m.ctx.ownershipId !in store.rows && depId !in engine.runs && TimesOut(w)
    modifies store, engine
    ensures result == Refused <==> !(m.req.valid && reserveOk)
    ensures result == Accepted <==> m.req.valid && reserveOk && poolOk && poolIdOk
    ensures store.settled ==
      if result == Refused then old(store.settled) else old(store.settled) + multiset{m.ctx.ownershipId}
    ensures store.rows ==
      if result == Accepted && (m.req.catalog ==> w.hasWriter && w.writeOk)
         && w.createOk && w.createTask.Ended? && w.createTask.succeeded
      then old(store.rows)[m.ctx.ownershipId := Active] else old(store.rows)
    ensures store.sets == old(store.sets)
  {
    hide Script, TallyOf;
    var own := m.ctx.ownershipId;
    if !m.req.valid || !reserveOk {
      return Refused;
    }
    store.Reserve(own);
    assert store.rows - {own} == old(store.rows);
    if !poolOk {
      store.Release(own);
      return PoolFailed;
    }
    var req := m.req.(valid := poolIdOk);
    var ok := SubmitAndRun(store, engine, depId, req, m.ctx, w);
    if !ok {
      store.Release(own);
      return SubmitRejected;
    }
    return Accepted;
  }

  // ---- sets -----------------------------------------------------------------------

  function Ids(ms: seq<Member>): seq<string> {
    if ms == [] then [] else Ids(ms[..|ms| - 1]) + [ms[|ms| - 1].ctx.ownershipId]
  }

  lemma {:induction false} IdsConcat(a: seq<Member>, b: seq<Member>)
    ensures Ids(a + b) == Ids(a) + Ids(b)
  {
    if b == [] {
      assert a + b == a;
    } else {
      var init := b[..|b| - 1];
      assert (a + b)[..|a + b| - 1] == a + init;
      IdsConcat(a, init);
    }
  }

  lemma {:induction false} IdsAt(ms: seq<Member>)
    ensures |Ids(ms)| == |ms| && forall i | 0 <= i < |ms| :: Ids(ms)[i] == ms[i].ctx.ownershipId
  {
    if ms != [] {
      IdsAt(ms[..|ms| - 1]);
    }
  }

  /** How often an id occurs among the members of one rank, as the last member is added. */
  lemma RankIdsSnoc(init: seq<Member>, m: Member, r: nat)
    ensures multiset(Ids(OfRank(init + [m], r))) ==
      multiset(Ids(OfRank(init, r))) + if Rank(m.role) == r then multiset{m.ctx.ownershipId} else multiset{}
  {
    hide OfRank, Ids;
    OfRankSnoc(init, m, r);
    IdsConcat(OfRank(init, r), [m]);
    IdsOfOne(m);
  }

  lemma IdsOfOrder(ms: seq<Member>)
    ensures multiset(Ids(ProvisionOrder(ms))) ==
      multiset(Ids(OfRank(ms, 0))) + multiset(Ids(OfRank(ms, 1))) + multiset(Ids(OfRank(ms, 2)))
  {
    hide OfRank, Ids;
    IdsConcat(OfRank(ms, 0) + OfRank(ms, 1), OfRank(ms, 2));
    IdsConcat(OfRank(ms, 0), OfRank(ms, 1));
  }

  /** Reordering the members loses no reservation and repeats none. */
  lemma {:induction false} OrderKeepsIds(ms: seq<Member>)
    ensures multiset(Ids(ProvisionOrder(ms))) == multiset(Ids(ms))
  {
    hide OfRank, ProvisionOrder, Ids;
    IdsOfOrder(ms);
    if ms == [] {
      NoIds();
    } else {
      var init, m := ms[..|ms| - 1], ms[|ms| - 1];
      assert ms == init + [m];
      OrderKeepsIds(init);
      IdsOfOrder(init);
      IdsConcat(init, [m]);
      IdsOfOne(m);
      RankIdsSnoc(init, m, 0);
      RankIdsSnoc(init, m, 1);
      RankIdsSnoc(init, m, 2);
    }
  }

  lemma NoIds()
    ensures Ids([]) == [] && forall r: nat :: OfRank([], r) == []
  {
  }

  lemma IdsOfOne(m: Member)
    ensures Ids([m]) == [m.ctx.ownershipId]
  {
    assert Ids([m][..0]) == [];
  }

  /** ownByVMID: tie each planned member to the row reserved for its VMID. */
  method Wire(members: seq<Member>, ids: seq<string>) returns (wired: seq<Member>)
    requires |ids| == |members|
    requires forall i, j | 0 <= i < j < |members| :: members[i].vmid != members[j].vmid
    ensures |wired| == |members| && Ids(wired) == ids
    ensures forall i | 0 <= i < |members| :: wired[i] == members[i].(ctx := members[i].ctx.(ownershipId := ids[i]))
  {
    var ownByVMID: map<nat, string> := map[];
    for i := 0 to |members|
      invariant forall j | 0 <= j < i :: members[j].vmid in ownByVMID && ownByVMID[members[j].vmid] == ids[j]
    {
      ownByVMID := ownByVMID[members[i].vmid := ids[i]];
    }
    wired := [];
    for i := 0 to |members|
      invariant |wired| == i
      invariant forall j | 0 <= j < i :: wired[j] == members[j].(ctx := members[j].ctx.(ownershipId := ids[j]))
    {
      var m := members[i];
      wired := wired + [m.(ctx := m.ctx.(ownershipId := ownByVMID[m.vmid]))];
    }
    IdsAt(wired);
    assert Ids(wired) == ids;
  }

  datatype SetResult = ReserveFailed | SetPoolFailed | Provisioned(status: SetStatus)

  /** Member i's create task succeeded, after its snippet was written if it has one; it was
      submitted, as a server or behind servers all seen to succeed, and accepted. */
  ghost predicate Activated(ms: seq<Member>, answers: seq<Answer>, i: nat)
    requires i < |ms| == |answers|
  {
    var w := answers[i].w;
    && (ms[i].role == Server || forall j | 0 <= j < i && ms[j].role == Server :: ms[j].req.valid && answers[j].observed == Done)
    && ms[i].req.valid && (ms[i].req.catalog ==> w.hasWriter && w.writeOk)
    && w.createOk && w.createTask.Ended? && w.createTask.succeeded
  }

  lemma ActivatedIs(ms: seq<Member>, answers: seq<Answer>, i: nat)
    requires i < |ms| == |answers|
    ensures Activated(ms, answers, i) <==> !Skipped(ms, answers, i) && ms[i].req.valid && Created(ms[i].req, answers[i].w)
  {
  }

  ghost predicate Distinct(ids: seq<string>) {
    forall i, j | 0 <= i < j < |ids| :: ids[i] != ids[j]
  }

  /** now is was, except that each id's row is present, active, just when on(i). */
  ghost predicate SettledRows(was: map<string, RowState>, now: map<string, RowState>, ids: seq<string>, on: nat -> bool) {
    && (forall k | k !in ids :: (k in now <==> k in was) && (k in was ==> now[k] == was[k]))
    && (forall i | 0 <= i < |ids| :: if on(i) then ids[i] in now && now[ids[i]] == Active else ids[i] !in now)
  }

  /** CreateSet from its set row on, followed to the end of every run it starts. The batch
      reservation is all or nothing, refuses a repeated VMID, and yields one fresh row per
      member; the engine's ids and `answers` are by place in the provision order, which
      `ordered` reports. */
  method CreateSet(
    store: OwnershipStore, setId: string, members: seq<Member>, ids: seq<string>,
    reserveOk: bool, poolOk: bool, engine: Engine, depIds: seq<string>, answers: seq<Answer>)
    returns (result: SetResult, ghost ordered: seq<Member>)
    requires setId !in store.sets
    requires |ids| == |members| == |answers| == |depIds| && Distinct(ids) && Distinct(depIds)
    requires forall i | 0 <= i < |ids| :: ids[i] != "" && ids[i] !in store.rows
    requires forall i | 0 <= i < |ids| :: depIds[i] !in engine.runs && TimesOut(answers[i].w)
    requires reserveOk ==> forall i, j | 0 <= i < j < |members| :: members[i].vmid != members[j].vmid
    modifies store, engine
    ensures result == ReserveFailed <==> !reserveOk
    ensures result == SetPoolFailed <==> reserveOk && !poolOk
    ensures store.settled == if reserveOk then old(store.settled) + multiset(ids) else old(store.settled)
    ensures !result.Provisioned? ==> store.rows == old(store.rows) && store.sets == old(store.sets)
    ensures result.Provisioned? ==>
      && store.sets == old(store.sets) + {setId}
      && |ordered| == |answers| && multiset(Ids(ordered)) == multiset(ids)
      && (forall i, j | 0 <= i < j < |ordered| && ordered[j].role == Server :: ordered[i].role == Server)
      && SetStatusIs(ordered, answers, result.status)
      && SettledRows(old(store.rows), store.rows, Ids(ordered),
                     (i: nat) => i < |ordered| == |answers| && Activated(ordered, answers, i))
  {
    hide ProvisionOrder, Ids, Activated, CallsUpTo, ServerFailed, SettlesEach, TimesOut, WithReserved, SettledRows, SetStatusIs;
    ordered := [];
    store.sets := store.sets + {setId};
    if !reserveOk {
      store.sets := store.sets - {setId};
      assert store.sets == old(store.sets);
      return ReserveFailed, [];
    }
    ReserveAll(store, ids);
    if !poolOk {
      ReleaseAll(store, old(store.rows), ids);
      store.sets := store.sets - {setId};
      assert store.sets == old(store.sets);
      return SetPoolFailed, [];
    }
    var status;
    status, ordered := ProvisionAll(store, old(store.rows), engine, depIds, members, ids, answers);
    return Provisioned(status), ordered;
  }

  /** The reserved members, wired to their rows, through the orchestrator to the end of every run. */
  method ProvisionAll(
    store: OwnershipStore, ghost was: map<string, RowState>, engine: Engine, depIds: seq<string>,
    members: seq<Member>, ids: seq<string>, answers: seq<Answer>)
    returns (status: SetStatus, ghost order: seq<Member>)
    requires |ids| == |members| == |answers| == |depIds| && Distinct(ids) && Distinct(depIds)
    requires WithReserved(was, store.rows, ids)
    requires forall i | 0 <= i < |ids| :: ids[i] != "" && depIds[i] !in engine.runs && TimesOut(answers[i].w)
    requires forall i, j | 0 <= i < j < |members| :: members[i].vmid != members[j].vmid
    modifies store`rows, store`settled, engine
    ensures store.settled == old(store.settled) + multiset(ids)
    ensures |order| == |answers| && multiset(Ids(order)) == multiset(ids)
    ensures forall i, j | 0 <= i < j < |order| && order[j].role == Server :: order[i].role == Server
    ensures SetStatusIs(order, answers, status)
    ensures SettledRows(was, store.rows, Ids(order), (i: nat) => i < |order| == |answers| && Activated(order, answers, i))
  {
    hide ProvisionOrder, Ids, Activated, CallsUpTo, ServerFailed, SettlesEach, TimesOut, WithReserved, SettledRows, SetStatusIs;
    ghost var reserved := store.rows;
    var wired := Wire(members, ids);
    var inOrder := ProvisionOrder(wired);
    order := inOrder;
    ServersComeFirst(wired);
    OrderIsWired(wired, ids);
    IdsAt(inOrder);
    MembersHeld(inOrder, ids);
    var final, _, calls := RunSet(inOrder, answers);
    status := final;
    SetRunSettlesEach(inOrder, answers, status);
    ReservedInOrder(was, reserved, ids, Ids(inOrder));
    SettleSet(store, engine, depIds, inOrder, answers, calls);
    ghost var on := (i: nat) => i < |inOrder| == |answers| && Activated(inOrder, answers, i);
    SettledSinceReserving(was, reserved, store.rows, ids, Ids(inOrder), on);
  }

  lemma ServersComeFirst(ms: seq<Member>)
    ensures var order := ProvisionOrder(ms);
      forall i, j | 0 <= i < j < |order| && order[j].role == Server :: order[i].role == Server
  {
    ProvisionOrderIsStableSort(ms);
    hide ProvisionOrder;
  }

  lemma MembersHeld(order: seq<Member>, ids: seq<string>)
    requires (forall k :: k in Ids(order) <==> k in ids) && "" !in ids
    ensures forall i | 0 <= i < |order| :: Held(order[i].ctx)
  {
    hide Ids;
    IdsAt(order);
    forall i | 0 <= i < |order|
      ensures Held(order[i].ctx)
    {
      assert Ids(order)[i] in Ids(order);
    }
  }

  lemma ReservedInOrder(was: map<string, RowState>, now: map<string, RowState>, ids: seq<string>, order: seq<string>)
    requires WithReserved(was, now, ids) && forall k :: k in order <==> k in ids
    ensures forall k | k in order :: k in now && now[k] == Reserved
  {
  }

  lemma SettledSinceReserving(
    was: map<string, RowState>, reserved: map<string, RowState>, now: map<string, RowState>,
    ids: seq<string>, order: seq<string>, on: nat -> bool)
    requires WithReserved(was, reserved, ids) && SettledRows(reserved, now, order, on)
    requires forall k :: k in order <==> k in ids
    ensures SettledRows(was, now, order, on)
  {
  }

  lemma OrderIsWired(wired: seq<Member>, ids: seq<string>)
    requires Ids(wired) == ids && Distinct(ids)
    ensures var order := Ids(ProvisionOrder(wired));
      && |ProvisionOrder(wired)| == |order| == |ids| && multiset(order) == multiset(ids) && Distinct(order)
      && forall k :: k in order <==> k in ids
  {
    hide ProvisionOrder, Ids;
    OrderKeepsIds(wired);
    IdsAt(ProvisionOrder(wired));
    SameIds(Ids(ProvisionOrder(wired)), ids);
  }

  lemma SameIds(a: seq<string>, b: seq<string>)
    requires multiset(a) == multiset(b) && Distinct(b)
    ensures |a| == |b| && Distinct(a) && forall k :: k in a <==> k in b
  {
    assert |multiset(a)| == |multiset(b)|;
    forall k
      ensures (k in a <==> k in b) && multiset(a)[k] <= 1
    {
      assert k in a <==> k in multiset(a);
      assert k in b <==> k in multiset(b);
      OnceEach(b, k);
    }
    forall i, j | 0 <= i < j < |a|
      ensures a[i] != a[j]
    {
      TwiceAt(a, i, j);
    }
  }

  lemma TwiceAt(a: seq<string>, i: nat, j: nat)
    requires i < j < |a|
    ensures a[i] == a[j] ==> multiset(a)[a[j]] >= 2
  {
    assert a == a[..j] + [a[j]] + a[j + 1..];
    assert a[..j][i] in multiset(a[..j]);
  }

  lemma {:induction false} OnceEach(s: seq<string>, k: string)
    requires Distinct(s)
    ensures multiset(s)[k] <= 1
  {
    if s != [] {
      var init := s[..|s| - 1];
      OnceEach(init, k);
      assert s == init + [s[|s| - 1]];
      assert k in multiset(init) <==> k in init;
    }
  }

  ghost predicate WithReserved(was: map<string, RowState>, now: map<string, RowState>, ids: seq<string>) {
    forall k :: if k in ids then k in now && now[k] == Reserved
                else (k in now <==> k in was) && (k in was ==> now[k] == was[k])
  }

  /** ReserveOwnershipBatch. */
  method ReserveAll(store: OwnershipStore, ids: seq<string>)
    requires forall i | 0 <= i < |ids| :: ids[i] !in store.rows
    modifies store`rows
    ensures WithReserved(old(store.rows), store.rows, ids)
  {
    for i := 0 to |ids|
      invariant WithReserved(old(store.rows), store.rows, ids[..i])
    {
      assert ids[..i + 1] == ids[..i] + [ids[i]];
      store.Reserve(ids[i]);
    }
    assert ids[..|ids|] == ids;
  }

  /** releaseSetReservations: undoes the batch. */
  method ReleaseAll(store: OwnershipStore, ghost was: map<string, RowState>, ids: seq<string>)
    requires WithReserved(was, store.rows, ids)
    requires forall i | 0 <= i < |ids| :: ids[i] !in was
    modifies store`rows, store`settled
    ensures store.settled == old(store.settled) + multiset(ids)
    ensures store.rows == was
  {
    for i := 0 to |ids|
      invariant store.settled == old(store.settled) + multiset(ids[..i])
      invariant forall k :: k in store.rows <==> k in was || (k in ids && k !in ids[..i])
      invariant forall k | k in store.rows :: store.rows[k] == if k in was then was[k] else Reserved
    {
      assert ids[..i + 1] == ids[..i] + [ids[i]];
      store.Release(ids[i]);
    }
    assert ids[..|ids|] == ids;
  }

  // ---- carrying out the orchestrator's calls ----------------------------------------------

  /** The settlements of member i among calls: its releases, and the one its run makes. */
  function SettledBy(ms: seq<Member>, calls: seq<Call>, i: nat): nat
    requires i < |ms|
  {
    multiset(calls)[ReleaseMember(i)] + if ms[i].req.valid then multiset(calls)[Submit(i)] else 0
  }

  /** What the calls of a set run guarantee: they name members; each member is submitted at most
      once and settled exactly once; and a started one is settled by its run. */
  ghost predicate SettlesEach(ms: seq<Member>, answers: seq<Answer>, calls: seq<Call>)
    requires |ms| == |answers|
  {
    && (forall c | c in calls :: c.UpdateStatus? || Names(c, |ms|))
    && (forall i: nat | i < |ms| :: SettledBy(ms, calls, i) == 1 && multiset(calls)[Submit(i)] <= 1)
    && (forall i: nat | i < |ms| && ms[i].req.valid :: Submit(i) in calls <==> !Skipped(ms, answers, i))
  }

  predicate Names(c: Call, n: nat) {
    !c.UpdateStatus? && c.i < n
  }

  lemma CallsForNames(ms: seq<Member>, answers: seq<Answer>, i: nat)
    requires i < |ms| == |answers|
    ensures forall c | c in CallsFor(ms, answers, i) :: Names(c, i + 1)
  {
    hide Skipped;
  }

  lemma {:induction false} CallsNameMembers(ms: seq<Member>, answers: seq<Answer>, n: nat)
    requires n <= |ms| == |answers|
    ensures forall c | c in CallsUpTo(ms, answers, n) :: Names(c, n)
  {
    hide Skipped, CallsFor;
    if n > 0 {
      CallsNameMembers(ms, answers, n - 1);
      CallsForNames(ms, answers, n - 1);
    }
  }

  /** RunSet's calls settle each member exactly once. */
  lemma SetRunSettlesEach(ms: seq<Member>, answers: seq<Answer>, status: SetStatus)
    requires |ms| == |answers|
    ensures SettlesEach(ms, answers, CallsUpTo(ms, answers, |ms|) + [UpdateStatus(status)])
  {
    hide CallsUpTo, Skipped;
    var body := CallsUpTo(ms, answers, |ms|);
    CallsNameMembers(ms, answers, |ms|);
    forall i: nat | i < |ms|
      ensures var calls := body + [UpdateStatus(status)];
        && SettledBy(ms, calls, i) == 1 && multiset(calls)[Submit(i)] <= 1
        && (ms[i].req.valid ==> (Submit(i) in calls <==> !Skipped(ms, answers, i)))
    {
      CallsMention(ms, answers, |ms|, i);
      assert multiset(body + [UpdateStatus(status)]) == multiset(body) + multiset{UpdateStatus(status)};
      assert Submit(i) in body + [UpdateStatus(status)] <==> Submit(i) in multiset(body + [UpdateStatus(status)]);
    }
  }

  /** Where the rows and the settlement count stand after the first calls of a set run. */
  ghost predicate Progress(
    was: map<string, RowState>, now: map<string, RowState>, before: multiset<string>, settled: multiset<string>,
    ids: seq<string>, ms: seq<Member>, done: seq<Call>, on: nat -> bool)
    requires |ids| == |ms|
  {
    && (forall k | k !in ids :: (k in now <==> k in was) && (k in was ==> now[k] == was[k]) && settled[k] == before[k])
    && (forall i: nat | i < |ms| :: MemberStands(now, settled, before, ids[i], SettledBy(ms, done, i), on(i)))
  }

  ghost predicate MemberStands(
    now: map<string, RowState>, settled: multiset<string>, before: multiset<string>, id: string, times: nat, on: bool)
  {
    && settled[id] == before[id] + times
    && (times == 0 ==> id in now && now[id] == Reserved)
    && (times == 1 ==> if on then id in now && now[id] == Active else id !in now)
  }

  lemma SettledBySnoc(ms: seq<Member>, calls: seq<Call>, j: nat, i: nat)
    requires j < |calls| && i < |ms|
    ensures SettledBy(ms, calls[..j + 1], i) ==
      SettledBy(ms, calls[..j], i) +
      if calls[j] == ReleaseMember(i) || (calls[j] == Submit(i) && ms[i].req.valid) then 1 else 0
    ensures SettledBy(ms, calls[..j + 1], i) <= SettledBy(ms, calls, i)
    ensures calls[j] == Submit(i) ==> multiset(calls[..j])[Submit(i)] < multiset(calls)[Submit(i)]
  {
    assert calls[..j + 1] == calls[..j] + [calls[j]];
    assert calls == calls[..j + 1] + calls[j + 1..];
  }

  /** One settling call moves its own member on, and no other. */
  lemma ProgressSettles(
    was: map<string, RowState>, now: map<string, RowState>, before: multiset<string>, settled: multiset<string>,
    ids: seq<string>, ms: seq<Member>, calls: seq<Call>, j: nat, i: nat, on: nat -> bool)
    requires |ids| == |ms| && Distinct(ids) && j < |calls| && i < |ms|
    requires Progress(was, now, before, settled, ids, ms, calls[..j], on)
    requires calls[j] == ReleaseMember(i) || (calls[j] == Submit(i) && ms[i].req.valid)
    requires SettledBy(ms, calls, i) == 1
    ensures Progress(was, AfterSettling(now, ids[i], on(i)), before, settled + multiset{ids[i]}, ids, ms, calls[..j + 1], on)
  {
    hide SettledBy;
    var now', settled' := AfterSettling(now, ids[i], on(i)), settled + multiset{ids[i]};
    assert MemberStands(now, settled, before, ids[i], SettledBy(ms, calls[..j], i), on(i));
    SettledBySnoc(ms, calls, j, i);
    forall m: nat | m < |ms|
      ensures MemberStands(now', settled', before, ids[m], SettledBy(ms, calls[..j + 1], m), on(m))
    {
      SettledBySnoc(ms, calls, j, m);
      assert MemberStands(now, settled, before, ids[m], SettledBy(ms, calls[..j], m), on(m));
    }
  }

  /** A call that settles nothing. */
  lemma ProgressStays(
    was: map<string, RowState>, now: map<string, RowState>, before: multiset<string>, settled: multiset<string>,
    ids: seq<string>, ms: seq<Member>, calls: seq<Call>, j: nat, on: nat -> bool)
    requires |ids| == |ms| && j < |calls| && Progress(was, now, before, settled, ids, ms, calls[..j], on)
    requires calls[j].UpdateStatus? || (calls[j].Submit? && calls[j].i < |ms| && !ms[calls[j].i].req.valid)
    ensures Progress(was, now, before, settled, ids, ms, calls[..j + 1], on)
  {
    hide SettledBy, MemberStands;
    forall m: nat | m < |ms|
      ensures MemberStands(now, settled, before, ids[m], SettledBy(ms, calls[..j + 1], m), on(m))
    {
      SettledBySnoc(ms, calls, j, m);
    }
  }

  lemma ProgressStarts(rows: map<string, RowState>, settled: multiset<string>, ids: seq<string>, ms: seq<Member>, on: nat -> bool)
    requires |ids| == |ms| && forall k | k in ids :: k in rows && rows[k] == Reserved
    ensures Progress(rows, rows, settled, settled, ids, ms, [], on)
  {
  }

  lemma ProgressEnds(
    was: map<string, RowState>, now: map<string, RowState>, before: multiset<string>, settled: multiset<string>,
    ids: seq<string>, ms: seq<Member>, answers: seq<Answer>, calls: seq<Call>, on: nat -> bool)
    requires |ids| == |ms| == |answers| && Distinct(ids) && SettlesEach(ms, answers, calls)
    requires Progress(was, now, before, settled, ids, ms, calls, on)
    ensures SettledRows(was, now, ids, on) && settled == before + multiset(ids)
  {
    hide SettledBy;
    forall i | 0 <= i < |ids|
      ensures settled[ids[i]] == before[ids[i]] + 1
      ensures if on(i) then ids[i] in now && now[ids[i]] == Active else ids[i] !in now
    {
      assert MemberStands(now, settled, before, ids[i], SettledBy(ms, calls, i), on(i));
    }
    forall k
      ensures settled[k] == (before + multiset(ids))[k]
    {
      OnceEach(ids, k);
      assert k in multiset(ids) <==> k in ids;
    }
  }

  /** Carry out the calls of a set run, one by one: release a member's row, or start its run. */
  method SettleSet(
    store: OwnershipStore, engine: Engine, depIds: seq<string>, ms: seq<Member>, answers: seq<Answer>, calls: seq<Call>)
    requires |ms| == |answers| == |depIds| && Distinct(Ids(ms)) && Distinct(depIds)
    requires forall i | 0 <= i < |ms| :: Held(ms[i].ctx) && TimesOut(answers[i].w) && depIds[i] !in engine.runs
    requires forall k | k in Ids(ms) :: k in store.rows && store.rows[k] == Reserved
    requires SettlesEach(ms, answers, calls)
    modifies store`rows, store`settled, engine
    ensures store.settled == old(store.settled) + multiset(Ids(ms))
    ensures SettledRows(old(store.rows), store.rows, Ids(ms),
                        (i: nat) => i < |ms| == |answers| && Activated(ms, answers, i))
  {
    hide Ids, Progress, SettledBy, SettledRows, AfterSettling, Created, Skipped, Activated;
    IdsAt(ms);
    ghost var ids := Ids(ms);
    ghost var on := (i: nat) => i < |ms| == |answers| && Activated(ms, answers, i);
    ProgressStarts(store.rows, store.settled, ids, ms, on);
    assert calls[..0] == [];
    for j := 0 to |calls|
      invariant Progress(old(store.rows), store.rows, old(store.settled), store.settled, ids, ms, calls[..j], on)
      invariant forall i | 0 <= i < |ms| :: depIds[i] in engine.runs ==> multiset(calls[..j])[Submit(i)] > 0
    {
      CallsGrow(calls, j);
      assert calls[j] in calls;
      match calls[j] {
        case UpdateStatus(_) =>
          ProgressStays(old(store.rows), store.rows, old(store.settled), store.settled, ids, ms, calls, j, on);
        case ReleaseMember(i) =>
          NotStarted(ms, answers, calls, j, i);
          ProgressSettles(old(store.rows), store.rows, old(store.settled), store.settled, ids, ms, calls, j, i, on);
          ReleaseSettles(store.rows, ids[i]);
          store.Release(ms[i].ctx.ownershipId);
        case Submit(i) =>
          SettledBySnoc(ms, calls, j, i);
          ActivatedIs(ms, answers, i);
          if ms[i].req.valid {
            ProgressSettles(old(store.rows), store.rows, old(store.settled), store.settled, ids, ms, calls, j, i, on);
            assert Submit(i) in calls;
          } else {
            ProgressStays(old(store.rows), store.rows, old(store.settled), store.settled, ids, ms, calls, j, on);
          }
          var _ := SubmitAndRun(store, engine, depIds[i], ms[i].req, ms[i].ctx, answers[i].w);
      }
    }
    assert calls[..|calls|] == calls;
    ProgressEnds(old(store.rows), store.rows, old(store.settled), store.settled, ids, ms, answers, calls, on);
  }

  lemma CallsGrow(calls: seq<Call>, j: nat)
    requires j < |calls|
    ensures multiset(calls[..j + 1]) == multiset(calls[..j]) + multiset{calls[j]}
  {
    assert calls[..j + 1] == calls[..j] + [calls[j]];
  }

  /** A member that is released was not activated. */
  lemma NotStarted(ms: seq<Member>, answers: seq<Answer>, calls: seq<Call>, j: nat, i: nat)
    requires |ms| == |answers| && SettlesEach(ms, answers, calls) && i < |ms| && j < |calls| && calls[j] == ReleaseMember(i)
    ensures !Activated(ms, answers, i)
  {
    hide Activated;
    ActivatedIs(ms, answers, i);
    assert calls[j] in multiset(calls);
    if ms[i].req.valid {
      assert multiset(calls)[Submit(i)] == 0;
    }
  }

  lemma ReleaseSettles(rows: map<string, RowState>, id: string)
    ensures AfterSettling(rows, id, false) == if id in rows && rows[id] == Reserved then rows - {id} else rows
  {
  }

  // ---- teardown --------------------------------------------------------------------

  /** One member row at teardown: already tombstoned, or destroyed if Proxmox takes the request. */
  datatype Teardown = Teardown(role: Role, vmid: nat, tombstoned: bool, destroyOk: bool)

  /** orderMembers' comparison when reversed: the other ranks, then agents, then servers; by
      VMID within a rank. */
  predicate Goes(a: Teardown, b: Teardown) {
    Rank(a.role) > Rank(b.role) || (Rank(a.role) == Rank(b.role) && a.vmid <= b.vmid)
  }

  ghost predicate InTeardownOrder(ms: seq<Teardown>) {
    forall i, j | 0 <= i <= j < |ms| :: Goes(ms[i], ms[j])
  }

  /** m put into a sorted sequence behind everything that goes before it. */
  function Insert(m: Teardown, sorted: seq<Teardown>): seq<Teardown> {
    if sorted != [] && !Goes(sorted[|sorted| - 1], m) then Insert(m, sorted[..|sorted| - 1]) + [sorted[|sorted| - 1]]
    else sorted + [m]
  }

  /** What orderMembers' stable sort yields. */
  function TeardownOrder(ms: seq<Teardown>): seq<Teardown> {
    if ms == [] then [] else Insert(ms[|ms| - 1], TeardownOrder(ms[..|ms| - 1]))
  }

  lemma AppendKeepsOrder(sorted: seq<Teardown>, m: Teardown)
    requires InTeardownOrder(sorted) && forall x | x in sorted :: Goes(x, m)
    ensures InTeardownOrder(sorted + [m])
  {
    hide Goes;
    assert Goes(m, m) by {
      SameGoes(m);
    }
  }

  lemma SameGoes(m: Teardown)
    ensures Goes(m, m)
  {
  }

  lemma LastGoesLast(sorted: seq<Teardown>, m: Teardown)
    requires InTeardownOrder(sorted) && sorted != []
    ensures forall x | x in sorted :: Goes(x, sorted[|sorted| - 1])
    ensures Goes(sorted[|sorted| - 1], m) ==> forall x | x in sorted :: Goes(x, m)
    ensures !Goes(sorted[|sorted| - 1], m) ==> Goes(m, sorted[|sorted| - 1])
  {
    forall x | x in sorted
      ensures Goes(x, sorted[|sorted| - 1])
    {
      var i :| 0 <= i < |sorted| && sorted[i] == x;
      assert Goes(sorted[i], sorted[|sorted| - 1]);
    }
  }

  lemma {:induction false} InsertKeepsOrder(m: Teardown, sorted: seq<Teardown>)
    requires InTeardownOrder(sorted)
    ensures InTeardownOrder(Insert(m, sorted)) && multiset(Insert(m, sorted)) == multiset(sorted) + multiset{m}
  {
    if sorted == [] {
      AppendKeepsOrder(sorted, m);
    } else {
      var init, last := sorted[..|sorted| - 1], sorted[|sorted| - 1];
      assert sorted == init + [last];
      LastGoesLast(sorted, m);
      if Goes(last, m) {
        AppendKeepsOrder(sorted, m);
      } else {
        hide InTeardownOrder, Goes;
        InitInOrder(sorted);
        InsertKeepsOrder(m, init);
        MembersGo(Insert(m, init), init, m, last);
        AppendKeepsOrder(Insert(m, init), last);
      }
    }
  }

  lemma InitInOrder(sorted: seq<Teardown>)
    requires InTeardownOrder(sorted) && sorted != []
    ensures InTeardownOrder(sorted[..|sorted| - 1])
  {
    hide Goes;
  }

  lemma MembersGo(front: seq<Teardown>, init: seq<Teardown>, m: Teardown, last: Teardown)
    requires multiset(front) == multiset(init) + multiset{m}
    requires Goes(m, last) && forall x | x in init :: Goes(x, last)
    ensures forall x | x in front :: Goes(x, last)
  {
    hide Goes;
    forall x | x in front
      ensures Goes(x, last)
    {
      assert x in multiset(front);
      assert x in init || x == m;
    }
  }

  /** The teardown order has every member once, agents before servers. */
  lemma {:induction false} TeardownOrderSorts(ms: seq<Teardown>)
    ensures InTeardownOrder(TeardownOrder(ms)) && multiset(TeardownOrder(ms)) == multiset(ms)
  {
    if ms != [] {
      TeardownOrderSorts(ms[..|ms| - 1]);
      InsertKeepsOrder(ms[|ms| - 1], TeardownOrder(ms[..|ms| - 1]));
      assert ms == ms[..|ms| - 1] + [ms[|ms| - 1]];
    }
  }

  /** In teardown order no server comes before an agent, no agent before any other member, and
      VMIDs ascend within a role. */
  lemma ServersGoLast(ms: seq<Teardown>)
    requires InTeardownOrder(ms)
    ensures forall i, j | 0 <= i < j < |ms| ::
      && !(ms[i].role == Server && ms[j].role != Server)
      && !(ms[i].role == Agent && ms[j].role == Other)
      && (ms[i].role == ms[j].role ==> ms[i].vmid <= ms[j].vmid)
  {
  }

  lemma SameLast(a: seq<Teardown>, b: seq<Teardown>)
    requires InTeardownOrder(a) && InTeardownOrder(b) && multiset(a) == multiset(b) && a != [] && b != []
    requires forall x, y | x in a && y in a && x.vmid == y.vmid :: x == y
    ensures a[|a| - 1] == b[|b| - 1]
  {
    hide InTeardownOrder;
    var x, y := a[|a| - 1], b[|b| - 1];
    assert y in multiset(a) && x in multiset(b);
    assert y in a && x in b;
    LastGoesLast(a, y);
    LastGoesLast(b, x);
    assert Goes(y, x) && Goes(x, y);
  }

  lemma WithoutLast(a: seq<Teardown>)
    requires a != []
    ensures multiset(a[..|a| - 1]) == multiset(a) - multiset{a[|a| - 1]}
  {
    assert a == a[..|a| - 1] + [a[|a| - 1]];
  }

  /** Members in order have one order only, when no two share a VMID. */
  lemma {:induction false} TeardownOrderIsUnique(a: seq<Teardown>, b: seq<Teardown>)
    requires InTeardownOrder(a) && InTeardownOrder(b) && multiset(a) == multiset(b)
    requires forall x, y | x in a && y in a && x.vmid == y.vmid :: x == y
    ensures a == b
  {
    hide InTeardownOrder;
    assert |multiset(a)| == |a| && |multiset(b)| == |b|;
    if a != [] {
      SameLast(a, b);
      InitInOrder(a);
      InitInOrder(b);
      WithoutLast(a);
      WithoutLast(b);
      TeardownOrderIsUnique(a[..|a| - 1], b[..|b| - 1]);
      assert a == a[..|a| - 1] + [a[|a| - 1]] && b == b[..|b| - 1] + [b[|b| - 1]];
    }
  }

  /** DeleteSet: every live member is asked to go, agents before servers, even after one
      refuses; the set row goes only when none refused and the store takes the delete. */
  method DeleteSet(store: OwnershipStore, setId: string, members: seq<Teardown>, deleteOk: bool)
    returns (ordered: seq<Teardown>, submitted: seq<nat>, complete: bool)
    requires setId in store.sets
    modifies store`sets
    ensures InTeardownOrder(ordered) && multiset(ordered) == multiset(members)
    ensures forall i, j | 0 <= i < j < |ordered| ::
      && !(ordered[i].role == Server && ordered[j].role != Server)
      && !(ordered[i].role == Agent && ordered[j].role == Other)
      && (ordered[i].role == ordered[j].role ==> ordered[i].vmid <= ordered[j].vmid)
    ensures forall i: nat :: i in submitted <==> i < |ordered| && !ordered[i].tombstoned && ordered[i].destroyOk
    ensures forall p, q | 0 <= p < q < |submitted| :: submitted[p] < submitted[q]
    ensures complete <==> forall i | 0 <= i < |ordered| :: ordered[i].tombstoned || ordered[i].destroyOk
    ensures store.sets == if complete && deleteOk then old(store.sets) - {setId} else old(store.sets)
  {
    hide InTeardownOrder;
    TeardownOrderSorts(members);
    ordered, submitted, complete := TeardownOrder(members), [], true;
    ServersGoLast(ordered);
    for i := 0 to |ordered|
      invariant forall j: nat :: j in submitted <==> j < i && !ordered[j].tombstoned && ordered[j].destroyOk
      invariant forall p, q | 0 <= p < q < |submitted| :: submitted[p] < submitted[q]
      invariant complete <==> forall j | 0 <= j < i :: ordered[j].tombstoned || ordered[j].destroyOk
      invariant forall p | 0 <= p < |submitted| :: submitted[p] < i
    {
      if ordered[i].tombstoned {
        continue;
      }
      if ordered[i].destroyOk {
        submitted := submitted + [i];
      } else {
        complete := false;
      }
    }
    if complete && deleteOk {
      store.sets := store.sets - {setId};
    }
  }
}
