/** One scheduler tick's bounded dispatch of the jobs it claimed
    (backend/internal/scheduler/scheduler.go). */
module Dispatch {
  import opened Clock
  import opened Counting

  const CLAIM_LIMIT: nat := 20
  const MAX_CONCURRENT: nat := 8
  const HANDLER_TIMEOUT: nat := 10 * MINUTE
  const STALE_AFTER: nat := 15 * MINUTE

  // ---- schedules ------------------------------------------------------------------

  /** Which of the first i jobs hold a slot just after t, if job j gives its slot back at ends[j]. */
  ghost function Holding(ends: seq<nat>, i: nat, t: nat): set<int>
    requires i <= |ends|
  {
    set j: int | 0 <= j < i && ends[j] > t
  }

  /** Job i starts in its turn and only into a free slot ... */
  ghost predicate StartsInTurn(starts: seq<nat>, ends: seq<nat>, i: nat, slots: nat, limit: nat)
    requires i < |starts| == |ends|
  {
    && (if i == 0 then starts[i] == 0 else starts[i - 1] <= starts[i])
    && starts[i] <= ends[i] <= starts[i] + limit
    && |Holding(ends, i, starts[i])| < slots
  }

  /** ... and the dispatcher only ever waits while every slot is held. */
  ghost predicate WaitsOnlyWhenFull(starts: seq<nat>, ends: seq<nat>, i: nat, slots: nat)
    requires i < |starts| == |ends|
  {
    i > 0 ==> forall t: nat | starts[i - 1] <= t < starts[i] :: |Holding(ends, i, t)| >= slots
  }

  /** The start and end times, counted from the claim, that a tick can give the claimed jobs
      when each takes at most `limit`. */
  ghost predicate IsSchedule(starts: seq<nat>, ends: seq<nat>, slots: nat, limit: nat) {
    && |starts| == |ends|
    && forall i | 0 <= i < |starts| ::
         StartsInTurn(starts, ends, i, slots, limit) && WaitsOnlyWhenFull(starts, ends, i, slots)
  }

  // ---- the dispatch loop ------------------------------------------------------------

  ghost function SetOf(s: seq<int>): set<int> {
    set x | x in s
  }

  lemma {:induction false} DistinctSize(s: seq<int>)
    requires forall i, j | 0 <= i < j < |s| :: s[i] != s[j]
    ensures |SetOf(s)| == |s|
  {
    if s != [] {
      DistinctSize(s[1..]);
      assert SetOf(s) == {s[0]} + SetOf(s[1..]);
      assert s[0] !in s[1..];
    }
  }

  /** What the semaphore knows: slot s was last given to job owner[s] (negative: to none),
      and every job that no longer owns a slot had ended by `clock`. */
  ghost predicate SlotsTrack(freeAt: seq<nat>, owner: seq<int>, ends: seq<nat>, clock: nat) {
    && |freeAt| == |owner|
    && (forall s, q | 0 <= s < q < |owner| :: owner[s] != owner[q])
    && (forall s | 0 <= s < |owner| :: owner[s] < |ends| && freeAt[s] == if owner[s] < 0 then 0 else ends[owner[s]])
    && (forall j: int | 0 <= j < |ends| && ends[j] > clock :: j in owner)
  }

  lemma FreeSlotMeansRoom(freeAt: seq<nat>, owner: seq<int>, ends: seq<nat>, clock: nat, k: nat, t: nat)
    requires SlotsTrack(freeAt, owner, ends, clock) && k < |owner| && clock <= t && freeAt[k] <= t
    ensures |Holding(ends, |ends|, t)| < |owner|
  {
    var others := owner[..k] + owner[k + 1..];
    DistinctSize(others);
    forall j | j in Holding(ends, |ends|, t)
      ensures j in SetOf(others)
    {
      var s :| 0 <= s < |owner| && owner[s] == j;
      assert s < k ==> others[s] == j;
      assert s > k ==> others[s - 1] == j;
    }
    SubsetSize(Holding(ends, |ends|, t), SetOf(others));
  }

  lemma NoFreeSlotMeansFull(freeAt: seq<nat>, owner: seq<int>, ends: seq<nat>, clock: nat, t: nat)
    requires SlotsTrack(freeAt, owner, ends, clock) && forall s | 0 <= s < |freeAt| :: freeAt[s] > t
    ensures |Holding(ends, |ends|, t)| >= |owner|
  {
    DistinctSize(owner);
    forall j | j in SetOf(owner)
      ensures j in Holding(ends, |ends|, t)
    {
      var s :| 0 <= s < |owner| && owner[s] == j;
      assert freeAt[s] > t;
    }
    SubsetSize(SetOf(owner), Holding(ends, |ends|, t));
  }

  lemma ScheduleGrows(starts: seq<nat>, ends: seq<nat>, slots: nat, limit: nat, s: nat, e: nat)
    requires IsSchedule(starts, ends, slots, limit)
    requires var i := |starts|; var starts', ends' := starts + [s], ends + [e];
      StartsInTurn(starts', ends', i, slots, limit) && WaitsOnlyWhenFull(starts', ends', i, slots)
    ensures IsSchedule(starts + [s], ends + [e], slots, limit)
  {
    var starts', ends' := starts + [s], ends + [e];
    forall i, t: nat | 0 <= i <= |ends|
      ensures Holding(ends', i, t) == Holding(ends, i, t)
    {
    }
    forall i | 0 <= i < |starts|
      ensures StartsInTurn(starts', ends', i, slots, limit) && WaitsOnlyWhenFull(starts', ends', i, slots)
    {
      assert StartsInTurn(starts, ends, i, slots, limit) && WaitsOnlyWhenFull(starts, ends, i, slots);
    }
  }

  /** The earliest slot to come free. */
  method EarliestSlot(freeAt: array<nat>) returns (k: nat)
    requires freeAt.Length > 0
    ensures k < freeAt.Length && forall s | 0 <= s < freeAt.Length :: freeAt[k] <= freeAt[s]
  {
    k := 0;
    for s := 1 to freeAt.Length
      invariant k < freeAt.Length && forall q | 0 <= q < s :: freeAt[k] <= freeAt[q]
    {
      if freeAt[s] < freeAt[k] {
        k := s;
      }
    }
  }

  /** The dispatch loop of Tick over a semaphore of `slots` slots; job i's process call takes took[i]. */
  method RunTick(took: seq<nat>, slots: nat, limit: nat) returns (starts: seq<nat>, ends: seq<nat>)
    requires slots > 0 && forall i | 0 <= i < |took| :: took[i] <= limit
    ensures |starts| == |took| && IsSchedule(starts, ends, slots, limit)
    ensures forall i | 0 <= i < |took| :: ends[i] == starts[i] + took[i]
  {
    var freeAt := new nat[slots](_ => 0);
    ghost var owner := seq(slots, s => -1 - s);
    var clock := 0;
    starts, ends := [], [];
    for i := 0 to |took|
      invariant |starts| == |ends| == i && IsSchedule(starts, ends, slots, limit)
      invariant forall j | 0 <= j < i :: ends[j] == starts[j] + took[j]
      invariant clock == if i == 0 then 0 else starts[i - 1]
      invariant SlotsTrack(freeAt[..], owner, ends, clock) && |owner| == slots
    {
      var k := EarliestSlot(freeAt);
      ghost var before := clock;
      if freeAt[k] > clock {
        clock := freeAt[k];
      }
      var end := clock + took[i];
      FreeSlotMeansRoom(freeAt[..], owner, ends, before, k, clock);
      assert Holding(ends + [end], i, clock) == Holding(ends, i, clock);
      forall t: nat | before <= t < clock
        ensures |Holding(ends + [end], i, t)| >= slots
      {
        NoFreeSlotMeansFull(freeAt[..], owner, ends, before, t);
        assert Holding(ends + [end], i, t) == Holding(ends, i, t);
      }
      ScheduleGrows(starts, ends, slots, limit, clock, end);
      SlotTaken(freeAt[..], owner, ends, before, k, clock, end);
      freeAt[k] := end;
      owner := owner[k := i];
      starts, ends := starts + [clock], ends + [end];
    }
  }

  lemma SlotTaken(freeAt: seq<nat>, owner: seq<int>, ends: seq<nat>, before: nat, k: nat, clock: nat, end: nat)
    requires SlotsTrack(freeAt, owner, ends, before) && k < |owner| && before <= clock && freeAt[k] <= clock
    ensures SlotsTrack(freeAt[k := end], owner[k := |ends|], ends + [end], clock)
  {
    var owner', ends' := owner[k := |ends|], ends + [end];
    forall j: int | 0 <= j < |ends'| && ends'[j] > clock
      ensures j in owner'
    {
      if j == |ends| {
        assert owner'[k] == j;
      } else {
        var s :| 0 <= s < |owner| && owner[s] == j;
        assert owner'[s] == j;
      }
    }
  }

  // ---- how late a claimed job can be --------------------------------------------------

  lemma {:induction false} StartsAreSorted(starts: seq<nat>, ends: seq<nat>, slots: nat, limit: nat, i: nat, j: nat)
    requires IsSchedule(starts, ends, slots, limit) && i <= j < |starts|
    ensures starts[i] <= starts[j]
    decreases j
  {
    if i < j {
      assert StartsInTurn(starts, ends, j, slots, limit);
      StartsAreSorted(starts, ends, slots, limit, i, j - 1);
    }
  }

  ghost function Between(lo: int, hi: int): (r: set<int>)
    ensures forall j :: j in r <==> lo <= j < hi
    decreases hi - lo
  {
    if lo >= hi then {} else Between(lo, hi - 1) + {hi - 1}
  }

  lemma {:induction false} RangeSize(lo: int, hi: int)
    requires lo <= hi
    ensures |Between(lo, hi)| == hi - lo
    decreases hi - lo
  {
    if lo < hi {
      RangeSize(lo, hi - 1);
    }
  }

  /** Few enough jobs before i are still going at t. */
  lemma FewHold(ends: seq<nat>, i: nat, from: int, t: nat)
    requires i <= |ends| && 0 <= from <= i && forall j | 0 <= j < from :: ends[j] <= t
    ensures |Holding(ends, i, t)| <= i - from
  {
    RangeSize(from, i);
    SubsetSize(Holding(ends, i, t), Between(from, i));
  }

  /** The latest the i-th job starts: one limit for every whole batch of `slots` jobs before it. */
  function StartBy(i: nat, slots: nat, limit: nat): nat
    requires slots > 0
  {
    if i < slots then 0 else StartBy(i - slots, slots, limit) + limit
  }

  lemma {:induction false} StartByGrows(i: nat, j: nat, slots: nat, limit: nat)
    requires slots > 0 && i <= j
    ensures StartBy(i, slots, limit) <= StartBy(j, slots, limit)
  {
    if i >= slots {
      StartByGrows(i - slots, j - slots, slots, limit);
    }
  }

  lemma DivStep(i: int, d: int)
    requires 0 < d <= i
    ensures i / d == (i - d) / d + 1
  {
    var q, r := (i - d) / d, (i - d) % d;
    assert i == d * (q + 1) + r;
    QuotientIsUnique(i, d, q + 1, r);
  }

  lemma QuotientIsUnique(i: int, d: int, q: int, r: int)
    requires 0 <= r < d && i == d * q + r
    ensures i / d == q
  {
    var p, x := i / d, i % d;
    assert i == d * p + x;
    MultiplesAreApart(d, p, x, q, r);
  }

  lemma {:induction false} AtLeastOnce(d: int, k: int)
    requires d > 0 && k >= 1
    ensures d * k >= d
    decreases k
  {
    if k > 1 {
      AtLeastOnce(d, k - 1);
      assert d * k == d * (k - 1) + d;
    }
  }

  lemma MultiplesAreApart(d: int, p: int, x: int, q: int, r: int)
    requires 0 <= x < d && 0 <= r < d && d * p + x == d * q + r
    ensures p == q
  {
    assert d * (q - p) == d * q - d * p;
    assert d * (p - q) == d * p - d * q;
    if q > p {
      AtLeastOnce(d, q - p);
    } else if q < p {
      AtLeastOnce(d, p - q);
    }
  }

  lemma OneBatchMore(q: nat, limit: nat)
    ensures q * limit + limit == (q + 1) * limit
  {
  }

  lemma {:induction false} StartByIsWholeBatches(i: nat, slots: nat, limit: nat)
    requires slots > 0
    ensures StartBy(i, slots, limit) == i / slots * limit
  {
    if i >= slots {
      var q := (i - slots) / slots;
      StartByIsWholeBatches(i - slots, slots, limit);
      DivStep(i, slots);
      OneBatchMore(q, limit);
    } else {
      QuotientIsUnique(i, slots, 0, i);
    }
  }

  lemma {:induction false} RunsOnTime(starts: seq<nat>, ends: seq<nat>, slots: nat, limit: nat, i: nat)
    requires IsSchedule(starts, ends, slots, limit) && slots > 0 && i < |starts|
    ensures starts[i] <= StartBy(i, slots, limit) && ends[i] <= StartBy(i, slots, limit) + limit
  {
    assert StartsInTurn(starts, ends, i, slots, limit) && WaitsOnlyWhenFull(starts, ends, i, slots);
    if i > 0 {
      RunsOnTime(starts, ends, slots, limit, i - 1);
      StartByGrows(i - 1, i, slots, limit);
      var from := if i < slots then 0 else i - slots + 1;
      var t := starts[i - 1];
      if i >= slots {
        RunsOnTime(starts, ends, slots, limit, i - slots);
        t := if starts[i - 1] > starts[i - slots] + limit then starts[i - 1] else starts[i - slots] + limit;
        forall j | 0 <= j < from
          ensures ends[j] <= t
        {
          StartsAreSorted(starts, ends, slots, limit, j, i - slots);
          assert StartsInTurn(starts, ends, j, slots, limit);
        }
      }
      FewHold(ends, i, from, t);
    }
  }

  /** The i-th claimed job starts by (i / slots) * limit and ends by (i / slots + 1) * limit. */
  lemma JobsRunOnTime(starts: seq<nat>, ends: seq<nat>, slots: nat, limit: nat, i: nat)
    requires IsSchedule(starts, ends, slots, limit) && slots > 0 && i < |starts|
    ensures starts[i] <= i / slots * limit && ends[i] <= (i / slots + 1) * limit
  {
    hide IsSchedule;
    RunsOnTime(starts, ends, slots, limit, i);
    StartByIsWholeBatches(i, slots, limit);
    assert (i / slots + 1) * limit == i / slots * limit + limit;
  }

  ghost function RunningAt(starts: seq<nat>, ends: seq<nat>, t: nat): set<int>
    requires |starts| == |ends|
  {
    set i: int | 0 <= i < |starts| && starts[i] <= t < ends[i]
  }

  /** At no moment do more than `slots` jobs run. */
  lemma AtMostSlotsRun(starts: seq<nat>, ends: seq<nat>, slots: nat, limit: nat, t: nat)
    requires IsSchedule(starts, ends, slots, limit) && slots > 0
    ensures |RunningAt(starts, ends, t)| <= slots
  {
    var running := RunningAt(starts, ends, t);
    if running != {} {
      var last := Latest(starts, t, |starts|);
      assert StartsInTurn(starts, ends, last, slots, limit);
      forall i | i in running
        ensures i in Holding(ends, last, starts[last]) + {last}
      {
      }
      SubsetSize(running, Holding(ends, last, starts[last]) + {last});
    }
  }

  /** The last of the first n jobs to have started by t. */
  ghost function Latest(starts: seq<nat>, t: nat, n: nat): (i: nat)
    requires n <= |starts| && exists j :: 0 <= j < n && starts[j] <= t
    ensures i < n && starts[i] <= t && forall j | i < j < n :: starts[j] > t
  {
    if starts[n - 1] <= t then n - 1 else Latest(starts, t, n - 1)
  }

  // ---- reclaiming ----------------------------------------------------------------------

  /** A tick of this or of another instance finds the row still 'running' (it is, from the
      claim to the settlement at `end`) and its claim older than staleAfter. */
  predicate ReclaimsAt(tick: nat, end: nat, staleAfter: nat) {
    tick <= end && tick > staleAfter
  }

  ghost predicate CanBeReclaimed(end: nat, staleAfter: nat) {
    exists tick: nat :: ReclaimsAt(tick, end, staleAfter)
  }

  /** In no tick that claims n jobs is a job that waits or runs ever reclaimed. */
  ghost predicate NeverReclaims(n: nat, slots: nat, limit: nat, staleAfter: nat) {
    forall starts, ends | IsSchedule(starts, ends, slots, limit) && |starts| == n ::
      |ends| == n && forall i | 0 <= i < n :: !CanBeReclaimed(ends[i], staleAfter)
  }

  function Batches(n: nat, slots: nat): nat
    requires slots > 0
  {
    (n + slots - 1) / slots
  }

  function FullStarts(n: nat, slots: nat, limit: nat): (r: seq<nat>)
    requires slots > 0
    ensures |r| == n && forall i | 0 <= i < n :: r[i] == StartBy(i, slots, limit)
  {
    if n == 0 then [] else FullStarts(n - 1, slots, limit) + [StartBy(n - 1, slots, limit)]
  }

  function FullEnds(n: nat, slots: nat, limit: nat): (r: seq<nat>)
    requires slots > 0
    ensures |r| == n && forall i | 0 <= i < n :: r[i] == StartBy(i, slots, limit) + limit
  {
    if n == 0 then [] else FullEnds(n - 1, slots, limit) + [StartBy(n - 1, slots, limit) + limit]
  }

  /** The first job of the batch job i is in. */
  function FirstOf(i: nat, slots: nat): (f: nat)
    requires slots > 0
    ensures f <= i < f + slots
  {
    if i < slots then 0 else FirstOf(i - slots, slots) + slots
  }

  lemma {:induction false} BatchBefore(i: nat, j: nat, slots: nat, limit: nat)
    requires slots > 0 && j < FirstOf(i, slots)
    ensures StartBy(j, slots, limit) + limit <= StartBy(i, slots, limit)
  {
    if j >= slots {
      BatchBefore(i - slots, j - slots, slots, limit);
    }
  }

  lemma {:induction false} NewBatch(i: nat, slots: nat, limit: nat)
    requires slots > 0 && i > 0 && StartBy(i - 1, slots, limit) < StartBy(i, slots, limit)
    ensures i >= slots && FirstOf(i, slots) == i
  {
    if i > slots {
      NewBatch(i - slots, slots, limit);
    }
  }

  lemma {:induction false} SameBatch(a: nat, j: nat, slots: nat, limit: nat)
    requires slots > 0 && FirstOf(a, slots) == a && a <= j < a + slots
    ensures StartBy(j, slots, limit) == StartBy(a, slots, limit)
  {
    if a >= slots {
      SameBatch(a - slots, j - slots, slots, limit);
    }
  }

  /** Every job taking the whole limit is a possible schedule, and the latest one. */
  lemma FullIsSchedule(n: nat, slots: nat, limit: nat)
    requires slots > 0
    ensures IsSchedule(FullStarts(n, slots, limit), FullEnds(n, slots, limit), slots, limit)
  {
    hide FullStarts, FullEnds, StartBy, FirstOf;
    var starts, ends := FullStarts(n, slots, limit), FullEnds(n, slots, limit);
    forall i: nat | i < n
      ensures StartsInTurn(starts, ends, i, slots, limit) && WaitsOnlyWhenFull(starts, ends, i, slots)
    {
      FirstStartsAtOnce(slots, limit);
      var from := FirstOf(i, slots);
      forall j: nat | j < from
        ensures ends[j] <= starts[i]
      {
        BatchBefore(i, j, slots, limit);
      }
      FewHold(ends, i, from, starts[i]);
      if i > 0 {
        StartByGrows(i - 1, i, slots, limit);
        forall t: nat | starts[i - 1] <= t < starts[i]
          ensures |Holding(ends, i, t)| >= slots
        {
          NewBatch(i, slots, limit);
          BatchHolds(i, slots, limit, ends, t);
        }
      }
    }
  }

  lemma FirstStartsAtOnce(slots: nat, limit: nat)
    requires slots > 0
    ensures StartBy(0, slots, limit) == 0
  {
  }

  lemma BatchStep(i: nat, slots: nat, limit: nat)
    requires slots > 0 && slots <= i && FirstOf(i, slots) == i
    ensures FirstOf(i - slots, slots) == i - slots && StartBy(i, slots, limit) == StartBy(i - slots, slots, limit) + limit
  {
  }

  lemma BatchHolds(i: nat, slots: nat, limit: nat, ends: seq<nat>, t: nat)
    requires slots > 0 && slots <= i <= |ends| && FirstOf(i, slots) == i && t < StartBy(i, slots, limit)
    requires forall j | 0 <= j < i :: ends[j] == StartBy(j, slots, limit) + limit
    ensures |Holding(ends, i, t)| >= slots
  {
    hide StartBy, FirstOf, Holding;
    BatchStep(i, slots, limit);
    forall j: nat | i - slots <= j < i
      ensures ends[j] > t
    {
      SameBatch(i - slots, j, slots, limit);
    }
    ManyHold(ends, i, i - slots, t);
  }

  lemma ManyHold(ends: seq<nat>, i: nat, from: nat, t: nat)
    requires from <= i <= |ends| && forall j: nat | from <= j < i :: ends[j] > t
    ensures |Holding(ends, i, t)| >= i - from
  {
    RangeSize(from, i);
    SubsetSize(Between(from, i), Holding(ends, i, t));
  }

  lemma LastEnd(n: nat, slots: nat, limit: nat)
    requires slots > 0
    ensures Batches(n, slots) * limit == if n == 0 then 0 else StartBy(n - 1, slots, limit) + limit
  {
    if n == 0 {
      QuotientIsUnique(slots - 1, slots, 0, slots - 1);
    } else {
      StartByIsWholeBatches(n - 1, slots, limit);
      DivStep(n + slots - 1, slots);
      OneBatchMore((n - 1) / slots, limit);
    }
  }

  /** With every process call within the handler timeout, no waiting or running job is
      reclaimed if and only if the whole claim, batch after batch, fits in staleAfter. */
  lemma NeverReclaimsIff(n: nat, slots: nat, limit: nat, staleAfter: nat)
    requires slots > 0
    ensures NeverReclaims(n, slots, limit, staleAfter) <==> Batches(n, slots) * limit <= staleAfter
  {
    hide StartsInTurn, WaitsOnlyWhenFull, Batches, FullStarts, FullEnds;
    LastEnd(n, slots, limit);
    if Batches(n, slots) * limit <= staleAfter {
      forall starts, ends, i | IsSchedule(starts, ends, slots, limit) && |starts| == n && 0 <= i < n
        ensures i < |ends| && !CanBeReclaimed(ends[i], staleAfter)
      {
        RunsOnTime(starts, ends, slots, limit, i);
        StartByGrows(i, n - 1, slots, limit);
      }
    } else {
      FullIsSchedule(n, slots, limit);
      var starts, ends := FullStarts(n, slots, limit), FullEnds(n, slots, limit);
      assert ReclaimsAt(staleAfter + 1, ends[n - 1], staleAfter);
      assert CanBeReclaimed(ends[n - 1], staleAfter);
    }
  }

  /** With the default settings that is so exactly for claims of at most eight jobs: the claim
      limit of twenty lets a job that waits for a slot go stale. */
  lemma DefaultsNeverReclaimIff(n: nat)
    ensures NeverReclaims(n, MAX_CONCURRENT, HANDLER_TIMEOUT, STALE_AFTER) <==> n <= MAX_CONCURRENT
    ensures !NeverReclaims(CLAIM_LIMIT, MAX_CONCURRENT, HANDLER_TIMEOUT, STALE_AFTER)
  {
    NeverReclaimsIff(n, MAX_CONCURRENT, HANDLER_TIMEOUT, STALE_AFTER);
    NeverReclaimsIff(CLAIM_LIMIT, MAX_CONCURRENT, HANDLER_TIMEOUT, STALE_AFTER);
  }
}
