/** Firing a guest's expiry: stop it, or destroy it and free its VMID
    (backend/internal/lifecycle/ttl.go). */
module TtlExpiry {
  datatype OwnerRead = OwnerFailed | OwnerMissing | OwnerTombstoned | OwnerLive
  datatype Action = StopIt | DeleteIt | Unknown
  datatype TtlRead = TtlFailed | TtlMissing | TtlFound(expiresAt: nat, action: Action)
  datatype StatusRead = StatusFailed | Status(stopped: bool)

  /** What the job carries and everything the outside world answers during one run. */
  datatype World = World(
    hasVmid: bool, payloadOk: bool,
    owner: OwnerRead, ttl: TtlRead, now: nat,
    before: StatusRead, intentOk: bool, shutdownOk: bool, after: StatusRead,
    destroyOk: bool, registry: bool, destroySucceeded: bool,
    tombstoneOk: bool, markOk: bool)

  /** One call of a run, with its answer. */
  datatype Act =
    | ReadOwner(owner: OwnerRead)
    | CancelJobs
    | ReadTtl(due: bool)
    | ReadStatus(status: StatusRead)
    | ReadConfig
    | Intent(ok: bool)
    | Shutdown(ok: bool)
    | Destroy(ok: bool)
    | Confirm(succeeded: bool)
    | Tombstone(ok: bool)
    | MarkExpired(ok: bool)
    | Finish(success: bool)

  // ---- what a trace must satisfy ------------------------------------------------------------

  predicate Touches(a: Act) {
    a.Shutdown? || a.Destroy? || a.Tombstone? || a.MarkExpired?
  }

  /** The guest was read stopped before place i, and not shut down or read running since. */
  ghost predicate StoppedBefore(t: seq<Act>, i: nat)
    requires i <= |t|
  {
    exists j :: 0 <= j < i && t[j] == ReadStatus(Status(true)) && Undisturbed(t, j, i)
  }

  ghost predicate Undisturbed(t: seq<Act>, j: nat, i: nat)
    requires j < i <= |t|
  {
    forall k | j < k < i :: !t[k].Shutdown? && t[k] != ReadStatus(Status(false))
  }

  ghost predicate Before(t: seq<Act>, i: nat, a: Act)
    requires i <= |t|
  {
    exists j :: 0 <= j < i && t[j] == a
  }

  /** The guarantees, place by place: no touch without an audit intent; no destroy unless this
      run read a due TTL and found the guest stopped; no tombstone without a destroy that was
      confirmed (or, with no registry to ask, accepted); no expired mark on a running guest;
      an intent is finished once, last. */
  ghost predicate SafeAt(t: seq<Act>, registry: bool, i: nat)
    requires i < |t|
  {
    && (Touches(t[i]) || t[i].Finish? ==> Before(t, i, Intent(true)))
    && (t[i].Destroy? ==> Before(t, i, ReadTtl(true)) && StoppedBefore(t, i))
    && (t[i].MarkExpired? ==> Before(t, i, ReadTtl(true)) && StoppedBefore(t, i))
    && (t[i].Tombstone? ==> Before(t, i, Destroy(true)) && (registry ==> Before(t, i, Confirm(true))))
    && (t[i].Confirm? ==> Before(t, i, Destroy(true)))
    && (t[i].Finish? ==> i == |t| - 1)
    && (t[i] == Intent(true) ==> !Before(t, i, Intent(true)))
  }

  ghost predicate Safe(t: seq<Act>, registry: bool) {
    forall i | 0 <= i < |t| :: SafeAt(t, registry, i)
  }

  // ---- a monitor that watches a trace grow -----------------------------------------------------

  datatype Seen = Seen(
    due: bool, stopped: bool, intent: bool, destroyed: bool, confirmed: bool, finished: bool, bad: bool,
    asked: bool, tombstoned: bool, marked: bool, success: bool)

  const UNSEEN: Seen := Seen(false, false, false, false, false, false, false, false, false, false, false)

  predicate Objects(s: Seen, a: Act, registry: bool) {
    || s.bad || s.finished
    || ((Touches(a) || a.Finish?) && !s.intent)
    || (a.Intent? && s.intent)
    || ((a.Destroy? || a.MarkExpired?) && !(s.due && s.stopped))
    || ((a.Confirm? || a.Tombstone?) && !s.destroyed)
    || (a.Tombstone? && registry && !s.confirmed)
  }

  function Observe(s: Seen, a: Act, registry: bool): Seen {
    Seen(
      s.due || (a.ReadTtl? && a.due),
      if a.Shutdown? then false else if a.ReadStatus? && a.status.Status? then a.status.stopped else s.stopped,
      s.intent || (a.Intent? && a.ok),
      s.destroyed || (a.Destroy? && a.ok),
      s.confirmed || (a.Confirm? && a.succeeded),
      s.finished || a.Finish?,
      Objects(s, a, registry),
      s.asked || a.Destroy?,
      s.tombstoned || (a.Tombstone? && a.ok),
      s.marked || (a.MarkExpired? && a.ok),
      s.success || (a.Finish? && a.success))
  }

  function Watch(t: seq<Act>, registry: bool): Seen {
    if t == [] then UNSEEN else Observe(Watch(t[..|t| - 1], registry), t[|t| - 1], registry)
  }

  predicate Asked(t: seq<Act>) {
    Destroy(true) in t || Destroy(false) in t
  }

  /** What the monitor has seen is in the trace. */
  ghost predicate Remembers(t: seq<Act>, s: Seen) {
    && (s.due ==> Before(t, |t|, ReadTtl(true)))
    && (s.stopped ==> StoppedBefore(t, |t|))
    && (s.intent <==> Before(t, |t|, Intent(true)))
    && (s.destroyed ==> Before(t, |t|, Destroy(true)))
    && (s.confirmed ==> Before(t, |t|, Confirm(true)))
    && (s.finished <==> exists i :: 0 <= i < |t| && t[i].Finish?)
    && (s.finished && !s.bad ==> t != [] && t[|t| - 1] == Finish(s.success))
    && (s.success ==> s.finished)
    && (s.asked <==> Asked(t))
    && (s.tombstoned <==> Tombstone(true) in t)
    && (s.marked <==> MarkExpired(true) in t)
    && (s.success <==> Finish(true) in t)
  }

  lemma BeforeGrows(t: seq<Act>, b: Act, a: Act)
    ensures Before(t + [b], |t| + 1, a) <==> Before(t, |t|, a) || a == b
  {
    if Before(t, |t|, a) {
      var j :| 0 <= j < |t| && t[j] == a;
      assert (t + [b])[j] == a;
    }
    assert (t + [b])[|t|] == b;
  }

  lemma StoppedGrows(t: seq<Act>, b: Act)
    ensures StoppedBefore(t, |t|) && !b.Shutdown? && b != ReadStatus(Status(false)) ==> StoppedBefore(t + [b], |t| + 1)
    ensures b == ReadStatus(Status(true)) ==> StoppedBefore(t + [b], |t| + 1)
  {
    var u := t + [b];
    if StoppedBefore(t, |t|) && !b.Shutdown? && b != ReadStatus(Status(false)) {
      var j :| 0 <= j < |t| && t[j] == ReadStatus(Status(true)) && Undisturbed(t, j, |t|);
      assert u[j] == t[j] && Undisturbed(u, j, |u|);
    }
    if b == ReadStatus(Status(true)) {
      assert u[|t|] == b && Undisturbed(u, |t|, |u|);
    }
  }

  lemma SameBefore(t: seq<Act>, b: Act, i: nat, a: Act)
    requires i <= |t|
    ensures Before(t + [b], i, a) <==> Before(t, i, a)
    ensures StoppedBefore(t, i) ==> StoppedBefore(t + [b], i)
  {
    var u := t + [b];
    assert forall j | 0 <= j < |t| :: u[j] == t[j];
    if StoppedBefore(t, i) {
      var j :| 0 <= j < i && t[j] == ReadStatus(Status(true)) && Undisturbed(t, j, i);
      assert u[j] == t[j] && Undisturbed(u, j, i);
    }
  }

  lemma RememberMore(t: seq<Act>, s: Seen, b: Act, registry: bool)
    requires Remembers(t, s)
    ensures Remembers(t + [b], Observe(s, b, registry))
  {
    hide Before, StoppedBefore, Objects;
    BadStays(s, b, registry);
    StoppedGrows(t, b);
    BeforeGrows(t, b, ReadTtl(true));
    BeforeGrows(t, b, Intent(true));
    BeforeGrows(t, b, Destroy(true));
    BeforeGrows(t, b, Confirm(true));
    var u := t + [b];
    assert u[|t|] == b && forall j | 0 <= j < |t| :: u[j] == t[j];
    assert forall a :: a in u <==> a in t || a == b;
  }

  lemma SafeMore(t: seq<Act>, s: Seen, b: Act, registry: bool)
    requires Remembers(t, s) && Safe(t, registry) && !Observe(s, b, registry).bad
    ensures Safe(t + [b], registry)
  {
    hide Before, StoppedBefore;
    var u := t + [b];
    forall i | 0 <= i < |u|
      ensures SafeAt(u, registry, i)
    {
      assert i < |t| ==> SafeAt(t, registry, i) && u[i] == t[i];
      SameBefore(t, b, i, Intent(true));
      SameBefore(t, b, i, ReadTtl(true));
      SameBefore(t, b, i, Destroy(true));
      SameBefore(t, b, i, Confirm(true));
    }
  }

  /** A trace the monitor does not object to is safe. */
  lemma {:induction false} WatchedIsSafe(t: seq<Act>, registry: bool)
    ensures Remembers(t, Watch(t, registry))
    ensures !Watch(t, registry).bad ==> Safe(t, registry)
  {
    hide Before, StoppedBefore, Observe;
    if t == [] {
      NothingSeen(registry);
    } else {
      var init, b := t[..|t| - 1], t[|t| - 1];
      assert t == init + [b];
      WatchedIsSafe(init, registry);
      RememberMore(init, Watch(init, registry), b, registry);
      BadStays(Watch(init, registry), b, registry);
      if !Watch(t, registry).bad {
        SafeMore(init, Watch(init, registry), b, registry);
      }
    }
  }

  lemma NothingSeen(registry: bool)
    ensures Remembers([], Watch([], registry)) && Safe([], registry)
  {
  }

  lemma BadStays(s: Seen, b: Act, registry: bool)
    ensures s.bad || s.finished ==> Observe(s, b, registry).bad
  {
  }

  // ---- the handler --------------------------------------------------------------------------------

  predicate Follows(s: Seen, a: Act, s': Seen, registry: bool) {
    var o := Observe(s, a, registry);
    && s'.due == o.due
    && s'.stopped == o.stopped
    && s'.intent == o.intent
    && s'.destroyed == o.destroyed
    && s'.confirmed == o.confirmed
    && s'.finished == o.finished
    && s'.bad == o.bad
    && s'.asked == o.asked
    && s'.tombstoned == o.tombstoned
    && s'.marked == o.marked
    && s'.success == o.success
  }

  method Log(t: seq<Act>, a: Act, registry: bool) returns (u: seq<Act>)
    ensures u == t + [a] && Follows(Watch(t, registry), a, Watch(u, registry), registry)
  {
    u := t + [a];
    assert u[..|t|] == t;
  }

  method Nothing(registry: bool) returns (t: seq<Act>)
    ensures t == [] && Watch(t, registry) == UNSEEN
  {
    t := [];
  }

  /** The job, ownership and TTL reads all say that this guest's expiry is due now. */
  predicate Due(w: World) {
    w.hasVmid && w.payloadOk && w.owner == OwnerLive && w.ttl.TtlFound? && w.ttl.expiresAt <= w.now
  }

  /** The guest's status could be read, the intent could be written, and the guest is found
      stopped, as it was or after a shutdown. */
  predicate Reaches(w: World) {
    Due(w) && FoundStopped(w)
  }

  predicate Destroyed(w: World) {
    w.destroyOk && (w.registry ==> w.destroySucceeded)
  }

  /** What every way through the handler guarantees, whatever the world answers. */
  ghost predicate Behaves(t: seq<Act>, err: bool, w: World) {
    && Safe(t, w.registry)
    && (Intent(true) in t ==> t != [] && t[|t| - 1] == Finish(!err))
    && (Intent(true) !in t ==> forall i | 0 <= i < |t| :: !Touches(t[i]) && !t[i].Finish?)
  }

  lemma BehavesIfWatched(t: seq<Act>, err: bool, w: World)
    requires var s := Watch(t, w.registry); !s.bad && s.finished == s.intent && (s.intent ==> s.success == !err)
    ensures Behaves(t, err, w) && Remembers(t, Watch(t, w.registry))
  {
    WatchedIsSafe(t, w.registry);
    if Intent(true) !in t {
      forall i | 0 <= i < |t|
        ensures !Touches(t[i]) && !t[i].Finish?
      {
        assert SafeAt(t, w.registry, i);
      }
    }
  }

  method TTLExpire(w: World) returns (t: seq<Act>, err: bool)
    ensures Behaves(t, err, w)
    ensures var due := w.hasVmid && w.payloadOk && w.owner == OwnerLive && w.ttl.TtlFound? && w.ttl.expiresAt <= w.now;
      var stopped := w.before.Status? && w.intentOk && (w.before.stopped || (w.shutdownOk && w.after == Status(true)));
      && (Asked(t) <==> due && stopped && w.ttl.action == DeleteIt)
      && (Tombstone(true) in t <==>
            due && stopped && w.ttl.action == DeleteIt && w.destroyOk && (w.registry ==> w.destroySucceeded) && w.tombstoneOk)
      && (MarkExpired(true) in t <==> due && stopped && w.ttl.action == StopIt && w.markOk)
      && (Intent(true) in t <==> due && w.ttl.action != Unknown && w.before.Status? && w.intentOk)
    ensures Finish(true) in t <==> Tombstone(true) in t || MarkExpired(true) in t
    ensures Tombstone(true) in t ==> CancelJobs in t
    ensures w.hasVmid && w.payloadOk && (w.owner == OwnerMissing || w.owner == OwnerTombstoned) ==>
      t == [ReadOwner(w.owner), CancelJobs]
    ensures err <==>
      || !w.hasVmid || !w.payloadOk || w.owner == OwnerFailed
      || (w.owner == OwnerLive
          && (w.ttl.TtlFailed? || (w.ttl.TtlFound? && w.ttl.expiresAt <= w.now && Finish(true) !in t)))
  {
    hide Behaves, Watch, Asked;
    var live;
    t, live, err := Load(w);
    if live {
      match w.ttl
      case TtlMissing =>
      case TtlFailed =>
        err := true;
      case TtlFound(expiresAt, action) =>
        t := Log(t, ReadTtl(expiresAt <= w.now), w.registry);
        if expiresAt <= w.now {
          match action
          case StopIt =>
            t, err := ExpireStop(w, t);
          case DeleteIt =>
            t, err := ExpireDelete(w, t);
          case Unknown =>
            err := true;
        }
    }
    BehavesIfWatched(t, err, w);
  }

  /** The run has only read so far, and found the expiry due or not. */
  predicate Ready(s: Seen, due: bool) {
    && s.due == due && !s.stopped && !s.intent && !s.destroyed && !s.confirmed && !s.finished && !s.bad
    && !s.asked && !s.tombstoned && !s.marked && !s.success
  }

  method Load(w: World) returns (t: seq<Act>, live: bool, err: bool)
    ensures live <==> w.hasVmid && w.payloadOk && w.owner == OwnerLive
    ensures Ready(Watch(t, w.registry), false)
    ensures w.hasVmid && w.payloadOk && (w.owner == OwnerMissing || w.owner == OwnerTombstoned) ==>
      t == [ReadOwner(w.owner), CancelJobs]
    ensures err <==> !w.hasVmid || !w.payloadOk || w.owner == OwnerFailed
  {
    hide Watch;
    t := Nothing(w.registry);
    if !w.hasVmid || !w.payloadOk {
      return t, false, true;
    }
    t := Log(t, ReadOwner(w.owner), w.registry);
    if w.owner == OwnerFailed {
      return t, false, true;
    }
    if w.owner != OwnerLive {
      t := Log(t, CancelJobs, w.registry);
      return t, false, false;
    }
    return t, true, false;
  }

  /** The guest is found stopped, as it was or after a shutdown. */
  predicate FoundStopped(w: World) {
    w.before.Status? && w.intentOk && (w.before.stopped || (w.shutdownOk && w.after == Status(true)))
  }


  method ExpireStop(w: World, start: seq<Act>) returns (t: seq<Act>, err: bool)
    requires Ready(Watch(start, w.registry), true)
    ensures var s := Watch(t, w.registry);
      && !s.bad && s.finished == s.intent == (w.before.Status? && w.intentOk)
      && s.success == s.marked == (FoundStopped(w) && w.markOk) == !err
      && !s.asked && !s.tombstoned
  {
    hide Watch;
    t := Log(start, ReadStatus(w.before), w.registry);
    if w.before.StatusFailed? {
      return t, true;
    }
    t := Log(t, Intent(w.intentOk), w.registry);
    if !w.intentOk {
      return t, true;
    }
    if !w.before.stopped {
      var stopped;
      t, stopped := ShutDown(t, w.registry, w.shutdownOk, w.after);
      if !stopped {
        return t, true;
      }
    }
    t, err := MarkAndFinish(w, t);
  }

  method MarkAndFinish(w: World, start: seq<Act>) returns (t: seq<Act>, err: bool)
    requires var s := Watch(start, w.registry);
      Underway(s) && s.stopped && !s.finished
    ensures var s := Watch(t, w.registry);
      && !s.bad && s.intent && s.finished && !s.asked && !s.tombstoned
      && s.success == s.marked == w.markOk == !err
  {
    hide Watch;
    t := Log(start, MarkExpired(w.markOk), w.registry);
    t := Log(t, Finish(w.markOk), w.registry);
    return t, !w.markOk;
  }

  /** An intended run on a due TTL that has neither destroyed nor marked anything. */
  predicate Underway(s: Seen) {
    s.due && s.intent && !s.destroyed && !s.confirmed && !s.bad && !s.asked && !s.tombstoned && !s.marked && !s.success
  }

  /** Shut the guest down and read it back; finishes the audit as an error unless it is stopped. */
  method ShutDown(start: seq<Act>, registry: bool, ok: bool, after: StatusRead) returns (t: seq<Act>, stopped: bool)
    requires Underway(Watch(start, registry)) && !Watch(start, registry).finished
    ensures stopped <==> ok && after.Status? && after.stopped
    ensures Underway(Watch(t, registry))
    ensures if stopped then Watch(t, registry).stopped && !Watch(t, registry).finished else Watch(t, registry).finished
  {
    hide Watch;
    t := Log(start, Shutdown(ok), registry);
    stopped := false;
    if ok {
      t := Log(t, ReadStatus(after), registry);
      stopped := after.Status? && after.stopped;
    }
    if !stopped {
      t := Log(t, Finish(false), registry);
    }
  }

  method ExpireDelete(w: World, start: seq<Act>) returns (t: seq<Act>, err: bool)
    requires Ready(Watch(start, w.registry), true)
    ensures var s := Watch(t, w.registry);
      && !s.bad && s.finished == s.intent == (w.before.Status? && w.intentOk)
      && s.success == s.tombstoned == (FoundStopped(w) && Destroyed(w) && w.tombstoneOk) == !err
      && s.asked == FoundStopped(w) && !s.marked && (s.tombstoned ==> CancelJobs in t)
  {
    hide Watch;
    t := Log(start, ReadStatus(w.before), w.registry);
    if w.before.StatusFailed? {
      return t, true;
    }
    t := Log(t, ReadConfig, w.registry);
    t := Log(t, Intent(w.intentOk), w.registry);
    if !w.intentOk {
      return t, true;
    }
    if !w.before.stopped {
      var stopped;
      t, stopped := ShutDown(t, w.registry, w.shutdownOk, w.after);
      if !stopped {
        return t, true;
      }
    }
    t, err := DestroyAndTombstone(w, t);
  }

  method DestroyAndTombstone(w: World, start: seq<Act>) returns (t: seq<Act>, err: bool)
    requires var s := Watch(start, w.registry);
      Underway(s) && s.stopped && !s.finished
    ensures var s := Watch(t, w.registry);
      && !s.bad && s.intent && s.finished && s.asked && !s.marked
      && s.success == s.tombstoned == (Destroyed(w) && w.tombstoneOk) == !err && (s.tombstoned ==> CancelJobs in t)
  {
    hide Watch;
    t := Log(start, Destroy(w.destroyOk), w.registry);
    if !w.destroyOk {
      t := Log(t, Finish(false), w.registry);
      return t, true;
    }
    if w.registry {
      t := Log(t, Confirm(w.destroySucceeded), w.registry);
      if !w.destroySucceeded {
        t := Log(t, Finish(false), w.registry);
        return t, true;
      }
    }
    t := Log(t, Tombstone(w.tombstoneOk), w.registry);
    if w.tombstoneOk {
      t := Log(t, CancelJobs, w.registry);
    }
    t := Log(t, Finish(w.tombstoneOk), w.registry);
    return t, !w.tombstoneOk;
  }
}
