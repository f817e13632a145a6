/** The live-update broker: a publisher never waits for a subscriber
    (backend/internal/events/broker.go). */
module Broker {

  const SUBSCRIBER_BUFFER: nat := 16

  // ---- one goroutine at a time -----------------------------------------------------------

  /** A buffer after e is offered to it: the oldest event makes way when it is full. */
  function Offered<E>(buf: seq<E>, e: E): seq<E> {
    (if |buf| < SUBSCRIBER_BUFFER then buf else buf[1..]) + [e]
  }

  class Channel<E(==)> {
    var buf: seq<E>
    var closed: bool

    constructor ()
      ensures buf == [] && !closed
    {
      buf, closed := [], false;
    }

    /** select { case ch <- e: default: } */
    method TrySend(e: E) returns (sent: bool)
      requires !closed
      modifies this`buf
      ensures sent == (old(|buf|) < SUBSCRIBER_BUFFER)
      ensures buf == if sent then old(buf) + [e] else old(buf)
    {
      sent := |buf| < SUBSCRIBER_BUFFER;
      if sent {
        buf := buf + [e];
      }
    }

    /** select { case <-ch: default: } */
    method TryReceive() returns (got: seq<E>)
      modifies this`buf
      ensures got + buf == old(buf) && |got| == if old(buf) == [] then 0 else 1
    {
      got := [];
      if buf != [] {
        got := buf[..1];
        buf := buf[1..];
      }
    }
  }

  class Hub<E(==)> {
    var subs: set<Channel<E>>

    constructor ()
      ensures subs == {}
    {
      subs := {};
    }

    /** No registered channel is closed. */
    ghost predicate Valid()
      reads this, subs
    {
      forall ch | ch in subs :: !ch.closed && |ch.buf| <= SUBSCRIBER_BUFFER
    }

    method Subscribe() returns (ch: Channel<E>)
      requires Valid()
      modifies this
      ensures Valid() && fresh(ch) && ch.buf == [] && subs == old(subs) + {ch}
    {
      ch := new Channel();
      subs := subs + {ch};
    }

    /** The cancel function; `done` is its sync.Once. */
    method Cancel(ch: Channel<E>, done: bool)
      requires Valid() && (done ==> ch !in subs)
      modifies this, ch`closed
      ensures Valid() && subs == old(subs) - {ch} && ch.closed == if done then old(ch.closed) else true
    {
      if !done {
        subs := subs - {ch};
        ch.closed := true;
      }
    }

    method Publish(e: E)
      requires Valid()
      modifies subs`buf
      ensures Valid() && subs == old(subs)
      ensures forall ch | ch in subs :: ch.buf == Offered(old(ch.buf), e)
    {
      var todo := subs;
      while todo != {}
        invariant todo <= subs
        invariant forall ch | ch in subs :: ch.buf == if ch in todo then old(ch.buf) else Offered(old(ch.buf), e)
      {
        var ch :| ch in todo;
        todo := todo - {ch};
        var sent := ch.TrySend(e);
        if !sent {
          var _ := ch.TryReceive();
          sent := ch.TrySend(e);
        }
      }
    }
  }

  function OfferedAll<E>(es: seq<E>): seq<E> {
    if es == [] then [] else Offered(OfferedAll(es[..|es| - 1]), es[|es| - 1])
  }

  /** A subscriber that never reads holds the latest events, as many as fit, in order. */
  lemma {:induction false} SilentSubscriberHoldsTheLatest<E>(es: seq<E>)
    ensures OfferedAll(es) == if |es| <= 16 then es else es[|es| - 16..]
  {
    if es != [] {
      var init, e := es[..|es| - 1], es[|es| - 1];
      SilentSubscriberHoldsTheLatest(init);
      assert es == init + [e];
    }
  }

  // ---- publishers, readers and cancels interleaved ---------------------------------------------

  /** One subscriber. Events go by their place in the order of all publishes: it subscribed
      when `from` had been published, and buf, received and dropped list places. */
  datatype Sub = Sub(
    from: nat, buf: seq<nat>, received: seq<nat>, dropped: seq<nat>, registered: bool, closed: bool)

  /** The publish that holds the mutex: the subscribers it has not come to, and where it is
      with the one it is at. */
  datatype Lock = Free | Held(place: nat, todo: set<nat>, at: Turn)
  datatype Turn = Between | Dropping(ch: nat) | Resending(ch: nat)

  datatype State = State(published: nat, subs: map<nat, Sub>, lock: Lock)

  datatype Event =
    | Subscribe(ch: nat)
    | Lock
    | TrySend(ch: nat)
    | Drop
    | Resend
    | Unlock
    | Receive(ch: nat)
    | Unregister(ch: nat)
    | Close(ch: nat)

  ghost function Registered(s: State): set<nat> {
    set ch | ch in s.subs && s.subs[ch].registered
  }

  ghost predicate Enabled(s: State, e: Event) {
    match e
    case Subscribe(ch) => s.lock == Free && ch !in s.subs
    case Lock => s.lock == Free
    case TrySend(ch) => s.lock.Held? && s.lock.at == Between && ch in s.lock.todo && ch in s.subs
    case Drop => s.lock.Held? && s.lock.at.Dropping? && s.lock.at.ch in s.subs
    case Resend => s.lock.Held? && s.lock.at.Resending? && s.lock.at.ch in s.subs
    case Unlock => s.lock.Held? && s.lock.at == Between && s.lock.todo == {}
    case Receive(ch) => ch in s.subs && s.subs[ch].buf != []
    case Unregister(ch) => s.lock == Free && ch in s.subs && s.subs[ch].registered
    case Close(ch) => ch in s.subs && !s.subs[ch].registered && !s.subs[ch].closed
  }

  function Sent(x: Sub, place: nat): Sub {
    if |x.buf| < SUBSCRIBER_BUFFER then x.(buf := x.buf + [place]) else x
  }

  ghost function Next(s: State, e: Event): State
    requires Enabled(s, e)
  {
    match e
    case Subscribe(ch) => s.(subs := s.subs[ch := Sub(s.published, [], [], [], true, false)])
    case Lock => State(s.published + 1, s.subs, Held(s.published, Registered(s), Between))
    case TrySend(ch) =>
      var full := |s.subs[ch].buf| >= SUBSCRIBER_BUFFER;
      State(s.published, s.subs[ch := Sent(s.subs[ch], s.lock.place)],
            Held(s.lock.place, s.lock.todo - {ch}, if full then Dropping(ch) else Between))
    case Drop =>
      var x := s.subs[s.lock.at.ch];
      s.(subs := s.subs[s.lock.at.ch := if x.buf == [] then x else x.(buf := x.buf[1..], dropped := x.dropped + x.buf[..1])],
         lock := Held(s.lock.place, s.lock.todo, Resending(s.lock.at.ch)))
    case Resend =>
      s.(subs := s.subs[s.lock.at.ch := Sent(s.subs[s.lock.at.ch], s.lock.place)], lock := Held(s.lock.place, s.lock.todo, Between))
    case Unlock => s.(lock := Free)
    case Receive(ch) =>
      var x := s.subs[ch];
      s.(subs := s.subs[ch := x.(buf := x.buf[1..], received := x.received + x.buf[..1])])
    case Unregister(ch) => s.(subs := s.subs[ch := s.subs[ch].(registered := false)])
    case Close(ch) => s.(subs := s.subs[ch := s.subs[ch].(closed := true)])
  }

  ghost predicate IsRun(states: seq<State>, events: seq<Event>) {
    && |states| == |events| + 1 && states[0] == State(0, map[], Free)
    && forall i | 0 <= i < |events| :: Enabled(states[i], events[i]) && states[i + 1] == Next(states[i], events[i])
  }

  // ---- what every subscriber sees -----------------------------------------------------------------

  ghost predicate Increasing(places: seq<nat>) {
    forall i, j | 0 <= i < j < |places| :: places[i] < places[j]
  }

  /** buf holds every place from some point up to `upto`, and nothing else. */
  ghost predicate Contiguous(buf: seq<nat>, upto: nat) {
    |buf| <= upto && forall i | 0 <= i < |buf| :: buf[i] == upto - |buf| + i
  }

  ghost predicate Earlier(places: seq<nat>, from: nat, before: int) {
    forall i | 0 <= i < |places| :: from <= places[i] < before
  }

  /** What x has been offered is every place in from..upto, and each one is buffered, received
      or dropped: the buffer has the newest, both others are in publish order. */
  ghost predicate Accounted(x: Sub, upto: nat) {
    && Contiguous(x.buf, upto) && |x.buf| <= SUBSCRIBER_BUFFER
    && Increasing(x.received) && Earlier(x.received, x.from, upto - |x.buf|)
    && Increasing(x.dropped) && Earlier(x.dropped, x.from, upto - |x.buf|)
    && (forall i, j | 0 <= i < |x.received| && 0 <= j < |x.dropped| :: x.received[i] != x.dropped[j])
    && |x.received| + |x.dropped| + |x.buf| == upto - x.from
  }

  /** The running publish still owes ch its event. */
  predicate Owed(s: State, ch: nat) {
    s.lock.Held? && (ch in s.lock.todo || (s.lock.at != Between && s.lock.at.ch == ch))
  }

  ghost predicate SubOk(s: State, ch: nat) {
    ch in s.subs ==>
      var x := s.subs[ch];
      && (x.closed ==> !x.registered)
      && (x.registered ==> Accounted(x, if Owed(s, ch) then s.lock.place else s.published))
      && (!x.registered ==> exists upto: nat :: upto <= s.published && Accounted(x, upto))
      && (s.lock.Held? && s.lock.at == Resending(ch) ==> |x.buf| < SUBSCRIBER_BUFFER)
  }

  ghost predicate LockOk(s: State) {
    s.lock.Held? ==>
      && s.published == s.lock.place + 1
      && (forall ch | ch in s.lock.todo :: ch in s.subs && s.subs[ch].registered)
      && (s.lock.at != Between ==> s.lock.at.ch !in s.lock.todo && s.lock.at.ch in s.subs && s.subs[s.lock.at.ch].registered)
  }

  ghost predicate Inv(s: State) {
    LockOk(s) && forall ch :: SubOk(s, ch)
  }

  lemma TakingKeepsAccount(x: Sub, upto: nat)
    requires Accounted(x, upto) && x.buf != []
    ensures Accounted(x.(buf := x.buf[1..], received := x.received + x.buf[..1]), upto)
    ensures Accounted(x.(buf := x.buf[1..], dropped := x.dropped + x.buf[..1]), upto)
  {
  }

  lemma SendingKeepsAccount(x: Sub, upto: nat)
    requires Accounted(x, upto) && |x.buf| < SUBSCRIBER_BUFFER
    ensures Accounted(Sent(x, upto), upto + 1)
  {
  }

  lemma FreshIsAccounted(x: Sub, upto: nat)
    requires x == Sub(upto, [], [], [], true, false)
    ensures Accounted(x, upto)
  {
  }

  lemma SubStep(s: State, e: Event, ch: nat)
    requires Inv(s) && Enabled(s, e)
    ensures SubOk(Next(s, e), ch)
  {
    hide Accounted;
    assert SubOk(s, ch);
    var s' := Next(s, e);
    if e.Subscribe? && e.ch == ch {
      FreshIsAccounted(s'.subs[ch], s.published);
    } else if ch in s.subs {
      var x := s.subs[ch];
      var upto: nat :| upto <= s.published && Accounted(x, upto)
        && (x.registered ==> upto == if Owed(s, ch) then s.lock.place else s.published);
      AccountFits(x, upto);
      if x.buf != [] {
        TakingKeepsAccount(x, upto);
      }
      if |x.buf| < SUBSCRIBER_BUFFER {
        SendingKeepsAccount(x, upto);
      }
      FlagsDoNotCount(x, upto);
    }
  }

  lemma FlagsDoNotCount(x: Sub, upto: nat)
    requires Accounted(x, upto)
    ensures Accounted(x.(registered := false), upto) && Accounted(x.(closed := true), upto)
  {
  }

  lemma AccountFits(x: Sub, upto: nat)
    requires Accounted(x, upto)
    ensures |x.buf| <= SUBSCRIBER_BUFFER
  {
  }

  lemma InvStep(s: State, e: Event)
    requires Inv(s) && Enabled(s, e)
    ensures Inv(Next(s, e))
  {
    hide SubOk;
    forall ch
      ensures SubOk(Next(s, e), ch)
    {
      SubStep(s, e, ch);
    }
    LockStep(s, e);
  }

  lemma LockStep(s: State, e: Event)
    requires LockOk(s) && Enabled(s, e)
    ensures LockOk(Next(s, e))
  {
  }

  lemma {:induction false} InvHolds(states: seq<State>, events: seq<Event>, n: nat)
    requires IsRun(states, events) && n <= |events|
    ensures |states| == |events| + 1 && Inv(states[n])
  {
    if n > 0 {
      InvHolds(states, events, n - 1);
      InvStep(states[n - 1], events[n - 1]);
    }
  }

  /** However publishers, readers and cancels interleave: whenever no publish is on its way,
      each subscriber's buffer is the newest stretch of what was published since it subscribed;
      what it received came in publish order; and what is missing was dropped before all of
      the buffer. */
  lemma EverySubscriberIsCurrent(states: seq<State>, events: seq<Event>, n: nat, ch: nat)
    requires IsRun(states, events) && n <= |events| < |states|
    requires ch in states[n].subs && states[n].subs[ch].registered && states[n].lock == Free
    ensures Accounted(states[n].subs[ch], states[n].published)
  {
    hide Accounted;
    InvHolds(states, events, n);
    assert SubOk(states[n], ch);
  }

  /** A publish hands its event to every subscriber that was registered when it began: a send
      that finds the buffer full is followed by one that does not. */
  lemma EveryPublishIsEnqueued(states: seq<State>, events: seq<Event>, n: nat)
    requires IsRun(states, events) && n < |events| < |states|
    ensures events[n] == Resend ==>
      states[n + 1].subs[states[n].lock.at.ch].buf == states[n].subs[states[n].lock.at.ch].buf + [states[n].lock.place]
    ensures events[n].TrySend? && states[n + 1].lock.at == Between ==>
      states[n + 1].subs[events[n].ch].buf == states[n].subs[events[n].ch].buf + [states[n].lock.place]
  {
    hide Accounted;
    InvHolds(states, events, n);
    if events[n] == Resend {
      assert SubOk(states[n], states[n].lock.at.ch);
    }
  }

  /** Nothing is sent on, or received by the publisher from, a closed channel. */
  lemma NeverSendsOnClosed(states: seq<State>, events: seq<Event>, n: nat)
    requires IsRun(states, events) && n < |events| < |states|
    ensures events[n].TrySend? ==> !states[n].subs[events[n].ch].closed
    ensures events[n].Drop? || events[n].Resend? ==> !states[n].subs[states[n].lock.at.ch].closed
  {
    hide Accounted;
    InvHolds(states, events, n);
    assert events[n].TrySend? ==> SubOk(states[n], events[n].ch);
    assert events[n].Drop? || events[n].Resend? ==> SubOk(states[n], states[n].lock.at.ch);
  }

  /** Micro-steps the publish in progress still has to take. */
  ghost function Remaining(s: State): nat {
    if s.lock == Free then 0
    else 1 + 3 * |s.lock.todo| + (match s.lock.at case Between => 0 case Dropping(_) => 2 case Resending(_) => 1)
  }

  ghost predicate OfPublisher(e: Event) {
    e.TrySend? || e.Drop? || e.Resend? || e.Unlock?
  }

  /** Publish never waits for a subscriber: in every reachable state some step of the publish
      that holds the mutex is enabled, and each one it takes brings it nearer its end. */
  lemma PublishNeverWaits(states: seq<State>, events: seq<Event>, n: nat)
    requires IsRun(states, events) && n <= |events| < |states| && states[n].lock.Held?
    ensures exists e :: OfPublisher(e) && Enabled(states[n], e)
    ensures forall e | OfPublisher(e) && Enabled(states[n], e) :: Remaining(Next(states[n], e)) < Remaining(states[n])
  {
    hide Accounted, SubOk;
    InvHolds(states, events, n);
    var s := states[n];
    match s.lock.at
    case Dropping(_) =>
      assert OfPublisher(Drop) && Enabled(s, Drop);
    case Resending(_) =>
      assert OfPublisher(Resend) && Enabled(s, Resend);
    case Between =>
      if ch :| ch in s.lock.todo {
        assert OfPublisher(TrySend(ch)) && Enabled(s, TrySend(ch));
      } else {
        assert OfPublisher(Unlock) && Enabled(s, Unlock);
      }
  }

  /** A subscriber whose buffer is never full when a publish comes to it loses nothing. */
  lemma {:induction false} NothingIsLostUnlessFull(states: seq<State>, events: seq<Event>, n: nat, ch: nat)
    requires IsRun(states, events) && n <= |events| < |states| && ch in states[n].subs
    requires forall i | 0 <= i < n && events[i] == TrySend(ch) && ch in states[i].subs ::
      |states[i].subs[ch].buf| < SUBSCRIBER_BUFFER
    ensures states[n].subs[ch].dropped == []
    ensures !(states[n].lock.Held? && states[n].lock.at == Dropping(ch))
  {
    hide Accounted, Sent;
    if n > 0 && ch in states[n - 1].subs {
      NothingIsLostUnlessFull(states, events, n - 1, ch);
      SentKeepsTheRest(states[n - 1].subs[ch]);
    } else if n > 0 {
      InvHolds(states, events, n - 1);
    }
  }

  lemma SentKeepsTheRest(x: Sub)
    ensures forall place :: Sent(x, place).dropped == x.dropped
  {
  }
}
