/**
 The bounded event queue between the manager and one client,
 client/manager/notifications.go. `queueLatestEvent` is three non-blocking channel
 operations; the pump may take an event before, between and after any of them.
 Producers are serialised by `notificationOrder`, so there is one at a time.
 */
module Notifications {

  const CAPACITY := 64

  /** Where the producer stands: idle, after a failed send, or after making room. */
  datatype Producer = Idle | Full | RoomMade

  /** Events are numbered in the order they are produced. */
  datatype State = State(
    queue: seq<nat>,
    producer: Producer,
    next: nat,              // the number of the next event to be queued
    taken: seq<nat>,        // by the pump, in order
    dropped: seq<nat>)      // to make room

  const INITIAL := State([], Idle, 0, [], [])

  datatype Act = Send | MakeRoom | Retry | Take

  predicate Enabled(s: State, a: Act) {
    match a
    case Send => s.producer == Idle
    case MakeRoom => s.producer == Full
    case Retry => s.producer == RoomMade
    case Take => s.queue != []
  }

  function Apply(s: State, a: Act): State
    requires Enabled(s, a)
  {
    match a
    case Send =>
      if |s.queue| < CAPACITY then s.(queue := s.queue + [s.next], next := s.next + 1) else s.(producer := Full)
    case MakeRoom =>
      if s.queue == [] then s.(producer := RoomMade)
      else s.(queue := s.queue[1..], dropped := s.dropped + [s.queue[0]], producer := RoomMade)
    case Retry =>
      if |s.queue| < CAPACITY then s.(queue := s.queue + [s.next], next := s.next + 1, producer := Idle)
      else s.(next := s.next + 1, dropped := s.dropped + [s.next], producer := Idle)
    case Take => s.(queue := s.queue[1..], taken := s.taken + [s.queue[0]])
  }

  predicate Increasing(xs: seq<nat>) {
    forall i, j :: 0 <= i < j < |xs| ==> xs[i] < xs[j]
  }

  predicate AllBelow(xs: seq<nat>, bound: int) {
    forall i :: 0 <= i < |xs| ==> xs[i] < bound
  }

  /**
   The queue is the latest run of events without a gap; everything older was taken
   or dropped, each once, and both in order.
   */
  predicate Inv(s: State) {
    && |s.queue| <= CAPACITY && |s.queue| <= s.next
    && (forall i :: 0 <= i < |s.queue| ==> s.queue[i] == s.next - |s.queue| + i)
    && Increasing(s.taken) && AllBelow(s.taken, s.next - |s.queue|)
    && Increasing(s.dropped) && AllBelow(s.dropped, s.next - |s.queue|)
    && (forall i :: 0 <= i < |s.taken| ==> s.taken[i] !in s.dropped)
    && |s.taken| + |s.dropped| + |s.queue| == s.next
    && (s.producer == RoomMade ==> |s.queue| < CAPACITY)
    && (s.producer != RoomMade && s.next > 0 && s.queue == [] ==> s.taken != [] && s.taken[|s.taken| - 1] == s.next - 1)
  }

  lemma IncreasingSnoc(xs: seq<nat>, x: nat)
    requires Increasing(xs) && AllBelow(xs, x)
    ensures Increasing(xs + [x]) && AllBelow(xs + [x], x + 1)
  {
  }

  lemma ActKeepsInv(s: State, a: Act)
    requires Inv(s) && Enabled(s, a)
    ensures Inv(Apply(s, a))
  {
    if a.Take? { IncreasingSnoc(s.taken, s.queue[0]); }
    if a.MakeRoom? && s.queue != [] { IncreasingSnoc(s.dropped, s.queue[0]); }
  }

  predicate IsRun(s: State, acts: seq<Act>)
    decreases |acts|
  {
    acts == [] || (Enabled(s, acts[0]) && IsRun(Apply(s, acts[0]), acts[1..]))
  }

  function After(s: State, acts: seq<Act>): State
    requires IsRun(s, acts)
    decreases |acts|
  {
    if acts == [] then s else After(Apply(s, acts[0]), acts[1..])
  }

  lemma {:induction false} QueueInvariant(s: State, acts: seq<Act>)
    requires Inv(s) && IsRun(s, acts)
    ensures Inv(After(s, acts))
    decreases |acts|
  {
    if acts != [] {
      ActKeepsInv(s, acts[0]);
      QueueInvariant(Apply(s, acts[0]), acts[1..]);
    }
  }

  /** The sends of a run that find 64 events queued. */
  function FullSends(s: State, acts: seq<Act>): nat
    requires IsRun(s, acts)
    decreases |acts|
  {
    if acts == [] then 0
    else (if acts[0].Send? && |s.queue| == 64 then 1 else 0) + FullSends(Apply(s, acts[0]), acts[1..])
  }

  function Owed(s: State): nat {
    if s.producer == Full then 1 else 0
  }

  /** An event is dropped only for a send that found the queue full, one for each at most. */
  lemma {:induction false} DropsNeedAFullQueue(s: State, acts: seq<Act>)
    requires Inv(s) && IsRun(s, acts)
    ensures |After(s, acts).dropped| + Owed(After(s, acts)) <= |s.dropped| + Owed(s) + FullSends(s, acts)
    decreases |acts|
  {
    if acts != [] {
      ActKeepsInv(s, acts[0]);
      DropsNeedAFullQueue(Apply(s, acts[0]), acts[1..]);
    }
  }

  /** So a pump that keeps up loses nothing: what was produced is delivered or queued, all of it and in order. */
  lemma KeptUpIsComplete(acts: seq<Act>)
    requires IsRun(INITIAL, acts) && FullSends(INITIAL, acts) == 0
    ensures var s := After(INITIAL, acts);
            && s.dropped == [] && |s.taken + s.queue| == s.next
            && forall i :: 0 <= i < s.next ==> (s.taken + s.queue)[i] == i
  {
    QueueInvariant(INITIAL, acts);
    DropsNeedAFullQueue(INITIAL, acts);
    var s := After(INITIAL, acts);
    Gapless(s.taken, |s.taken|);
  }

  /** As many increasing numbers as there are below a bound are all of them. */
  lemma {:induction false} Gapless(xs: seq<nat>, n: nat)
    requires Increasing(xs) && |xs| == n && AllBelow(xs, n)
    ensures forall i :: 0 <= i < n ==> xs[i] == i
  {
    if n > 0 {
      AtLeastIndex(xs, n - 1);
      var rest := xs[..n - 1];
      assert forall i :: 0 <= i < n - 1 ==> rest[i] == xs[i] < xs[n - 1];
      Gapless(rest, n - 1);
    }
  }

  lemma {:induction false} AtLeastIndex(xs: seq<nat>, i: nat)
    requires Increasing(xs) && i < |xs|
    ensures xs[i] >= i
  {
    if i > 0 { AtLeastIndex(xs, i - 1); }
  }

  /** In every interleaving: order kept, only older events lost, and the newest one queued or already delivered. */
  lemma NewestSurvives(acts: seq<Act>)
    requires IsRun(INITIAL, acts)
    ensures var s := After(INITIAL, acts);
            && Increasing(s.taken + s.queue)
            && (forall d, q :: d in s.dropped && q in s.queue ==> d < q)
            && (s.producer == Idle && s.next > 0 ==> s.next - 1 in s.queue || s.next - 1 in s.taken)
  {
    QueueInvariant(INITIAL, acts);
    var s := After(INITIAL, acts);
    if s.queue != [] { assert s.queue[|s.queue| - 1] == s.next - 1; }
  }
}
