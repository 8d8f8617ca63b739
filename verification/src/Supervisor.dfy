/**
 The recovery supervisor's event loop, client/manager/smart_supervisor.go:144-255.
 A run is the sequence of channel operations the `select` picked, each with the
 time and the answers of the loop's dependencies. `Loop.Run` is the loop; `Step` and
 `Trace` are its specification, and the lemmas are about every such sequence.
 */
module Supervisor {
  import opened Options
  import opened Text

  /** `unhealthyPolls` at least one, as the constructor of the supervisor makes it. */
  datatype Config = Config(networkSettle: nat, unhealthyPolls: nat, retryDelay: nat -> nat)

  datatype Request = Request(reason: string, force: bool, delay: nat)

  datatype Network = Network(signature: string, online: bool, failed: bool)

  datatype Desired = Unreadable | Absent | Present(name: string)

  datatype Event =
    | Requested(now: nat, request: Request)
    | Reset
    | Tick(now: nat, network: Network, desired: Desired, healthy: bool)
    | Fired(now: nat, recovered: bool)

  /** The pending request with its due time; the timer is armed exactly while there is one. */
  datatype Pending = Pending(request: Request, due: nat)

  datatype State = State(
    signature: Option<string>,
    lastOnline: bool,
    unhealthy: nat,
    attempts: nat,
    pending: Option<Pending>)

  /** One call of `recover`. */
  datatype Call = Call(force: bool, reason: string, succeeded: bool)

  function Schedule(s: State, r: Request, now: nat): State {
    var due := now + r.delay;
    match s.pending
    case None => s.(pending := Some(Pending(r, due)))
    case Some(p) =>
      var merged := p.request.(force := p.request.force || r.force,
                               reason := if p.request.reason == "" then r.reason else p.request.reason);
      s.(pending := Some(Pending(merged, if due < p.due then due else p.due)))
  }

  predicate NetworkChanged(s: State, n: Network) {
    !n.failed && s.signature.Some? && n.online && (!s.lastOnline || n.signature != s.signature.value)
  }

  function Observe(c: Config, s: State, now: nat, n: Network): State {
    if n.failed then s
    else
      var s' := if NetworkChanged(s, n) then
                  Schedule(s, Request("network changed", true, c.networkSettle), now)
                else s;
      s'.(signature := Some(n.signature), lastOnline := n.online)
  }

  function Poll(c: Config, s: State, now: nat, online: bool, desired: Desired, healthy: bool): State {
    if desired.Unreadable? then s
    else if desired.Absent? || (online && healthy) then s.(unhealthy := 0, attempts := 0)
    else if !online then s.(unhealthy := 0)
    else
      var s' := s.(unhealthy := s.unhealthy + 1);
      if s'.unhealthy >= c.unhealthyPolls && s'.pending.None?
      then Schedule(s', Request("health check failed", false, 0), now).(unhealthy := 0)
      else s'
  }

  function Step(c: Config, s: State, e: Event): State {
    match e
    case Requested(now, r) => Schedule(s, r, now)
    case Reset => s.(attempts := 0, unhealthy := 0, pending := None)
    case Tick(now, n, desired, healthy) => Poll(c, Observe(c, s, now, n), now, n.online, desired, healthy)
    case Fired(now, recovered) =>
      if s.pending.None? then s
      else if recovered then s.(pending := None, attempts := 0, unhealthy := 0)
      else
        var r := s.pending.value.request;
        Schedule(s.(pending := None, attempts := s.attempts + 1),
                 Request(r.reason, r.force, c.retryDelay(s.attempts)), now)
  }

  function CallOf(s: State, e: Event): seq<Call> {
    if e.Fired? && s.pending.Some?
    then [Call(s.pending.value.request.force, s.pending.value.request.reason, e.recovered)] else []
  }

  function Trace(c: Config, s: State, es: seq<Event>): State
    decreases |es|
  {
    if es == [] then s else Trace(c, Step(c, s, es[0]), es[1..])
  }

  function Calls(c: Config, s: State, es: seq<Event>): seq<Call>
    decreases |es|
  {
    if es == [] then [] else CallOf(s, es[0]) + Calls(c, Step(c, s, es[0]), es[1..])
  }

  function Initial(first: Network): State {
    State(if first.failed then None else Some(first.signature), first.online, 0, 0, None)
  }

  /** The variables of `run` and the closures over them: a request, a due time, a flag and a timer that must agree. */
  class Loop {
    const config: Config
    var signature: Option<string>
    var lastOnline: bool
    var unhealthy: nat
    var attempts: nat
    var hasPending: bool
    var pending: Request
    var pendingAt: nat
    var timerArmed: bool
    var calls: seq<Call>

    ghost predicate Valid()
      reads this
    {
      timerArmed == hasPending
    }

    ghost function Snap(): State
      reads this
    {
      State(signature, lastOnline, unhealthy, attempts, if hasPending then Some(Pending(pending, pendingAt)) else None)
    }

    constructor (config: Config, first: Network)
      ensures Valid() && Snap() == Initial(first) && calls == [] && this.config == config
    {
      this.config := config;
      signature := if first.failed then None else Some(first.signature);
      lastOnline, unhealthy, attempts := first.online, 0, 0;
      hasPending, pending, pendingAt, timerArmed := false, Request("", false, 0), 0, false;
      calls := [];
    }

    /** Re-arms the timer only for an earlier due time. */
    method Enqueue(r: Request, now: nat)
      requires Valid()
      modifies this`hasPending, this`pending, this`pendingAt, this`timerArmed
      ensures Valid() && Snap() == Schedule(old(Snap()), r, now)
    {
      var due := now + r.delay;
      if hasPending {
        pending := pending.(force := pending.force || r.force);
        if pending.reason == "" { pending := pending.(reason := r.reason); }
        if due >= pendingAt { return; }
      } else {
        pending := r;
        hasPending := true;
      }
      pendingAt := due;
      timerArmed := true;
    }

    method CancelPending()
      requires Valid()
      modifies this`hasPending, this`pending, this`pendingAt, this`timerArmed
      ensures Valid() && Snap() == old(Snap()).(pending := None)
    {
      timerArmed, hasPending := false, false;
      pending, pendingAt := Request("", false, 0), 0;
    }

    method OnTick(now: nat, n: Network, desired: Desired, healthy: bool)
      requires Valid()
      modifies this
      ensures Valid() && Snap() == Step(config, old(Snap()), Tick(now, n, desired, healthy)) && calls == old(calls)
    {
      if !n.failed {
        if signature.Some? && n.online && (!lastOnline || n.signature != signature.value) {
          Enqueue(Request("network changed", true, config.networkSettle), now);
        }
        signature, lastOnline := Some(n.signature), n.online;
      }
      if desired.Unreadable? { return; }
      if desired.Absent? {
        unhealthy, attempts := 0, 0;
        return;
      }
      if n.online && healthy {
        unhealthy, attempts := 0, 0;
        return;
      }
      if !n.online {
        unhealthy := 0;
        return;
      }
      unhealthy := unhealthy + 1;
      if unhealthy >= config.unhealthyPolls && !hasPending {
        Enqueue(Request("health check failed", false, 0), now);
        unhealthy := 0;
      }
    }

    method OnTimer(now: nat, recovered: bool)
      requires Valid() && timerArmed
      modifies this
      ensures Valid() && Snap() == Step(config, old(Snap()), Fired(now, recovered))
      ensures calls == old(calls) + CallOf(old(Snap()), Fired(now, recovered))
    {
      var request := pending;
      timerArmed, hasPending := false, false;
      calls := calls + [Call(request.force, request.reason, recovered)];
      if !recovered {
        var delay := config.retryDelay(attempts);
        attempts := attempts + 1;
        Enqueue(Request(request.reason, request.force, delay), now);
      } else {
        attempts, unhealthy := 0, 0;
      }
    }

    /** One turn of the loop: the `select` picked this event. */
    method Handle(e: Event)
      requires Valid()
      modifies this
      ensures Valid() && Snap() == Step(config, old(Snap()), e) && calls == old(calls) + CallOf(old(Snap()), e)
    {
      match e
      case Requested(now, r) =>
        Enqueue(r, now);
      case Reset =>
        attempts, unhealthy := 0, 0;
        CancelPending();
      case Tick(now, n, desired, healthy) =>
        OnTick(now, n, desired, healthy);
      case Fired(now, recovered) =>
        if timerArmed { OnTimer(now, recovered); }
    }

    method Run(es: seq<Event>)
      requires Valid()
      modifies this
      ensures Valid() && Snap() == Trace(config, old(Snap()), es)
      ensures calls == old(calls) + Calls(config, old(Snap()), es)
    {
      for i := 0 to |es|
        invariant Valid()
        invariant Trace(config, Snap(), es[i..]) == Trace(config, old(Snap()), es)
        invariant calls + Calls(config, Snap(), es[i..]) == old(calls) + Calls(config, old(Snap()), es)
      {
        TurnStep(config, Snap(), calls, es, i);
        Handle(es[i]);
      }
      assert es[|es|..] == [];
    }
  }

  lemma TurnStep(c: Config, s: State, done: seq<Call>, es: seq<Event>, i: nat)
    requires i < |es|
    ensures Trace(c, s, es[i..]) == Trace(c, Step(c, s, es[i]), es[i + 1..])
    ensures done + Calls(c, s, es[i..]) == done + CallOf(s, es[i]) + Calls(c, Step(c, s, es[i]), es[i + 1..])
  {
    assert es[i..][1..] == es[i + 1..];
    Reassociate(done, CallOf(s, es[i]), Calls(c, Step(c, s, es[i]), es[i + 1..]));
  }

  // ------------------------------------------------------------------- health

  /** Enough unhealthy polls are never left without a recovery pending. */
  predicate HealthInvariant(c: Config, s: State) {
    s.unhealthy >= c.unhealthyPolls ==> s.pending.Some?
  }

  lemma {:induction false} HealthInvariantHolds(c: Config, s: State, es: seq<Event>)
    requires c.unhealthyPolls >= 1 && HealthInvariant(c, s)
    ensures HealthInvariant(c, Trace(c, s, es))
    decreases |es|
  {
    if es != [] {
      HealthInvariantHolds(c, Step(c, s, es[0]), es[1..]);
    }
  }

  predicate UnhealthyTick(e: Event) {
    e.Tick? && e.network.online && e.desired.Present? && !e.healthy
  }

  function Ticks(es: seq<Event>): nat {
    if es == [] then 0 else (if es[0].Tick? then 1 else 0) + Ticks(es[1..])
  }

  /** Enough consecutive online-but-unhealthy polls end with a recovery pending or already attempted. */
  lemma {:induction false} UnhealthyPollsRecover(c: Config, s: State, es: seq<Event>)
    requires c.unhealthyPolls >= 1
    requires forall i :: 0 <= i < |es| ==> !es[i].Reset? && (es[i].Tick? ==> UnhealthyTick(es[i]))
    requires s.pending.Some? || s.unhealthy + Ticks(es) >= c.unhealthyPolls > s.unhealthy
    ensures Trace(c, s, es).pending.Some? || Calls(c, s, es) != []
    decreases |es|
  {
    if es != [] && CallOf(s, es[0]) == [] {
      UnhealthyPollsRecover(c, Step(c, s, es[0]), es[1..]);
    }
  }

  // ------------------------------------------------- no recovery without a cause

  /** A poll that finds the tunnel up, unwanted or without a network. */
  predicate RestfulTick(e: Event) {
    e.Tick? && (e.desired.Absent? || (!e.desired.Unreadable? && (!e.network.online || e.healthy)))
  }

  /** How many unhealthy polls in a row, after `n` already: a restful one or a reset starts over. */
  function Streak(n: nat, e: Event): nat {
    if RestfulTick(e) || e.Reset? then 0 else if UnhealthyTick(e) then n + 1 else n
  }

  /** Nobody asks, the network stays as it is, and no streak of unhealthy polls gets as far as the threshold. */
  predicate Uncaused(c: Config, s: State, n: nat, es: seq<Event>)
    decreases |es|
  {
    es == [] || (
      && !es[0].Requested? && !(es[0].Tick? && NetworkChanged(s, es[0].network))
      && Streak(n, es[0]) < c.unhealthyPolls
      && Uncaused(c, Step(c, s, es[0]), Streak(n, es[0]), es[1..]))
  }

  /** Then no recovery is attempted, and none is pending afterwards. */
  lemma {:induction false} NoCallWithoutCause(c: Config, s: State, es: seq<Event>)
    requires s.pending.None? && Uncaused(c, s, s.unhealthy, es)
    ensures Calls(c, s, es) == [] && Trace(c, s, es).pending.None?
    decreases |es|
  {
    if es != [] {
      assert Step(c, s, es[0]).unhealthy == Streak(s.unhealthy, es[0]);
      NoCallWithoutCause(c, Step(c, s, es[0]), es[1..]);
    }
  }

  /** So a reset calls off whatever was pending: until there is a new cause, nothing is recovered. */
  lemma ResetCallsOff(c: Config, s: State, es: seq<Event>)
    requires Uncaused(c, s, 0, [Reset] + es)
    ensures Calls(c, s, [Reset] + es) == [] && Trace(c, s, [Reset] + es).pending.None?
  {
    var all := [Reset] + es;
    assert all[0] == Reset && all[1..] == es;
    NoCallWithoutCause(c, Step(c, s, Reset), es);
  }

  // ------------------------------------------------------------ network changes

  predicate NoTicks(es: seq<Event>) {
    forall i :: 0 <= i < |es| ==> !es[i].Tick?
  }

  lemma {:induction false} NetworkRemembered(c: Config, s: State, es: seq<Event>)
    requires NoTicks(es)
    ensures Trace(c, s, es).signature == s.signature && Trace(c, s, es).lastOnline == s.lastOnline
    decreases |es|
  {
    if es != [] { NetworkRemembered(c, Step(c, s, es[0]), es[1..]); }
  }

  /**
   Of two polls in a row that could read the network, the second asks for a forced
   recovery, due after the settling time at the latest, exactly when the network came
   back or is another one; on its own account it asks for nothing else.
   */
  lemma NetworkChangeForces(c: Config, s: State, first: Event, between: seq<Event>, second: Event)
    requires first.Tick? && !first.network.failed && second.Tick? && !second.network.failed && NoTicks(between)
    ensures var s' := Trace(c, Step(c, s, first), between);
            var changed := second.network.online
                           && (!first.network.online || first.network.signature != second.network.signature);
            && (NetworkChanged(s', second.network) <==> changed)
            && (changed ==> ForcedPending(Step(c, s', second))
                            && Step(c, s', second).pending.value.due <= second.now + c.networkSettle)
            && (!changed && RestfulTick(second) ==> Step(c, s', second).pending == s'.pending)
  {
    NetworkRemembered(c, Step(c, s, first), between);
  }

  /** The reading the loop starts from counts like that of a poll, unless it failed. */
  lemma InitialReading(first: Network, n: Network)
    requires !n.failed
    ensures NetworkChanged(Initial(first), n) <==>
            !first.failed && n.online && (!first.online || first.signature != n.signature)
  {
  }

  /** The first poll that can read the network has nothing to compare it with. */
  lemma FirstReadingIsQuiet(c: Config, s: State, e: Event)
    requires e.Tick? && s.signature.None? && RestfulTick(e)
    ensures Step(c, s, e).pending == s.pending
  {
  }

  // ------------------------------------------------------------- what is asked for

  /** The poll that completes the streak asks at once, without force, unless something is pending already. */
  lemma ThresholdAsksAtOnce(c: Config, s: State, e: Event)
    requires UnhealthyTick(e) && !NetworkChanged(s, e.network) && s.unhealthy + 1 >= c.unhealthyPolls
    ensures Step(c, s, e).pending ==
            if s.pending.Some? then s.pending else Some(Pending(Request("health check failed", false, 0), e.now))
  {
  }

  /** All calls give this reason until one succeeds. */
  predicate ReasonThroughSuccess(calls: seq<Call>, reason: string) {
    calls == [] || (calls[0].reason == reason && (calls[0].succeeded || ReasonThroughSuccess(calls[1..], reason)))
  }

  /** The first reason given is the one reported, across merged requests and failed retries. */
  lemma {:induction false} FirstReasonIsReported(c: Config, s: State, es: seq<Event>)
    requires s.pending.Some? && s.pending.value.request.reason != ""
    requires forall i :: 0 <= i < |es| ==> !es[i].Reset?
    ensures ReasonThroughSuccess(Calls(c, s, es), s.pending.value.request.reason)
    decreases |es|
  {
    if es != [] {
      var calls, later := Calls(c, s, es), Calls(c, Step(c, s, es[0]), es[1..]);
      if es[0].Fired? {
        assert calls[0] == CallOf(s, es[0])[0] && calls[1..] == later;
        if !es[0].recovered { FirstReasonIsReported(c, Step(c, s, es[0]), es[1..]); }
      } else {
        assert calls == later;
        FirstReasonIsReported(c, Step(c, s, es[0]), es[1..]);
      }
    }
  }

  // --------------------------------------------------------------- coalescing

  /** The due times the events of a segment ask for. */
  function Offered(c: Config, s: State, es: seq<Event>): set<nat>
    decreases |es|
  {
    if es == [] then {}
    else (match es[0]
          case Requested(now, r) => {now + r.delay}
          case Tick(now, n, _, _) => if NetworkChanged(s, n) then {now + c.networkSettle} else {}
          case _ => {})
         + Offered(c, Step(c, s, es[0]), es[1..])
  }

  /** While a recovery is pending its due time is the earliest one asked for, and never moves later. */
  lemma {:induction false} DueIsEarliest(c: Config, s: State, es: seq<Event>)
    requires s.pending.Some?
    requires forall i :: 0 <= i < |es| ==> !es[i].Reset? && !es[i].Fired?
    ensures var p := Trace(c, s, es).pending;
            && p.Some? && p.value.due <= s.pending.value.due
            && p.value.due in {s.pending.value.due} + Offered(c, s, es)
            && forall d :: d in Offered(c, s, es) ==> p.value.due <= d
    decreases |es|
  {
    if es != [] {
      DueIsEarliest(c, Step(c, s, es[0]), es[1..]);
    }
  }

  predicate ForcedPending(s: State) {
    s.pending.Some? && s.pending.value.request.force
  }

  /** A forced request that is accepted leaves a forced recovery pending, whatever was pending before. */
  lemma ForcedIsAccepted(c: Config, s: State, now: nat, r: Request)
    requires r.force
    ensures ForcedPending(Step(c, s, Requested(now, r)))
  {
  }

  /** Every call is forced up to and including the first that succeeds. */
  predicate ForcedThroughSuccess(calls: seq<Call>) {
    calls == [] || (calls[0].force && (calls[0].succeeded || ForcedThroughSuccess(calls[1..])))
  }

  predicate NoneSucceeded(calls: seq<Call>) {
    forall i :: 0 <= i < |calls| ==> !calls[i].succeeded
  }

  /** From then on every recovery call is forced until one succeeds, across failed retries, absent a reset. */
  lemma {:induction false} ForcedUntilSuccess(c: Config, s: State, es: seq<Event>)
    requires ForcedPending(s) && forall i :: 0 <= i < |es| ==> !es[i].Reset?
    ensures ForcedThroughSuccess(Calls(c, s, es))
    ensures NoneSucceeded(Calls(c, s, es)) ==> ForcedPending(Trace(c, s, es))
    decreases |es|
  {
    if es != [] {
      var calls, later := Calls(c, s, es), Calls(c, Step(c, s, es[0]), es[1..]);
      if es[0].Fired? {
        assert calls[0] == CallOf(s, es[0])[0] && calls[1..] == later;
        if !es[0].recovered {
          StepKeepsForced(c, s, es[0]);
          ForcedUntilSuccess(c, Step(c, s, es[0]), es[1..]);
        }
      } else {
        assert calls == later;
        StepKeepsForced(c, s, es[0]);
        ForcedUntilSuccess(c, Step(c, s, es[0]), es[1..]);
      }
    }
  }

  /** Only a reset or a successful recovery forgets that a recovery is forced. */
  lemma StepKeepsForced(c: Config, s: State, e: Event)
    requires ForcedPending(s) && !e.Reset? && (e.Fired? ==> !e.recovered)
    ensures ForcedPending(Step(c, s, e))
  {
  }

  // ------------------------------------------------------------------ backoff

  /** client/manager/smart_supervisor.go:63-79, in milliseconds. */
  function RecoveryDelay(attempt: nat): nat {
    var delays := [1000, 2000, 5000, 10000, 30000, 60000];
    if attempt >= |delays| then delays[|delays| - 1] else delays[attempt]
  }

  /** The backoff grows with the attempts and stops at a minute. */
  lemma BackoffIsMonotone(a: nat, b: nat)
    requires a <= b
    ensures 1000 <= RecoveryDelay(a) <= RecoveryDelay(b) <= 60000
  {
  }

  lemma BackoffTable(attempt: nat)
    ensures RecoveryDelay(attempt) / 1000 ==
            match attempt
            case 0 => 1
            case 1 => 2
            case 2 => 5
            case 3 => 10
            case 4 => 30
            case _ => 60
  {
  }

  /** The configuration the constructor fills in, client/manager/smart_supervisor.go:81-93. */
  function DefaultConfig(): Config {
    Config(2500, 2, RecoveryDelay)
  }

  /** By default it takes two unhealthy polls in a row, and a changed network settles for two and a half seconds. */
  lemma DefaultsExactly(s: State, first: Event, second: Event)
    requires UnhealthyTick(first) && UnhealthyTick(second) && s.pending.None? && s.unhealthy == 0
    requires !first.network.failed && !second.network.failed
    requires s.lastOnline && s.signature == Some(first.network.signature)
    ensures var c := DefaultConfig();
            var s1 := Step(c, s, first);
            var s2 := Step(c, s1, second);
            && s1.pending.None?
            && s2.pending == Some(if first.network.signature == second.network.signature
                                  then Pending(Request("health check failed", false, 0), second.now)
                                  else Pending(Request("network changed", true, 2500), second.now + 2500))
  {
  }

  /** Neither a reset nor a success: nothing here tells the supervisor that the tunnel works, or is unwanted. */
  predicate StillFailing(e: Event) {
    match e
    case Requested(_, _) => true
    case Reset => false
    case Tick(_, n, desired, healthy) => !desired.Absent? && !(n.online && healthy)
    case Fired(_, recovered) => !recovered
  }

  function Failures(es: seq<Event>): nat {
    if es == [] then 0 else (if es[0].Fired? then 1 else 0) + Failures(es[1..])
  }

  lemma {:induction false} FailuresCount(c: Config, s: State, es: seq<Event>)
    requires s.pending.Some? && forall i :: 0 <= i < |es| ==> StillFailing(es[i])
    ensures Trace(c, s, es).attempts == s.attempts + Failures(es) && Trace(c, s, es).pending.Some?
    decreases |es|
  {
    if es != [] {
      assert StillFailing(es[0]);
      FailuresCount(c, Step(c, s, es[0]), es[1..]);
    }
  }

  /** By default, the retry after the n-th failure in a row waits the n-th delay of the table, whatever came between. */
  lemma RetriesBackOff(s: State, es: seq<Event>, now: nat)
    requires s.pending.Some? && forall i :: 0 <= i < |es| ==> StillFailing(es[i])
    ensures var p := Step(DefaultConfig(), Trace(DefaultConfig(), s, es), Fired(now, false)).pending;
            && p.Some? && p.value.due == now + RecoveryDelay(s.attempts + Failures(es))
            && now + 1000 <= p.value.due <= now + 60000
  {
    FailuresCount(DefaultConfig(), s, es);
    BackoffIsMonotone(0, s.attempts + Failures(es));
  }

  /** What tells the supervisor that the tunnel works, or is not wanted. */
  predicate GoodNews(e: Event) {
    match e
    case Requested(_, _) => false
    case Reset => true
    case Tick(_, n, desired, healthy) => desired.Absent? || (desired.Present? && n.online && healthy)
    case Fired(_, recovered) => recovered
  }

  /** After good news the backoff starts over: the next failure waits one second. */
  lemma GoodNewsStartsOver(s: State, e: Event, asked: nat, r: Request, now: nat)
    requires GoodNews(e) && (e.Fired? ==> s.pending.Some?)
    ensures var s' := Step(DefaultConfig(), s, e);
            && s'.attempts == 0 && s'.unhealthy == 0
            && var failed := Step(DefaultConfig(), Step(DefaultConfig(), s', Requested(asked, r)), Fired(now, false));
               failed.pending.Some? && failed.pending.value.due == now + 1000
  {
  }

  /** A poll that finds the network as the last one left it. */
  predicate SteadyTick(s: State, e: Event) {
    && e.Tick? && !e.network.failed && e.network.online
    && s.lastOnline && s.signature == Some(e.network.signature)
  }

  /** A failed recovery waits its full backoff: no poll on an unchanged network can bring it forward. */
  lemma {:induction false} PollsRespectBackoff(c: Config, s: State, es: seq<Event>)
    requires s.pending.Some?
    requires forall i :: 0 <= i < |es| ==> SteadyTick(s, es[i])
    ensures Trace(c, s, es).pending == s.pending
    decreases |es|
  {
    if es != [] {
      PollsRespectBackoff(c, Step(c, s, es[0]), es[1..]);
    }
  }

  // ----------------------------------------------------- default route choice

  datatype Candidate = Candidate(index: int, routeMetric: nat, interfaceMetric: nat, up: bool, excluded: bool)

  predicate Eligible(x: Candidate) {
    x.index > 0 && x.up && !x.excluded
  }

  function Metric(x: Candidate): nat {
    x.routeMetric + x.interfaceMetric
  }

  predicate Cheapest(xs: seq<Candidate>, x: Candidate) {
    Eligible(x) && forall y :: y in xs && Eligible(y) ==> Metric(x) <= Metric(y)
  }

  /**
   client/manager/smart_supervisor.go:273-290; metrics are two
   32-bit numbers, so the 64-bit start value is never one.
   */
  method SelectDefaultRoutes(xs: seq<Candidate>) returns (selected: set<int>)
    requires forall x :: x in xs ==> x.routeMetric < 0x1_0000_0000 && x.interfaceMetric < 0x1_0000_0000
    ensures forall k :: k in selected <==> exists x :: x in xs && Cheapest(xs, x) && x.index == k
  {
    selected := {};
    var lowest := 0xFFFF_FFFF_FFFF_FFFF;
    for i := 0 to |xs|
      invariant forall y :: y in xs[..i] && Eligible(y) ==> lowest <= Metric(y)
      invariant forall k :: k in selected <==>
                            exists x :: x in xs[..i] && Eligible(x) && Metric(x) == lowest && x.index == k
      invariant lowest == 0xFFFF_FFFF_FFFF_FFFF || exists x :: x in xs[..i] && Eligible(x) && Metric(x) == lowest
    {
      var x := xs[i];
      assert xs[..i + 1] == xs[..i] + [x];
      if x.index <= 0 || !x.up || x.excluded { continue; }
      var metric := x.routeMetric + x.interfaceMetric;
      if metric < lowest {
        selected := {};
        lowest := metric;
      }
      if metric == lowest {
        selected := selected + {x.index};
      }
    }
    assert xs[..|xs|] == xs;
  }
}
