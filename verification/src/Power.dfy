/**
 Suspend and resume, client/manager/power_events.go and the suspended flag of
 client/manager/smart_supervisor.go. A suspend queues a pause that runs whenever
 the scheduler likes; a recovery pass runs under the lifecycle lock, a pause under
 the power mutex and, for its second half, the lifecycle lock too. The machine
 below takes one lock-protected section at a time, in any order.
 */
module Power {

  /** The generation counter is a 64-bit integer. */
  const WRAP: nat := 0x1_0000_0000_0000_0000

  /** A queued pause: the generation it captured, and which power event queued it. */
  datatype Closure = Closure(captured: nat, at: nat)

  datatype State = State(
    events: nat,              // power events delivered so far
    lastWasSuspend: bool,     // the latest of them
    generation: nat,
    suspended: bool,
    queue: seq<Closure>,
    pausing: bool,            // a pause holds the power mutex, waiting for the lifecycle lock
    paused: bool,             // a pause has completed since the last resume
    stopped: bool,            // and it stopped the engine
    recovering: bool,         // a recovery pass holds the lifecycle lock
    engine: bool)

  datatype Act =
    | Suspend
    | Resume
    | BeginPause(index: nat)
    | EndPause(stops: bool)
    | BeginRecover
    | EndRecover(starts: bool)
    | EngineExit

  /** Which sections the two locks let through. */
  predicate Enabled(s: State, a: Act) {
    match a
    case Suspend => !s.pausing
    case Resume => !s.pausing
    case BeginPause(i) => !s.pausing && i < |s.queue|
    case EndPause(_) => s.pausing && !s.recovering
    case BeginRecover => !s.recovering
    case EndRecover(_) => s.recovering
    case EngineExit => true
  }

  function Advance(s: State, suspend: bool): State {
    s.(events := s.events + 1, lastWasSuspend := suspend, generation := (s.generation + 1) % WRAP, suspended := suspend)
  }

  function Apply(s: State, a: Act): State
    requires Enabled(s, a)
  {
    match a
    case Suspend =>
      var s' := Advance(s, true);
      s'.(queue := s.queue + [Closure(s'.generation, s'.events)])
    case Resume => Advance(s, false).(paused := false, stopped := false)
    case BeginPause(i) =>
      var s' := s.(queue := s.queue[..i] + s.queue[i + 1..]);
      if s.queue[i].captured != s.generation then s' else s'.(suspended := true, pausing := true)
    case EndPause(stops) =>
      s.(pausing := false, paused := true, stopped := stops, engine := s.engine && !stops)
    case BeginRecover => if s.suspended then s else s.(recovering := true)
    case EndRecover(starts) => s.(recovering := false, engine := s.engine || starts)
    case EngineExit => s.(engine := false)
  }

  const INITIAL := State(0, false, 0, false, [], false, false, false, false, false)

  predicate Inv(s: State) {
    && s.suspended == s.lastWasSuspend
    && s.generation == s.events % WRAP
    && (forall i :: 0 <= i < |s.queue| ==> ValidClosure(s, s.queue[i]))
    && (s.pausing ==> s.suspended)
    && (s.paused ==> s.suspended && !s.recovering)
    && (s.stopped ==> s.paused && !s.engine)
  }

  predicate ValidClosure(s: State, q: Closure) {
    q.at <= s.events && q.captured == q.at % WRAP && (q.at == s.events ==> s.lastWasSuspend)
  }

  /** Fewer than 2^64 power events passed while this pause waited. */
  predicate Timely(s: State, a: Act) {
    a.BeginPause? && a.index < |s.queue| ==> s.events - s.queue[a.index].at < WRAP
  }

  /** A queued pause takes effect exactly when the number of power events since is a multiple of 2^64. */
  lemma PauseTakesEffect(s: State, i: nat)
    requires Inv(s) && Enabled(s, BeginPause(i))
    ensures Apply(s, BeginPause(i)).pausing <==> (s.events - s.queue[i].at) % 0x1_0000_0000_0000_0000 == 0
  {
  }

  lemma ActKeepsInv(s: State, a: Act)
    requires Inv(s) && Enabled(s, a) && Timely(s, a)
    ensures Inv(Apply(s, a))
  {
    match a
    case BeginPause(i) => BeginPauseKeepsInv(s, i);
    case Suspend => GenerationAdvances(s.events);
    case Resume => GenerationAdvances(s.events);
    case _ =>
  }

  lemma BeginPauseKeepsInv(s: State, i: nat)
    requires Inv(s) && Enabled(s, BeginPause(i)) && Timely(s, BeginPause(i))
    ensures Inv(Apply(s, BeginPause(i)))
  {
  }

  lemma GenerationAdvances(n: nat)
    ensures (n % WRAP + 1) % WRAP == (n + 1) % WRAP
  {
  }

  predicate IsRun(s: State, acts: seq<Act>)
    decreases |acts|
  {
    acts == [] || (Enabled(s, acts[0]) && Timely(s, acts[0]) && IsRun(Apply(s, acts[0]), acts[1..]))
  }

  function After(s: State, acts: seq<Act>): State
    requires IsRun(s, acts)
    decreases |acts|
  {
    if acts == [] then s else After(Apply(s, acts[0]), acts[1..])
  }

  /** The last power event among `acts`, or what it was before them. */
  function LastEvent(acts: seq<Act>, before: bool): bool {
    if acts == [] then before
    else if acts[|acts| - 1] in {Suspend, Resume} then acts[|acts| - 1] == Suspend
    else LastEvent(acts[..|acts| - 1], before)
  }

  lemma {:induction false} LastEventCons(a: Act, acts: seq<Act>, before: bool)
    ensures LastEvent([a] + acts, before) == LastEvent(acts, if a in {Suspend, Resume} then a == Suspend else before)
  {
    var all := [a] + acts;
    if acts != [] {
      assert all[..|all| - 1] == [a] + acts[..|acts| - 1];
      LastEventCons(a, acts[..|acts| - 1], before);
    } else {
      assert all[..0] == [];
    }
  }

  /**
   Linearisation: whatever order the queued pauses run in and however long they
   are delayed, the system counts as suspended exactly when the last power event
   was a suspend, and no recovery pass is under way once a pause has completed.
   */
  lemma {:induction false} SuspendedIsLastEvent(s: State, acts: seq<Act>)
    requires Inv(s) && IsRun(s, acts)
    ensures Inv(After(s, acts)) && After(s, acts).suspended == LastEvent(acts, s.suspended)
    decreases |acts|
  {
    if acts != [] {
      ActKeepsInv(s, acts[0]);
      SuspendedIsLastEvent(Apply(s, acts[0]), acts[1..]);
      LastEventCons(acts[0], acts[1..], s.suspended);
      assert acts == [acts[0]] + acts[1..];
    }
  }

  /**
   Once a pause has completed, nothing short of a resume lets a
   recovery pass begin or an engine it stopped return.
   */
  lemma {:induction false} NoStartUntilResume(s: State, acts: seq<Act>)
    requires Inv(s) && s.paused && IsRun(s, acts)
    requires forall i :: 0 <= i < |acts| ==> acts[i] != Resume
    ensures After(s, acts).paused && !After(s, acts).recovering
    ensures After(s, acts).engine ==> s.engine
    decreases |acts|
  {
    if acts != [] {
      ActKeepsInv(s, acts[0]);
      NoStartUntilResume(Apply(s, acts[0]), acts[1..]);
    }
  }

  /** The pause of the latest suspend is queued, under way or done. */
  predicate PausePromised(s: State) {
    s.lastWasSuspend ==> s.pausing || s.paused || exists i :: 0 <= i < |s.queue| && s.queue[i].at == s.events
  }

  lemma ActKeepsPromise(s: State, a: Act)
    requires Inv(s) && PausePromised(s) && Enabled(s, a) && Timely(s, a)
    ensures PausePromised(Apply(s, a))
  {
    var s' := Apply(s, a);
    if a.Suspend? {
      assert s'.queue[|s.queue|].at == s'.events;
    } else if a.BeginPause? && !s'.pausing {
      PauseTakesEffect(s, a.index);
      assert s.queue[a.index].at != s.events;
      if i :| 0 <= i < |s.queue| && s.queue[i].at == s.events {
        assert s'.queue[if i < a.index then i else i - 1] == s.queue[i];
      }
    }
  }

  /** No suspend is forgotten: in every interleaving its pause is there to run until a power event supersedes it. */
  lemma {:induction false} EverySuspendIsHonoured(s: State, acts: seq<Act>)
    requires Inv(s) && PausePromised(s) && IsRun(s, acts)
    ensures PausePromised(After(s, acts))
    decreases |acts|
  {
    if acts != [] {
      ActKeepsInv(s, acts[0]);
      ActKeepsPromise(s, acts[0]);
      EverySuspendIsHonoured(Apply(s, acts[0]), acts[1..]);
    }
  }

  /** And once the last power event was a resume, a recovery pass begins and can bring the engine back. */
  lemma RecoveryAfterResume(s: State, acts: seq<Act>)
    requires Inv(s) && IsRun(s, acts) && !LastEvent(acts, s.suspended) && !After(s, acts).recovering
    ensures var begun := Apply(After(s, acts), BeginRecover);
            begun.recovering && Apply(begun, EndRecover(true)).engine
  {
    SuspendedIsLastEvent(s, acts);
  }

  // ------------------------------------------------------- the event dispatcher

  const SUSPEND_EVENT := 4
  const RESUME_SUSPEND_EVENT := 7
  const RESUME_AUTO_EVENT := 0x12

  class Dispatcher {
    var generation: nat
    var suspended: bool
    var queue: seq<nat>           // the generations captured by queued pauses
    var pauses: nat               // pauses that went through
    var resumes: nat              // recovery requests made by resumes

    ghost var state: State        // the abstract machine this object runs

    ghost predicate Valid()
      reads this
    {
      && Inv(state) && !state.pausing && !state.recovering
      && generation == state.generation && suspended == state.suspended
      && |queue| == |state.queue| && forall i :: 0 <= i < |queue| ==> queue[i] == state.queue[i].captured
    }

    constructor ()
      ensures Valid() && state == INITIAL && pauses == 0 && resumes == 0
    {
      generation, suspended, queue, pauses, resumes := 0, false, [], 0, 0;
      state := INITIAL;
    }

    /** client/manager/power_events.go:13-43, up to handing the pause to the scheduler. */
    method HandleEvent(eventType: int) returns (handled: bool)
      requires Valid()
      modifies this
      ensures Valid()
      ensures handled <==> eventType in {4, 7, 18}
      ensures state == if !handled then old(state) else Apply(old(state), if eventType == 4 then Suspend else Resume)
      ensures handled ==> suspended == (eventType == 4)
      ensures resumes == old(resumes) + (if handled && eventType != 4 then 1 else 0)
      ensures |queue| == |old(queue)| + (if eventType == 4 then 1 else 0)
    {
      handled := true;
      if eventType == SUSPEND_EVENT {
        ActKeepsInv(state, Suspend);
        generation := (generation + 1) % WRAP;
        suspended := true;
        queue := queue + [generation];
        state := Apply(state, Suspend);
      } else if eventType == RESUME_SUSPEND_EVENT || eventType == RESUME_AUTO_EVENT {
        ActKeepsInv(state, Resume);
        generation := (generation + 1) % WRAP;
        suspended := false;
        resumes := resumes + 1;
        state := Apply(state, Resume);
      } else {
        handled := false;
      }
    }

    /** The queued closure: a pause whose generation has passed does nothing. */
    method RunPause(i: nat)
      requires Valid() && i < |queue| && Timely(state, BeginPause(i))
      modifies this
      ensures Valid() && suspended == old(suspended)
      ensures pauses == old(pauses) + (if old(state.queue[i].at == state.events) then 1 else 0)
      ensures |queue| == |old(queue)| - 1
      ensures var begun := Apply(old(state), BeginPause(i));
              state == if begun.pausing then Apply(begun, EndPause(true)) else begun
    {
      ActKeepsInv(state, BeginPause(i));
      PauseTakesEffect(state, i);
      assert ValidClosure(state, state.queue[i]);
      var captured := queue[i];
      queue := queue[..i] + queue[i + 1..];
      state := Apply(state, BeginPause(i));
      assert forall k :: 0 <= k < |queue| ==>
        queue[k] == old(queue)[if k < i then k else k + 1]
            && state.queue[k] == old(state.queue)[if k < i then k else k + 1];
      if captured != generation { return; }
      suspended := true;
      pauses := pauses + 1;
      ActKeepsInv(state, EndPause(true));
      state := Apply(state, EndPause(true));
    }
  }
}
