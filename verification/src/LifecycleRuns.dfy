/**
 Whole runs of the manager: any sequence of its operations, each with any
 outcome its contract allows, interleaved with engine crashes and native
 services stopping on their own.
 */
module LifecycleRuns {
  import opened Options
  import opened Policy
  import opened Lifecycle

  datatype Event =
    | StartEvent(name: string, ok: bool)
    | SmartStartEvent(target: Selection, ok: bool, raced: bool)
    | StopEvent(name: string, loaded: bool, cleared: bool)
    | SmartStopEvent
    | PauseEvent(stopped: bool)
    | ResumeEvent
    | RecoverEvent(ok: bool, unsaved: bool, raced: bool)
    | EngineExit
    | NativeDrift

  /** One step. Every case is the contract of a `Manager` method or an event of the environment. */
  ghost predicate Step(w: World, e: Event, w': World) {
    match e
    case StartEvent(name, ok) => NativeStartSpec(w, w', name, ok)
    case SmartStartEvent(t, ok, raced) => SmartStartSpec(w, w', t, true, ok, raced)
    case StopEvent(name, loaded, cleared) => StopSpec(w, w', name, loaded, cleared)
    case SmartStopEvent => SmartStopSpec(w, w')
    case PauseEvent(stopped) => PauseSpec(w, w', stopped)
    case ResumeEvent => w' == w.(suspended := false)
    case RecoverEvent(ok, unsaved, raced) => RecoverSpec(w, w', ok, unsaved, raced)
    case EngineExit => w' == w.(smart := None)
    case NativeDrift =>
      w' == w.(native := w'.native) && NoneRevived(w.native, w'.native, {}) && "" !in w'.native
  }

  ghost predicate IsRun(ws: seq<World>, es: seq<Event>) {
    && |ws| == |es| + 1
    && forall i :: 0 <= i < |es| ==> Step(ws[i], es[i], ws[i + 1])
  }

  ghost predicate Inv(w: World) {
    Sound(w) && Guarded(w)
  }

  ghost predicate IsGoodRun(ws: seq<World>, es: seq<Event>) {
    IsRun(ws, es) && Inv(ws[0])
  }

  lemma RunPrefix(ws: seq<World>, es: seq<Event>)
    requires IsRun(ws, es) && es != []
    ensures IsRun(ws[..|es|], es[..|es| - 1])
    ensures Step(ws[|es| - 1], es[|es| - 1], ws[|es|])
  {
  }

  // ------------------------------------------------------- engine exclusivity

  /** An engine and a native tunnel are never both up when the lifecycle lock is free, in any run. */
  lemma {:induction false} EngineExclusivity(ws: seq<World>, es: seq<Event>)
    requires IsRun(ws, es) && Sound(ws[0])
    ensures Sound(ws[|es|])
    decreases |es|
  {
    if es != [] {
      RunPrefix(ws, es);
      EngineExclusivity(ws[..|es|], es[..|es| - 1]);
    }
  }

  // ------------------------------------------------------------ kill switch

  /** Stopping one profile drops the guard of another exactly in this situation. */
  ghost predicate DropsGuard(w: World, e: Event) {
    && e.StopEvent? && e.loaded && e.cleared
    && w.smart.Some? && w.smart.value.Protected() && w.smart.value.name != e.name
    && w.desired.Some? && w.desired.value.name == e.name
  }

  lemma StepKeepsGuard(w: World, e: Event, w': World)
    requires Inv(w) && Step(w, e, w')
    ensures Sound(w')
    ensures Guarded(w') <==> !DropsGuard(w, e)
  {
  }

  /**
   No run leaves a protected engine with the guard off, provided no `Stop` names
   the desired profile while a different protected engine is running. The proviso
   is exact: `StepKeepsGuard` shows that one such call is what breaks it.
   */
  lemma {:induction false} KillSwitchHolds(ws: seq<World>, es: seq<Event>)
    requires IsGoodRun(ws, es)
    requires forall i :: 0 <= i < |es| ==> !DropsGuard(ws[i], es[i])
    ensures Inv(ws[|es|])
    decreases |es|
  {
    if es != [] {
      RunPrefix(ws, es);
      assert forall i :: 0 <= i < |es| - 1 ==> ws[..|es|][i] == ws[i] && es[..|es| - 1][i] == es[i];
      KillSwitchHolds(ws[..|es|], es[..|es| - 1]);
      StepKeepsGuard(ws[|es| - 1], es[|es| - 1], ws[|es|]);
    }
  }

  /** A round that started a fallback it could not persist is the one step that parts engine and desired state. */
  lemma StepKeepsAlignment(w: World, e: Event, w': World)
    requires Inv(w) && Aligned(w) && Step(w, e, w') && !(e.RecoverEvent? && e.unsaved)
    ensures Aligned(w')
  {
  }

  /** So as long as every fallback that was started was persisted, no `Stop` can drop a guard. */
  lemma {:induction false} PersistedRunsKeepTheGuard(ws: seq<World>, es: seq<Event>)
    requires IsGoodRun(ws, es) && Aligned(ws[0])
    requires forall i :: 0 <= i < |es| ==> !(es[i].RecoverEvent? && es[i].unsaved)
    ensures Inv(ws[|es|]) && Aligned(ws[|es|])
    decreases |es|
  {
    if es != [] {
      var n := |es| - 1;
      RunPrefix(ws, es);
      assert forall i :: 0 <= i < n ==> es[..n][i] == es[i];
      PersistedRunsKeepTheGuard(ws[..|es|], es[..n]);
      StepKeepsAlignment(ws[n], es[n], ws[n + 1]);
      StepKeepsGuard(ws[n], es[n], ws[n + 1]);
    }
  }

  /**
   The failing run: Phone is desired and protected with Backup as its fallback;
   the engine crashes; recovery cannot start Phone, starts Backup and cannot
   write the desired file; the user stops Phone. Backup keeps running, unguarded.
   */
  lemma StopCanDropTheGuard(s: Settings) returns (ws: seq<World>, es: seq<Event>)
    requires s.protection == "all" && "Backup" in s.fallbackProfiles
    ensures IsGoodRun(ws, es) && |es| == 4
    ensures es[0].SmartStartEvent? && es[1].EngineExit? && es[2].RecoverEvent? && es[3].StopEvent?
    ensures !Guarded(ws[4])
  {
    var phone, backup := Selection("Phone", s, false), Selection("Backup", s, false);
    var w0 := World(None, map[], Off, None, false);
    var w1 := World(Some(phone), map[], Bound, Some(phone), false);
    var w2 := w1.(smart := None);
    var w3 := w2.(smart := Some(backup));
    var w4 := w3.(guard := Off, desired := None);
    ws := [w0, w1, w2, w3, w4];
    es := [SmartStartEvent(phone, true, false), EngineExit, RecoverEvent(false, true, false),
           StopEvent("Phone", true, true)];
    assert Step(w0, es[0], w1) && Step(w1, es[1], w2) && Step(w3, es[3], w4);
    assert Step(w2, es[2], w3);
  }

  /** The events of a machine left alone: crashes, recoveries, suspends, resumes, services stopping. */
  predicate Unattended(e: Event) {
    e.RecoverEvent? || e.EngineExit? || e.PauseEvent? || e.ResumeEvent? || e.NativeDrift?
  }

  /**
   After a protected engine was up, the guard stays armed through any number of failed
   recoveries, as long as none of them fails a start after a race.
   */
  lemma {:induction false} GuardSurvivesRecoveries(ws: seq<World>, es: seq<Event>)
    requires IsGoodRun(ws, es)
    requires ws[0].smart.Some? && ws[0].smart.value.Protected() && ws[0].desired.Some?
             && ws[0].desired.value.Protected()
    requires forall i :: 0 <= i < |es| ==> Unattended(es[i]) && !(es[i].RecoverEvent? && es[i].raced)
    ensures Locked(ws[|es|]) && Inv(ws[|es|])
    ensures ws[|es|].desired.Some? && ws[|es|].desired.value.Protected()
    decreases |es|
  {
    if es != [] {
      var n := |es| - 1;
      RunPrefix(ws, es);
      assert forall i :: 0 <= i < n ==> es[..n][i] == es[i];
      GuardSurvivesRecoveries(ws[..|es|], es[..n]);
      assert Unattended(es[n]) && Step(ws[n], es[n], ws[n + 1]);
    }
  }

  /**
   One that does can lose it, from any state in which a protected engine runs: the
   engine exits while a recovery takes stock, its profile passes for a native tunnel,
   and a failing launch restores that, unguarded and no longer desired.
   */
  lemma RacedRecoveryCanDropTheGuard(w: World) returns (ws: seq<World>, es: seq<Event>)
    requires Inv(w) && !w.suspended && w.smart.Some? && w.smart.value.Protected()
    requires w.desired.Some? && w.desired.value.Protected()
    ensures IsGoodRun(ws, es) && ws[0] == w && es == [RecoverEvent(false, false, true)]
    ensures ws[1].guard == Off && ws[1].desired == None && OnlyActive(ws[1].native, w.smart.value.name)
  {
    var w' := World(None, map[w.smart.value.name := Started], Off, None, false);
    ws, es := [w, w'], [RecoverEvent(false, false, true)];
    assert Step(w, es[0], w');
  }

  // ----------------------------------------------------------------- suspend

  /** While the system is suspended, recovery changes nothing: it starts no engine until a resume. */
  lemma {:induction false} SuspendedRecoveryIsIdle(ws: seq<World>, es: seq<Event>)
    requires IsRun(ws, es) && ws[0].suspended
    requires forall i :: 0 <= i < |es| ==> Unattended(es[i]) && es[i] != ResumeEvent
    ensures ws[|es|].suspended
    ensures ws[|es|].smart == None || ws[|es|].smart == ws[0].smart
    decreases |es|
  {
    if es != [] {
      var n := |es| - 1;
      RunPrefix(ws, es);
      assert forall i :: 0 <= i < n ==> es[..n][i] == es[i];
      SuspendedRecoveryIsIdle(ws[..|es|], es[..n]);
      assert Unattended(es[n]) && Step(ws[n], es[n], ws[n + 1]);
    }
  }
}
