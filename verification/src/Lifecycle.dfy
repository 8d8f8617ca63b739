/**
 The tunnel manager of client/manager: the smart engine, the native tunnel
 services, the firewall guard and the persisted desired state. Every method is a
 section the source runs under its lifecycle lock. Windows calls are methods of
 the class that may fail at any time and, when they fail, promise only what
 their comment says. Only they record that a call failed, and which one it was.
 */
module Lifecycle {
  import opened Options
  import opened Policy
  import opened Text
  import G = PolicyGuarantees

  datatype TunnelState = Stopped | Starting | Started | Stopping | Unknown

  /** Off, armed before the engine is up, or armed and bound to the engine's interface. */
  datatype Guard = Off | Provisional | Bound

  /** A profile with its settings; `native` is what `usesNativeTunnel` says of them. */
  datatype Selection = Selection(name: string, settings: Settings, native: bool) {
    predicate Protected() { settings.protection == "all" }
  }

  function SelectionOf(name: string, settings: Settings): Selection {
    Selection(name, settings, G.UsesNativeTunnel(settings))
  }

  /** The user took this group out of the full tunnel. */
  predicate GroupOff(s: Settings, id: string) {
    "all" in s.serviceRoutes && id in s.serviceRoutes["all"] && !s.serviceRoutes["all"][id]
  }

  /** Settings that ask for nothing an ordinary tunnel does not do. */
  predicate PlainTunnel(s: Settings) {
    && NormalizeMode(s.mode) == "all"
    && (forall r :: r in s.customRules ==> !r.enabled)
    && !GroupOff(s, "vk") && !GroupOff(s, "russian-services")
    && s.protection == "" && s.fallbackProfiles == []
  }

  lemma NativeExactly(s: Settings)
    ensures G.UsesNativeTunnel(s) <==> PlainTunnel(s)
  {
    if forall r :: r in s.customRules ==> !r.enabled {
      assert forall i :: 0 <= i < |s.customRules| ==> s.customRules[i] in s.customRules;
    }
  }

  type Natives = map<string, TunnelState>

  datatype World = World(
    smart: Option<Selection>,
    native: Natives,
    guard: Guard,
    desired: Option<Selection>,
    suspended: bool)

  // ------------------------------------------------------------ native tunnels

  function At(m: Natives, name: string): TunnelState {
    if name in m then m[name] else Stopped
  }

  ghost predicate AllStopped(m: Natives) {
    forall n :: At(m, n) == Stopped
  }

  ghost predicate OnlyActive(m: Natives, name: string) {
    && At(m, name) != Stopped
    && forall n :: n != name ==> At(m, n) == Stopped
  }

  /** No tunnel outside `except` is up that was down before. */
  ghost predicate NoneRevived(before: Natives, after: Natives, except: set<string>) {
    forall n :: At(after, n) != Stopped && n !in except ==> At(before, n) != Stopped
  }

  ghost predicate SameBut(before: Natives, after: Natives, names: set<string>) {
    forall n :: n !in names ==> At(before, n) == At(after, n)
  }

  ghost predicate Active(s: TunnelState) {
    s == Started || s == Starting
  }

  ghost predicate AnyActive(m: Natives) {
    exists n :: Active(At(m, n))
  }

  ghost predicate TwoActive(m: Natives) {
    exists a, b :: a != b && Active(At(m, a)) && Active(At(m, b))
  }

  ghost predicate SingleUp(m: Natives) {
    forall a, b :: At(m, a) != Stopped && At(m, b) != Stopped ==> a == b
  }

  // ---------------------------------------------------------------- invariants

  /** The engine and the native tunnels exclude each other. */
  ghost predicate Exclusive(w: World) {
    w.smart.Some? ==> AllStopped(w.native)
  }

  /** An engine that asks for protection never runs with the guard off. */
  ghost predicate Guarded(w: World) {
    w.smart.Some? && w.smart.value.Protected() ==> w.guard != Off
  }

  ghost predicate Sane(w: World) {
    && "" !in w.native
    && (w.smart.Some? ==> !w.smart.value.native && w.smart.value.name != "")
    && (w.desired.Some? ==> !w.desired.value.native)
  }

  ghost predicate Sound(w: World) {
    Exclusive(w) && Sane(w)
  }

  /** Every operation keeps the base invariant, and these also keep the guard where it was due. */
  ghost predicate Keeps(w: World, w': World) {
    Sound(w') && (Guarded(w) ==> Guarded(w'))
  }

  /** Nothing but a protected engine, or no engine, behind an armed guard. */
  ghost predicate Locked(w: World) {
    w.guard != Off && AllStopped(w.native) && (w.smart.Some? ==> w.smart.value.Protected())
  }

  // ------------------------------------------------- what each operation promises

  ghost predicate NativeStartSpec(w: World, w': World, name: string, ok: bool) {
    && w'.smart == w.smart && w'.guard == w.guard && w'.suspended == w.suspended
    && (w.smart.Some? ==> !ok && w'.native == w.native)
    && (ok ==> name != "" && OnlyActive(w'.native, name) && w'.desired == None)
    && (!ok ==> w'.desired == w.desired && NoneRevived(w.native, w'.native, {name}))
    && "" !in w'.native
  }

  // ---------------------------------------------------- what one failing call costs

  /** Which call failed; `left` is the state a service was in that would not go away. */
  datatype Site =
    | Preparing                                   // whatever precedes the first effect of a start
    | EngineStop                                  // stopping the engine ahead of a full-tunnel start
    | Checking                                    // preflight and profile of a native start
    | Listing                                     // the states of the services, ahead of stopping them
    | Uninstalling(name: string)
    | Awaiting(name: string, left: TunnelState)
    | Installing
    | Forgetting                                  // clearing the desired state in a native start
    | Launching                                   // from stopping the old engine to publishing the new one
    | Unguarding                                  // clearing the guard after a full-tunnel start
    | Concluding                                  // clearing the desired state after that
    | Other

  /** A native start that failed because of one call brings its predecessors back, unless it had already come up. */
  ghost predicate NativeRollback(w: World, w': World, name: string, site: Site) {
    match site
    case Checking | Listing => w' == w
    case Uninstalling(_) | Awaiting(_, _) | Installing =>
      forall p :: p != name && Active(At(w.native, p)) ==> At(w'.native, p) != Stopped
    case Forgetting => AllStopped(w'.native)
    case _ => false
  }

  /** The guard once a predecessor is no longer to be stranded behind a provisional one. */
  function ReleasedGuard(guard: Guard, t: Selection, nativeBefore: bool, smartBefore: Option<Selection>): Guard {
    if !t.Protected() || !(nativeBefore || smartBefore.Some?) then guard
    else if smartBefore.Some? && smartBefore.value.Protected() then Bound
    else Off
  }

  /** The engine that ran before runs again, with its own guard and desired state. */
  ghost predicate Reinstated(w: World, w': World)
    requires w.smart.Some?
  {
    && w'.smart == w.smart && AllStopped(w'.native) && w'.desired == w.desired
    && (w'.guard != Off <==> w.smart.value.Protected())
  }

  /** What an engine start makes of a world before it touches a predecessor. */
  function Provisioned(w: World, t: Selection): World {
    w.(guard := if t.Protected() then Provisional else w.guard)
  }

  /** The native tunnel a start takes over: some active one, if any. */
  ghost predicate Predecessor(w: World, prior: Option<string>) {
    && (prior.Some? <==> AnyActive(w.native))
    && (prior.Some? ==> Active(At(w.native, prior.value)))
  }

  /** The world once some service would not stop: nothing is restored but the guard. */
  ghost predicate Stuck(w: World, w': World, t: Selection, prior: Option<string>) {
    && w' == w.(native := w'.native, guard := ReleasedGuard(w.guard, t, prior.Some?, w.smart))
    && NoneRevived(w.native, w'.native, {})
  }

  /** The switch to a new engine that failed because of one call, from a world already provisioned. */
  ghost predicate SwitchRollback(w: World, w': World, t: Selection, prior: Option<string>, site: Site) {
    match site
    case Listing => Stuck(w, w', t, prior) && w'.native == w.native
    case Uninstalling(_) => Stuck(w, w', t, prior) && AllStopped(w'.native)
    case Awaiting(n, left) =>
      Stuck(w, w', t, prior) && forall m :: At(w'.native, m) == if m == n then left else Stopped
    case Launching =>
      if w.smart.Some? then Reinstated(w, w')
      else if prior.Some? then
        w'.smart == None && w'.guard == Off && w'.desired == None && OnlyActive(w'.native, prior.value)
      else
        && w'.smart == None && AllStopped(w'.native) && w'.desired == w.desired
        && (t.Protected() ==> w'.guard != Off)
    case _ => false
  }

  /** The start of a full tunnel that failed because of one call. */
  ghost predicate FullTunnelRollback(w: World, w': World, t: Selection, site: Site) {
    match site
    case EngineStop => w.smart.Some? && w' == w.(smart := None)
    case Unguarding =>
      w'.smart == None && w'.guard == w.guard && w'.desired == None && OnlyActive(w'.native, t.name)
    case Concluding => w'.smart == None && w'.guard == Off && w'.desired == None && AllStopped(w'.native)
    case Checking | Listing | Uninstalling(_) | Awaiting(_, _) | Installing | Forgetting =>
      if w.smart.Some? then Reinstated(w, w')
      else w'.smart == None && w'.guard == w.guard && NativeRollback(w, w', t.name, site)
    case _ => false
  }

  /** What a start that failed because of one call leaves behind. */
  ghost predicate RollbackSpec(w: World, w': World, t: Selection, site: Site) {
    if site == Preparing then w' == w
    else if t.native then FullTunnelRollback(w, w', t, site)
    else exists prior :: Predecessor(w, prior) && SwitchRollback(Provisioned(w, t), w', t, prior, site)
  }

  /** The same when the engine exited between two looks at it, so that its own profile passed for a native tunnel. */
  ghost predicate RacedSpec(w: World, w': World, t: Selection, site: Site) {
    && w.smart.Some? && !t.native
    && var gone := w.(smart := None);
       if site == Preparing then w' == gone
       else SwitchRollback(Provisioned(gone, t), w', t, Some(w.smart.value.name), site)
  }

  /** The guard is armed for the engine that runs, and only for it. */
  ghost predicate Matched(w: World) {
    w.smart.Some? && (w.guard != Off <==> w.smart.value.Protected())
  }

  /** One failing call never costs a running engine its place: it runs on, or again, guarded as before. */
  lemma EngineSurvivesFailedStart(w: World, w': World, t: Selection, site: Site)
    requires Sound(w) && Matched(w) && !t.native && RollbackSpec(w, w', t, site)
    ensures w'.smart == w.smart && w'.desired == w.desired && Matched(w')
  {
  }

  /**
   A start that needs no engine gives up the running one: it is lost exactly when
   stopping it is what failed, or one of the two calls after the native start.
   */
  lemma EngineSurvivesFullTunnel(w: World, w': World, t: Selection, site: Site)
    requires Sound(w) && w.smart.Some? && t.native && RollbackSpec(w, w', t, site)
    ensures w'.smart == w.smart <==> site !in {EngineStop, Unguarding, Concluding}
    ensures w'.smart == w.smart && Matched(w) ==> w'.desired == w.desired && Matched(w')
  {
  }

  /** Whether a native predecessor outlives the failure of one call of the switch to an engine. */
  predicate SparesNative(site: Site, p: string) {
    match site
    case Uninstalling(_) => false
    case Awaiting(n, left) => n == p && left != Stopped
    case _ => true
  }

  /** It does unless a service could not be stopped, and then only if that was its own and it is still there. */
  lemma NativeSurvivesFailedStart(w: World, w': World, t: Selection, site: Site, p: string)
    requires Sound(w) && w.smart.None? && OnlyActive(w.native, p) && Active(At(w.native, p))
    requires !t.native && RollbackSpec(w, w', t, site)
    ensures OnlyActive(w'.native, p) <==> SparesNative(site, p)
    ensures w.guard == Off ==> w'.guard == Off
  {
    if site != Preparing {
      var prior :| Predecessor(w, prior) && SwitchRollback(Provisioned(w, t), w', t, prior, site);
      assert prior == Some(p);
    }
  }

  /** A native start spares its predecessors unless the new tunnel had already come up. */
  lemma NativeSurvivesFailedSwitch(w: World, w': World, name: string, site: Site, p: string)
    requires p != name && Active(At(w.native, p)) && NativeRollback(w, w', name, site)
    ensures At(w'.native, p) != Stopped <==> site != Forgetting
  {
  }

  /** And so does the start of a full tunnel, which has two more calls to make after that. */
  lemma NativeSurvivesFullTunnel(w: World, w': World, t: Selection, site: Site, p: string)
    requires Sound(w) && w.smart.None? && p != t.name && Active(At(w.native, p))
    requires t.native && RollbackSpec(w, w', t, site)
    ensures At(w'.native, p) != Stopped <==> site !in {Forgetting, Unguarding, Concluding}
  {
  }

  /** Each of the losing calls does lose: an outcome for any engine and any full tunnel. */
  lemma FullTunnelCanLoseEngine(w: World, t: Selection, site: Site) returns (w': World)
    requires Sound(w) && w.smart.Some? && t.native && t.name != "" && site in {EngineStop, Unguarding, Concluding}
    ensures RollbackSpec(w, w', t, site) && SmartStartSpec(w, w', t, true, false, false)
    ensures w'.smart == None
  {
    w' := w.(smart := None);
    if site == Unguarding {
      w' := w'.(native := map[t.name := Started], desired := None);
    } else if site == Concluding {
      w' := w'.(native := map[], guard := Off, desired := None);
    }
  }

  /** And an outcome that loses a native predecessor to a service that could not be stopped. */
  lemma SwitchCanLoseNative(w: World, t: Selection, site: Site, p: string) returns (w': World)
    requires Sound(w) && w.smart.None? && OnlyActive(w.native, p) && Active(At(w.native, p)) && !t.native
    requires site == Uninstalling(p) || site == Awaiting(p, Stopped)
    ensures RollbackSpec(w, w', t, site) && SmartStartSpec(w, w', t, true, false, false)
    ensures AllStopped(w'.native)
  {
    w' := w.(native := map[], guard := ReleasedGuard(Provisioned(w, t).guard, t, true, None));
    assert Predecessor(w, Some(p)) && SwitchRollback(Provisioned(w, t), w', t, Some(p), site);
  }

  /** And one that loses it to a full tunnel that came up and was given up again, or was not. */
  lemma FullTunnelCanLoseNative(w: World, t: Selection, site: Site, p: string) returns (w': World)
    requires Sound(w) && w.smart.None? && p != t.name && t.name != "" && Active(At(w.native, p)) && t.native
    requires site in {Forgetting, Unguarding, Concluding}
    ensures RollbackSpec(w, w', t, site) && SmartStartSpec(w, w', t, true, false, false)
    ensures At(w'.native, p) == Stopped
  {
    w' := match site
      case Forgetting => w.(native := map[])
      case Unguarding => w.(native := map[t.name := Started], desired := None)
      case _ => w.(native := map[], guard := Off, desired := None);
  }

  /**
   After a race a failing call costs a protected start its guard, unless nothing had
   been touched yet; one that fails the launch also brings the profile up unprotected.
   */
  lemma RaceUnlocks(w: World, w': World, t: Selection, site: Site)
    requires Sound(w) && Locked(w) && t.Protected() && RacedSpec(w, w', t, site)
    ensures w'.guard != Off <==> site == Preparing
    ensures OnlyActive(w'.native, w.smart.value.name) <==> site == Launching
  {
  }

  /**
   A start succeeds completely, or leaves at most the predecessor running. `raced`:
   it failed after it took the engine's own profile for a native predecessor.
   */
  ghost predicate SmartStartSpec(w: World, w': World, t: Selection, persist: bool, ok: bool, raced: bool) {
    && w'.suspended == w.suspended && Keeps(w, w')
    && (raced ==> !ok && !t.native && w.smart.Some? && w'.smart == None)
    && (ok && !t.native ==>
          && w'.smart == Some(t) && AllStopped(w'.native)
          && (w'.guard != Off <==> t.Protected())
          && w'.desired == (if persist then Some(t) else w.desired))
    && (ok && t.native ==>
          w'.smart == None && OnlyActive(w'.native, t.name) && w'.guard == Off && w'.desired == None)
    && (!ok ==>
          && (w'.smart == None || w'.smart == w.smart)
          && (w'.desired == None || w'.desired == w.desired)
          && NoneRevived(w.native, w'.native, if t.native then {t.name} else Mistaken(w, raced)))
    && (!ok && !t.native && !raced && AllStopped(w.native) ==> w'.desired == w.desired)
    && (!t.native && t.Protected() && !raced && Locked(w) ==> Locked(w'))
  }

  /** The profile a race can bring up as a native tunnel. */
  function Mistaken(w: World, raced: bool): set<string> {
    if raced && w.smart.Some? then {w.smart.value.name} else {}
  }

  /** The switch to a new engine from a provisioned world, whatever failed. */
  ghost predicate SwitchSpec(w: World, w': World, t: Selection, persist: bool, ok: bool, prior: Option<string>) {
    && w'.suspended == w.suspended && Keeps(w, w')
    && (ok ==>
          && w'.smart == Some(t) && AllStopped(w'.native)
          && (w'.guard != Off <==> t.Protected())
          && w'.desired == (if persist then Some(t) else w.desired))
    && (!ok ==>
          && (w'.smart == None || w'.smart == w.smart)
          && (w'.desired == None || w'.desired == w.desired)
          && NoneRevived(w.native, w'.native, if prior.Some? then {prior.value} else {}))
    && (!ok && prior.None? ==> w'.desired == w.desired)
    && (t.Protected() && prior.None? && Locked(w) ==> Locked(w'))
  }

  lemma SwitchIsStart(w: World, w': World, t: Selection, persist: bool, ok: bool, prior: Option<string>)
    requires Sound(w) && !t.native && Predecessor(w, prior)
    requires SwitchSpec(Provisioned(w, t), w', t, persist, ok, prior)
    ensures SmartStartSpec(w, w', t, persist, ok, false)
  {
  }

  lemma RacedSwitchIsStart(w: World, w': World, t: Selection, persist: bool, ok: bool)
    requires Sound(w) && !t.native && w.smart.Some?
    requires SwitchSpec(Provisioned(w.(smart := None), t), w', t, persist, ok, Some(w.smart.value.name))
    ensures SmartStartSpec(w, w', t, persist, ok, !ok)
  {
  }

  /** Stopping by name is deterministic up to which of its calls failed. */
  ghost predicate StopSpec(w: World, w': World, name: string, loaded: bool, cleared: bool) {
    var protects := (w.smart.Some? && w.smart.value.name == name)
        || (loaded && w.desired.Some? && w.desired.value.name == name);
    && w'.smart == (if w.smart.Some? && w.smart.value.name == name then None else w.smart)
    && w'.guard == (if protects && cleared then Off else w.guard)
    && (w'.desired == w.desired || (w.desired.Some? && SameName(w.desired.value.name, name) && w'.desired == None))
    && NoneRevived(w.native, w'.native, {}) && SameBut(w.native, w'.native, {name})
    && w'.suspended == w.suspended && "" !in w'.native
  }

  ghost predicate SmartStopSpec(w: World, w': World) {
    && w'.smart == None && w'.native == w.native && w'.suspended == w.suspended
    && (w'.guard == Off || w'.guard == w.guard)
    && (w'.desired == None || w'.desired == w.desired)
  }

  /** Suspending stops the engine only when a desired state could be read, and never touches the guard. */
  ghost predicate PauseSpec(w: World, w': World, stopped: bool) {
    && w' == w.(suspended := true, smart := if stopped then None else w.smart)
    && (stopped ==> w.desired.Some?)
  }

  /** The engine a fallback round may leave: one running the desired settings under one of their names. */
  ghost predicate FallbackOf(t: Selection, desired: Selection) {
    && t.settings == desired.settings && t.native == desired.native
    && (t.name == desired.name || t.name in desired.settings.fallbackProfiles)
  }

  /** No name twice, without regard to case. */
  ghost predicate FoldDistinct(names: seq<string>) {
    forall i, j :: 0 <= i < j < |names| ==> !SameName(names[i], names[j])
  }

  ghost predicate FoldListed(names: seq<string>, n: string) {
    exists i :: 0 <= i < |names| && SameName(names[i], n)
  }

  /** The first of its name in the list, without regard to case. */
  ghost predicate FirstNamed(names: seq<string>, k: nat)
    requires k < |names|
  {
    forall j :: 0 <= j < k ==> !SameName(names[j], names[k])
  }

  /** Which of the first `n` names a round tries, in this order: each the first time it comes up. */
  ghost function Candidates(names: seq<string>, n: nat): seq<string>
    requires n <= |names|
  {
    if n == 0 then [] else Candidates(names, n - 1) + if FirstNamed(names, n - 1) then [names[n - 1]] else []
  }

  /** The primary, then the fallbacks as listed. */
  function AllNames(d: Selection): seq<string> {
    [d.name] + d.settings.fallbackProfiles
  }

  lemma {:induction false} CandidatesMeaning(names: seq<string>, n: nat)
    requires n <= |names|
    ensures FoldDistinct(Candidates(names, n))
    ensures forall c :: c in Candidates(names, n) ==> exists k :: 0 <= k < n && names[k] == c
    ensures forall k :: 0 <= k < n ==> FoldListed(Candidates(names, n), names[k])
    ensures n > 0 ==> Candidates(names, n) != [] && Candidates(names, n)[0] == names[0]
  {
    if n > 0 {
      CandidatesMeaning(names, n - 1);
      var before, all := Candidates(names, n - 1), Candidates(names, n);
      forall k | 0 <= k < n ensures FoldListed(all, names[k]) {
        ListedBy(names, n - 1, k, before, all);
      }
      forall i, j | 0 <= i < j < |all| ensures !SameName(all[i], all[j]) {
        if j == |before| { assert before[i] in before; }
      }
    }
  }

  lemma ListedBy(names: seq<string>, n: nat, k: nat, before: seq<string>, all: seq<string>)
    requires k <= n < |names| && forall m :: 0 <= m < n ==> FoldListed(before, names[m])
    requires all == before + if FirstNamed(names, n) then [names[n]] else []
    ensures FoldListed(all, names[k])
  {
    if k == n && FirstNamed(names, n) {
      assert all[|before|] == names[n];
    } else {
      assert !FirstNamed(names, n) || k < n;
      var m := k;
      if k == n { m :| 0 <= m < n && SameName(names[m], names[n]); }
      assert FoldListed(before, names[m]);
      var i :| 0 <= i < |before| && SameName(before[i], names[m]);
      assert all[i] == before[i];
    }
  }

  lemma {:induction false} CandidatesPrefix(names: seq<string>, k: nat, n: nat)
    requires k <= n <= |names|
    ensures Candidates(names, k) <= Candidates(names, n)
    decreases n
  {
    if k < n { CandidatesPrefix(names, k, n - 1); }
  }

  /** A fallback that is not the primary makes two. */
  lemma FallbackIsSecond(d: Selection)
    requires HasFallback(d)
    ensures |Candidates(AllNames(d), |AllNames(d)|)| >= 2
  {
    var names := AllNames(d);
    CandidatesMeaning(names, |names|);
    var n :| n in d.settings.fallbackProfiles && !SameName(n, d.name);
    var k :| 0 <= k < |d.settings.fallbackProfiles| && d.settings.fallbackProfiles[k] == n;
    assert names[k + 1] == n && FoldListed(Candidates(names, |names|), names[k + 1]);
  }

  /** What a round may have tried when it ends, and must have when nothing started. */
  ghost predicate RoundTried(d: Selection, tried: seq<string>, ok: bool) {
    var all := Candidates(AllNames(d), |AllNames(d)|);
    tried != [] && if ok then tried <= all else tried == all
  }

  /** A round that has come past the first `n` names. */
  ghost predicate Tracks(names: seq<string>, n: nat, tried: seq<string>, seen: set<string>)
    requires n <= |names|
  {
    && tried == Candidates(names, n)
    && forall x :: x in seen <==> exists k :: 0 <= k < n && Lower(names[k]) == x
  }

  lemma TracksFirst(d: Selection, seen: set<string>)
    requires seen == {Lower(d.name)}
    ensures Tracks(AllNames(d), 1, [d.name], seen) && RoundTried(d, [d.name], true)
  {
    var names := AllNames(d);
    forall x ensures x in seen <==> exists k :: 0 <= k < 1 && Lower(names[k]) == x {
      if x in seen { assert Lower(names[0]) == x; }
    }
    assert Candidates(names, 0) == [] && Candidates(names, 1) == [] + [d.name];
    CandidatesPrefix(names, 1, |names|);
  }

  lemma TracksSoFar(d: Selection, n: nat, tried: seq<string>, seen: set<string>, ok: bool)
    requires 1 <= n <= |AllNames(d)| && Tracks(AllNames(d), n, tried, seen) && (ok || n == |AllNames(d)|)
    ensures RoundTried(d, tried, ok)
  {
    CandidatesPrefix(AllNames(d), n, |AllNames(d)|);
    CandidatesMeaning(AllNames(d), n);
  }

  lemma TracksNext(names: seq<string>, n: nat, tried: seq<string>, seen: set<string>)
    requires n < |names| && Tracks(names, n, tried, seen)
    ensures var tried' := if Lower(names[n]) in seen then tried else tried + [names[n]];
            Tracks(names, n + 1, tried', seen + {Lower(names[n])})
  {
    assert FirstNamed(names, n) <==> Lower(names[n]) !in seen;
    var seen' := seen + {Lower(names[n])};
    forall x ensures x in seen' <==> exists k :: 0 <= k < n + 1 && Lower(names[k]) == x {
      if x == Lower(names[n]) { assert Lower(names[n]) == x; }
    }
  }

  /** One candidate of a recovery round for the desired selection `d`. */
  ghost predicate CandidateSpec(
    w: World, w': World, d: Selection, name: string, ok: bool, unsaved: bool, raced: bool)
  {
    var t := d.(name := name);
    && w'.suspended == w.suspended && Keeps(w, w')
    && (raced ==> w.smart.Some? && w'.smart == None)
    && (w'.smart == None || w'.smart == w.smart || w'.smart == Some(t))
    && (w'.desired == None || w'.desired == w.desired || w'.desired == Some(t))
    && NoneRevived(w.native, w'.native, Mistaken(w, raced))
    && (d.Protected() && !raced && Locked(w) ==> Locked(w') && (w'.desired == w.desired || w'.desired == Some(t)))
    && (ok ==> w'.smart == Some(t) && w'.desired == (if name == d.name then w.desired else Some(t)) && !unsaved)
    && (unsaved ==> w'.smart == Some(t) && w'.desired == w.desired)
    && (!ok && !unsaved ==>
          (w'.smart == None || w'.smart == w.smart) && (w'.desired == None || w'.desired == w.desired))
  }

  /** Every profile whose engine may run in the course of a round. */
  function Profiles(w: World, d: Selection): set<string> {
    {d.name} + (set n | n in d.settings.fallbackProfiles) + (if w.smart.Some? then {w.smart.value.name} else {})
  }

  /**
   Any number of candidates, tried one after another. `unsaved`: one of them started
   without being persisted; `raced`: the start of one failed after a race.
   */
  ghost predicate RoundSpec(w: World, w': World, d: Selection, unsaved: bool, raced: bool) {
    && w'.suspended == w.suspended && Keeps(w, w')
    && (w'.smart == None || w'.smart == w.smart || FallbackOf(w'.smart.value, d))
    && (w'.desired == None || FallbackOf(w'.desired.value, d))
    && NoneRevived(w.native, w'.native, if raced then Profiles(w, d) else {})
    && (d.Protected() && !raced && Locked(w) ==> Locked(w') && w'.desired.Some?)
    && (Aligned(w) && !unsaved ==> Aligned(w'))
  }

  lemma RoundContinues(
    w: World, w1: World, w2: World, d: Selection, name: string, ok: bool,
    lost: bool, raced0: bool, unsaved: bool, raced: bool)
    requires RoundSpec(w, w1, d, lost, raced0) && CandidateSpec(w1, w2, d, name, ok, unsaved, raced)
    requires name in d.settings.fallbackProfiles || (name == d.name && w1 == w && w.desired == Some(d))
    requires name == d.name ==> w1.desired == Some(d)
    ensures RoundSpec(w, w2, d, !ok && (lost || unsaved), raced0 || raced)
  {
  }

  /** A race brings up one tunnel where there was none. */
  lemma CandidateKeepsSingleUp(
    w: World, w': World, d: Selection, name: string, ok: bool, unsaved: bool, raced: bool)
    requires Sound(w) && CandidateSpec(w, w', d, name, ok, unsaved, raced) && SingleUp(w.native)
    ensures SingleUp(w'.native) && !TwoActive(w.native)
  {
  }

  ghost predicate Recoverable(w: World) {
    w.desired.Some? && !TwoActive(w.native)
  }

  /** What a recovery without force leaves alone: the engine of the desired profile, its interface up. */
  predicate Healthy(w: World, interfaceUp: bool) {
    && interfaceUp && w.smart.Some? && w.desired.Some?
    && Lower(w.smart.value.name) == Lower(w.desired.value.name)
  }

  /** `unsaved`: the round started a fallback, could not persist it, and no later candidate succeeded. */
  ghost predicate RecoverSpec(w: World, w': World, ok: bool, unsaved: bool, raced: bool) {
    && w'.suspended == w.suspended && Keeps(w, w')
    && (w.suspended || w.desired.None? ==> w' == w)
    && (w.suspended ==> !ok)
    && (w'.smart == None || w'.smart == w.smart
        || (w.desired.Some? && FallbackOf(w'.smart.value, w.desired.value)))
    && (w'.desired == None || w'.desired == w.desired
        || (w.desired.Some? && FallbackOf(w'.desired.value, w.desired.value)))
    && NoneRevived(w.native, w'.native, if raced && w.desired.Some? then Profiles(w, w.desired.value) else {})
    && (w.desired.Some? && w.desired.value.Protected() && !raced && Locked(w) ==>
          Locked(w') && w'.desired.Some? && w'.desired.value.Protected())
    && (unsaved ==> !ok)
    && (Aligned(w) && !unsaved ==> Aligned(w'))
  }

  /** The running engine is the one the desired state names. */
  ghost predicate Aligned(w: World) {
    w.smart.Some? && w.desired.Some? ==> w.smart.value.name == w.desired.value.name
  }

  /** client/manager/native_switch.go:24-45, as sets; the source sorts them only to be repeatable. */
  datatype Plan = Plan(stop: set<string>, wait: set<string>, install: bool)

  method PlanNativeSwitch(target: string, states: Natives) returns (plan: Plan)
    ensures plan.stop == set n | n in states && n != target && states[n] != Stopped
    ensures plan.wait == plan.stop + (if At(states, target) == Stopping then {target} else {})
    ensures plan.install <==> At(states, target) == Stopped || At(states, target) == Stopping
  {
    var stop, wait, install := {}, {}, true;
    var todo := states.Keys;
    while todo != {}
      invariant todo <= states.Keys
      invariant stop == set n | n in states && n !in todo && n != target && states[n] != Stopped
      invariant wait == stop + (if target !in todo && At(states, target) == Stopping then {target} else {})
      invariant install <==> target in todo || At(states, target) == Stopped || At(states, target) == Stopping
      decreases todo
    {
      var n :| n in todo;
      todo := todo - {n};
      if n == target {
        match states[n]
        case Started | Starting | Unknown => install := false;
        case Stopping => wait := wait + {n};
        case Stopped =>
      } else if states[n] != Stopped {
        stop := stop + {n};
        wait := wait + {n};
      }
    }
    plan := Plan(stop, wait, install);
  }

  /** Stopping services failed because of one call: either that alone, or one service is left that was waited for. */
  ghost predicate StopBlame(names: set<string>, native: Natives, site: Site) {
    match site
    case Uninstalling(n) => n in names && forall m :: m in names ==> At(native, m) == Stopped
    case Awaiting(n, left) =>
      n in names && forall m :: m in names ==> At(native, m) == if m == n then left else Stopped
    case _ => false
  }

  ghost predicate AllStopBlame(before: Natives, after: Natives, site: Site) {
    match site
    case Listing => after == before
    case Uninstalling(_) => AllStopped(after)
    case Awaiting(n, left) => forall m :: At(after, m) == if m == n then left else Stopped
    case _ => false
  }

  /** Whether the loop over the states takes `n` for a running native tunnel. */
  ghost predicate Takes(states: Natives, smart: Option<Selection>, n: string) {
    Active(At(states, n)) && !(smart.Some? && smart.value.name == n)
  }

  ghost predicate HasFallback(d: Selection) {
    exists n :: n in d.settings.fallbackProfiles && !SameName(n, d.name)
  }

  class Manager {
    var smart: Option<Selection>
    var native: Natives
    var guard: Guard
    var desired: Option<Selection>
    var suspended: bool

    /** How many Windows calls have failed, and which one was the last; only the external calls write these. */
    ghost var failures: nat
    ghost var blame: Site

    /** How often the engine exited between two looks at it; written by `EngineMayVanish` alone. */
    ghost var races: nat

    ghost function Snap(): World
      reads this
    {
      World(smart, native, guard, desired, suspended)
    }

    /** Whatever did not succeed is the fault of some call. */
    twostate predicate Paid(ok: bool)
      reads this
    {
      && failures >= old(failures) && races >= old(races) && (!ok ==> failures > old(failures))
      && (failures == old(failures) ==> blame == old(blame))
    }

    /** Exactly one call failed, and it was the given one, or all went well. */
    twostate predicate PaidAt(ok: bool, site: Site)
      reads this
    {
      && failures == old(failures) + (if ok then 0 else 1) && races >= old(races)
      && blame == if ok then old(blame) else site
    }

    twostate predicate OneFailed()
      reads this
    {
      failures == old(failures) + 1
    }

    twostate predicate Raced()
      reads this
    {
      races > old(races)
    }

    constructor (native: Natives, guard: Guard, desired: Option<Selection>)
      requires "" !in native && (desired.Some? ==> !desired.value.native)
      ensures Sound(Snap()) && Snap() == World(None, native, guard, desired, false)
    {
      this.smart, this.native, this.guard, this.desired, this.suspended := None, native, guard, desired, false;
    }

    // -------------------------------------------------------- external calls

    /** Any call whose failure has no effect this model keeps: files, the service list, the engine check. */
    method Call(ghost site: Site) returns (ok: bool)
      modifies this`failures, this`blame
      ensures PaidAt(ok, site)
    {
      ok := *;
      if !ok { failures, blame := failures + 1, site; }
    }

    /** There is no profile without a name. */
    method LoadProfile(name: string, ghost site: Site) returns (ok: bool)
      modifies this`failures, this`blame
      ensures ok ==> name != ""
      ensures PaidAt(ok, site)
    {
      ok := *;
      ok := ok && name != "";
      if !ok { failures, blame := failures + 1, site; }
    }

    method SetGuard(bound: bool, ghost site: Site) returns (ok: bool)
      modifies this`guard, this`failures, this`blame
      ensures guard == if ok then (if bound then Bound else Provisional) else old(guard)
      ensures PaidAt(ok, site)
    {
      ok := Call(site);
      if ok { guard := if bound then Bound else Provisional; }
    }

    method ClearGuard(ghost site: Site) returns (ok: bool)
      modifies this`guard, this`failures, this`blame
      ensures guard == if ok then Off else old(guard)
      ensures PaidAt(ok, site)
    {
      ok := Call(site);
      if ok { guard := Off; }
    }

    method SaveDesired(t: Selection, ghost site: Site) returns (ok: bool)
      requires !t.native
      modifies this`desired, this`failures, this`blame
      ensures desired == if ok then Some(t) else old(desired)
      ensures PaidAt(ok, site)
    {
      ok := Call(site);
      if ok { desired := Some(t); }
    }

    method ClearDesired(ghost site: Site) returns (ok: bool)
      modifies this`desired, this`failures, this`blame
      ensures desired == if ok then None else old(desired)
      ensures PaidAt(ok, site)
    {
      ok := Call(site);
      if ok { desired := None; }
    }

    /** Service control may leave the one service it was asked about in any state, but starts nothing. */
    method StopService(name: string) returns (ok: bool)
      requires name != "" && "" !in native
      modifies this`native, this`failures, this`blame
      ensures SameBut(old(native), native, {name}) && NoneRevived(old(native), native, {}) && "" !in native
      ensures PaidAt(ok, Uninstalling(name))
    {
      ok := Call(Uninstalling(name));
      var after: TunnelState := *;
      if At(native, name) != Stopped { native := native[name := after]; }
    }

    /** Waiting succeeds only once the service is gone. */
    method WaitForStop(name: string) returns (ok: bool)
      requires name != "" && "" !in native
      modifies this`native, this`failures, this`blame
      ensures SameBut(old(native), native, {name}) && NoneRevived(old(native), native, {}) && "" !in native
      ensures ok ==> At(native, name) == Stopped
      ensures PaidAt(ok, Awaiting(name, At(native, name)))
    {
      var after: TunnelState := *;
      if At(native, name) == Stopped { after := Stopped; }
      ok := Call(Awaiting(name, after));
      if ok { after := Stopped; }
      if At(native, name) != Stopped { native := native[name := after]; }
    }

    method Install(name: string) returns (ok: bool)
      requires name != "" && "" !in native
      modifies this`native, this`failures, this`blame
      ensures SameBut(old(native), native, {name}) && "" !in native
      ensures ok ==> Active(At(native, name))
      ensures PaidAt(ok, Installing)
    {
      ok := Call(Installing);
      var after: TunnelState := *;
      if ok && after != Started { after := Starting; }
      native := native[name := after];
    }

    /** The engine's exit handler runs under another lock and may strike inside a section. */
    method EngineMayExit()
      modifies this`smart
      ensures smart == old(smart) || smart == None
    {
      var exited: bool := *;
      if exited { smart := None; }
    }

    /** The same between the two looks at the engine that have to agree. */
    method EngineMayVanish()
      modifies this`smart, this`races
      ensures races >= old(races)
      ensures if Raced() then old(smart).Some? && smart == None else smart == old(smart)
    {
      var exited: bool := *;
      if exited && smart.Some? { smart, races := None, races + 1; }
    }

    /** What `State` reports per tunnel: the engine's own profile reads as started. */
    method NativeStates(ghost site: Site) returns (ok: bool, states: Natives)
      modifies this`failures, this`blame
      ensures ok ==> forall n :: n in native ==> n in states
      ensures ok && smart.Some? ==> smart.value.name in states
      ensures ok ==> forall n :: n in states ==>
                states[n] == if smart.Some? && smart.value.name == n then Started else At(native, n)
      ensures "" !in native && (smart.Some? ==> smart.value.name != "") ==> "" !in states
      ensures PaidAt(ok, site)
    {
      ok := Call(site);
      states := native;
      if smart.Some? { states := states[smart.value.name := Started]; }
    }

    // ------------------------------------------------------- native switching

    /** client/manager/native_switch.go:98-122: stop all, then wait for all, whatever failed before. */
    method StopNatives(names: set<string>) returns (ok: bool)
      requires "" !in native && "" !in names
      modifies this`native, this`failures, this`blame
      ensures SameBut(old(native), native, names) && NoneRevived(old(native), native, {}) && "" !in native
      ensures ok ==> forall n :: n in names ==> At(native, n) == Stopped
      ensures Paid(ok) && (OneFailed() ==> StopBlame(names, native, blame))
    {
      var stopped := StopEach(names);
      var waited := WaitEach(names);
      ok := stopped && waited;
    }

    method StopEach(names: set<string>) returns (ok: bool)
      requires "" !in native && "" !in names
      modifies this`native, this`failures, this`blame
      ensures SameBut(old(native), native, names) && NoneRevived(old(native), native, {}) && "" !in native
      ensures Paid(ok) && (failures > old(failures) ==> blame.Uninstalling? && blame.name in names)
    {
      ok := true;
      var todo := names;
      while todo != {}
        invariant todo <= names
        invariant Paid(ok) && (failures > old(failures) ==> blame.Uninstalling? && blame.name in names)
        invariant SameBut(old(native), native, names) && NoneRevived(old(native), native, {}) && "" !in native
        decreases todo
      {
        var n :| n in todo;
        var done := StopService(n);
        ok := ok && done;
        todo := todo - {n};
      }
    }

    method WaitEach(names: set<string>) returns (ok: bool)
      requires "" !in native && "" !in names
      modifies this`native, this`failures, this`blame
      ensures SameBut(old(native), native, names) && NoneRevived(old(native), native, {}) && "" !in native
      ensures ok ==> forall n :: n in names ==> At(native, n) == Stopped
      ensures Paid(ok) && (ok ==> failures == old(failures))
      ensures OneFailed() ==> blame.Awaiting? && StopBlame(names, native, blame)
    {
      ok := true;
      var todo := names;
      while todo != {}
        invariant todo <= names && Paid(ok) && (ok ==> failures == old(failures))
        invariant SameBut(old(native), native, names) && NoneRevived(old(native), native, {}) && "" !in native
        invariant ok ==> forall n :: n in names - todo ==> At(native, n) == Stopped
        invariant OneFailed() ==> blame.Awaiting? && blame.name !in todo && StopBlame(names - todo, native, blame)
        decreases todo
      {
        var n :| n in todo;
        var done := WaitForStop(n);
        ok := ok && done;
        todo := todo - {n};
      }
      assert names - todo == names;
    }

    method StopAllNatives() returns (ok: bool)
      requires Sane(Snap())
      modifies this`native, this`failures, this`blame
      ensures NoneRevived(old(native), native, {}) && "" !in native
      ensures ok ==> AllStopped(native)
      ensures Paid(ok) && (OneFailed() ==> AllStopBlame(old(native), native, blame))
    {
      var states;
      ok, states := NativeStates(Listing);
      if !ok { return; }
      var names := set n | n in states && states[n] != Stopped;
      ok := StopNatives(names);
    }

    /** client/manager/native_switch.go:47-63: install only after every stop and every wait succeeded. */
    method ExecuteSwitch(plan: Plan, name: string) returns (ok: bool)
      requires "" !in native && "" !in plan.stop && "" !in plan.wait && name != ""
      modifies this`native, this`failures, this`blame
      ensures SameBut(old(native), native, plan.stop + plan.wait + {name}) && "" !in native
      ensures NoneRevived(old(native), native, {name})
      ensures ok ==> forall n :: n in plan.wait && n != name ==> At(native, n) == Stopped
      ensures ok && plan.install ==> At(native, name) != Stopped
      ensures ok && !plan.install ==> SameBut(old(native), native, plan.stop + plan.wait)
      ensures Paid(ok) && (OneFailed() ==> blame.Uninstalling? || blame.Awaiting? || blame.Installing?)
    {
      var stopped := StopEach(plan.stop);
      var waited := WaitEach(plan.wait);
      if !stopped || !waited || !plan.install { return stopped && waited; }
      ok := Install(name);
    }

    /** Brings back the predecessors that were active and are down, never the failed target. */
    method RestorePredecessors(stop: set<string>, states: Natives)
      requires "" !in native && "" !in stop
      modifies this`native, this`failures, this`blame
      ensures "" !in native && SameBut(old(native), native, stop) && Paid(true)
      ensures forall n :: At(native, n) != Stopped ==> At(old(native), n) != Stopped || At(states, n) != Stopped
      ensures failures == old(failures) ==>
                forall n :: n in stop && Active(At(states, n)) ==> At(native, n) != Stopped
    {
      var todo := stop;
      while todo != {}
        invariant todo <= stop && "" !in native && SameBut(old(native), native, stop) && Paid(true)
        invariant forall n :: At(native, n) != Stopped ==> At(old(native), n) != Stopped || At(states, n) != Stopped
        invariant failures == old(failures) ==>
                    forall n :: n in stop - todo && Active(At(states, n)) ==> At(native, n) != Stopped
        decreases todo
      {
        var n :| n in todo;
        todo := todo - {n};
        if At(states, n) == Started || At(states, n) == Starting {
          var known := Call(Other);
          if known && At(native, n) == Stopped {
            var loaded := Call(Other);
            if loaded { var restored := Install(n); }
          }
        }
      }
    }

    /** client/manager/ipc_server.go:116-155: plan the switch, carry it out, bring predecessors back if it failed. */
    method SwitchNative(name: string) returns (ok: bool)
      requires Sane(Snap()) && smart.None? && name != ""
      modifies this`native, this`failures, this`blame
      ensures "" !in native && Paid(ok)
      ensures ok ==> OnlyActive(native, name)
      ensures !ok ==> NoneRevived(old(native), native, {name})
      ensures !ok && OneFailed() ==> NativeRollback(old(Snap()), Snap(), name, blame) && !blame.Forgetting?
    {
      var states;
      ok, states := NativeStates(Listing);
      if !ok { return; }
      var plan := PlanNativeSwitch(name, states);
      ok := ExecuteSwitch(plan, name);
      if !ok { RestorePredecessors(plan.stop, states); }
    }

    /** client/manager/ipc_server.go:98-161. */
    method StartNative(name: string) returns (ok: bool)
      requires Sane(Snap())
      modifies this`native, this`desired, this`failures, this`blame
      ensures NativeStartSpec(old(Snap()), Snap(), name, ok) && Paid(ok || smart.Some?)
      ensures !ok && failures == old(failures) ==> Snap() == old(Snap())
      ensures !ok && OneFailed() ==> NativeRollback(old(Snap()), Snap(), name, blame)
    {
      ok := Call(Checking);
      if !ok { return; }
      ok := LoadProfile(name, Checking);
      if !ok { return; }
      if smart.Some? { return false; }
      ok := SwitchNative(name);
      if !ok { return; }
      ok := ClearDesired(Forgetting);
      if !ok { var rolledBack := StopNatives({name}); }
    }

    // ----------------------------------------------------------- smart engine

    /** client/manager/smart_process.go:244-264: the process is reaped even when killing it reported an error. */
    method StopEngine(ghost site: Site) returns (ok: bool)
      modifies this`smart, this`failures, this`blame
      ensures smart == None && (!ok ==> old(smart).Some?)
      ensures PaidAt(ok, site)
    {
      ok := true;
      if smart.Some? {
        smart := None;
        ok := Call(site);
      }
    }

    /**
     client/manager/smart_process.go:413-433: at most one native tunnel may be taken
     over. The states were read before the engine is asked for its name again.
     */
    method FindPredecessor() returns (ok: bool, prior: Option<string>)
      requires Sound(Snap())
      modifies this`smart, this`failures, this`blame, this`races
      ensures if Raced() then old(smart).Some? && smart == None else smart == old(smart)
      ensures ok && !Raced() ==> Predecessor(Snap(), prior)
      ensures ok && Raced() ==> prior == Some(old(smart).value.name)
      ensures PaidAt(ok, Preparing) || (PaidAt(true, Preparing) && !ok && !Raced() && TwoActive(native))
    {
      var states;
      ok, states := NativeStates(Preparing);
      prior := None;
      if !ok { return; }
      EngineMayVanish();
      var todo := states.Keys;
      while todo != {}
        invariant todo <= states.Keys
        invariant prior.Some? ==> prior.value !in todo && Takes(states, smart, prior.value)
        invariant prior.None? ==> forall n :: n in states && n !in todo ==> !Takes(states, smart, n)
        decreases todo
      {
        var n :| n in todo;
        todo := todo - {n};
        var isSmart := smart.Some? && smart.value.name == n;
        if !isSmart && (states[n] == Started || states[n] == Starting) {
          if prior.Some? {
            assert !Raced();
            assert Active(At(native, n)) && Active(At(native, prior.value));
            return false, prior;
          }
          prior := Some(n);
        }
      }
    }

    /** client/manager/smart_process.go:440-461: undo the provisional guard a predecessor must not be left behind. */
    method ReleaseProvisionalGuard(t: Selection, priorNative: Option<string>, priorSmart: Option<Selection>)
      modifies this`guard, this`failures, this`blame
      ensures Paid(true)
      ensures guard in {old(guard), ReleasedGuard(old(guard), t, priorNative.Some?, priorSmart)}
      ensures failures == old(failures) ==> guard == ReleasedGuard(old(guard), t, priorNative.Some?, priorSmart)
    {
      if t.Protected() && (priorNative.Some? || priorSmart.Some?) {
        if priorSmart.Some? && priorSmart.value.Protected() {
          var found := Call(Other);
          if found { var rebound := SetGuard(true, Other); }
        } else {
          var cleared := ClearGuard(Other);
        }
      }
    }

    /** client/manager/smart_process.go:480-586: replace the old engine; publish only after every step held. */
    method Launch(t: Selection, persist: bool) returns (ok: bool)
      requires !t.native && (t.Protected() ==> guard != Off)
      modifies this`smart, this`guard, this`desired, this`failures, this`blame
      ensures ok ==> smart == Some(t) && guard == (if t.Protected() then Bound else Off)
      ensures ok ==> desired == if persist then Some(t) else old(desired)
      ensures PaidAt(ok, Launching)
      ensures !ok ==> smart == None && desired == old(desired)
      ensures !ok && t.Protected() ==> guard != Off
      ensures guard == old(guard) || guard == Bound || (guard == Off && !t.Protected())
    {
      ok := StopEngine(Launching);
      if !ok { return; }
      ok := Call(Launching);             // log file
      if !ok { return; }
      ok := Call(Launching);             // start the process, attach it to the job, wait until it is ready
      if !ok { return; }
      if t.Protected() {
        ok := Call(Launching);           // look up the interface
        if ok { ok := SetGuard(true, Launching); }
      } else {
        ok := ClearGuard(Launching);
      }
      if !ok { return; }                 // the unpublished process is killed
      if persist {
        ok := SaveDesired(t, Launching);
        if !ok { return; }
      }
      smart := Some(t);
    }

    /** client/manager/smart_process.go:462-478, `restoreNative`. */
    method Restore(priorNative: Option<string>, priorSmart: Option<Selection>, ghost depth: nat)
      requires Sound(Snap()) && smart == None && AllStopped(native)
      requires priorSmart.Some? ==> depth >= 1 && !priorSmart.value.native && priorSmart.value.name != ""
      modifies this
      ensures Keeps(old(Snap()), Snap()) && suspended == old(suspended) && Paid(true) && !Raced()
      ensures smart == None || smart == priorSmart
      ensures desired == None || desired == old(desired)
      ensures forall n :: At(native, n) != Stopped ==> priorNative == Some(n)
      ensures priorNative.None? ==> desired == old(desired) && AllStopped(native)
      ensures priorNative.None? && priorSmart.None? ==> guard == old(guard)
      ensures priorNative.None? && old(guard) != Off && (priorSmart.Some? ==> priorSmart.value.Protected()) ==>
                guard != Off
      ensures failures == old(failures) && priorNative.Some? ==>
                smart == None && guard == Off && OnlyActive(native, priorNative.value) && desired == None
      ensures failures == old(failures) && priorNative.None? && priorSmart.Some? ==>
                smart == priorSmart && (guard != Off <==> priorSmart.value.Protected())
      decreases depth, 0
    {
      if priorNative.None? {
        if priorSmart.Some? {
          var restored := SmartStartLocked(priorSmart.value, false, depth - 1);
        }
        return;
      }
      var cleared := ClearGuard(Other);
      var restored := StartNative(priorNative.value);
    }

    /** client/manager/smart_process.go:348-372: settings that need no engine get a native tunnel. */
    method StartFullTunnel(t: Selection, persist: bool, ghost depth: nat) returns (ok: bool)
      requires Sound(Snap()) && t.native && (smart.Some? ==> depth >= 1)
      modifies this
      ensures SmartStartSpec(old(Snap()), Snap(), t, persist, ok, false) && Paid(ok) && !Raced()
      ensures !ok && OneFailed() ==> FullTunnelRollback(old(Snap()), Snap(), t, blame)
      decreases depth, 1
    {
      var previous := smart;
      ok := StopEngine(EngineStop);
      if !ok { return; }
      ok := StartNativeOr(t, previous, depth, old(Snap()));
      if !ok { return; }
      ok := ClearGuard(Unguarding);
      if !ok { return; }
      if persist {
        ok := ClearDesired(Concluding);
        if !ok { var stopped := StopNatives({t.name}); }
      }
    }

    /**
     client/manager/smart_process.go:355-360: the native start, or
     the previous engine again; `w` is the world before.
     */
    method StartNativeOr(t: Selection, previous: Option<Selection>, ghost depth: nat, ghost w: World)
      returns (ok: bool)
      requires Sound(w) && t.native && previous == w.smart && (previous.Some? ==> depth >= 1)
      requires Snap() == w.(smart := None)
      modifies this
      ensures Keeps(w, Snap()) && suspended == w.suspended && Paid(ok) && !Raced()
      ensures ok ==> t.name != "" && smart == None && guard == w.guard && desired == None && OnlyActive(native, t.name)
      ensures !ok ==> (smart == None || smart == w.smart) && (desired == None || desired == w.desired)
      ensures !ok ==> NoneRevived(w.native, native, {t.name})
      ensures !ok && OneFailed() ==> FullTunnelRollback(w, Snap(), t, blame)
      decreases depth, 0
    {
      ok := StartNative(t.name);
      if !ok && previous.Some? {
        assert !TwoActive(native);
        var restored := SmartStartLocked(previous.value, false, depth - 1);
      }
    }

    /**
     client/manager/smart_process.go:344-607. The restore recursion nests at most
     one level: `depth` is one when an engine is attached and may be zero otherwise.
     */
    method SmartStartLocked(t: Selection, persist: bool, ghost depth: nat) returns (ok: bool)
      requires Sound(Snap()) && (smart.Some? ==> depth >= 1)
      modifies this
      ensures SmartStartSpec(old(Snap()), Snap(), t, persist, ok, Raced() && !ok)
      ensures Paid(ok || TwoActive(old(native))) && (Raced() ==> old(smart).Some? && !t.native)
      ensures !ok && failures == old(failures) ==> Snap() == old(Snap())
      ensures !ok && OneFailed() ==> if Raced() then RacedSpec(old(Snap()), Snap(), t, blame)
                                     else RollbackSpec(old(Snap()), Snap(), t, blame)
      decreases depth, 2
    {
      ok := Call(Preparing);
      if !ok { return; }
      if t.native {
        ok := StartFullTunnel(t, persist, depth);
        return;
      }
      var priorNative;
      ok, priorNative := Prepare(t);
      if !ok { return; }
      ok := Switch(t, persist, priorNative, depth);
      if Raced() {
        RacedSwitchIsStart(old(Snap()), Snap(), t, persist, ok);
      } else {
        SwitchIsStart(old(Snap()), Snap(), t, persist, ok, priorNative);
      }
    }

    /** client/manager/smart_process.go:373-439: everything that can be refused before a predecessor is touched. */
    method Prepare(t: Selection) returns (ok: bool, priorNative: Option<string>)
      requires Sound(Snap()) && !t.native
      modifies this`smart, this`guard, this`failures, this`blame, this`races
      ensures var found := if Raced() then old(Snap()).(smart := None) else old(Snap());
              Snap() == if ok then Provisioned(found, t) else found
      ensures Raced() ==> old(smart).Some?
      ensures ok ==> t.name != ""
      ensures ok && !Raced() ==> Predecessor(old(Snap()), priorNative)
      ensures ok && Raced() ==> priorNative == Some(old(smart).value.name)
      ensures PaidAt(ok, Preparing) || (PaidAt(true, Preparing) && !ok && !Raced() && TwoActive(native))
    {
      priorNative := None;
      ok := LoadProfile(t.name, Preparing);
      if !ok { return; }
      ok := Call(Preparing);             // compile, add the probe, write the file, check it with the engine
      if !ok { return; }
      ok, priorNative := FindPredecessor();
      if !ok { return; }
      if t.Protected() {
        ok := SetGuard(false, Preparing);
      }
    }

    /** client/manager/smart_process.go:431-607: the switch itself, once the guard is provisional where one is due. */
    method Switch(t: Selection, persist: bool, priorNative: Option<string>, ghost depth: nat) returns (ok: bool)
      requires Sound(Snap()) && !t.native && t.name != "" && (t.Protected() ==> guard != Off)
      requires smart.Some? ==> depth >= 1 && priorNative.None?
      requires priorNative.Some? ==> priorNative.value != ""
      modifies this
      ensures SwitchSpec(old(Snap()), Snap(), t, persist, ok, priorNative) && Paid(ok) && !Raced()
      ensures !ok && OneFailed() ==> SwitchRollback(old(Snap()), Snap(), t, priorNative, blame)
      decreases depth, 1
    {
      var priorSmart := smart;
      ok := StopAllNatives();
      if !ok {
        ReleaseProvisionalGuard(t, priorNative, priorSmart);
        return;
      }
      EngineMayExit();
      ok := Launch(t, persist);
      if !ok { Restore(priorNative, priorSmart, depth); }
    }

    // ------------------------------------------------------ the public surface

    method SmartStart(name: string, settings: Settings) returns (ok: bool)
      requires Sound(Snap())
      modifies this
      ensures SmartStartSpec(old(Snap()), Snap(), SelectionOf(name, settings), true, ok, Raced() && !ok)
      ensures Paid(ok || TwoActive(old(native))) && (Raced() ==> old(smart).Some?)
      ensures ok && settings.protection == "all" ==> smart.Some? && guard != Off
      ensures ok && smart.Some? ==> smart.value.name == name && smart.value.settings == settings && desired == smart
      ensures ok && smart.None? ==> OnlyActive(native, name) && guard == Off && desired == None
      ensures ok ==> (smart.None? <==> PlainTunnel(settings))
      ensures !ok && failures == old(failures) ==> Snap() == old(Snap())
      ensures !ok && OneFailed() ==> if Raced() then RacedSpec(old(Snap()), Snap(), SelectionOf(name, settings), blame)
                                     else RollbackSpec(old(Snap()), Snap(), SelectionOf(name, settings), blame)
    {
      NativeExactly(settings);
      ok := SmartStartLocked(SelectionOf(name, settings), true, 1);
    }

    /** client/manager/ipc_server.go:163-180. */
    method Stop(name: string) returns (ok: bool, ghost loaded: bool, ghost cleared: bool)
      requires Sound(Snap())
      modifies this
      ensures Sound(Snap()) && StopSpec(old(Snap()), Snap(), name, loaded, cleared)
      ensures Paid(ok)
      ensures ok ==> cleared && (name != "" ==> At(native, name) == Stopped)
      ensures ok ==> smart.None? || smart.value.name != name
      ensures ok && old(smart).Some? && old(smart).value.name == name ==> guard == Off
      ensures failures == old(failures) && old(desired).Some? && old(desired).value.name == name ==> guard == Off
      ensures failures == old(failures) ==> loaded
      ensures ok && desired.Some? ==> !SameName(desired.value.name, name)
    {
      var read := Call(Other);
      loaded := read;
      var known := read && desired.Some?;
      var wasSmart := smart.Some? && smart.value.name == name;
      var clearProtection := wasSmart || (known && desired.value.name == name);
      var desiredOk := ClearDesiredFor(name);
      var smartOk := true;
      if wasSmart { smartOk := StopEngine(Other); }
      var nativeOk := true;
      if name != "" { nativeOk := StopNatives({name}); }
      var guardOk := true;
      cleared := true;
      if clearProtection {
        guardOk := ClearGuard(Other);
        cleared := guardOk;
      }
      ok := desiredOk && smartOk && nativeOk && guardOk;
    }

    /** client/manager/smart_desired.go:167-183: the name is compared without regard to case. */
    method ClearDesiredFor(name: string) returns (ok: bool)
      modifies this`desired, this`failures, this`blame
      ensures desired == old(desired)
              || (old(desired).Some? && SameName(old(desired).value.name, name) && desired == None)
      ensures ok ==> desired.None? || !SameName(desired.value.name, name)
      ensures Paid(ok)
    {
      ok := Call(Other);
      if !ok || desired.None? || !SameName(desired.value.name, name) { return; }
      ok := ClearDesired(Other);
    }

    /** client/manager/smart_process.go:609-619. */
    method SmartStop() returns (ok: bool)
      requires Sound(Snap())
      modifies this
      ensures Keeps(old(Snap()), Snap()) && SmartStopSpec(old(Snap()), Snap())
      ensures ok ==> guard == Off && desired == None
      ensures Paid(ok)
    {
      var desiredOk := ClearDesired(Other);
      var stopOk := StopEngine(Other);
      var guardOk := ClearGuard(Other);
      ok := desiredOk && stopOk && guardOk;
    }

    /** client/manager/smart_supervisor.go:499-509. */
    method Pause() returns (ok: bool, ghost stopped: bool)
      requires Sound(Snap())
      modifies this`smart, this`suspended, this`failures, this`blame
      ensures Keeps(old(Snap()), Snap()) && PauseSpec(old(Snap()), Snap(), stopped)
      ensures ok && desired.Some? ==> stopped
      ensures Paid(ok)
    {
      suspended := true;
      stopped := false;
      ok := Call(Other);
      if !ok || desired.None? { return; }
      ok := StopEngine(Other);
      stopped := true;
    }

    // ---------------------------------------------------------------- recovery

    /** client/manager/smart_supervisor.go:441-448: one candidate; `unsaved` when it started but was not persisted. */
    method TryCandidate(name: string, d: Selection) returns (ok: bool, ghost unsaved: bool, ghost raced: bool)
      requires Sound(Snap()) && !d.native
      modifies this
      ensures CandidateSpec(old(Snap()), Snap(), d, name, ok, unsaved, raced)
      ensures Paid(ok || TwoActive(old(native))) && (raced ==> Raced())
    {
      var t := d.(name := name);
      ok := SmartStartLocked(t, false, 1);
      unsaved, raced := false, Raced() && !ok;
      if ok && name != d.name {
        ok := SaveDesired(t, Other);
        unsaved := !ok;
      }
    }

    /** client/manager/fallback.go:12-29: the primary, then each fallback once, until one starts. */
    method TryCandidates(d: Selection)
      returns (ok: bool, tried: seq<string>, ghost unsaved: bool, ghost raced: bool)
      requires Sound(Snap()) && desired == Some(d) && !d.native
      modifies this
      ensures RoundSpec(old(Snap()), Snap(), d, unsaved, raced) && (unsaved ==> !ok) && (raced ==> Raced())
      ensures RoundTried(d, tried, ok)
      ensures ok ==> smart == Some(d.(name := tried[|tried| - 1])) && desired == smart
      ensures failures == old(failures) && !TwoActive(old(native)) ==> ok && smart == Some(d)
      ensures failures <= old(failures) + 1 && SingleUp(old(native)) && HasFallback(d) ==> ok
    {
      tried := [d.name];
      TracksFirst(d, {Lower(d.name)});
      if HasFallback(d) { FallbackIsSecond(d); }
      ok, unsaved, raced := TryCandidate(d.name, d);
      RoundContinues(old(Snap()), old(Snap()), Snap(), d, d.name, ok, false, false, unsaved, raced);
      if SingleUp(old(native)) { CandidateKeepsSingleUp(old(Snap()), Snap(), d, d.name, ok, unsaved, raced); }
      if ok { return; }
      ok, tried, unsaved, raced := TryFallbacks(d, old(Snap()), unsaved, raced);
    }

    /** The rest of a round that began in `w`, once the primary has failed. */
    method TryFallbacks(d: Selection, ghost w: World, ghost lost: bool, ghost raced0: bool)
      returns (ok: bool, tried: seq<string>, ghost unsaved: bool, ghost raced: bool)
      requires Sound(Snap()) && !d.native && RoundSpec(w, Snap(), d, lost, raced0)
      modifies this
      ensures RoundSpec(w, Snap(), d, unsaved, raced) && (unsaved ==> !ok) && (raced ==> raced0 || Raced())
      ensures RoundTried(d, tried, ok)
      ensures ok ==> smart == Some(d.(name := tried[|tried| - 1])) && desired == smart
      ensures Paid(true) && (old(SingleUp(native)) && !ok ==> failures >= old(failures) + |tried| - 1)
    {
      ok, tried, unsaved, raced := false, [d.name], lost, raced0;
      var names := AllNames(d);
      var seen := {Lower(d.name)};
      TracksFirst(d, seen);
      for i := 1 to |names|
        invariant RoundSpec(w, Snap(), d, unsaved, raced) && !ok && (raced ==> raced0 || Raced())
        invariant Tracks(names, i, tried, seen) && Paid(true)
        invariant old(SingleUp(native)) ==> SingleUp(native) && failures >= old(failures) + |tried| - 1
      {
        ok, tried, seen, unsaved, raced := TryFallback(d, names, i, tried, seen, w, unsaved, raced);
        if ok {
          TracksSoFar(d, i + 1, tried, seen, true);
          return;
        }
      }
      TracksSoFar(d, |names|, tried, seen, false);
    }

    /** The next fallback, unless its name was already tried. */
    method TryFallback(
      d: Selection, names: seq<string>, i: nat, tried0: seq<string>, seen0: set<string>,
      ghost w: World, ghost lost: bool, ghost raced0: bool)
      returns (ok: bool, tried: seq<string>, seen: set<string>, ghost unsaved: bool, ghost raced: bool)
      requires Sound(Snap()) && !d.native && RoundSpec(w, Snap(), d, lost, raced0)
      requires names == AllNames(d) && 1 <= i < |names| && Tracks(names, i, tried0, seen0)
      modifies this
      ensures RoundSpec(w, Snap(), d, unsaved, raced) && (ok ==> !unsaved) && (raced ==> raced0 || Raced())
      ensures Tracks(names, i + 1, tried, seen) && tried0 <= tried
      ensures ok ==> tried != [] && smart == Some(d.(name := tried[|tried| - 1])) && desired == smart
      ensures Paid(true) && (old(SingleUp(native)) ==> SingleUp(native))
      ensures old(SingleUp(native)) && !ok ==> failures >= old(failures) + |tried| - |tried0|
    {
      var name := names[i];
      assert name in d.settings.fallbackProfiles && Lower(names[0]) in seen0;
      ok, tried, seen, unsaved, raced := false, tried0, seen0, lost, raced0;
      TracksNext(names, i, tried, seen);
      if Lower(name) in seen {
        assert seen + {Lower(name)} == seen;
        return;
      }
      seen := seen + {Lower(name)};
      tried := tried + [name];
      ok, unsaved, raced := TryCandidate(name, d);
      RoundContinues(w, old(Snap()), Snap(), d, name, ok, lost, raced0, unsaved, raced);
      if old(SingleUp(native)) { CandidateKeepsSingleUp(old(Snap()), Snap(), d, name, ok, unsaved, raced); }
      unsaved, raced := !ok && (lost || unsaved), raced0 || raced;
    }

    /**
     client/manager/smart_supervisor.go:419-450; `interfaceUp` is what the network
     stack says of the engine's interface.
     */
    method Recover(force: bool, interfaceUp: bool) returns (ok: bool, ghost unsaved: bool, ghost raced: bool)
      requires Sound(Snap())
      modifies this
      ensures RecoverSpec(old(Snap()), Snap(), ok, unsaved, raced) && (raced ==> Raced())
      ensures !force && Healthy(old(Snap()), interfaceUp) ==> Snap() == old(Snap())
      ensures failures == old(failures) && !suspended && Recoverable(old(Snap())) ==> ok
      ensures failures == old(failures) && !suspended && Recoverable(old(Snap()))
              && (force || !Healthy(old(Snap()), interfaceUp)) ==>
                smart == old(desired) && desired == old(desired)
    {
      unsaved, raced := false, false;
      if suspended { return false, unsaved, raced; }
      ok := Call(Other);
      if !ok || desired.None? { return; }
      ok := Call(Other);                 // a physical network is up
      if !ok { return; }
      var d := desired.value;
      if !force && interfaceUp && smart.Some? && SameName(smart.value.name, d.name) { return; }
      var tried;
      ok, tried, unsaved, raced := TryCandidates(d);
    }
  }
}
