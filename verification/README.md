# Verification model of Pinus Smart AWG

A Dafny model of the parts of the Pinus Smart AWG client whose correctness
spans several functions or a whole run, with proofs.

* **Routing policy** (`Options`, `Text`, `Addresses`, `Policy`, `Compiler`, `Explain`,
  `PolicyTheorems`, `PolicyGuarantees`, `PolicyMeaning`, `Disconnect`, `SettingsNormal`). `BuildConfig` compiles
  routing settings into first-match rule lists; `ExplainRoute` interprets the same
  settings directly. The main theorem is that the two decide every ordinary
  connection alike, with the exact condition under which the compiler rejects.
  `PolicyMeaning` then says where each connection goes without using anything the
  two share.
* **Tunnel lifecycle** (`Lifecycle`, `LifecycleRuns`). The manager is a class whose
  methods are the sections run under the lifecycle lock. Each external call may
  fail, and records that it did and which call it was; nothing else writes that
  record. Each method promises what holds whatever failed, success when nothing
  did, and, for the starts, exactly what is restored by the one call that failed.
  The run lemmas reason about every sequence of operations, crashes and
  suspends.
* **Recovery supervisor and power events** (`Supervisor`, `Power`). The event loop
  against a step function; suspend and resume as an interleaving of lock-protected
  sections.
* **Smaller state machines** (`RingLog`, `GlobalWrite`, `Tokens`, `AllowedIps`,
  `Catalog`, `Notifications`).

`dafny verify dfyconfig.toml` checks the project.

## Assumptions

* The engine tries rules in order; the first match that routes, rejects or hijacks
  decides; the domain and suffix lists of one rule are alternatives; a missing
  attribute never matches; executable names compare without regard to case. The
  engine itself is not part of this model.
* Connections carry clean process paths and normalised domains. Letter case and
  white space are the ASCII ones.
* Firewall updates are transactions (`core/tunnel/firewall/preview_guard.go`), so a
  failed one leaves the guard as it was. A killed engine is reaped before its stop
  returns, so it is gone even when killing it reported an error.
* The engine may exit inside a section. The model lets it where two looks of the
  section at it can disagree, and before the old engine is replaced; at any other
  point the section cannot tell that from an exit just before or after it.
* Every native tunnel service that is up is configured or tracked, and no service
  starts without the manager.
* Hashes, signatures and ciphers are injective or verifying; random tokens do not
  repeat; the token server's clock does not run backwards.

## Properties that do not hold

* `Stop` can leave a protected engine without its guard: it clears the guard when
  the name is that of the desired state even if another profile's engine is running
  (`StopCanDropTheGuard`). `StepKeepsGuard` shows this is the only step that does.
* A start that fails does not always leave things as they were, even when only one
  call failed. Which call it was decides: a running engine is lost by a full-tunnel
  start exactly when stopping it failed, or clearing the guard or the desired state
  after the native start (`EngineSurvivesFullTunnel`); a native predecessor is lost
  by an engine start exactly when a service could not be stopped, unless that was its
  own and it is still there (`NativeSurvivesFailedStart`), and by a native one exactly
  when the new tunnel had already come up (`NativeSurvivesFailedSwitch`,
  `NativeSurvivesFullTunnel`). `FullTunnelCanLoseEngine`, `SwitchCanLoseNative` and
  `FullTunnelCanLoseNative` give an outcome for each such call.
* The guard does not survive every recovery. The states of the tunnels are read
  before the engine is asked for its profile again; if a protected engine exits in
  between, its profile passes for a native predecessor, and any call that fails
  after the guard was made provisional clears the guard; a failing launch brings the
  profile up natively and forgets the desired state (`RaceUnlocks`,
  `RacedRecoveryCanDropTheGuard`). `GuardSurvivesRecoveries` covers every other run.
* The dashboard can keep a tunnel that nothing uses: exactly when no service is
  selected, no group is on and all the enabled tunnel rules are shadowed by earlier rules
  (`DisconnectExactly`, `ShadowedRuleKeepsTunnel`).
* The catalog's protection against rollback is in memory. An update can set the
  stored catalog back exactly when memory has fallen behind the disk
  (`StoredSafeExactlyWhenCaughtUp`), which a start that cannot read a cache newer
  than the bundled catalog brings about (`CaughtUpAfter`,
  `UnreadableCacheAllowsRollback`).
* A log reader loses lines exactly when some poll finds 2048 or more new ones, or
  more than 2048 on its first poll (`SessionIsComplete`). A zero timestamp would
  stop a resuming poll (`StampedExactly`), but the only caller stamps lines with
  the current time, so none arises with sequential writers.

## Model

| member | source | states |
|---|---|---|
| Compiler.BuildRegionalRules | client/smart/regional.go:103-122 | each regional group becomes a process rule and a domain rule with the same outbound, in catalog order |
| Compiler.BuildServiceRules | client/smart/smart.go:356-405 | the loop that merges the selected services computes the specified deduplicated lists; `MergedServicesDecide` says what they mean |
| Compiler.DetectProfileFamilies | client/smart/smart.go:250-277 | a family is carried exactly when the interface has an address of it and some peer a default route |
| Compiler.DnsServers | client/smart/smart.go:297-328 | never empty; tags and addresses pairwise distinct; only carried families; every carried resolver of the profile is used, its first one first, and 1.1.1.1 and 2606:4700:4700::1111 only when the profile has none |
| Compiler.FallbackResolver | client/smart/smart.go:427-440 | the first IPv4 server, or else the first server |
| Compiler.BuildDnsRules | client/smart/dns_policy.go:6-32 | the DNS list is derived from the custom domain rules and the regional domain rules, in their order |
| Compiler.CheckEndpoint | client/smart/smart.go:147-178 | which profiles are refused before compilation, and with which error |
| Compiler.BuildConfig | client/smart/smart.go:407-530 | succeeds exactly for buildable profiles; emits the specified rule lists; every DNS tag it references is defined, tags are distinct, every server reached through the tunnel has a carried family, and no strategy asks for an uncarried one |
| Compiler.AddDiagnosticInbound | client/smart/probe.go:10-33 | refuses bad listeners; afterwards every probe connection reaches the tunnel and every other connection keeps its verdict |
| Compiler.ServersOfComplete | client/smart/smart.go:313-318 | an address is used exactly when the profile lists it and the family is carried |
| Explain.ExplainRoute | client/smart/explain.go:36-146 | answers exactly the well-formed, non-empty queries; the first hit decides and all hits are listed in priority order |
| Explain.TryService | client/smart/explain.go:91-109 | a service is recorded exactly when a process name, a domain or a suffix of it matches |
| PolicyTheorems.NamesAgree | client/smart/explain.go:93-95 | an unknown application is "." to the interpreter and never matches an executable name, as in the engine |
| PolicyTheorems.SuffixesAgree | client/smart/regional.go:110-113 | a suffix entry plus its root entry match what the interpreter's suffix test matches |
| PolicyTheorems.CustomRulesAgree | client/smart/smart.go:330-354 | the compiled custom rules decide as the interpreter's custom hits do |
| PolicyTheorems.RegionalAgrees | client/smart/regional.go:103-122 | splitting a group into two rules decides as matching it whole does |
| PolicyTheorems.MergedServicesDecide | client/smart/smart.go:356-405 | the merged, deduplicated rules match exactly the connections some selected service matches |
| PolicyTheorems.GuardsDecide | client/smart/smart.go:477-482 | the family guards reject exactly the uncarried families |
| PolicyTheorems.CompilerAgreesWithInterpreter | client/smart/smart.go:447-483 | compiler correctness: compiled verdict and interpreter target agree for all normalised settings, catalogs, profiles and non-DNS connections, except for the exact family rejection |
| PolicyTheorems.CompareCompilerAndInterpreter | client/smart/explain.go:34-36 | the same about the two programs run on one connection, error paths included |
| PolicyGuarantees.DirectNeedsAReason | client/smart/smart.go:473-482 | full tunnel: a direct verdict needs a matching enabled direct rule, a switched-off group or a LAN address |
| PolicyGuarantees.RejectedExactly | client/smart/smart.go:473-482 | full tunnel: rejected exactly when nothing mentions the connection and its family is uncarried |
| PolicyGuarantees.DnsFollowsRules | client/smart/dns_policy.go:6-32 | the resolver for a domain is the one the custom and regional rules decide, else the tunnel's |
| PolicyGuarantees.DnsAgreesWithRoute | client/smart/dns_policy.go:3-32 | direct DNS implies direct route in both modes, and conversely in full-tunnel mode |
| PolicyGuarantees.NativeTunnelAgrees | client/manager/smart_process.go:323-325 | when the native shortcut is taken, the compiled policy would tunnel every non-LAN connection of a carried family |
| PolicyGuarantees.ToggleIsLocal | client/smart/regional.go:57-94 | a toggle sets its own group in its own mode and nothing else |
| PolicyMeaning.SelectedExactly | client/smart/policy_snapshot.go:45-60 | the compiled services are exactly those of the catalog whose id is selected |
| PolicyMeaning.SelectedInOrder | client/smart/policy_snapshot.go:45-60 | and come in catalog order |
| PolicyMeaning.LocalExactly | client/smart/smart.go:221-233 | the LAN bypass is exactly the eleven address ranges, first to last address |
| PolicyMeaning.RuleMatchesExactly | client/smart/explain.go:68-89 | when a rule of the user's own matches, by program, domain or address |
| PolicyMeaning.ServiceMatchesExactly | client/smart/explain.go:91-109 | when a service matches, by program, domain or suffix |
| PolicyMeaning.RuleRoutes | client/smart/smart.go:457-461 | the first matching enabled rule decides and is the one named |
| PolicyMeaning.GroupRoutes | client/smart/regional.go:57-77 | failing that, the first matching group goes where the user sent it, one never touched where the mode sends everything else |
| PolicyMeaning.LocalRoutes | client/smart/smart.go:463 | failing that, local addresses go direct |
| PolicyMeaning.SelectedRoutes | client/smart/smart.go:465-472 | failing that, in selected mode the tunnel takes exactly the selected services that match and the two update hosts |
| PolicyMeaning.FullTunnelRoutes | client/smart/smart.go:473-482 | failing that, in full-tunnel mode it takes everything of a carried family, and the rest is rejected |
| PolicyMeaning.DnsIsHijacked | client/smart/smart.go:447-456 | every DNS connection is hijacked, whatever the rules |
| PolicyMeaning.ListedExactly | client/smart/explain.go:60-146 | an explanation lists a rule, group, service, the LAN or the updates exactly when it matches |
| Disconnect.DisconnectLosesNothing | client/ui/dashboard.go:646-660 | when the dashboard disconnects, only the two preset hosts would have used the tunnel and nothing would have been rejected |
| Disconnect.DisconnectDecision | client/ui/dashboard.go:842-867 | the same from raw settings, whatever they are: the decision is made on what normalisation accepted |
| Disconnect.DisconnectExactly | client/ui/dashboard.go:646-660 | for all normalised settings: it disconnects if and only if no catalog, profile or connection would have used the tunnel, preset hosts aside, exactly unless only shadowed tunnel rules are left |
| Disconnect.TunnelsNothingExactly | client/smart/smart.go:447-483 | the policy tunnels something if and only if the mode, a selected service, a group or an unshadowed tunnel rule does |
| Disconnect.FirstRuleTunnels | client/smart/smart.go:330-354 | a tunnel rule ahead of all other enabled rules is never shadowed |
| Disconnect.ShadowedRuleKeepsTunnel | client/ui/dashboard.go:646-660 | a direct rule ahead of a tunnel rule for the same thing: the dashboard keeps the tunnel, nothing uses it |
| SettingsNormal.KeepKnown | client/smart/settings.go:291-304 | the loop that cleans, filters and deduplicates the selected services |
| SettingsNormal.Normalized | client/smart/settings.go:258-321 | accepts exactly the valid settings, given a catalog that verifies, and says why not in the source's order; fixes version and mode; everything else is kept |
| SettingsNormal.SelectionIsIdempotent | client/smart/settings.go:291-304 | the selection is distinct, known and its own normal form |
| SettingsNormal.KnownIdsMembers | client/smart/settings.go:291-304 | a known service is selected exactly when some entry names it, without regard to case or padding |
| SettingsNormal.KnownIdsInOrder | client/smart/settings.go:296-304 | in order of first mention |
| SettingsNormal.MigrationExactly | client/smart/settings.go:282-284 | an older version gains the AI services exactly when its selection is the four old defaults, and nothing else changes |
| SettingsNormal.FirstMigration | client/smart/settings.go:274-281 | settings without a version get the defaults exactly when nothing was selected or the mode is a legacy one |
| SettingsNormal.ModeExactly | client/smart/settings.go:113-124 | which names mean selected mode, in any case and with any padding |
| SettingsNormal.MigrationHappensOnce | client/smart/settings.go:273-285 | normalised settings trigger no migration |
| Lifecycle.PlanNativeSwitch | client/manager/native_switch.go:24-45 | stops every other tunnel that is up, waits for those and a stopping target, installs exactly when the target is down or going down |
| Lifecycle.Manager.ExecuteSwitch | client/manager/native_switch.go:47-63 | installs only after every stop and wait succeeded |
| Lifecycle.Manager.StopNatives | client/manager/native_switch.go:98-122 | success means all named tunnels are down; nothing else changes and nothing comes up |
| Lifecycle.Manager.StopAllNatives | client/manager/native_switch.go:130-144 | success means every native tunnel is down; after one failing call, what is still up, by that call |
| Lifecycle.Manager.RestorePredecessors | client/manager/ipc_server.go:127-153 | brings back only tunnels that were active before, and all of them when no call fails |
| Lifecycle.Manager.SwitchNative | client/manager/ipc_server.go:116-153 | executes the plan, or restores every predecessor when one call of it failed |
| Lifecycle.Manager.StartNative | client/manager/ipc_server.go:98-161 | refuses while an engine runs; success leaves only the target up and no desired state; after one failing call every predecessor is up again, or nothing is when that call was clearing the desired state |
| Lifecycle.Manager.ReleaseProvisionalGuard | client/manager/smart_process.go:440-461 | takes the provisional guard back exactly from an unprotected predecessor and rebinds it for a protected one |
| Lifecycle.Manager.Launch | client/manager/smart_process.go:480-586 | publishes only after guard and desired state are in place; failure leaves no engine |
| Lifecycle.Manager.Restore | client/manager/smart_process.go:462-478 | brings back the native or engine predecessor with its guard and desired state when no further call fails; leaves at most the predecessor in any case |
| Lifecycle.Manager.StartFullTunnel | client/manager/smart_process.go:348-372 | the transaction for settings that need no engine, and what each single failing call leaves behind |
| Lifecycle.Manager.StartNativeOr | client/manager/smart_process.go:355-360 | starts the native tunnel, or the previous engine again with its guard and desired state |
| Lifecycle.Manager.Prepare | client/manager/smart_process.go:373-439 | whatever can be refused is refused before a predecessor is touched; finds the native predecessor exactly, or the engine's own profile when the engine exits between the two looks |
| Lifecycle.Manager.Switch | client/manager/smart_process.go:435-604 | stops the native tunnels and launches the engine, or rolls back to exactly the state that the one call that failed determines |
| Lifecycle.Manager.SmartStartLocked | client/manager/smart_process.go:344-607 | transactional start: guard and exclusivity kept, restore recursion at most one level deep, success when no call fails, exact rollback by the call that failed, raced or not |
| Lifecycle.Manager.SmartStart | client/manager/smart_process.go:327-342 | the same for a user's start, which persists the desired state; from the raw settings: protection means an engine behind an armed guard, and no engine runs exactly when the settings ask for nothing an ordinary tunnel does not do |
| Lifecycle.NativeExactly | client/manager/smart_process.go:323-325 | the native shortcut is taken exactly for full tunnel, no enabled rule, no group switched off, no protection and no fallback |
| Lifecycle.EngineSurvivesFailedStart | client/manager/smart_process.go:440-478 | after one fault in an engine start the engine that ran before runs, guarded and desired as before |
| Lifecycle.EngineSurvivesFullTunnel | client/manager/smart_process.go:348-372 | after one failing call of a full-tunnel start it runs if and only if that call was not the engine's stop nor one of the two after the native start |
| Lifecycle.NativeSurvivesFailedStart | client/manager/smart_process.go:440-478 | after one failing call of an engine start the native predecessor is up if and only if no service failed to stop, or its own did and is still there; no guard is left where there was none |
| Lifecycle.NativeSurvivesFailedSwitch | client/manager/ipc_server.go:116-160 | after one failing call of a native start a predecessor is up if and only if that call was not clearing the desired state |
| Lifecycle.NativeSurvivesFullTunnel | client/manager/smart_process.go:348-372 | the same for a full-tunnel start, with its two later calls |
| Lifecycle.FullTunnelCanLoseEngine | client/manager/smart_process.go:348-372 | for any engine and full tunnel, an outcome of each losing call |
| Lifecycle.SwitchCanLoseNative | client/manager/smart_process.go:440-461 | for any engine start over a native predecessor, an outcome that loses it to a failed stop |
| Lifecycle.FullTunnelCanLoseNative | client/manager/ipc_server.go:156-160 | for any full tunnel over a native predecessor, an outcome of each losing call |
| Lifecycle.RaceUnlocks | client/manager/smart_process.go:413-478 | after a race one failing call clears the guard if and only if it came after the preparations, and starts the profile natively if and only if it was the launch |
| Lifecycle.Manager.Stop | client/manager/ipc_server.go:163-180 | exactly which engine, guard and desired state go, by which call succeeded; when all did, the profile is down and a guard it held is off |
| Lifecycle.Manager.SmartStop | client/manager/smart_process.go:609-619 | no engine afterwards; guard and desired state cleared unless the call failed |
| Lifecycle.Manager.Pause | client/manager/smart_supervisor.go:499-509 | stops the engine when a desired state is readable and leaves the guard alone |
| Lifecycle.Manager.TryCandidates | client/manager/fallback.go:12-29 | tries the primary and the fallbacks in the order listed, each name once without regard to case, all of them before giving up; succeeds when at most one call fails and there is a fallback; what runs afterwards bears one of these names |
| Lifecycle.CandidatesMeaning | client/manager/fallback.go:13-21 | the names to try are distinct without regard to case, cover every listed name and start with the primary |
| Lifecycle.Manager.Recover | client/manager/smart_supervisor.go:419-450 | idle while suspended, without desired state or, unless forced, while healthy; otherwise brings the desired engine back when no call fails; leaves nothing, the old engine or one with the desired settings in any case; an armed lock stays armed unless a start fails after a race |
| LifecycleRuns.EngineExclusivity | client/manager/smart_process.go:344-607 | over every run an engine and a native tunnel are never both up when the lock is free |
| LifecycleRuns.StepKeepsGuard | client/manager/smart_process.go:554-604 | a step leaves a protected engine unguarded exactly when it is a `Stop` of the desired profile while another protected engine runs |
| LifecycleRuns.KillSwitchHolds | client/manager/smart_process.go:435-478 | over every run without such a `Stop`, a protected engine is always guarded |
| LifecycleRuns.StepKeepsAlignment | client/manager/fallback.go:12-29 | only a recovery that started a fallback and could not persist it parts the engine from the desired state |
| LifecycleRuns.PersistedRunsKeepTheGuard | client/manager/ipc_server.go:163-180 | over every run in which each started fallback was persisted, no `Stop` drops a guard |
| LifecycleRuns.StopCanDropTheGuard | client/manager/ipc_server.go:163-180 | the run that does, for any settings with a fallback: the fallback starts, cannot be persisted, and the primary is stopped |
| LifecycleRuns.GuardSurvivesRecoveries | client/manager/smart_supervisor.go:419-450 | after a protected engine ran, the guard stays armed through any crashes, suspends and failed recoveries, none of which fails a start after a race |
| LifecycleRuns.RacedRecoveryCanDropTheGuard | client/manager/smart_process.go:413-478 | from any state with a protected engine, the recovery that loses the guard |
| LifecycleRuns.SuspendedRecoveryIsIdle | client/manager/smart_supervisor.go:419-424 | while suspended no recovery starts an engine |
| Supervisor.Loop.Enqueue | client/manager/smart_supervisor.go:169-191 | merges a request: force is kept, the due time only moves earlier, the timer is armed exactly while something is pending |
| Supervisor.Loop.OnTick | client/manager/smart_supervisor.go:201-235 | one poll computes the specified next state |
| Supervisor.Loop.OnTimer | client/manager/smart_supervisor.go:236-249 | one recovery attempt, its backoff and its retry |
| Supervisor.Loop.Run | client/manager/smart_supervisor.go:144-255 | the whole loop computes the specified trace and recovery calls |
| Supervisor.HealthInvariantHolds | client/manager/smart_supervisor.go:231-235 | enough unhealthy polls are never without a pending recovery, in every reachable state |
| Supervisor.UnhealthyPollsRecover | client/manager/smart_supervisor.go:222-235 | enough consecutive unhealthy polls end with a recovery pending or already attempted |
| Supervisor.NoCallWithoutCause | client/manager/smart_supervisor.go:144-255 | without a request, a network change or a streak of unhealthy polls up to the threshold, no recovery is attempted; a healthy, offline or unwanted poll ends a streak |
| Supervisor.ResetCallsOff | client/manager/smart_supervisor.go:197-200 | a reset calls off whatever is pending until there is a new cause |
| Supervisor.ThresholdAsksAtOnce | client/manager/smart_supervisor.go:231-235 | the poll that completes the streak asks at once and without force |
| Supervisor.NetworkChangeForces | client/manager/smart_supervisor.go:201-211 | of two readings in a row the second forces a recovery exactly when the network came back or is another one |
| Supervisor.InitialReading | client/manager/smart_supervisor.go:144-160 | the first reading counts the same unless it failed |
| Supervisor.FirstReasonIsReported | client/manager/smart_supervisor.go:169-180 | the first reason given is reported until a recovery succeeds |
| Supervisor.DueIsEarliest | client/manager/smart_supervisor.go:169-191 | while pending, the due time is the minimum over all merged requests |
| Supervisor.ForcedIsAccepted | client/manager/smart_supervisor.go:171-175 | a forced request leaves a forced recovery pending, whatever was pending before |
| Supervisor.ForcedUntilSuccess | client/manager/smart_supervisor.go:236-249 | once forced, every call is forced until one succeeds, across retries, absent a reset |
| Supervisor.PollsRespectBackoff | client/manager/smart_supervisor.go:231-235 | polls on an unchanged network never bring a pending retry forward |
| Supervisor.BackoffIsMonotone | client/manager/smart_supervisor.go:63-79 | delays grow with the attempts from one second to one minute |
| Supervisor.RetriesBackOff | client/manager/smart_supervisor.go:236-249 | over any run without success or reset, the retry after the n-th failure is due after the n-th delay of the table |
| Supervisor.BackoffTable | client/manager/smart_supervisor.go:63-79 | 1, 2, 5, 10, 30 and then 60 seconds |
| Supervisor.GoodNewsStartsOver | client/manager/smart_supervisor.go:212-249 | after a success, a reset or a restful poll the next failure waits one second again |
| Supervisor.DefaultsExactly | client/manager/smart_supervisor.go:81-93 | by default two unhealthy polls in a row ask, and a changed network settles for 2.5 seconds |
| Supervisor.SelectDefaultRoutes | client/manager/smart_supervisor.go:273-290 | selects exactly the interfaces of the eligible candidates of lowest metric |
| Power.Dispatcher.HandleEvent | client/manager/power_events.go:13-43 | handles exactly the three power events and sets the suspended flag to the last one |
| Power.Dispatcher.RunPause | client/manager/power_events.go:22-31 | a queued pause goes through exactly when no power event came after it |
| Power.PauseTakesEffect | client/manager/power_events.go:22-31 | with the 64-bit counter: exactly when the number of later power events is a multiple of 2^64 |
| Power.SuspendedIsLastEvent | client/manager/power_events.go:13-43 | over every interleaving, suspended means the last power event was a suspend |
| Power.NoStartUntilResume | client/manager/smart_supervisor.go:419-424 | after a completed pause no recovery pass begins and no engine returns before a resume |
| Power.EverySuspendIsHonoured | client/manager/power_events.go:16-31 | in every interleaving the pause of the latest suspend is queued, under way or done |
| Power.RecoveryAfterResume | client/manager/smart_supervisor.go:419-424 | once the last event was a resume, a recovery pass begins and can bring the engine back |
| RingLog.FillLine | client/ringlogger/ringlogger.go:144-160 | the slot holds the tag-prefixed, truncated text and zeros after it |
| RingLog.LineReadsBack | client/ringlogger/ringlogger.go:225-227 | a NUL-free line reads back as its tag-prefixed truncation |
| RingLog.LineTextExactly | client/ringlogger/ringlogger.go:149-160 | the text is the tag in brackets, a space and the message, cut at 511 bytes |
| RingLog.MessageExactly | client/ringlogger/ringlogger.go:129-133 | the message is what stands between the white space; white space alone logs nothing |
| RingLog.ShownExactly | client/ringlogger/ringlogger.go:225-228 | a reader sees each NUL-free line as written, with its timestamp |
| RingLog.RingAppend | client/ringlogger/ringlogger.go:139-161 | writing one slot keeps the ring equal to the last 2048 entries of the log |
| RingLog.LogMem.WriteWithTimestamp | client/ringlogger/ringlogger.go:125-164 | appends one entry to the unbounded log, or nothing for blank input, across index wrap-around |
| RingLog.LogMem.FollowFrom | client/ringlogger/ringlogger.go:198-233 | from any cursor: the lines between it and the end of the log, modulo the ring size, up to the first zero timestamp, and the exact next cursor |
| RingLog.LogMem.FollowAll | client/ringlogger/ringlogger.go:198-233 | the first poll returns every stamped line still held, oldest first, and the cursor behind the last |
| RingLog.LogMem.FollowFromCursor | client/ringlogger/ringlogger.go:198-233 | both kinds of poll against one specification of the lines shown and the cursor returned |
| RingLog.Reader.Poll | client/ui/logpage.go:184-194 | the reader that keeps the returned cursor: a poll in time shows exactly the lines written since the last one and catches up |
| RingLog.PollCatchesUp | client/ringlogger/ringlogger.go:207-231 | a poll always catches up, and misses nothing if and only if it comes in time |
| RingLog.StampedExactly | client/ringlogger/ringlogger.go:217-224 | a resuming poll shows all there is exactly when none of it has a zero timestamp |
| RingLog.SessionIsComplete | client/ui/logpage.go:184-194 | threading the cursor from the all-cursor on, over any number of polls, every line is shown once and in order if and only if every poll came in time |
| GlobalWrite.Assembler.Turn | client/ringlogger/global.go:41-61 | one turn of the loop conserves bytes and makes progress, even from a full buffer |
| GlobalWrite.Assembler.Write | client/ringlogger/global.go:39-63 | chunks followed by buffer equal all input; no overflow, no retained newline, chunks leave only full or with a newline; terminates |
| GlobalWrite.ChunkFitsLine | client/ringlogger/global.go:33-36 | no chunk of the assembler is truncated by the ring |
| GlobalWrite.BufferIsLargest | client/ringlogger/global.go:33-36 | one byte more would no longer fit behind the longest tag |
| Tokens.TokenStore.Issue | server-preview/pinus_import.py:61-81 | validation, purge, supersession and insertion as one transaction |
| Tokens.TokenStore.Revoke | server-preview/pinus_import.py:83-89 | drops the rows of the owner, or of one profile |
| Tokens.TokenStore.Claim | server-preview/pinus_import.py:91-103 | deletes the row in any case and answers only before expiry |
| Tokens.OneLinkPerProfile | server-preview/pinus_import.py:76-80 | over every history at most one live link per owner and profile |
| Tokens.PurgingIsUnobservable | server-preview/pinus_import.py:75 | no claim can tell whether expired rows were purged |
| Tokens.ClaimExactly | server-preview/pinus_import.py:91-103 | a claim succeeds exactly when the link was issued and not superseded, revoked, claimed or older than the lifetime asked for |
| Tokens.LinkLivesItsTime | server-preview/pinus_import.py:79-80 | a live link answers for the whole lifetime asked for at its issue, and not a moment longer |
| Tokens.NeverDeliveredLate | server-preview/pinus_import.py:63 | whatever is delivered was issued less than 300 seconds before |
| Tokens.AcceptableExactly | server-preview/pinus_import.py:63-66 | the limits on a request, spelled out |
| Tokens.IssueSweeps | server-preview/pinus_import.py:75 | issuing leaves no expired row behind |
| Tokens.DeliveredAtMostOnce | server-preview/pinus_import.py:95-100 | of any two claims of a token in a history, if the first is answered the second is refused |
| Tokens.ClaimedIsGone | server-preview/pinus_import.py:97-100 | a claim uses a link up, whether or not it was answered |
| AllowedIps.BlockedCovers | client/ui/editdialog.go:238-274 | merging the halves keeps the exact set of covered addresses |
| AllowedIps.UnblockedCovers | client/ui/editdialog.go:275-300 | splitting the default routes keeps the exact set of covered addresses |
| AllowedIps.Block | client/ui/editdialog.go:238-274 | succeeds exactly when both halves of a family are there; same addresses; a default route results |
| AllowedIps.Unblock | client/ui/editdialog.go:275-300 | succeeds exactly when a default route is there; same addresses; none remains |
| AllowedIps.EnableFirewall | core/addressconfig.go:172-190 | restricts exactly a single peer, table on, with an all-zero default route |
| AllowedIps.Toggle | client/ui/editdialog.go:213-303 | on and off again keeps the addresses and flips the firewall |
| Catalog.State.LoadCached | client/smart/presets.go:239-275 | loads the cache unless it is unreadable, older, or the same revision with other content |
| Catalog.State.Update | client/smart/presets.go:326-393 | the first usable, acceptable and storable response decides |
| Catalog.FirstSettlingDecides | client/smart/presets.go:361-386 | the first response that is newer and stored, or is what is there already, decides the outcome |
| Catalog.FailsExactly | client/smart/presets.go:387-392 | an update fails exactly when there is none, and changes nothing |
| Catalog.LoadsExactly | client/smart/presets.go:239-275 | a start takes up the cache exactly when it is readable and neither older than memory nor in conflict with it |
| Catalog.SessionAdvances | client/smart/presets.go:361-386 | over any loads and updates, whatever happens to the cache file, the revision in memory never falls and a known revision keeps its content |
| Catalog.StoredCatalogAdvances | client/smart/presets.go:260-273 | over any number of sessions whose updates find memory caught up, the stored catalog only advances |
| Catalog.StoredSafeExactlyWhenCaughtUp | client/smart/presets.go:361-386 | no verified responses can set the stored catalog back if and only if nothing on disk is newer than memory |
| Catalog.CaughtUpAfter | client/smart/presets.go:239-275 | a readable start catches up; an unreadable one exactly when the cache is no newer than the bundled catalog; updates keep it |
| Catalog.StoredCatalogCanFall | client/smart/presets.go:326-393 | after any run that leaves memory behind, some signed response sets the stored catalog back |
| Catalog.UnreadableCacheAllowsRollback | client/smart/presets.go:245-251 | one restart that cannot read it lets an older signed catalog replace a newer one |
| Notifications.QueueInvariant | client/manager/notifications.go:5-44 | in every interleaving with the pump: queue gap-free, every event queued, taken or dropped once, order kept |
| Notifications.DropsNeedAFullQueue | client/manager/notifications.go:9-21 | an event is dropped only for a send that found 64 queued, one for each at most |
| Notifications.KeptUpIsComplete | client/manager/notifications.go:5-44 | a pump that keeps up loses nothing: every event is delivered or queued, in order |
| Notifications.NewestSurvives | client/manager/notifications.go:5-22 | only older events are dropped and the newest is queued or already taken |

## Left out

- The literal domain and process lists of the bundled groups and catalogs: the theorems hold for every well-formed catalog.
- SettingsNormal.Normalized: takes the normalisation of one custom rule and the validity of a tunnel name as parameters, because they rest on URL, IDNA and path code of the platform; rule identifiers are not modelled.
- Lifecycle.PlanNativeSwitch: gives sets where the source sorts name lists, because the order only makes the calls repeatable.
- Lifecycle.Manager.SmartStartLocked: treats the steps before the switch that have no lasting effect (files, listener, engine check) as one call that may fail; process readiness polling and log rotation likewise.
- Lifecycle.Manager.SmartStart: promises exact rollback for one failing call only, because two failing calls can also fail the rollback; what holds whatever failed is stated for any number.
- RingLog.LogMem.WriteWithTimestamp: models sequential writers only, and neither the read-only nor the closed state of a log.
- Supervisor.Loop.Run: starts from the events the loop receives; the eight-place request channel, which drops a request when full, and timer draining are not modelled.
- `WriteTo` of the ring logger, route sorting in `configureInterface`, adapter fingerprints: would only add easier members.
- JSON and gob encoding, the AWG endpoint object, DNS strategies of individual queries beyond the value emitted.
- User interface, installer, updater, elevation, HTTP transport, backup and import dialogs.
- The `Quit` method and deletion of profiles, which combine operations that are modelled.
