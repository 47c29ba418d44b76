# boxctl: verified model of the manager's transactions

boxctl moves three things together: a live proxy core, a host-wide dataplane
(nftables, policy routing, dnsmasq) and the selection metadata on disk. Any step
can fail, the core can exit on its own, and the manager can die between two
writes. This project models that code and proves what it keeps.

Files, from the core outwards:

| file | part of the program |
|---|---|
| `Types.dfy`, `Sorting.dfy`, `Collections.dfy` | shared values and environments; sort-then-compact as the settings code applies it |
| `Traces.dfy` | histories of calls to core, dataplane and store, and what a history establishes |
| `Engines.dfy` | the process facade and the private runtime directories |
| `RestartGuard.dfy` | the restart traffic guard and its status |
| `Lifecycle.dfy` | start, stop, switch, reconfigure, restart, adoption, monitor: the main state machine |
| `ProfileSwitch.dfy` | the disk side of a profile switch: journal, commit, compensation and recovery, with a crash before any write |
| `Switch.dfy` | a profile switch as a whole: journal, live core and commit together |
| `Startup.dfy` | recovery at startup, with a core that outlived the crash |
| `Dataplane.dfy` | DNS backup protocol, active-gateway state, hotplug, dynamic refresh |
| `Gateway.dfy` | the lifecycle's calls carried out on the router |
| `HotReload.dfy` | hot reload and dynamic refresh of a running core |
| `Cidr.dfy` | IPv4 ranges to CIDR blocks (section 3.1 of RFC 4632), range-list decoding, bounded collection |
| `Ports.dfy` | port-list settings: parser and printer |
| `RuleLists.dfy` | line edits of a YAML configuration |
| `Endpoints.dfy` | last-known-good endpoint addresses |
| `Dashboard.dfy` | directory publish and recovery |
| `Integration.dfy` | system files of a manager update, restore and rollback |
| `PtrLookups.dfy` | bounded concurrent reverse lookups |

## How the model reads

- An object of the source that updates its fields is a class. A call whose
  outcome the code cannot control (core, nftables, dnsmasq, disk, lock, deadline)
  is a step with an arbitrary outcome; time-outs are failures.
- Every operation of the lifecycle holds one operation lock, so each is one step.
  `Lifecycle.AtRest` is what holds whenever that lock is free; it is an invariant
  of every operation and of `Run`, which interleaves all of them with spontaneous
  exits of the core. `trace` is the history of calls; the lemmas of `Traces.dfy`
  give the meaning of its summary in terms of positions in the history.
- A crash is a flag that may rise before any effect. From then on effects do
  nothing, so running the rest of a method is the same as dying there. `Reboot`
  clears it.
- A write is atomic, and it is a hypothesis that a failed one leaves the old value:
  `state.Store` can also report an error after its rename, when syncing the
  directory fails. `Disk.WriteRecord` does not need the hypothesis. A locked
  update may report an error although it took effect, because the error
  of releasing the lock is joined to its result (`internal/state/store.go:278-285`).
- Digests have no collisions, are never empty, and are represented by what they are
  digests of.
- Some classes take a `World`. In `Any` every effect has an arbitrary outcome;
  that is where the general claims hold, as in every other world. A determined
  world fixes which effects fail; nothing else happens there by itself, no core
  exits and no caller goes away. Contracts use it to say that an operation does its
  work when no call fails (`Lifecycle.Helpful`, `Disk.Calm`, `Activation.Steady`),
  and what it does when one particular call does. Methods that exhibit a run
  (`MissingScript`, `RefreshDisagrees`, `RefusedRuntimeStays`,
  `AcceptedRuntimeRemoved`, `RulesLeftBehind`, `FailedSwitchRevertsEdit`,
  `InterruptedTwice`) build everything they need in such worlds, so their contracts
  say that the outcome does happen.
- Dynamic refresh and hot reload run under the same lock as the lifecycle.
  `Lifecycle.Run` interleaves them with everything else; `HotReload.dfy` has what
  they do to the stored generation.
- The lifecycle's calls to the dataplane have arbitrary outcomes. `Gateway.dfy`
  makes the calls of a history on the modelled router; what it states holds
  whenever they turn out there as recorded.

## Where the code does not do what one might expect

Each point is proved by the members named.

- Startup after a crash drops the journal of an interrupted switch although the
  process it found neither runs as recovered nor was stopped, exactly when
  reconciling that process failed and a failed call's error reads as not-exist:
  the guard at `internal/app/actions.go:1163` was meant for "no process found"
  (`Manager.Start`; `MissingScript` for a router without its dnsmasq script).
- A reload refused because another engine is selected leaves the private runtime
  it made, exactly when that engine is not Mihomo (`RunningCore.Reload`,
  `RefusedRuntimeStays`).
- A Mihomo hot reload whose process record cannot be written removes the runtime
  directory that the core has just accepted (`RunningCore.Reload`,
  `AcceptedRuntimeRemoved`). Over any run of the lifecycle, these are exactly the
  runtimes that the manager takes from a live core (`Lifecycle.Run`,
  `EngineHost.IntactUnlessLost`).
- A dynamic refresh can store the new generation and still report an error when
  only the release of its lock failed; the running snapshot then differs from the
  stored one, until a later refresh, exactly unless it stored what the snapshot
  has (`RunningCore.Refresh`, `RunningCore.Run`, `RefreshDisagrees`).
- The journal of a failed switch stays on disk. It is harmless exactly while what
  it captured still stands; a later edit is undone at the next start
  (`StaleJournal`, `FailedSwitchRevertsEdit`).
- `Deactivate` in server mode, without a record of owning anything, succeeds
  without touching nftables, and owned rules can be there then
  (`Activation.Deactivate`, `RulesLeftBehind`).
- Inserting a rule provider continues the last line of the source exactly when
  that line is open and no root key follows the section (`InsertionPlace`,
  `OpenLineMerges`).
- A first dashboard installation interrupted between making and removing a name
  it reserves leaves an empty directory, which the next recovery puts in place as
  the dashboard unless a whole tree was put in place in the meantime
  (`FirstInstallAndRecover`). A second such interruption makes every later
  recovery refuse (`InterruptedTwice`).

## Model

| member | source | states |
|---|---|---|
| `Traces.CaptureMeaning` | internal/app/lifecycle.go:553-597 | capture is known to be off exactly when the last dataplane call was a successful cleanup, on for g exactly when it was a successful activation or handoff of g |
| `Traces.ReadyMeaning` | internal/app/lifecycle.go:770-795 | ready exactly when a probe succeeded and the core was neither started nor stopped since |
| `Traces.FailOpenMeaning` | internal/app/lifecycle.go:553-597 | the recorded ordering flag says exactly that every stop call had a successful cleanup as the last dataplane call before it |
| `Traces.ReadyFirstMeaning` | internal/app/lifecycle.go:184-245 | the flag says exactly that every activation was issued to a core that had answered a probe since it was last started or stopped |
| `Traces.SettledMeaning` | internal/app/lifecycle.go:184-245 | a settled history has an activation of its generation that is the last dataplane call and a successful probe after it, core untouched since |
| `Traces.StoppedMeaning` | internal/app/lifecycle.go:557-597 | stopped exactly when a successful stop followed a successful cleanup and only clean cleanups came after |
| `Traces.VerifiedMeaning` | internal/app/lifecycle.go:229-234 | a verified history has an activation that is the last dataplane call and a successful guard check after it, core untouched since |
| `Traces.StartsMeaning` | internal/app/lifecycle.go:184-200 | the generations a summary lists as offered to the core are those of the start calls, in order |
| `Traces.StartListed` | internal/app/lifecycle.go:184-200 | each start call is listed, right after those before it |
| `Traces.ListedWasStarted` | internal/app/lifecycle.go:184-200 | nothing else is listed |
| `Engines.EngineHost.Start` | internal/app/engines.go:231-252 | accepts only when no backend is running; afterwards exactly one process, reading the given runtime, and it does start when nothing fails |
| `Engines.EngineHost.Stop` | internal/app/engines.go:254-274 | nothing runs after a success, also when nothing ran before; a failed stop keeps the owner |
| `Engines.EngineHost.Reload` | internal/app/engines.go:276-291 | only the running engine's own backend reloads; the swap replaces the process's runtime, or keeps both when it could not be recorded, which happens whenever only the record fails |
| `Engines.EngineHost.SetAdopted` | internal/app/engines.go:184-196 | refused for an unknown engine or when another one runs; otherwise that process is the only live one |
| `Engines.EngineHost.Poll` | internal/app/engines.go:293-302 | health reports running only while a process is live |
| `Engines.EngineHost.Clone` | internal/engine/runtime_clone.go:19-103 | a copy of the same applied configuration in a new private runtime, impossible once the original runtime is gone |
| `Engines.EngineHost.Remove` | internal/app/core.go:341-354 | the directory goes whoever reads it; it counts as lost exactly when a live process did |
| `Engines.EngineHost.IntactUnlessLost` | internal/app/engines.go:231-252 | every live process has its runtime on disk, never removed by the manager, exactly unless its runtime is a lost one |
| `RestartGuards.RestartGuard.Begin` | internal/app/restart_guard.go:110-153 | success means that a guard was begun exactly if the setting is on; a guard that did not begin leaves none installed without a recorded error |
| `RestartGuards.RestartGuard.Remove` | internal/app/restart_guard.go:176-186 | afterwards the guard is gone, or an error is recorded for the monitor to retry; gone whenever the removal works |
| `Lifecycles.Lifecycle.BeginGuard` | internal/app/restart_guard.go:188-213 | with the setting on a panel request goes on with a guard or not at all; no other request begins one |
| `Lifecycles.Lifecycle.FinishGuard` | internal/app/restart_guard.go:188-213 | a begun guard ends removed or with a recorded error, and the error is reported |
| `Lifecycles.Lifecycle.WaitReady` | internal/app/lifecycle.go:770-795 | success only on a status of a running core with its controller ready, its DNS too where the generation uses it, and no error; a live core that answers is found ready |
| `Lifecycles.Lifecycle.Rollback` | internal/app/lifecycle.go:797-812 | the core is stopped only after cleanup succeeded; otherwise cleanup-failed with the core kept alive |
| `Lifecycles.Lifecycle.Undo` | internal/app/lifecycle.go:838-857 | giving up ends failed with capture off, or cleanup-failed with the generation kept; never anything else |
| `Lifecycles.Lifecycle.Settle` | internal/app/lifecycle.go:184-245 | success means a probe answered, activation, a probe after it and, under a guard, its check; each of them, failing, makes it fail |
| `Lifecycles.Lifecycle.BringUp` | internal/app/lifecycle.go:184-245 | success means activated, ready after the activation and, under a guard, verified; failure means given up; a live core comes up when no call fails |
| `Lifecycles.Lifecycle.StartPrepared` | internal/app/lifecycle.go:184-245 | as BringUp; the very next call offers the generation to the core, and no other is offered; the private runtime is removed exactly when the core did not accept it and cleanup succeeded |
| `Lifecycles.Lifecycle.StartLocked` | internal/app/lifecycle.go:134-173 | running and cleanup-failed are left alone; a start offers one generation, which is up; from any other state it succeeds when no call fails; no runtime is left behind unless cleanup is unresolved; the start is noted on disk for a generation of the selected profile |
| `Lifecycles.Lifecycle.Start` | internal/app/lifecycle.go:126-173 | success means running with everything that state means, by one generation offered to the core, its start noted on disk; it succeeds when no call fails |
| `Lifecycles.Lifecycle.TearDown` | internal/app/lifecycle.go:566-597 | exactly a cleanup call and, only if that worked, a stop call; a failure keeps the generation |
| `Lifecycles.Lifecycle.StopLocked` | internal/app/lifecycle.go:557-597 | success means cleaned up and stopped; a failure is failed or cleanup-failed with what those mean; forced or not, a cleanup really happened by exactly those calls; it succeeds when no call fails |
| `Lifecycles.Lifecycle.Stop` | internal/app/lifecycle.go:536-551 | success also means that a guard the status knew of is gone; with the lock it makes the calls of a teardown, without it none |
| `Lifecycles.Lifecycle.CleanupFirewall` | internal/app/firewall_service.go:15-40 | success means stopped by a cleanup of this call, whatever the state was, with no guard installed |
| `Lifecycles.Lifecycle.RestoreAfterFailure` | internal/app/lifecycle.go:399-407 | the clone is offered to the core by the very next call exactly when cleanup is not unresolved and the failed process was not last seen running; otherwise no call is made; the clone comes up when no call fails; it counts as accepted exactly when the core took it |
| `Lifecycles.Lifecycle.Revert` | internal/app/lifecycle.go:304-315 | the target is stopped, and the clone offered unless cleanup is unresolved or the target's process may be left; something runs again when no call fails |
| `Lifecycles.Lifecycle.CommitOrRestore` | internal/app/lifecycle.go:304-315 | the commit is always tried; if it fails the target goes and at most the clone runs, offered unless something of the target may be left; the disk is as the commit left it |
| `Lifecycles.Lifecycle.StartAndCommit` | internal/app/lifecycle.go:295-315 | target up and committed, or not committed and at most the clone running; the disk is committed exactly in the first case, and the start of a target that is up may be recorded; the clone is offered exactly after a target that is not up and of which nothing is left |
| `Lifecycles.Lifecycle.SwapLive` | internal/app/lifecycle.go:251-316 | the same from a running core, stopping it first |
| `Lifecycles.Lifecycle.GuardedSwap` | internal/app/lifecycle.go:287-316 | the same under the guard; on every path the guard is removed or its failure recorded, and a guarded success is verified; with the setting on nothing is offered without a guard |
| `Lifecycles.Lifecycle.CommitStopped` | internal/app/lifecycle.go:264-270 | with nothing running only the commit is made, and not even that while cleanup is unresolved |
| `Lifecycles.Lifecycle.ReplaceRunning` | internal/app/lifecycle.go:345-397 | from running: target up exactly when committed, else at most a clone of the old generation; guard and both runtimes accounted for |
| `Lifecycles.Lifecycle.ReplaceLocked` | internal/app/lifecycle.go:335-397 | outcome of a replacement from every state: commit count, disk up to the recorded start of the target, what may run, guard, and the fate of target and clone runtimes |
| `Lifecycles.Lifecycle.SwitchPrepared` | internal/app/lifecycle.go:251-316 | from running: committed once with the target up, or not committed, the disk recoverable to or already at what it was, and only the old configuration may run; the clone is removed exactly when never accepted; the core was offered nothing, the target, or the target and then the clone, the last exactly if the target is not up, cleanup is resolved and nothing of it may be left; with no call failing the target is up, and with only the commit failing the old configuration runs again |
| `Lifecycles.Lifecycle.ReconfigurePrepared` | internal/app/lifecycle.go:322-397 | from running: target up, or only the old configuration may run; from any other state nothing changes but a commit; without a commit the disk is as before, but for the recorded start of the target; what was offered to the core, and what runs when no call fails, as for a switch |
| `Lifecycles.Lifecycle.RestartPreparedLocked` | internal/app/lifecycle.go:648-661 | a failed guarded restart that still runs is on the old configuration or has a recorded guard error; the disk changes at most by the recorded start of what runs now; success offers one generation, which is up; with the guard on, whatever was started is verified |
| `Lifecycles.Lifecycle.Restart` | internal/app/lifecycle.go:599-617 | success from running is running again; the disk changes at most by the recorded start of what runs now; success offers one generation, which is up, and comes whenever no call fails; with the guard on, whatever was started is verified |
| `Lifecycles.Lifecycle.RestartIfRunning` | internal/app/lifecycle.go:623-644 | a core that is not running is not started, and nothing is called; the disk changes at most by the recorded start of what runs now; success offers one generation, which is up, and comes whenever no call fails; with the guard on, whatever was started is verified |
| `Lifecycles.Lifecycle.Adopt` | internal/app/lifecycle.go:428-444 | accepted exactly for a complete lifecycle, a running status and a real process; refusal changes nothing |
| `Lifecycles.Lifecycle.RecoverAdopted` | internal/app/lifecycle.go:451-503 | running only after the dataplane was rebuilt and a probe succeeded, and then whenever no call fails; otherwise given up or untouched; its error reads as not-exist exactly when a failed call's did; its start is noted on disk for a generation of the selected profile |
| `Lifecycles.Lifecycle.DiscardAdopted` | internal/app/lifecycle.go:507-523 | success means its capture was removed and then the process stopped; its error reads as not-exist exactly when a failed call's did |
| `Lifecycles.Lifecycle.RetryGuardCleanup` | internal/app/restart_guard.go:217-230 | a guard without a recorded error is left alone; one with an error is removed and the error cleared, when that works |
| `Lifecycles.Lifecycle.MonitorTick` | internal/app/lifecycle.go:703-768 | a status that says exited, or the one unready status too many, removes capture by the next call and leaves running; an unready one below the limit only counts, a ready one resets the count; an unresolved cleanup is tried again; never starts a core |
| `Lifecycles.Lifecycle.ReloadLive` | internal/app/core.go:291-335 | from running only; a success replaces the generation and keeps its capture; the live core loses its runtime exactly when the swap could not be recorded |
| `Lifecycles.Lifecycle.RefreshLive` | internal/app/periodic_maintenance.go:116-183 | a successful refresh of a running Mihomo generation in gateway mode replaces exactly its two address sets; nothing else changes anything |
| `Lifecycles.OpenLifecycle` | internal/app/actions.go:1085-1099 | a manager that removes its predecessor's guard first begins with everything that holds at rest, whatever guard was there |
| `Lifecycles.Lifecycle.AdoptFound` | internal/app/actions.go:1519-1536 | each way of taking a surviving process keeps everything that holds at rest |
| `Lifecycles.Lifecycle.Run` | internal/app/lifecycle.go:126-661 | an adoption at startup or none, then every interleaving of operations, hot reloads, refreshes, exits and guard leases, keeps everything that holds at rest; the manager takes a runtime from a live core exactly by the unrecorded hot reloads of the run |
| `Lifecycles.Lifecycle.ReachableStates` | internal/app/lifecycle.go:184-245 | position by position: each stop follows a cleanup, each activation a ready probe; stopped, running and verified have the calls that justify them; an installed guard has a recorded error; the generation captured for has the engine and listener of the running one |
| `Lifecycles.Lifecycle.OneLiveCore` | internal/app/engines.go:231-252 | never two live backends; a live one reads a runtime that is on disk and was never removed by the manager, exactly unless it is a lost one |
| `Gateways.Perform` | internal/app/openwrt_activation.go:111-228 | any history of calls on a router in gateway mode, hotplug, refreshes and edits in between: with capture off by that history, dnsmasq is as its owner left it and nothing of boxctl is there or stored; with capture on, only that generation is stored |
| `Gateways.StopsClean` | internal/app/lifecycle.go:557-597 | whenever the lifecycle stops a core, the router is clean already |
| `Gateways.StatesOnRouter` | internal/app/lifecycle.go:126-661 | stopped and failed mean a clean router; running means that other processes can put back only what runs |
| `ProfileSwitch.Disk.Activate` | internal/state/profiles.go:181-214 | mirror first, metadata last: every interruption leaves one of the two old or new values in each, the metadata only with the mirror tried; an error of the lock alone comes after the fact |
| `ProfileSwitch.Disk.WriteRecord` | internal/app/profile_revisions.go:135-144 | the record is the old or the new one; an error does not say which; it is the new one if only the lock failed |
| `ProfileSwitch.ProfileSwitcher.RestoreTransition` | internal/app/profile_switch.go:260-274 | success restores selection, mirror and record; interrupted anywhere, what remains to be restored is the same |
| `ProfileSwitch.ProfileSwitcher.RecoverSelection` | internal/app/profile_switch.go:195-215 | success puts the disk in the recovered state; any interruption leaves a disk that recovers to the same state |
| `ProfileSwitch.ProfileSwitcher.RecoversCommitted` | internal/app/profile_switch.go:217-230 | after a committed switch the generation to keep is the target's at the content that was committed, which its record says was applied |
| `ProfileSwitch.ProfileSwitcher.RecoversPrepared` | internal/app/profile_switch.go:217-230 | after a prepared one it is the old profile's at the revision that ran, or else at its source's |
| `ProfileSwitch.OneProfile` | internal/app/actions.go:1454-1463 | a generation belongs to one profile only, exactly unless it was made from the Mihomo mirror |
| `ProfileSwitch.ProfileSwitcher.CompleteRecovery` | internal/app/profile_switch.go:236-250 | a committed journal disappears only after the shared state was published |
| `ProfileSwitch.ProfileSwitcher.FinalizeCommittedState` | internal/app/profile_switch.go:175-190 | only the target's own committed journal is dropped, and only after publication; it is, on a quiet disk |
| `ProfileSwitch.ProfileSwitcher.Preflight` | internal/app/profile_switch.go:96-131 | the journal to be written captures selection, mirror, record and the revision really running |
| `ProfileSwitch.ProfileSwitcher.CommitSelection` | internal/app/profile_switch.go:136-161 | success selects the target, mirrors its source, and makes the source's content the applied revision in its record, no longer pending if it was, other pending content and time unchanged; after a failure, compensated or not, recovery leads back to the captured state; on a quiet disk it succeeds exactly while the source is as prepared |
| `ProfileSwitch.ProfileSwitcher.Apply` | internal/app/profile_switch.go:136-161 | any commit leaves the disk committed as a whole, or recoverable to what it was and at it if compensated; a revision once committed is the content of the source and the applied one of its record |
| `ProfileSwitch.ProfileSwitcher.RecordStart` | internal/app/actions.go:1100-1113 | only the record of the selected profile can change, and only for a generation that belongs to it: its revision becomes the applied one, no longer pending if it was |
| `ProfileSwitch.CompensatedView` | internal/app/profile_switch.go:146-158 | a failed and compensated commit leaves selection, mirror and record as they were |
| `ProfileSwitch.OutcomeAfterRecovery` | internal/app/profile_switch.go:260-274 | recovering any disk a switch may leave gives all of the old or all of the committed selection, never a mix |
| `Switches.Switching.Prepare` | internal/app/profile_switch.go:86-135 | generation and journal are both there and belong together, or neither is; the journal names what runs now |
| `Switches.Switching.SwitchJournaled` | internal/app/profile_switch.go:162-173 | core and selection move together: from running, the target is up exactly when its selection is committed on disk |
| `Switches.Switching.Switch` | internal/app/profile_switch.go:70-173 | at every return or crash the disk is untouched, journaled so that recovery undoes it, or committed; from running, target up with the selection committed, or, compensation having succeeded, target not up, the old selection, mirror and record, and at most a clone of the old generation running; a journal left behind names what ran before; with no call failing the switch is made |
| `Switches.Switching.SwitchAndRecover` | internal/app/profile_switch.go:195-215 | a switch crashing anywhere, then any number of recoveries crashing anywhere: a completed recovery is all old or all new, as the journal says, and running it again changes nothing; on a quiet disk the last recovery completes |
| `ProfileSwitch.RecoveryIdempotent` | internal/app/profile_switch.go:195-215 | re-running recovery changes nothing |
| `ProfileSwitch.PreparedRecovery` | internal/app/profile_switch.go:260-274 | recovery from a prepared journal restores exactly the captured selection, mirror and record |
| `ProfileSwitch.StaleJournal` | internal/app/profile_switch.go:163-165 | a left-over prepared journal changes nothing exactly when the captured selection still stands |
| `Switches.FailedSwitchRevertsEdit` | internal/app/profile_switch.go:162-165 | a run: a switch fails and leaves its journal, the selected profile is edited, and the next start puts its old mirror back |
| `Startup.AdoptSelectedEngine` | internal/app/actions.go:1538-1571 | the selected engine's process wins, any other process over none, and a process over an unusable record; nothing found means no backend reported anything |
| `Startup.Manager.AcceptAdopted` | internal/app/actions.go:1519-1536 | an accepted process runs as the matching generation or was deactivated and stopped; the untouched handoff is kept for a matching one; the disk changes at most by the recorded start of a recovered process, never on a handoff or discard; a matching process is taken over when no call fails |
| `Startup.Manager.ReconcileProcess` | internal/app/actions.go:1132-1161 | what each outcome of the adoption says about the process, and when its error reads as not-exist; the disk changes at most by the recorded start of what runs; a process of the wanted profile and revision is taken over when no call fails |
| `Startup.Manager.Start` | internal/app/actions.go:1113-1187 | running only as the journal names it: the target at the committed revision or the old profile at the one that ran, and without a journal the selected profile as its source is; that one does run again if it survived and no call fails; the journal goes only after the selection was recovered, and goes with an adopted process neither running as named nor stopped after a cleanup if (the disk taking the writes) and only if a failed call read as not-exist; the disk is then the recovered one, but for what is published and the start of what runs |
| `Startup.Manager.ReconcileJournaled` | internal/app/actions.go:1132-1171 | the same for a journal on the recovered disk |
| `Startup.SwitchThenStart` | internal/app/profile_switch.go:70-230 | a switch dying anywhere and the next start: with a journal left, only the target at its committed content or what ran before runs, as the journal says, and that one does if it survived and no call fails |
| `Startup.MissingScript` | internal/app/actions.go:1163-1170 | a run: no dnsmasq script, so the journal is dropped with the other generation's core alive and cleanup-failed |
| `Dataplane.Activation.EnsureDNSBackup` | internal/app/openwrt_activation.go:529-549 | the backup is taken once and is the original |
| `Dataplane.Activation.RestoreDNS` | internal/app/openwrt_activation.go:573-585 | success means original settings and no backup |
| `Dataplane.Activation.Activate` | internal/app/openwrt_activation.go:111-141 | keeps the original recoverable; success stores exactly the activated capture and plan; done when nothing fails; an error of the lock alone comes after the fact |
| `Dataplane.Activation.Deactivate` | internal/app/openwrt_activation.go:145-180 | success means original DNS, no backup, no stored state, and no owned nftables exactly unless the server-mode shortcut found some; done when nothing fails, and though only the lock's release failed |
| `Dataplane.Activation.RollbackLocked` | internal/app/openwrt_activation.go:339-358 | success removes everything owned and restores DNS, and comes when those calls work |
| `Dataplane.Activation.Reconcile` | internal/app/openwrt_activation.go:204-228 | success reapplies the stored generation with fresh interfaces only, rules and DNS, and keeps what is stored; done when nothing fails; rules or DNS that cannot be set leave the router without either, and nothing stored |
| `Dataplane.Activation.RefreshDynamicCapture` | internal/app/openwrt_activation.go:234-273 | only the two address sets of the stored generation change, and as the reported step says; done when nothing fails; state that cannot be written puts the old rules back |
| `Dataplane.Activation.PlanForCleanup` | internal/app/openwrt_activation.go:493-527 | what was applied takes precedence over what is stored, that over anything recomputed |
| `Dataplane.Activation.Run` | internal/app/openwrt_activation.go:111-273 | any interleaving of operations, failures, crashes, restarts, permitted edits and mode changes: dnsmasq is original or the backup holds exactly the original |
| `Dataplane.RulesLeftBehind` | internal/app/openwrt_activation.go:145-180 | a run: a failed activation, a cleanup that fails only for nftables, a change to server mode, and a cleanup that reports success with owned rules still there |
| `HotReload.SameCapturePlan` | internal/app/core.go:1114-1143 | the element-wise comparison is equality of plans |
| `HotReload.SwapInto` | internal/app/core.go:291-354 | refused for another engine or capture; a live process gets the prepared generation or stays as it was; the manager removes a runtime in use exactly when the swap went unrecorded |
| `HotReload.RunningCore.GoLive` | internal/app/openwrt_activation.go:111-141 | after a start in gateway mode snapshot and stored capture agree |
| `HotReload.RunningCore.Reload` | internal/app/core.go:291-354 | whether snapshot and stored capture agree does not change; success only for an equal capture; the runtime of a failed attempt stays exactly when it is not Mihomo's; the live core loses its runtime exactly on an unrecorded swap, and a possible swap is that whenever only recording it fails |
| `HotReload.RunningCore.Refresh` | internal/app/periodic_maintenance.go:116-183 | nothing for a core or mode it is not for; otherwise exact new snapshot and stored capture for each outcome, from agreeing and disagreeing states alike; done when nothing fails |
| `HotReload.RunningCore.Run` | internal/app/periodic_maintenance.go:116-183 | after any run of reloads, refreshes and mode changes, failed ones included, snapshot and stored generation agree exactly when the last refresh that stored something released its lock or stored what the snapshot has |
| `HotReload.RefreshDisagrees` | internal/app/openwrt_activation.go:328-337 | a run after which they differ |
| `HotReload.RefusedRuntimeStays` | internal/app/core.go:345-354 | a run that leaves the runtime of a refused sing-box reload |
| `HotReload.AcceptedRuntimeRemoved` | internal/app/core.go:330-354 | a run: the core takes the new generation, the swap cannot be recorded, and its runtime is removed while the snapshot names the old one |
| `Cidr.TrailingZerosMeaning` | internal/app/fakeip_capture.go:576-579 | the alignment is the largest, up to 32 bits, that divides the start |
| `Cidr.FloorLog2Meaning` | internal/app/fakeip_capture.go:580 | the largest power of two not above the remaining length |
| `Cidr.AlignedToMeaning` | internal/app/fakeip_capture.go:576-579 | bitwise alignment is divisibility by the block size |
| `Cidr.HostBitsMeaning` | internal/app/fakeip_capture.go:581 | the chosen block is the largest aligned one that starts there and fits |
| `Cidr.DecomposeTiles` | internal/app/fakeip_capture.go:567-593 | the blocks are aligned and adjacent from start to end |
| `Cidr.TilesMeaning` | internal/app/fakeip_capture.go:567-593 | such blocks cover exactly the range, are increasing and disjoint |
| `Cidr.Optimal` | internal/app/fakeip_capture.go:567-593 | no collection of aligned blocks with the same union, ordered or overlapping as it may be, is shorter |
| `Cidr.AtMost62` | internal/app/fakeip_capture.go:567-593 | between 1 and 62 blocks for every IPv4 range |
| `Cidr.RangePrefixes` | internal/app/fakeip_capture.go:567-593 | the loop ends and returns the decomposition exactly when the range is valid and within the limit; which error otherwise |
| `Cidr.Is4Meaning` | internal/app/fakeip_capture.go:549-557 | a mapped address is one with the mapping prefix above its 32 bits |
| `Cidr.DecodeRanges` | internal/app/fakeip_capture.go:535-564 | succeeds exactly when count, order, families and total size are in bounds |
| `Cidr.DecodedMeaning` | internal/app/fakeip_capture.go:541-564 | decoded prefixes cover exactly the IPv4 ranges, are aligned IPv4 blocks and number at most 65536 |
| `Cidr.MaskedMeaning` | internal/app/fakeip_capture.go:412-415 | masking gives the aligned block that holds the address |
| `Cidr.AppendBounded` | internal/app/fakeip_capture.go:407-426 | invalid prefixes are skipped and the others masked; refused exactly when the new blocks do not fit; no duplicate; on success exactly the union |
| `Sorting.SortCompactMeaning` | internal/app/settings.go:244-251 | strictly ordered, same elements, no longer |
| `Sorting.StrictUnique` | internal/app/settings.go:244-251 | order and contents determine the list |
| `Ports.FieldsSplit` | internal/app/settings.go:244-251 | splitting at any of the four separators splits the list of fields |
| `Ports.FieldsPlain` | internal/app/settings.go:244-251 | a text without separators is one field, an empty one none |
| `Ports.SplitListMeaning` | internal/app/settings.go:244-251 | exactly the trimmed fields, each once, in text order |
| `Ports.TrimMeaning` | internal/app/settings.go:246-248 | a text is its trimmed form between two runs of spaces, and the trimmed form neither begins nor ends with one |
| `Ports.SpaceTable` | internal/app/settings.go:246-248 | the white space of a Go string, character by character |
| `Ports.PrefixedInAnyCase` | internal/app/settings.go:284-292 | a protocol prefix selects one list whatever the case of its letters |
| `Ports.ParseRange` | internal/app/settings.go:283-304 | a printed range reads back for every pair of ports, 65535 included, and backwards ranges are refused |
| `Ports.PortMeaning` | internal/app/settings.go:336-342 | ports are exactly the numbers whose decimal form is accepted |
| `Ports.ParseBareRange` | internal/app/settings.go:283-304 | without a prefix the range belongs to both protocols |
| `Ports.ExpandToken` | internal/app/settings.go:308-323 | the inner loop adds exactly the range to the lists the token selects and ends at 65535 |
| `Ports.ParseProtocolPorts` | internal/app/settings.go:281-327 | succeeds exactly when every token parses and the running count stays within 8192; then both lists are sorted, duplicate-free, exactly the ports named and at most 8192 long |
| `Ports.FormatProtocolPorts` | internal/app/settings_service.go:347-362 | prints each port once, sorted, TCP before UDP |
| `Ports.RoundTrip` | internal/app/settings.go:281-327 | parsing a printed setting is accepted and can only give the two lists sorted and without duplicates |
| `Ports.ReparseSetting` | internal/app/settings_service.go:347-362 | printing and parsing in a row returns those lists |
| `Ports.ValueOfFormat` | internal/app/settings_service.go:355-360 | decimal printing loses nothing |
| `RuleLists.OffsetAtLine` | internal/config/local_rule_lists.go:267-288 | the scanning loop returns the position the line structure gives |
| `RuleLists.OffsetExists` | internal/config/local_rule_lists.go:267-288 | exactly the lines 1 to newlines + 2 have an offset |
| `RuleLists.OffsetMeaning` | internal/config/local_rule_lists.go:267-288 | before an offset stand whole lines, one fewer than its number |
| `RuleLists.OffsetOfEnd` | internal/config/local_rule_lists.go:256-288 | for every byte string the line after the last one begins at the end |
| `RuleLists.ContentEndPlace` | internal/config/local_rule_lists.go:290-304 | the content of a line ends before its line break in both styles |
| `RuleLists.RenderLines` | internal/config/local_rule_lists.go:236-247 | a rendered provider is five whole lines in either line-break style |
| `RuleLists.MappingEntry` | internal/config/local_rule_lists.go:223-234 | the first key of that name, or none |
| `RuleLists.InsertLocalRuleProvider` | internal/config/local_rule_lists.go:73-129 | computes the edit whose place, lines, repetition and inverse the lemmas below give, with its error cases |
| `RuleLists.RemoveLocalRuleProvider` | internal/config/local_rule_lists.go:135-195 | computes the removal the lemmas below are about, with its error cases |
| `RuleLists.InsertionPlace` | internal/config/local_rule_lists.go:103-128 | insertion adds one contiguous span and begins a line exactly when another root key follows or the source ends its last line |
| `RuleLists.InsertedLines` | internal/config/local_rule_lists.go:103-128 | from the line of insertion on the edited text reads, line by line, the provider's name, type, behavior, format and the path of its list, indented for the section, each in the source's own line break |
| `RuleLists.AppendedLines` | internal/config/local_rule_lists.go:89-102 | without a section the text is the source, an empty line unless it is blank, the section's key and those five lines |
| `RuleLists.OpenLineMerges` | internal/config/local_rule_lists.go:112-128 | a source whose open last line the key of the inserted provider continues |
| `RuleLists.RemovalDeletesLines` | internal/config/local_rule_lists.go:175-194 | removal with other providers present always succeeds and deletes one contiguous span of whole lines, from the provider's key to the next key or the end of the section |
| `RuleLists.InsertTwice` | internal/config/local_rule_lists.go:74-80 | inserting again changes nothing |
| `RuleLists.ForeignProvider` | internal/config/local_rule_lists.go:81-83 | a provider of that name that is not the list's own is refused on insertion and untouched on removal |
| `RuleLists.RoundTrip` | internal/config/local_rule_lists.go:73-195 | removing the inserted provider returns the source byte for byte |
| `RuleLists.FreshRoundTrip` | internal/config/local_rule_lists.go:89-102 | without a section, insertion and removal leave the source, closed, with an empty section |
| `Endpoints.Filter` | internal/app/endpoint_bypass.go:168-174 | exactly the addresses outside every fake range |
| `Endpoints.EndpointBypass.Addresses` | internal/app/endpoint_bypass.go:126-133 | the host's real lookup answer, or else its real cached addresses |
| `Endpoints.Collect` | internal/app/endpoint_bypass.go:137-153 | each address once; gives up exactly when the limit would be exceeded |
| `Endpoints.EndpointBypass.PrepareHosts` | internal/app/endpoint_bypass.go:115-162 | the result is exactly the union of contributions, sorted, distinct, at most 8192; it fails exactly for an unreadable cache, too many addresses or a failed write, and then changes nothing |
| `Endpoints.LastKnownGood` | internal/app/endpoint_bypass.go:115-162 | after any run each host is known by its latest usable answer less every address that was fake since, and not at all once it was out of use |
| `Endpoints.ResultOverRun` | internal/app/endpoint_bypass.go:115-162 | a refresh returns exactly the last-known-good addresses of its hosts, none of them in a current fake range |
| `Endpoints.PersistedReal` | internal/app/endpoint_bypass.go:115-162 | nothing newly persisted lies in a current fake range |
| `Dashboard.DashboardRoot.Reserve` | internal/app/external_dashboard.go:627-636 | exactly what an interrupted reservation leaves |
| `Dashboard.DashboardRoot.Publish` | internal/app/external_dashboard.go:582-625 | whatever fails or crashes, the old tree or the whole new one can still be served; without an old tree the new one is in place as a whole, or only empty directories are there, a new one exactly when the reservation was interrupted; done when nothing fails, and taken back when it cannot be made durable |
| `Dashboard.DashboardRoot.RollbackPublished` | internal/app/external_dashboard.go:638-657 | the same for undoing a publication that may not be durable |
| `Dashboard.DashboardRoot.Recover` | internal/app/external_dashboard.go:659-687 | never changes which tree is visible; when it finishes that tree is in place and no backup is left; a single leftover is put in place whatever it holds; refuses to choose between several or to replace a ui directory that is no tree; with no call failing it refuses exactly that |
| `Dashboard.DashboardRoot.Install` | internal/app/external_dashboard.go:164-213 | one attempt leaves the tree that was visible or the staged one; without a tree, a whole staged one or only leftovers, as its outcome says; the staged tree when nothing fails |
| `Dashboard.DashboardRoot.InstallAndRecover` | internal/app/external_dashboard.go:582-687 | any number of interrupted attempts and recoveries, then one that finishes: the ui directory is one whole tree, the first or a fully staged one |
| `Dashboard.DashboardRoot.FirstInstallAndRecover` | internal/app/external_dashboard.go:582-687 | the same without a dashboard at first: a recovery that finishes leaves no tree or one whole staged tree if and only if no attempt was interrupted in its reservation or some attempt put a tree in place |
| `Dashboard.InterruptedTwice` | internal/app/external_dashboard.go:627-687 | a run: after two such interruptions recovery refuses, with an empty directory as the dashboard |
| `Integration.AppliedAt` | internal/app/manager_integration.go:160-186 | path by path what applying any prefix of a file set leaves |
| `Integration.AppliedMatches` | internal/app/manager_integration.go:160-205 | applying a file set makes its verification pass |
| `Integration.RestoreUndoes` | internal/app/manager_integration.go:160-205 | restoring the snapshot after any part of an update returns every path but the UCI file to its existence, mode and bytes, an existing UCI file too, and makes verification pass |
| `Integration.PlanIntegration` | internal/app/manager_integration.go:67-112 | the plan covers each path of both releases once, says correctly whether anything changes, and keeps an installed UCI file |
| `Integration.UpdateInstalls` | internal/app/manager_integration.go:67-186 | applying the plan installs the release on every path it covers, removes obsolete files and touches nothing else |
| `Integration.UpdateService.ApplyIntegration` | internal/app/manager_integration.go:160-186 | a failure at any position leaves exactly a prefix applied; it succeeds when every read and write does |
| `Integration.UpdateService.VerifyIntegration` | internal/app/manager_integration.go:188-205 | passes exactly when every file is readable and matches |
| `Integration.UpdateService.RestoreFiles` | internal/app/self_update.go:282-294 | a successful restore undoes the update on every path; a failed one stopped at a file it could not read or write, those before it restored; it always keeps the UCI file |
| `Integration.UpdateService.Install` | internal/app/self_update.go:278-316 | updated with everything verified; refused with files and binary untouched; binary not swapped in, with the files untouched; or failed with files and binary back as far as reported; updated when nothing fails, and back entirely when only the restart or the check afterwards does |
| `Integration.UpdateService.Rollback` | internal/app/self_update.go:349-392 | the same for a rollback; the UCI file is never changed; done when nothing fails, and back entirely when only the restart or the check afterwards does |
| `PtrLookups.Resolver.FinishLookup` | internal/app/connection_names.go:248-265 | the channel is closed once, at the step that caches the result and ends the flight; a missing name is kept for its own time |
| `PtrLookups.Resolver.StartLookup` | internal/app/connection_names.go:215-229 | starts exactly when a slot is free |
| `PtrLookups.Resolver.PrunePTRCache` | internal/app/connection_names.go:267-273 | exactly the entries that have not expired remain |
| `PtrLookups.Resolver.CachePTR` | internal/app/connection_names.go:275-288 | at most 4096 entries; a full cache gives up one that expires first |
| `PtrLookups.Resolver.Visit` | internal/app/connection_names.go:200-233 | a valid cached name is returned; otherwise a lookup under way for that very address is joined, and one is started with a name server, a free slot and room to wait |
| `PtrLookups.Resolver.Begin` | internal/app/connection_names.go:198-234 | names are exactly the valid cached ones of the requested addresses; lookups under way for the others are waited for, up to the slot count, while slots come back at any moment |
| `PtrLookups.Resolver.Interfere` | internal/app/connection_names.go:166-265 | any steps of other goroutines keep the protocol's invariant and never change a published result |
| `PtrLookups.OpenLookups` | internal/app/connection_names.go:215-229 | no address has two open lookups and open lookups are bounded by the entries in flight, hence by the slots |
| `PtrLookups.Collect` | internal/app/connection_names.go:171-192 | local names for exactly the requested addresses that have one; every other address is to be asked for, once, and every spelling is kept |
| `PtrLookups.Resolve` | internal/app/connection_names.go:166-246 | under any interference every returned name is the local name of the requested address or was answered for it; every valid cached name is returned, every lookup under way awaited up to the bound, and its name returned unless the call is given up while one is open |

## Left out

- Lifecycles.Lifecycle.Start: the mark of a first start, which is removed after it.
- Lifecycles.Lifecycle.Run: adoption comes first or not at all, as at startup.
- Lifecycles.Lifecycle.RefreshLive: the stored generation a refresh starts from is taken to have the listener of the running one, which `HotReload.RunningCore.Run` keeps; that a refresh can store something and still fail is modelled there.
- Lifecycles.Lifecycle.Activate: its outcome is arbitrary, not computed by `Dataplane.Activation`; the two are brought together history by history in `Gateways.Perform`, for a router that stays in gateway mode.
- Lifecycles.Lifecycle.ReplaceLocked: SwitchPrepared and reconfigurePreparedLocked have the same body up to their error texts and share this method.
- Engines.EngineHost.MayExit: the runtime of an adopted process that is not the manager's own child stays on disk after its exit until the next stop; the model drops it at the exit.
- Engines.EngineHost.Stop: removing a runtime directory after its process ended is taken to succeed; the process drivers themselves are not part of this model.
- Switches.Switching.Switch: profile edits by other requests during a switch or between an interrupted switch and its recovery are excluded, and so are other lifecycle operations between reading the state and taking the lock; publication of the shared state is one write.
- ProfileSwitch.ProfileSwitcher.Preflight: which of its reads failed, and the limits on journal values, are not distinguished.
- ProfileSwitch.PreparedRecovery: the mirror of the old profile's own engine is rewritten from that profile's source, so it is only equal to its old value if it was a mirror of that source.
- Startup.Manager.Start: settings, listeners and servers that startup brings up besides the core.
- Dataplane.Activation.Activate: interface discovery, nftables rendering and UCI batches are one step each with an arbitrary result; a failed batch may leave any mixture.
- Dataplane.Activation.Run: an administrator edits dnsmasq only while boxctl keeps no backup of it.
- Cidr.DecodeRanges: decompression and the header fields before the range count; the final text order of the prefixes, which changes neither set nor bound.
- Ports.SplitListMeaning: text that is not valid UTF-8.
- RuleLists.RoundTrip: parsing YAML. The parsed layout and the layout after an insertion are inputs (`Describes`, `AfterInsert`).
- RuleLists.RemovalDeletesLines: the positions are those of the parsed layout; that a provider occupies exactly its lines is a fact of the parser.
- Endpoints.EndpointBypass.PrepareHosts: the text order of addresses (numeric order is used instead) and finding the hosts of a profile.
- Dashboard.DashboardRoot.InstallAndRecover: removals of directories fail only by a crash, and renames reach the disk in the order they were made; download and verification of the tree.
- Integration.UpdateService.Install: the binary swap is the update package's; after a failed swap (`NotSwapped`) nothing is promised about the binary.
- PtrLookups.Resolver.Await: that a lookup ends at all; the DNS exchange and reading local name files.
- HTTP, CLI and web views; credentials and TLS; share links; native validation of profiles; process resources, status and doctor reports: little to prove across functions.
