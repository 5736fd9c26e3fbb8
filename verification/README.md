# Verified models of rimz

RimZ runs coding agents in terminal panes. This project models the parts of it whose behaviour is
hardest to see from the code, and proves what they promise over every input, run or interleaving.
`dafny verify dfyconfig.toml` checks all of it.

**The Zellij presence plugin** turns host events into effects with an injected clock. `PokePolicy`
(with `PokeSchedule`) rate-limits wakes over one-shot anonymous timers. `ClientFocus` (with
`FocusRuns`, `FocusBooks`, `FocusProgress` and `FocusLiveness`) settles tab switches over untagged
`ListClients` replies. `Room` (with `RoomMerge`, `RoomRuns` and `RoomHash`) keeps the pane roster, its
overlays and the hash short-circuit. `Handlers` specifies every handler as a function from a state to a state and effects;
`PluginEngine` performs the handlers in place, as the plugin does, and is proved equal to them;
`EngineDriver` drives that object through a run and states the main theorems of the object itself.
`EngineRuns` defines runs: any finite sequence of events with a clock that never runs backwards, and
beside it the host's outstanding timers. The remaining `Engine*` modules prove the invariants of runs.
Each one projects the state onto the few fields a property needs, states what an event does to
them, and lifts the result to runs.

**Independent models**: `WireChunks` (topology arguments), `BuildId`, `BuildNotes` and `BuildImages`
(ELF and Mach-O identities), `Prune` and `PruneUnits` (artifact retention), `Stress` and `StressMerge`
(workers claiming copies), `BatchNames`, `BatchSelect`, `BatchLaws` and `BatchHistory` (Dependabot repair batches), `Address`
(agent addresses over live panes), `LaunchRows` and `LaunchLaws` (the row that stands for a launch).

## Where the code does not keep a promise

- `EngineWitness.DeniedInputSpins`: with input pending, a denied permission makes the timer handler
  re-arm with zero delay at every fire. `EngineProgress.TimerSpinsIff` gives the exact condition.
- `EngineWitness.DeniedDumpLulls`: a dump that unmutes a denied engine can leave a pending switch with
  no deadline until the next event. `EngineProgress.AsleepIffLulled` gives the exact condition.
- `EngineLate.LateAnswerIsPublished`: replies that outlive their query's deadline can publish a sample
  older than the roster. `EngineWakes.PublishedClientsAreFresh` proves freshness while no reply finds
  a query in flight behind an expired one. `EngineStale.CrossedReplyPublishesStale` shows that this
  guard cannot be weakened: in a session any run that breaks it can go on to a stale publication.
  A host that answers in time meets it.
- `RoomRuns.MoveKeepsOverlayIffDownward`: a pane that moves to a higher tab loses its overlays.
- `Stress.ClaimAfterStop`: the comment says that after a fatal error no worker claims another copy.
  A worker that passed the stop test just before still claims one. `Stress.StartsAfterStopIff` gives
  the exact condition.
- `LaunchLaws.ContestedLaunchDisagrees`: the comment on `launch_rows` says selection over its rows is
  selection over the whole snapshot. The pane-owner comparison has a cycle among an unseen ask, an
  unseen open turn and a row on screen, so the answer then depends on the order of the rows.
  `LaunchLaws.AgreesIffUncontested` gives the exact condition.
- `Address.ShadowedHandle`: the module calls the canonical handle the inverse of the parser. A session
  id is matched across lanes, so a handle that equals one elsewhere resolves elsewhere.
- `Address.StrayHandle`: the handle of a pane without a lane names none, so inside a lane it is looked
  up there and may find another pane. `Address.AddressRoundTrip` gives the exact condition for both.

## Model

| member | source | states |
|---|---|---|
| `EngineTimers.NoLostWakeup` | crates/rimz-presence-zellij/src/engine.rs:1067-1079 | After every handler of every run that starts with `on_load`, some outstanding host timer is due by the earliest of the policy, focus and input deadlines, or by now |
| `EngineTimers.AlwaysScheduled` | crates/rimz-presence-zellij/src/engine.rs:1008-1082 | The invariant behind it: the armed mark is backed by an outstanding timer, never lies after the deadline, and the policy's own wake time is covered |
| `EngineTimers.StepPaysDebts` | crates/rimz-presence-zellij/src/engine.rs:755-1020 | Every one of the nineteen handlers keeps that invariant, including late fires of superseded timers and the gate reset of the dump pipe |
| `EngineTimers.ChangeReachesHost` | crates/rimz-presence-zellij/src/engine.rs:1040-1065 | With a host that delivers timers within a latency, a pending change is poked within 100 ms plus the latency of its signal, and the poke is published if the engine can wake the host |
| `EngineTimers.DueChangeIsPublished` | crates/rimz-presence-zellij/src/engine.rs:1055-1065 | A change or settle poke that comes due in `finish_update` leaves a panes-changed wake among the effects, if the engine can wake the host |
| `EngineTimers.PendingIsRecent` | crates/rimz-presence-zellij/src/engine.rs:1040-1053 | While a change is pending the clock is at most 100 ms plus the host's latency past its signal |
| `EngineProgress.TimerSpinsIff` | crates/rimz-presence-zellij/src/engine.rs:784-814 | A timer handler arms a timer for the present instant if and only if input is overdue and the permission is gone |
| `EngineProgress.TimerMovesOn` | crates/rimz-presence-zellij/src/engine.rs:755-760 | After `on_timer` every deadline lies ahead, if and only if no input is overdue without permission |
| `EngineWitness.DeniedInputSpins` | crates/rimz-presence-zellij/src/engine.rs:604-607 | A concrete run a host may drive in which the timer handler re-arms with zero delay |
| `EngineProgress.AsleepIffLulled` | crates/rimz-presence-zellij/src/engine.rs:912-931 | No unmuted engine has a pending switch without a focus deadline, except exactly after a dump unmuted it while its permission was denied, until a handler finishes |
| `EngineWitness.DeniedDumpLulls` | crates/rimz-presence-zellij/src/engine.rs:912-931 | A concrete run a host may drive that reaches that state |
| `EngineProgress.FocusCoherent` | crates/rimz-presence-zellij/src/engine.rs:351-371 | In every run a pending switch carries the latest generation and the active tab, and no queued or outstanding observation is newer |
| `EngineProgress.StaleFireIsNoop` | crates/rimz-presence-zellij/src/engine.rs:755-760 | A superseded timer that fires before the armed deadline changes no state and emits no effect |
| `EngineChains.ChainsCollapse` | crates/rimz-presence-zellij/src/policy.rs:341-376 | After every run the host timers beyond the one behind the mark are exactly the timers abandoned less the stale fires, so stale fires never outnumber abandoned timers |
| `EngineChains.SpareStep` | crates/rimz-presence-zellij/src/policy.rs:341-376 | A fire at or after the mark keeps the number of spare timers, one before the mark or with no mark set takes one away, and any other step adds one exactly when it abandons the marked timer |
| `EngineChains.SpareIsNatural` | crates/rimz-presence-zellij/src/policy.rs:341-376 | In every run that count is never negative: there is an outstanding timer for the mark |
| `EngineProgress.AlwaysAttentive` | crates/rimz-presence-zellij/src/engine.rs:406-431 | In every run a query waits unasked in an unmuted engine only while nothing is armed and the permission is gone |
| `FocusProgress.DrivenIsQuiet` | crates/rimz-presence-zellij/src/engine.rs:406-452 | Once driven, the focus machine's next deadline lies in the future |
| `FocusProgress.DrivenIsAwake` | crates/rimz-presence-zellij/src/engine.rs:406-452 | Once driven with queries allowed, a pending switch has a deadline and nothing waits to be asked |
| `FocusProgress.EarlyDriveIsNoop` | crates/rimz-presence-zellij/src/engine.rs:406-431 | Before its deadline a drained focus machine does not move when driven |
| `FocusProgress.AlwaysCoherent` | crates/rimz-presence-zellij/src/engine.rs:351-371 | The coherence invariant over every run of the focus machine |
| `EngineWakes.SettledWakesIncrease` | crates/rimz-presence-zellij/src/engine.rs:840-863 | Switch-settled wakes of two different steps of a run carry strictly increasing generations |
| `EngineWakes.SwitchReportedOnce` | crates/rimz-presence-zellij/src/engine.rs:840-863 | A switch is reported at most once: two settled wakes of one generation in a run are the same effect of the same step |
| `EngineWakes.SettledWakeOrigin` | crates/rimz-presence-zellij/src/engine.rs:494-522 | A settled wake names the latest switch and the tab active when it is sent, at least 250 ms after that switch |
| `EngineWakes.PublishedClientsAreFresh` | crates/rimz-presence-zellij/src/engine.rs:454-459 | In every run, as long as no client reply has found a query in flight behind an expired one, a client sample in a published topology answers a query asked after every roster invalidation so far |
| `EngineWakes.PromptIsUncrossed` | crates/rimz-presence-zellij/src/engine.rs:472-478 | A host that answers every query before its deadline never causes such a reply |
| `EngineWakes.CrossedReplyMiscounts` | crates/rimz-presence-zellij/src/engine.rs:480-492 | The first such reply always leaves the host owing one reply more than the engine expects |
| `EngineStale.CrossedReplyPublishesStale` | crates/rimz-presence-zellij/src/engine.rs:454-492 | The guard is exact: in a session, every run a host may drive can be continued from its first such reply, by a host that answers only what it was asked, to publish a client sample older than the latest roster invalidation |
| `EngineLate.LateAnswerIsPublished` | crates/rimz-presence-zellij/src/engine.rs:472-492 | A concrete run a host may drive, every reply asked for, that publishes such a sample |
| `EngineLiveness.SwitchIsReported` | crates/rimz-presence-zellij/src/engine.rs:406-522 | A tab switch is reported: if from then on the host delivers timers within a latency and answers queries within a wait, with nothing owed but the query in flight, and the engine stays granted, unmuted and in a session while every tab update keeps the tab, a settled wake of its generation and tab is emitted within 250 ms plus the latency plus two waits |
| `EngineLiveness.DrivenInTime` | crates/rimz-presence-zellij/src/engine.rs:1067-1079 | Under such a host the focus machine is driven after the settle window and at most the latency later |
| `EngineWakes.EffectIsLawful` | crates/rimz-presence-zellij/src/engine.rs:1110-1137 | Every effect of every handler: topology only from an unmuted engine, stamped now, with the publishable sample; settled wakes only from a settling reply |
| `EngineDriver.Drive` | crates/rimz-presence-zellij/src/engine.rs:593-1006 | Driving the engine object through any run takes it through exactly the specified states and effects; if the host drives the run, some timer the object armed is due by each of its deadlines |
| `EngineDriver.ObjectIsCovered` | crates/rimz-presence-zellij/src/engine.rs:1067-1079 | No event leaves the object without a timer |
| `EngineDriver.ObjectSettlesInOrder` | crates/rimz-presence-zellij/src/engine.rs:840-863 | The settled wakes the object returns from different events carry strictly increasing generations |
| `EngineDriver.ObjectReportsOnce` | crates/rimz-presence-zellij/src/engine.rs:840-863 | Nor does the object report a switch twice |
| `EngineDriver.ObjectMuteNeedsThree` | crates/rimz-presence-zellij/src/engine.rs:954-1006 | A command result mutes the object only as the third rejection newer than every accepted publication |
| `EngineDriver.ObjectIsSilent` | crates/rimz-presence-zellij/src/engine.rs:1110-1137 | From a mute to the next acceptance or dump nothing the object returns carries topology or asks for clients |
| `EngineDriver.ObjectClientsAreFresh` | crates/rimz-presence-zellij/src/engine.rs:454-459 | While no reply was crossed, the client samples the object publishes answer queries newer than every invalidation |
| `EngineFocus.StepFocus` | crates/rimz-presence-zellij/src/engine.rs:593-1020 | Every handler moves the focus machine by exactly the listed focus operations |
| `EngineFocus.FocusFollowsTrace` | crates/rimz-presence-zellij/src/engine.rs:593-1020 | The engine's focus state is the focus machine's state after the trace of the run |
| `EngineFence.MuteNeedsThreeRejections` | crates/rimz-presence-zellij/src/engine.rs:954-1006 | Under every ordering of command results a result mutes the engine only as the third rejection issued after every accepted publication, with no acceptance or revival between |
| `EngineFence.ThirdRejectionMutes` | crates/rimz-presence-zellij/src/engine.rs:954-1006 | A third such rejection in a row always mutes |
| `EngineFence.AcceptedWatermarkAscends` | crates/rimz-presence-zellij/src/engine.rs:954-1006 | The accepted watermark never decreases |
| `EngineFence.WatermarkIsNewest` | crates/rimz-presence-zellij/src/engine.rs:954-1006 | The watermark is the newest publication accepted so far |
| `EngineFence.MutedSpanIsSilent` | crates/rimz-presence-zellij/src/engine.rs:1110-1137 | From a mute to the next acceptance or dump no effect carries topology or asks for clients |
| `EngineFence.ActionPipesAreGuarded` | crates/rimz-presence-zellij/src/engine.rs:865-910 | The four action pipes never change the engine, emit nothing while it is muted or not granted, and otherwise at most one effect that neither publishes, asks for clients, settles a switch nor arms a timer |
| `EngineFence.FenceStep` | crates/rimz-presence-zellij/src/engine.rs:912-1006 | What every handler does to the mute, the rejection count and the watermark |
| `EngineRoom.SkippedManifestIsInvisible` | crates/rimz-presence-zellij/src/engine.rs:609-639 | In every run a manifest skipped for its unchanged hash would have changed nothing but titles, whatever command, cwd, tab and close events came between |
| `EngineRoom.EntryAbsorbs` | crates/rimz-presence-zellij/src/engine.rs:675-751 | Every event keeps the remembered hash standing for a manifest the roster has absorbed |
| `EngineRoom.RosterFollowsRun` | crates/rimz-presence-zellij/src/engine.rs:593-1020 | The engine's roster is the roster machine's after the run's roster events |
| `EngineRoom.PaneProbedOncePerLife` | crates/rimz-presence-zellij/src/engine.rs:182-200 | In every run the host is asked for a pane's pid at most once per incarnation of the pane |
| `FocusRuns.SettlementOrigin` | crates/rimz-presence-zellij/src/engine.rs:406-522 | A settled observation names the latest switch, its tab and the active tab, no earlier than the settle window |
| `FocusRuns.SettlementsIncrease` | crates/rimz-presence-zellij/src/engine.rs:494-522 | Settled generations strictly increase |
| `FocusRuns.PublishedSampleIsFresh` | crates/rimz-presence-zellij/src/engine.rs:382-404 | While every reply was attributable, a publishable sample answers a query asked after the latest invalidation |
| `FocusRuns.AccountedIffAttributable` | crates/rimz-presence-zellij/src/engine.rs:472-492 | The machine expects exactly the replies the host owes throughout a run, if and only if no reply finds a query in flight behind an expired one |
| `FocusRuns.MiscountedReply` | crates/rimz-presence-zellij/src/engine.rs:480-492 | A reply that does leaves one reply owed that the machine does not expect |
| `FocusRuns.PromptIsAttributable` | crates/rimz-presence-zellij/src/engine.rs:472-478 | With a host that answers before every deadline no such reply comes |
| `FocusRuns.LateReplyIsAttributable` | crates/rimz-presence-zellij/src/engine.rs:472-492 | The guard is weaker than promptness: a concrete late reply that meets it |
| `FocusLiveness.DrivenSwitchSettles` | crates/rimz-presence-zellij/src/engine.rs:406-522 | A pending switch driven after its window is settled by a reply within twice the time the host takes to answer, whatever observations and tab updates that keep the tab come between |
| `FocusRuns.UnmarkedQueryIsNewer` | crates/rimz-presence-zellij/src/engine.rs:339-345 | A query not marked invalidated was issued no earlier than the roster change |
| `FocusRuns.ModeStep` | crates/rimz-presence-zellij/src/engine.rs:351-371 | A step switches to a new generation, keeps the pending switch and its tab, or goes stable |
| `ClientFocus.FocusSync.constructor` | crates/rimz-presence-zellij/src/engine.rs:326-336 | Starts idle |
| `ClientFocus.FocusSync.InvalidateClientSample` | crates/rimz-presence-zellij/src/engine.rs:339-345 | Marks the roster newer than the sample and the query in flight, and queues an observation |
| `ClientFocus.FocusSync.RequestGeneralObservation` | crates/rimz-presence-zellij/src/engine.rs:347-349 | Queues a general observation unless a more specific one waits |
| `ClientFocus.FocusSync.AcceptTabUpdate` | crates/rimz-presence-zellij/src/engine.rs:351-371 | The new state is the specified tab update: a switch opens a new generation |
| `ClientFocus.FocusSync.AcceptConnectedClients` | crates/rimz-presence-zellij/src/engine.rs:373-380 | A changed client count queues an observation |
| `ClientFocus.FocusSync.AcceptClientSample` | crates/rimz-presence-zellij/src/engine.rs:382-404 | State and update are the specified reply: sample, settlement, cleared invalidation |
| `ClientFocus.FocusSync.DriveDueQuery` | crates/rimz-presence-zellij/src/engine.rs:406-431 | State and question asked are the specified drive: expiry, settle window, one query at a time |
| `ClientFocus.FocusSync.ExpireQuery` | crates/rimz-presence-zellij/src/engine.rs:472-478 | An expired query is requeued and its reply owed |
| `ClientFocus.FocusSync.ConsumeReply` | crates/rimz-presence-zellij/src/engine.rs:480-492 | A reply is matched to the query in flight or written off against an expired one |
| `ClientFocus.FocusSync.ApplyObservation` | crates/rimz-presence-zellij/src/engine.rs:494-522 | The sample is replaced and a matching switch settles |
| `RoomMerge.MergeClosedForm` | crates/rimz-presence-zellij/src/engine.rs:145-180 | The per-tab merge loop has a closed form at every pane: the last report overrides, panes of reported non-empty tabs go, overlays stay exactly while the pane was not dropped first |
| `RoomRuns.LivingPane` | crates/rimz-presence-zellij/src/engine.rs:296-298 | A pane that is not dropped keeps its place, overlays and probed pid |
| `RoomRuns.OverlaySurvives` | crates/rimz-presence-zellij/src/engine.rs:145-180 | Over any run, overlays survive until an event edits them or the pane is dropped |
| `RoomRuns.StayingPaneLives` | crates/rimz-presence-zellij/src/engine.rs:145-180 | A pane its tab still reports is not dropped |
| `RoomRuns.ProbedOncePerLife` | crates/rimz-presence-zellij/src/engine.rs:182-200 | Between two probes of a pane it was dropped |
| `RoomRuns.MoveKeepsOverlayIffDownward` | crates/rimz-presence-zellij/src/engine.rs:145-180 | A pane moved between two reported tabs keeps its overlays if and only if it moves to a lower tab |
| `RoomHash.ApplyAbsorbs` | crates/rimz-presence-zellij/src/engine.rs:625-639 | Applying a manifest makes the roster absorb its digest |
| `RoomHash.ReapplyIsInvisible` | crates/rimz-presence-zellij/src/engine.rs:625-639 | Re-applying an absorbed manifest changes nothing but titles |
| `RoomHash.OverlayKeepsAbsorbed` | crates/rimz-presence-zellij/src/engine.rs:202-246 | Overlay edits keep a digest absorbed |
| `RoomHash.TabUpdateKeepsAbsorbed` | crates/rimz-presence-zellij/src/engine.rs:675-687 | A tab update re-stamps roster and digest alike |
| `Room.RoomState.constructor` | crates/rimz-presence-zellij/src/engine.rs:128-131 | Starts empty, without a manifest |
| `Room.RoomState.ApplyManifest` | crates/rimz-presence-zellij/src/engine.rs:145-180 | The roster becomes the merged and probed one; reports whether it changed |
| `Room.RoomState.ApplyTab` | crates/rimz-presence-zellij/src/engine.rs:151-175 | One tab of the merge |
| `Room.RoomState.ProbeMissingPids` | crates/rimz-presence-zellij/src/engine.rs:182-200 | Looks up exactly the live terminals without a pid |
| `Room.RoomState.UpdateForeground` | crates/rimz-presence-zellij/src/engine.rs:202-215 | Sets or clears the foreground command of a terminal; reports a change |
| `Room.RoomState.UpdateShell` | crates/rimz-presence-zellij/src/engine.rs:217-231 | Sets the shell and clears the foreground; reports a change |
| `Room.RoomState.UpdateCwd` | crates/rimz-presence-zellij/src/engine.rs:233-246 | Sets the directory; reports a change |
| `Room.RoomState.ClosePane` | crates/rimz-presence-zellij/src/engine.rs:248-250 | Removes the pane; reports whether it was there |
| `Room.RoomState.SetTabIds` | crates/rimz-presence-zellij/src/engine.rs:675-687 | Re-stamps every pane with its tab's stable id; reports a change |
| `PokePolicy.Policy.constructor` | crates/rimz-presence-zellij/src/policy.rs:272-281 | Starts with nothing pending and the first keepalive a minute away |
| `PokePolicy.Policy.OnSignal` | crates/rimz-presence-zellij/src/policy.rs:283-294 | A first signal becomes pending, later ones coalesce |
| `PokePolicy.Policy.Due` | crates/rimz-presence-zellij/src/policy.rs:296-324 | State and pokes are the specified consultation |
| `PokePolicy.Policy.NextWakeAt` | crates/rimz-presence-zellij/src/policy.rs:326-339 | The earliest of the change, settle and keepalive instants |
| `PokePolicy.TimerGate.constructor` | crates/rimz-presence-zellij/src/policy.rs:349-352 | Starts unarmed |
| `PokePolicy.TimerGate.OnFire` | crates/rimz-presence-zellij/src/policy.rs:358-362 | A fire clears the mark only once the mark is reached |
| `PokePolicy.TimerGate.TryArm` | crates/rimz-presence-zellij/src/policy.rs:368-376 | Arms only for an earlier instant than the mark |
| `PokePolicy.ConsultMeetsWakeTime` | crates/rimz-presence-zellij/src/policy.rs:296-339 | After a consultation the next wake lies ahead and the schedule stays well timed |
| `PokePolicy.SignalKeepsTiming` | crates/rimz-presence-zellij/src/policy.rs:283-294 | A signal keeps the schedule well timed |
| `PokeSchedule.PokesKeepTheFloor` | crates/rimz-presence-zellij/src/policy.rs:296-324 | Any two panes-changed pokes of a run are at least 100 ms apart |
| `PokeSchedule.WakeTimeIsExact` | crates/rimz-presence-zellij/src/policy.rs:326-339 | In every reachable state something is due at t if and only if t has reached the wake time |
| `PokeSchedule.SignalPokedWithinFloor` | crates/rimz-presence-zellij/src/policy.rs:283-324 | Consulted at its wake times, every signal gets a change poke within 100 ms |
| `PokeSchedule.BurstSettles` | crates/rimz-presence-zellij/src/policy.rs:296-324 | Every burst ends with a settle poke 250 ms after its last change poke |
| `EnginePokes.ChangedWakesKeepFloor` | crates/rimz-presence-zellij/src/engine.rs:1055-1065 | Any two panes-changed wakes of an engine run are one and the same effect or at least 100 ms apart |
| `EnginePokes.ChangedWakeIsDue` | crates/rimz-presence-zellij/src/engine.rs:1040-1065 | A handler sends a panes-changed wake only in `finish_update`, for a due poke, and once |
| `EnginePokes.BurstEndsWithWake` | crates/rimz-presence-zellij/src/engine.rs:1040-1065 | In an engine run with a host of bounded latency, a poke for a pending change is followed by another no sooner than 100 ms and no later than 250 ms plus the latency; one for no new change waits out the 250 ms; it is published if the engine can wake the host |
| `PluginEngine.Engine.constructor` | crates/rimz-presence-zellij/src/engine.rs:563-583 | Starts in the initial state |
| `PluginEngine.Engine.RunWake` | crates/rimz-presence-zellij/src/engine.rs:1110-1137 | Emits the specified wake, with topology only when it fits |
| `PluginEngine.Engine.MarkGranted` | crates/rimz-presence-zellij/src/engine.rs:1025-1038 | The first grant reconfigures and pokes; a held change is flushed |
| `PluginEngine.Engine.DispatchDue` | crates/rimz-presence-zellij/src/engine.rs:1055-1065 | Carries out the due pokes in order |
| `PluginEngine.Engine.Rearm` | crates/rimz-presence-zellij/src/engine.rs:1067-1079 | Arms for the earliest deadline through the gate |
| `PluginEngine.Engine.FinishUpdate` | crates/rimz-presence-zellij/src/engine.rs:1008-1020 | Due pokes, then the focus query, then the timer |
| `PluginEngine.Engine.PublishDueInput` | crates/rimz-presence-zellij/src/engine.rs:791-814 | Publishes input once its floor has passed and the permission holds |
| `PluginEngine.Engine.OnLoad` | crates/rimz-presence-zellij/src/engine.rs:593-595 | State and effects are those of `finish_update` alone: first timer armed, nothing signalled |
| `PluginEngine.Engine.OnPermissionGranted` | crates/rimz-presence-zellij/src/engine.rs:597-602 | The plugin pane is hidden, the first grant marked before and the configuration re-applied after it |
| `PluginEngine.Engine.OnPermissionDenied` | crates/rimz-presence-zellij/src/engine.rs:604-607 | Only the permission is withdrawn before the update is finished; pending input stays |
| `PluginEngine.Engine.OnPaneManifest` | crates/rimz-presence-zellij/src/engine.rs:609-654 | Grant first; an unchanged hash skips the merge, otherwise a moved roster invalidates the client sample and a change after the baseline is signalled; a visible plugin pane is hidden |
| `PluginEngine.Engine.OnTabUpdate` | crates/rimz-presence-zellij/src/engine.rs:656-693 | Names, viewed tabs and stable ids are replaced, one signal for a change of identity or view, then the focus machine sees the active tab |
| `PluginEngine.Engine.OnCommandChanged` | crates/rimz-presence-zellij/src/engine.rs:695-717 | The overlay becomes the command, the shell or nothing, and a signal is queued exactly when it changed |
| `PluginEngine.Engine.OnCwdChanged` | crates/rimz-presence-zellij/src/engine.rs:719-734 | The directory overlay is replaced, and a signal is queued exactly when it changed |
| `PluginEngine.Engine.OnPaneClosed` | crates/rimz-presence-zellij/src/engine.rs:736-753 | A known pane leaves the roster, the remembered hash and the client sample; an unknown one changes nothing |
| `PluginEngine.Engine.OnTimer` | crates/rimz-presence-zellij/src/engine.rs:755-760 | The gate learns of the fire before due input is published and the update finished |
| `PluginEngine.Engine.OnUserAction` | crates/rimz-presence-zellij/src/engine.rs:762-782 | Only input of the own client, by hand and not mere motion, is noted, published if due, and the timer re-armed |
| `PluginEngine.Engine.OnSessionUpdate` | crates/rimz-presence-zellij/src/engine.rs:816-838 | A newly attached client re-applies the configuration; the count reaches the focus machine; with no client left no tab is viewed |
| `PluginEngine.Engine.OnListClients` | crates/rimz-presence-zellij/src/engine.rs:840-863 | The reply is matched to its query; a settled switch wakes the host, a changed sample is signalled |
| `PluginEngine.Engine.OnDumpTopologyPipe` | crates/rimz-presence-zellij/src/engine.rs:912-931 | A muted engine is revived with a reset gate and invalidated sample; granted, it probes, pokes, asks and re-arms; ungranted, it only notes a change |
| `PluginEngine.Engine.OnRetirePipe` | crates/rimz-presence-zellij/src/engine.rs:933-952 | Mutes or closes an older generation |
| `PluginEngine.Engine.OnRunCommandResult` | crates/rimz-presence-zellij/src/engine.rs:954-1006 | A success raises the watermark and unmutes, a stale rejection counts only above the watermark, repeated failures fall back to the program on the path |
| `PluginEngine.Engine.Handle` | crates/rimz-presence-zellij/src/engine.rs:593-1006 | Whatever the event, the object ends in the specified state and returns the specified effects |
| `WireChunks.ChunkingIsLossless` | crates/rimz-presence-zellij/src/wire.rs:422-433 | For every UTF-8 text up to the ceiling the chunks concatenate to it, each is non-empty, at most 64 KiB and whole characters, and there are at most seventeen |
| `WireChunks.PushTopology` | crates/rimz-presence-zellij/src/wire.rs:422-433 | The loop appends the flagged chunks, and collecting their values gives the topology back; beyond the ceiling nothing is appended |
| `WireChunks.ChunkProgress` | crates/rimz-presence-zellij/src/wire.rs:424-428 | A chunk always makes progress, ends where a character starts, and gives up at most three bytes |
| `WireChunks.SliceIsUtf8` | crates/rimz-presence-zellij/src/wire.rs:428-431 | A slice between character starts is itself well-formed UTF-8 |
| `WireChunks.LastBoundary` | crates/rimz-presence-zellij/src/wire.rs:426-428 | The backward walk stops at the last character boundary |
| `BuildId.IdentityIsPrefixStable` | crates/rimz/src/build_id.rs:114-238 | An identity found in a prefix of an image is found, unchanged, in every extension of the prefix |
| `BuildId.FileAgreesWithBytes` | crates/rimz/src/build_id.rs:55-86 | The stamp read from a file agrees with the stamp of its bytes, unless the identity lies beyond the prefix; then one is the hash and the other the identity |
| `BuildId.BuildIdFromElf` | crates/rimz/src/build_id.rs:132-187 | The program-header loop finds the specified identity, in bounds, in either byte order |
| `BuildId.BuildIdFromMacho` | crates/rimz/src/build_id.rs:215-238 | The load-command loop finds the specified identity, in bounds, in either byte order |
| `BuildId.FindGnuBuildId` | crates/rimz/src/build_id.rs:189-213 | The note loop returns the specified scan, in bounds |
| `BuildNotes.NotesRoundTrip` | crates/rimz/src/build_id.rs:189-213 | For every list of padded notes in either byte order the scan returns the first build-id descriptor, or none |
| `BuildImages.ElfRoundTrip` | crates/rimz/src/build_id.rs:132-187 | For every ELF image, of either class and byte order and wherever it keeps its headers and notes, the identity is the first build id over its note segments, or none |
| `BuildImages.MachoRoundTrip` | crates/rimz/src/build_id.rs:215-238 | For every Mach-O image of either width and byte order the identity is the UUID of the first UUID command, or none |
| `BuildNotes.ScanFindsIff` | crates/rimz/src/build_id.rs:189-213 | On any bytes the scan finds a descriptor if and only if they start with the encoding of a note list that has it first |
| `BuildNotes.NoteWas` | crates/rimz/src/build_id.rs:192-206 | Whatever parses as a note is the encoding of a note |
| `BuildNotes.ValueOfDigits` | crates/rimz/src/build_id.rs:244-266 | Reading a word back gives the number written |
| `BuildNotes.DigitsOfValue` | crates/rimz/src/build_id.rs:244-266 | Writing a number read gives the bytes back |
| `Prune.PruneIsIdempotent` | xtask/src/prune.rs:245-306 | A second prune at the same time removes nothing |
| `Prune.NewestStays` | xtask/src/prune.rs:271-305 | Each stem keeps a hash carrying its newest time |
| `Prune.YoungStay` | xtask/src/prune.rs:286-300 | Nothing younger than a day is removed |
| `Prune.HashesGoWhole` | xtask/src/prune.rs:297-302 | The entries of a hash are removed together or not at all |
| `Prune.ExpiryIsDownward` | xtask/src/prune.rs:285-299 | If a unit expires so does every later unit that links an executable |
| `Prune.RankKept` | xtask/src/prune.rs:282-297 | Surviving executables keep their rank |
| `PruneUnits.PruneDirectory` | xtask/src/prune.rs:245-306 | The grouping, sorting and walk leave exactly the survivors and report exactly what they lack; a dry run leaves everything and reports the same |
| `PruneUnits.PruneStem` | xtask/src/prune.rs:271-304 | The walk over one stem removes exactly the units that expire |
| `PruneUnits.WalkedAreAhead` | xtask/src/prune.rs:282-297 | The walk's counter counts the executables ahead of a unit |
| `PruneUnits.SortOrders` | xtask/src/prune.rs:279 | The stable sort visits units newest first, ties by hash |
| `PruneUnits.GroupEntries` | xtask/src/prune.rs:245-270 | The nested map holds every unit of the directory and nothing else |
| `PruneUnits.Remove` | xtask/src/prune.rs:344-355 | A removal takes exactly the entry's files and bytes away; a dry run only reports |
| `Stress.CopiesStartInOrder` | xtask/src/stress.rs:277-284 | Whatever the interleaving, no copy runs twice and the copies run are an initial segment of 1..copies |
| `Stress.CopiesAccounted` | xtask/src/stress.rs:277-311 | Each started copy is in exactly one place: one worker runs it, or it ended once |
| `Stress.CleanRunCompletes` | xtask/src/stress.rs:263-334 | Without errors or panics every copy completes once all workers finish |
| `Stress.RunsEnd` | xtask/src/stress.rs:277-312 | No interleaving keeps the workers busy beyond four steps per copy and three per worker |
| `Stress.StartsAfterStopIff` | xtask/src/stress.rs:279-309 | Once the stop flag is set a move starts a copy if and only if its worker had passed the test before, has not moved since, and a copy is left |
| `Stress.StoppedWorkerStartsOnce` | xtask/src/stress.rs:279-309 | So after the stop each worker starts at most one more copy, and none unless it had passed the test |
| `Stress.ClaimAfterStop` | xtask/src/stress.rs:260-262 | A concrete run in which a copy is claimed after the stop, against the comment |
| `Stress.ClaimStep` | xtask/src/stress.rs:280-284 | The shared counter never wraps |
| `Stress.MergeBatches` | xtask/src/stress.rs:318-328 | The join loop adds up the workers' batches and keeps the first error |
| `StressMerge.BatchListsEndings` | xtask/src/stress.rs:285-328 | In every interleaving without panics the joined batch lists exactly the copies that ended failed and those that erred leaving output, each once, and counts those that ran to their end |
| `StressMerge.ReportsIffFatal` | xtask/src/stress.rs:303-328 | In every interleaving the joined batch reports an error if and only if some copy erred or panicked |
| `BatchNames.SourcesOfName` | loops/dependabot/dependabot.py:41-51 | Every batch is read back from its branch name |
| `BatchNames.NameOfSources` | loops/dependabot/dependabot.py:45-51 | Every accepted branch name lists a strictly increasing positive batch and is its name |
| `BatchSelect.SelectBatch` | loops/dependabot/dependabot.py:100-174 | The loops compute the specified plan or fail |
| `BatchLaws.ClaimsAreDisjoint` | loops/dependabot/dependabot.py:113-129 | In every accepted list two replacement pull requests share no source and no branch |
| `BatchLaws.OpenReplacementPins` | loops/dependabot/dependabot.py:128-140 | While a replacement is open every plan names its batch |
| `BatchLaws.OrphanPins` | loops/dependabot/dependabot.py:130-140 | While an orphan branch exists every plan names its batch |
| `BatchLaws.NewPlanIsUncovered` | loops/dependabot/dependabot.py:139-158 | A new plan is formed only when nothing is in progress, from uncovered numbers |
| `BatchHistory.NoSourceClaimedTwice` | loops/dependabot/dependabot.py:100-174 | Over every history of pull requests, selections and interrupted batches no source is claimed by two batches with replacements |
| `BatchHistory.WantedMembers` | loops/dependabot/dependabot.py:142-145 | A new batch lists exactly the open, failing, uncovered Dependabot pull requests |
| `BatchHistory.WantedAscend` | loops/dependabot/dependabot.py:142 | They are listed in ascending order, strictly when numbers are unique |
| `Address.AddressRoundTrip` | crates/rimz/src/address.rs:300-319 | Resolving the address rendered for a live pane against the same panes, from any lane, gives back exactly that pane, if and only if its handle is not the session id of another pane and a pane without a lane lies in the caller's lane or is addressed by its own id |
| `Address.WordResolves` | crates/rimz/src/address.rs:613-629 | A word that names a pane within a channel resolves to it, if and only if it is not another pane's session id |
| `Address.ShadowedHandle` | crates/rimz/src/address.rs:613-625 | A concrete pane whose rendered address resolves to the pane in another lane with that session id |
| `Address.StrayHandle` | crates/rimz/src/address.rs:580-629 | A concrete pane without a lane whose address, used inside a lane, resolves to another pane |
| `Address.PaneIdResolves` | crates/rimz/src/address.rs:907-927 | A pane id resolves to exactly its pane |
| `Address.ParseScoped` | crates/rimz/src/address.rs:762-786 | A rendered handle and lane parse back into selector and channel |
| `Address.FirstResolving` | crates/rimz/src/address.rs:1606-1659 | The rendered word names exactly the pane among its peers |
| `LaunchLaws.AgreesIffUncontested` | crates/rimz/src/address.rs:1157-1207 | Selecting among the requested rows agrees with the whole snapshot, in whatever order it lists its rows, if and only if ownership of the launch is not contested |
| `LaunchLaws.SubsetSelects` | crates/rimz/src/address.rs:1157-1207 | Unless ownership is contested the subset selects the same row |
| `LaunchLaws.ContestedLaunchDisagrees` | crates/rimz/src/address.rs:1157-1159 | A concrete snapshot in which the subset selects another row, against the comment |
| `LaunchLaws.ContestedHasNoOwner` | crates/rimz/src/agents/state.rs:1857-1902 | A contested group has no row that owns against all others: the owner order has a cycle |
| `LaunchLaws.OwnerUnlessContested` | crates/rimz/src/agents/state.rs:1857-1902 | Every other group has such a row |
| `LaunchLaws.RequestedMembers` | crates/rimz/src/address.rs:1134-1171 | The requested rows hold every member of each requested launch |
| `LaunchRows.LaunchRowsOf` | crates/rimz/src/address.rs:1160-1171 | The nested loops insert each member once, in key order |
| `LaunchRows.RowsAre` | crates/rimz/src/address.rs:1160-1171 | The rows are exactly the members of the requested launches |

## Left out

- Clocks: the plugin's clock is a parameter of each step. `PokePolicy` adds with plain `+`, so runs keep the clock a minute below 2^64.
- Switch generations wrap at 2^64; the statements about their order are for runs with fewer switches.
- The wasm shell and its host calls; only the fact that tab ids are updated before the tab update is kept.
- JSON, hexadecimal and SHA-256: a topology is the record it serializes, whether it fits the ceiling is the host's answer, and the digest is a function.
- The stable hash is taken as injective: a digest is the list of hashed fields.
- `publishes_topology` looks for an argument equal to the flag, so a session of that name would count; the model asks whether a topology was attached.
- Telemetry, palette modes and reconfiguration text beyond whether they are sent.
- Which query a client reply answers once one has been miscounted: replies are untagged and the plugin treats them as general evidence.
- `first_line`, `kdl_string`, failure counters and focus chords of the wire module: easy members.
- EngineTimers.ChangeReachesHost: the host's latency is a hypothesis, since nothing in the plugin bounds it.
- EngineLiveness.SwitchIsReported: the host's latency and answering time are hypotheses for the same reason. An update that leaves the tab opens a switch of its own, to which the theorem applies again, or leaves no tab to report.
- Client replies the host was never asked for, and runs of 2^32 focus operations or more, are outside the freshness theorems: the count of stale replies saturates there.
- EngineRoom.SkippedManifestIsInvisible: assumes the projection and the digest of one event come from one raw manifest under the current tab ids, as the shell builds them.
- BuildId: offsets are 64-bit; on a 32-bit target some additions would fail earlier. Reading the file in pieces and the streaming hash are not modelled.
- Prune: hash names are numbers, and units whose measure fails are not modelled. `sweep`, `prune_incremental`, locks and the stamp file are left out as easy.
- Stress: copies and jobs together stay below 2^64, and atomics are sequentially consistent, so the model does not show a worker that sees the stop flag late under relaxed ordering. File names, sorting of outputs and the commands run are left out.
- BatchSelect: all raised errors are one failure, and reasons are not modelled. A pull request body is the number of marker mentions and its lines.
- BatchHistory.NoSourceClaimedTwice: histories in which a pull request later changes which batch it claims, or in which a replacement is opened for a branch that was never planned, are excluded.
- Address.AddressRoundTrip: lane filters are assumed to select exactly the panes with the rendered label, and handle words to be non-empty and free of `:` and `#`. Rendering for stored sessions rather than live panes, suggestions and error text are left out.
- LaunchRows: whether a turn is open, a conversation waits or a kind follows the latest session are fields or parameters. `launch_groups` and team channels are left out.
