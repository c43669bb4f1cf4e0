# Ahsir: the bookkeeping under its locks

Ahsir runs LLM agents as child processes and lets people and other agents talk to
them. What must not go wrong is kept in small state machines guarded by mutexes:
which turn may run, which process lives, what a crash leaves behind. This project
models those machines in Dafny, one critical section at a time, and proves what
every interleaving of any number of callers keeps.

The modules follow the program:

- `TurnGate.dfy`: the FIFO gate in front of one agent session, with cancellation,
  handover and the eviction lease.
- `IdleReaper.dfy`: the monitor that lets an idle agent scale itself to zero.
- `SessionPool.dfy`: the pool of provider sessions, its persisted shadow, its cap
  and its reaper. `SessionLease.dfy` puts the turn gates beside the pool,
  `SessionCap.dfy` lets lookups race lock by lock, the slots of a cap scan read one at
  a time. `SessionCapReject.dfy` has the bound that policy reject keeps,
  `SessionCapRuns.dfy` the runs that reach the bounds or pass them.
- `ClaudeSession.dfy`: the state machine of one provider session and its channels.
- `LifecycleStore.dfy`, `Lifecycle.dfy`, `LifecycleRuns.dfy`: the durable lifecycle
  record, the composite turn (initialize, business, finalize), and any number of
  such turns over one store with restarts.
- `Ledger.dfy`: the event-sourced invocation ledger and its compaction.
- `InstancePool.dfy`, `Ports.dfy`, `Supervisor.dfy`: instance names and placement,
  the circular port allocator, and the supervisor of agent processes.
- `RelayRoom.dfy`, `Roundtable.dfy`: the two floor-control policies of a room, and
  the room log a restart replays.
- `Sequences.dfy`, `Decimal.dfy`, `Options.dfy`: sequences without repetition, decimal
  numerals, optional values.

Each machine appears twice. A datatype with total step functions says what a
critical section does to the state; a class with the source's fields does the same
in place, with the source's branches and loops, and its methods are proved equal to
the step functions. A `Step` datatype lists the critical sections; a run is any
sequence of steps, and a step that is not enabled changes nothing, so statements
about runs are statements about all interleavings. Providers, clocks, processes, the
disk and random choices are parameters of the steps.

Results that go against a comment or a document of the program, or that a maintainer
would want to know:

- Lookups that race are said to pass the cap by a small excursion at worst
  (`internal/wrapper/session_pool.go:566-568`). Under reject, with at most N lookups in
  progress, the pool holds at most max_active - 1 + N sessions
  (`RejectCaps.RejectIsBounded`), although a scan can overlook sessions. Under evict-lru
  there is no bound, in two ways: two lookups that settle on the same victim close one
  session and open two, every time (`CapRuns.MissedEvictionsPileUp`); and a scan that
  reads each slot after its session was replaced counts none and passes a full pool,
  with no eviction missed and never more than one lookup past the check
  (`CapRuns.OverlookedSessionsPileUp`). Under either policy a lookup whose slot a reap
  removes between check and commit installs its session on that slot, where nothing
  counts, evicts or closes it again (`CapRuns.StrandedSessionsPileUp`,
  `SessionCaps.StrayStaysOpen`). `SessionCaps.OverrunIsBounded` says how far each goes.
  N counts every lookup in progress, scan included: counting those past the check is
  not enough (`CapRuns.OnePastIsNotEnough`).
- A room's stop is documented as terminal (`internal/scheduler/rooms.go:419`). It is
  not: a turn that was in flight at the stop and then fails puts the room back to
  waiting, and the next message sets it going (`RelayRooms.StopCanBeUndone`, exactly
  when: `RelayRooms.StoppedStaysIff`). A roundtable also loses a stop that comes while
  the moderator's text is saved (`Roundtables.StopCanBeLost`,
  `Roundtables.StoppedStaysIff`).
- A roundtable question posted while an agent is at work can be left without a driver
  (`Roundtables.QuestionCanBeParked`, `Roundtables.FailureCanParkAQuestion`, exactly
  when: `Roundtables.ParkedIff`). A restart leaves an unanswered question without a
  driver too, and without the order drawn for it.
- In a relay room the same befalls a message that calls on another while an agent
  speaks, if that agent's turn then fails (`RelayRooms.FailureCanLeaveAMessageUnserved`,
  exactly when: `RelayRooms.UnservedIff`).
- A lookup of a new context that fails, for the cap or for want of a session, leaves a
  slot in the pool that no reap removes (`SessionPools.FailedLookupLeavesASlot`).
- A resumed session takes a first init without an id for a wrong resume, too
  (`ClaudeSessions.MismatchIff`).
- A message posted while an agent speaks can hide from the log who has the floor
  (`RelayRooms.MidTurnMessageKeepsTheSpeakerIff`), and one posted under a
  participant's name is taken for its turn (`RelayRooms.RestartRestoresLastSeenIff`).
- Idle eviction never closes a session with a turn on it, but eviction for the cap
  does not ask the gate (`SessionLeases.CapEvictionIgnoresTheGate`,
  `SessionLeases.CapEvictionCanCloseARunningTurn`).
- A session without an id that replaces one with an id leaves the persisted shadow
  behind the pool (`SessionPools.AnonymousSessionLeavesAStaleShadow`, exactly when:
  `SessionPools.StepAgreesIff`). If lookups run inside a reap, its tail forgets
  conversations that are live again (`SessionPools.LateTailForgetsALiveConversation`,
  exactly when: `SessionPools.LateTailAgreesIff`).
- A failed write to a provider ends whichever turn is current, not its own
  (`ClaudeSessions.WriteFailureCanEndALaterTurn`,
  `ClaudeSessions.WriteFailureHitsOnlyItsTurn`). The pool's turn gate is held across
  the write, so this takes a session used without the gate.
- Calling the exported direct start for an agent scaled to zero leaves it in both sets
  (`Supervisors.StartAgentCanRunAnIdleAgent`, exactly when:
  `Supervisors.StepKeepsInvIff`). The admin restart stops the agent first, so its
  direct start is sound unless somebody else starts the agent in between
  (`Supervisors.RestartAgentIsSound`).
- A name such as `card#+2` parses as an instance but is not one
  (`Instances.SignedNameParses`, exactly when: `Instances.NamingUndoesParsing`).

## Model

| member | source | states |
|---|---|---|
| `TurnGates.TurnGate.constructor` | internal/wrapper/turn_gate.go:29-36 | a new gate is open |
| `TurnGates.TurnGate.Acquire` | internal/wrapper/turn_gate.go:41-61 | admits at once only if no owner, no queue and no lease; otherwise queues, or rejects at full depth, under a lease, or for a caller already gone |
| `TurnGates.TurnGate.GiveUp` | internal/wrapper/turn_gate.go:62-85 | a canceled waiter leaves the queue, the others keep their order |
| `TurnGates.TurnGate.Release` | internal/wrapper/turn_gate.go:121-132 | ownership goes to the head of the queue, or the gate opens |
| `TurnGates.TurnGate.TryBeginEviction` | internal/wrapper/turn_gate.go:91-99 | the lease is given only to a gate with no owner, no queue and no lease |
| `TurnGates.TurnGate.EndEviction` | internal/wrapper/turn_gate.go:103-107 | the lease ends and nothing else changes |
| `TurnGates.EveryRunKeepsInv` | internal/wrapper/turn_gate.go:41-132 | the gate invariant holds in every interleaving of arrivals, grants, cancellations, releases and leases |
| `TurnGates.OneOwnerIffBusy` | internal/wrapper/turn_gate.go:41-132 | exactly one owner iff busy; a queue only behind an owner; neither under a lease |
| `TurnGates.AdmissionIsFifo` | internal/wrapper/turn_gate.go:41-132 | owners are admitted in arrival order minus withdrawals and the queue is the rest of that order: no barging |
| `TurnGates.OwnersDrainTheQueue` | internal/wrapper/turn_gate.go:62-85 | from every reachable state the steps owners still owe serve exactly the queue, in order, and open the gate: a grant to a canceled waiter is passed on, the gate is never stranded |
| `TurnGates.QueueIsBounded` | internal/wrapper/turn_gate.go:41-61 | a depth never above d bounds the queue by d in every run |
| `TurnGates.LeaseAdmitsNobody` | internal/wrapper/turn_gate.go:41-107 | under a lease no caller is admitted or queued, in every continuation |
| `TurnGates.LeaseIsGivenIff` | internal/wrapper/turn_gate.go:91-99 | the lease is given exactly to a gate nobody owns and nobody waits at |
| `TurnGates.FreeGateAdmits` | internal/wrapper/turn_gate.go:41-61 | a free gate admits a live caller at once, and so does a leased one once the lease has ended |
| `TurnGates.CanceledCallerNeverRuns` | internal/wrapper/turn_gate.go:62-85 | a caller that gives up while waiting never holds the gate in any continuation, even when the grant came first |
| `TurnGates.RejectedCallerNeverRuns` | internal/wrapper/turn_gate.go:41-61 | nor does one turned away as late, by the lease or by a full queue, and the gate is as it was |
| `IdleReaper.IdleMonitor.constructor` | internal/wrapper/idle_monitor.go:102-109 | a new monitor is armed at once |
| `IdleReaper.IdleMonitor.TurnStarted` | internal/wrapper/idle_monitor.go:116-134 | refused after a reap; otherwise counted under a fresh id and the timer stopped |
| `IdleReaper.IdleMonitor.TurnEnded` | internal/wrapper/idle_monitor.go:136-146 | the id is dropped once; the timer is armed when none is left |
| `IdleReaper.IdleMonitor.ArmLocked` | internal/wrapper/idle_monitor.go:149-157 | one fresh timer counts down in place of any earlier one, and none if the timeout is not positive |
| `IdleReaper.IdleMonitor.Fire` | internal/wrapper/idle_monitor.go:161-182 | a callback reaps only with no turn counted and the pool idle, and re-arms if the pool is not |
| `IdleReaper.CountingAloneIsSafe` | internal/wrapper/idle_monitor.go:116-182 | with exact counting the agent that reaps has no turn at work then or later, and reaps once, even if the pool scan misses sessions |
| `IdleReaper.ScanAloneIsSafe` | internal/wrapper/session_pool.go:382-395 | with exact pool entries the same holds even if the monitor loses count of turns at any moment |
| `IdleReaper.ReaperKillsNoTurn` | internal/wrapper/turn_gate.go:146-213 | in every run where count and scan do not both fail: at most one reap, no provider turn at work when it commits, none starts after it |
| `IdleReaper.IdleAgentStaysArmed` | internal/wrapper/idle_monitor.go:136-182 | an unreaped agent without work always has a timer or a callback pending |
| `IdleReaper.NoTimerDuringWork` | internal/wrapper/idle_monitor.go:116-157 | in every run no idle timer counts down while a turn is at work |
| `IdleReaper.HoldersAreTurns` | internal/wrapper/turn_gate.go:146-195 | in every run the turns the agent knows are exactly the callers that hold a gate, found free or handed on |
| `IdleReaper.IdleAgentReaps` | internal/wrapper/idle_monitor.go:149-182 | with a timer running, no turn counted and every gate idle, the timer's own steps commit the exit |
| `IdleReaper.DisabledReaperNeverReaps` | internal/wrapper/idle_monitor.go:149-157 | with a timeout of zero or less there is never a timer, a callback or a reap |
| `IdleReaper.TurnRuns` | internal/wrapper/turn_gate.go:146-195 | a turn that comes to a free gate runs, counted and with the reap called off |
| `IdleReaper.TurnIsOver` | internal/wrapper/turn_gate.go:146-195 | when it is done gate and monitor have it no more, and the last one sets the timer again |
| `IdleReaper.ReapedAgentRefuses` | internal/wrapper/turn_gate.go:146-195 | after the reap a turn is refused and gives the gate back |
| `SessionPools.SessionPool.constructor` | internal/wrapper/session_pool.go:240-266 | a restarted pool holds what its shadow file kept, all of it evicted |
| `SessionPools.SessionPool.Rehydrated` | internal/wrapper/session_pool.go:273-302 | every record with an id comes back as an evicted slot, one without an id is dropped, a missing eviction time becomes now |
| `SessionPools.SessionPool.LookupOrCreate` | internal/wrapper/session_pool.go:408-549 | hit, rejection, factory failure or installation, and the pool and shadow each leaves |
| `SessionPools.SessionPool.Open` | internal/wrapper/session_pool.go:500-546 | the new session is installed; a notifier-backed one keeps the old id until told; the shadow is written only with an id |
| `SessionPools.SessionPool.CountActive` | internal/wrapper/session_pool.go:570-595 | counts the other live sessions and finds one least recently used among them |
| `SessionPools.SessionPool.EnforceCap` | internal/wrapper/session_pool.go:569-644 | below the cap nothing happens; at it reject refuses and evict-lru closes a least recently used session |
| `SessionPools.SessionPool.HandleSessionIDKnown` | internal/wrapper/session_pool.go:651-684 | an id is taken only from the session in the slot, only if it is new and not empty |
| `SessionPools.SessionPool.MarkTurnFinished` | internal/wrapper/session_pool.go:216-222 | the idle clock restarts only for the session in the slot |
| `SessionPools.SessionPool.ScanIdle` | internal/wrapper/session_pool.go:786-817 | evicts exactly the live sessions idle too long whose gate gave its lease, and lists exactly the expired slots |
| `SessionPools.SessionPool.PersistEvicted` | internal/wrapper/session_pool.go:818-820 | the shadow gains exactly the evicted records |
| `SessionPools.SessionPool.DeleteExpired` | internal/wrapper/session_pool.go:822-839 | listed slots that are still evicted go, and every listed context is forgotten |
| `SessionPools.SessionPool.Candidates` | internal/wrapper/session_pool.go:855-878 | the evicted slots, each once |
| `SessionPools.InsertionPoint` | internal/wrapper/session_pool.go:882-884 | the place behind everything not evicted later |
| `SessionPools.SortOldestFirst` | internal/wrapper/session_pool.go:882-884 | the same contexts, oldest eviction first |
| `SessionPools.SessionPool.EnforceMaxEvicted` | internal/wrapper/session_pool.go:844-903 | exactly the oldest evicted slots above the bound are removed and forgotten |
| `SessionPools.SessionPool.ReapOnce` | internal/wrapper/session_pool.go:769-842 | the three passes and the bound come to one reap of the specification, which keeps the newest evicted mappings |
| `SessionPools.LookupIDs` | internal/wrapper/session_pool.go:408-549 | what a lookup does to the id of every context in pool and shadow, and the id it resumes with |
| `SessionPools.StepAgreesIff` | internal/wrapper/session_pool.go:505-546 | pool, shadow and accepted ids stay together exactly unless a lookup that misses and is not rejected puts an id-less session in the place of one with an id |
| `SessionPools.EveryRunAgrees` | internal/wrapper/session_pool.go:484-700 | in every history without id-less synchronous sessions, crashes included, pool, shadow and accepted ids agree on every context |
| `SessionPools.RestartResumesLatest` | internal/wrapper/session_pool.go:273-302 | after any history and a crash the next lookup of any context resumes the id accepted last for it |
| `SessionPools.AnonymousSessionLeavesAStaleShadow` | internal/wrapper/session_pool.go:516-546 | a run in which a restarted pool would resume an id the running pool gave up |
| `SessionPools.RetiredSessionIsIgnored` | internal/wrapper/session_pool.go:663-669 | once a session lost its slot, its id and end-of-turn callbacks change nothing, in every continuation |
| `SessionPools.LiveSessionsWithinCap` | internal/wrapper/session_pool.go:569-644 | with atomic lookups live sessions never exceed max_active, under either policy |
| `SessionPools.CapEvictsOnlyTheLRU` | internal/wrapper/session_pool.go:580-644 | a lookup closes another session only at the cap under evict-lru, and only one none of the others was used before |
| `SessionPools.EveryRunDates` | internal/wrapper/session_pool.go:429-503 | in every history the time the pool keeps of a live session is that of its last hit, installation or finished turn |
| `SessionPools.VictimWasUsedFirst` | internal/wrapper/session_pool.go:569-644 | so after every history a lookup closes, of the others, the session that was used the longest ago |
| `SessionPools.ReapClosesExactlyTheUnused` | internal/wrapper/session_pool.go:769-838 | and a reap closes exactly the sessions not used for longer than the idle time whose gate gave its lease |
| `SessionPools.ReapBoundsTheEvicted` | internal/wrapper/session_pool.go:769-903 | after a reap at most max_evicted mappings remain and no live slot but the idle ones lost its session |
| `SessionPools.ReapForgetsExactlyTheRemoved` | internal/wrapper/session_pool.go:822-903 | a context leaves the shadow in a reap exactly when it leaves the pool; no active slot does unless this reap evicted it |
| `SessionPools.ReapKeepsTheNewest` | internal/wrapper/session_pool.go:844-903 | of the unexpired evicted mappings a reap keeps as many as the bound allows, and everything it pushed out was evicted no later than anything it kept |
| `SessionPools.EvictionIsOnRecord` | internal/wrapper/session_pool.go:622-838 | a lookup or reap that closes another session has the eviction on record, with its time and the last use |
| `SessionPools.SameIDWritesNothing` | internal/wrapper/session_pool.go:651-684 | a session that reports the id its slot already has writes nothing |
| `SessionPools.HandedOutIff` | internal/wrapper/session_pool.go:408-503 | the session found is handed out exactly when it is live and healthy; otherwise the slot keeps none or one made for this lookup |
| `SessionPools.RestartKeepsRetention` | internal/wrapper/session_pool.go:268-303 | after every history a restart leaves a recorded eviction to expire when it would have, and gives any other conversation its whole time from the restart on |
| `SessionPools.FailedLookupLeavesASlot` | internal/wrapper/session_pool.go:408-838 | a lookup of a new context that is rejected, or whose session cannot be made, leaves a slot that no reap removes in any continuation |
| `SessionPools.LateTailAgreesIff` | internal/wrapper/session_pool.go:822-839 | a reap whose tail comes late keeps shadow and pool together exactly when no listed conversation is live again |
| `SessionPools.LateTailForgetsALiveConversation` | internal/wrapper/session_pool.go:811-839 | a run in which one is: the scan lists it, a lookup resumes it, the tail forgets its record |
| `SessionPools.SweepInSteps` | internal/wrapper/session_pool.go:786-839 | evicting, saving and deleting one after the other is the sweep |
| `SessionLeases.LiveSessionIsNeverLeased` | internal/wrapper/session_pool.go:500-503 | in every run of pool and gates a slot with a session never has its gate under lease |
| `SessionLeases.IdleEvictionSparesTurns` | internal/wrapper/session_pool.go:786-817 | idle eviction closes a session only with no turn running or queued, leaves its gate leased and every other gate alone |
| `SessionLeases.EvictedSlotAdmitsNoTurn` | internal/wrapper/session_pool.go:500-503 | after an idle eviction the gate admits and queues no turn until a lookup installs a session behind it, in every continuation |
| `SessionLeases.CapEvictionIgnoresTheGate` | internal/wrapper/session_pool.go:622-644 | a live session of another context is closed by a lookup exactly when it is the victim of a full evict-lru pool, whatever its gate says |
| `SessionLeases.CapEvictionCanCloseARunningTurn` | internal/wrapper/session_pool.go:622-644 | a run from an empty pool in which making room closes a session whose turn is running |
| `SessionCaps.EveryRunWithin` | internal/wrapper/session_pool.go:408-644 | in every interleaving of the locked sections of any lookups, the scan's slot by slot, with callbacks and reaps: sessions of the pool, with those about to be, and sessions on removed slots stay within their bounds |
| `SessionCaps.OverrunIsBounded` | internal/wrapper/session_pool.go:408-644 | with at most N lookups in progress, under either policy, open sessions exceed max_active - 1 + N by at most the number of evictions that missed, of passes into a full pool and of sessions installed on removed slots |
| `SessionCaps.StrayStaysOpen` | internal/wrapper/session_pool.go:478-503 | a session on a removed slot that nobody points at stays open and uncounted in every continuation |
| `SessionCaps.EveryRunDates` | internal/wrapper/session_pool.go:429-503 | in every interleaving a hit counts as a use like an installation or a finished turn, on slots of the pool and on removed ones |
| `SessionCaps.EveryScanTracks` | internal/wrapper/session_pool.go:569-615 | in every interleaving a scan has counted the sessions it found open and holds on to one of them whose last use lies furthest back |
| `SessionCaps.VictimIsLeastRecentlyUsed` | internal/wrapper/session_pool.go:569-644 | whatever runs in between, the session a lookup goes to evict was last used no later than any other its scan read, and the scan read at least max_active of them |
| `RejectCaps.StepKeepsInv` | internal/wrapper/session_pool.go:408-603 | under reject every step keeps this: of the scans that led to a pass the one begun last has counted all sessions open since before it, and every other session is owed to a different lookup that was in progress then |
| `RejectCaps.EveryRunKeepsInv` | internal/wrapper/session_pool.go:408-603 | so does every interleaving from a new pool |
| `RejectCaps.RejectIsBounded` | internal/wrapper/session_pool.go:555-603 | under reject, with at most N lookups in progress, open sessions exceed max_active - 1 + N by at most the number of sessions installed on removed slots, however many sessions the scans overlook |
| `CapRuns.BoundIsReached` | internal/wrapper/session_pool.go:566-568 | for every cap and N a run of a new pool, with no miss, no pass into a full pool and no stray, that ends with exactly max_active - 1 + N open sessions |
| `CapRuns.OnePastIsNotEnough` | internal/wrapper/session_pool.go:570-599 | under either policy a run with never more than one lookup past the check, no miss and no stray that ends one above max_active |
| `CapRuns.MissedEvictionsPileUp` | internal/wrapper/session_pool.go:604-644 | for every k a run of two concurrent lookups under evict-lru, with k misses and nothing else, that ends k above max_active |
| `CapRuns.OverlookedSessionsPileUp` | internal/wrapper/session_pool.go:570-599 | for every k a run under evict-lru with never more than one lookup past the check, no miss and no stray, that ends k above max_active |
| `CapRuns.StrandedSessionsPileUp` | internal/wrapper/session_pool.go:465-503 | for every k a run of single lookups and reaps, the clock never going back, that leaves an empty pool and k open sessions |
| `ClaudeSessions.ClaudeSession.constructor` | internal/wrapper/session_claude.go:278-289 | a new session is idle with no channel |
| `ClaudeSessions.ClaudeSession.Send` | internal/wrapper/session_claude.go:566-574 | a send happens on an open channel only |
| `ClaudeSessions.ClaudeSession.Stream` | internal/wrapper/session_claude.go:329-386 | a turn opens a fresh channel if the session is idle and healthy, and fails otherwise |
| `ClaudeSessions.ClaudeSession.EmitEvent` | internal/wrapper/session_claude.go:566-574 | an event reaches the current turn's channel only |
| `ClaudeSessions.ClaudeSession.EmitResult` | internal/wrapper/session_claude.go:732-782 | a result ends the current turn with its one terminal event |
| `ClaudeSessions.ClaudeSession.AbortTurn` | internal/wrapper/session_claude.go:395-424 | timeout and cancellation end their own turn if it is still current |
| `ClaudeSessions.ClaudeSession.FailTurn` | internal/wrapper/session_claude.go:787-799 | a write failure ends the current turn |
| `ClaudeSessions.ClaudeSession.Close` | internal/wrapper/session_claude.go:448-466 | the session is unhealthy and its open turn ended |
| `ClaudeSessions.ClaudeSession.HandleEOF` | internal/wrapper/session_claude.go:805-824 | the end of the process ends the open turn and the session |
| `ClaudeSessions.ClaudeSession.HandleInit` | internal/wrapper/session_claude.go:665-687 | the first id is kept; a resume under another id makes the session bad |
| `ClaudeSessions.EveryRunKeepsInv` | internal/wrapper/session_claude.go:305-824 | the channel invariant holds in every interleaving of the six terminal sources |
| `ClaudeSessions.OneTerminalSignalPerTurn` | internal/wrapper/session_claude.go:395-424 | a closed channel carries exactly one terminal event, last; an open one carries none and belongs to the turn in flight |
| `ClaudeSessions.ClosedChannelsAreFinal` | internal/wrapper/session_claude.go:566-574 | nothing is sent after a close, in every continuation |
| `ClaudeSessions.StaleAbortIsHarmless` | internal/wrapper/session_claude.go:395-424 | a timeout or cancellation changes nothing exactly when its channel is already closed |
| `ClaudeSessions.UnhealthyIsPermanent` | internal/wrapper/session_claude.go:448-466 | an ended session never opens a channel or takes a turn again |
| `ClaudeSessions.CloseAndEofEndEverything` | internal/wrapper/session_claude.go:805-824 | after Close or the end of the process no channel is open |
| `ClaudeSessions.MismatchNeverSucceeds` | internal/wrapper/session_claude.go:665-687 | a session resumed under a wrong id never reports a clean turn again |
| `ClaudeSessions.MismatchIff` | internal/wrapper/session_claude.go:665-687 | in every run the session holds a mismatch exactly when it was to resume a conversation and its first init carried another id, or none |
| `ClaudeSessions.EveryChannelTellsItsTurn` | internal/wrapper/session_claude.go:395-824 | in every run a channel carries what was emitted for its turn, complete and in order, and its terminal event reports the step that ended the turn: the provider's result, overruled by a wrong resume, or the cause |
| `ClaudeSessions.WrongResumeNeverSucceeds` | internal/wrapper/session_claude.go:732-782 | after a first init with another id than the one to resume, every turn open then or later ends with an error |
| `ClaudeSessions.RightResumeNeverMismatches` | internal/wrapper/session_claude.go:732-782 | a session whose first init was right, or that resumed nothing, never reports a mismatch |
| `ClaudeSessions.TakesATurnIff` | internal/wrapper/session_claude.go:329-386 | in every run a session takes a new turn exactly when none is open, all ended by their own results, and neither Close nor the end of the process came |
| `ClaudeSessions.SessionIDIsFinal` | internal/wrapper/session_claude.go:665-687 | the first id an init carries stays |
| `ClaudeSessions.WriteFailureHitsOnlyItsTurn` | internal/wrapper/session_claude.go:787-799 | a write failure leaves other turns alone exactly when no other turn is current |
| `ClaudeSessions.WriteFailureCanEndALaterTurn` | internal/wrapper/session_claude.go:360-363 | a run in which it ends another turn |
| `LifecycleStores.LifecycleStore.constructor` | internal/wrapper/lifecycle_store.go:155-187 | a restart settles every record of the file to idle and keeps its marker, outcome and newest events |
| `LifecycleStores.LifecycleStore.SettleOne` | internal/wrapper/lifecycle_store.go:177-185 | a phase in flight becomes idle, a log above the bound keeps its newest events |
| `LifecycleStores.LifecycleStore.GetLocked` | internal/wrapper/lifecycle_store.go:189-196 | a missing record is created in memory, and not written |
| `LifecycleStores.LifecycleStore.NeedsInit` | internal/wrapper/lifecycle_store.go:200-208 | initialization is due unless this version is marked done or done without |
| `LifecycleStores.LifecycleStore.MarkInitialized` | internal/wrapper/lifecycle_store.go:211-221 | the marker is set for this version, in memory and on disk |
| `LifecycleStores.LifecycleStore.MarkInitDegraded` | internal/wrapper/lifecycle_store.go:226-233 | doing without is marked for this version, in memory and on disk |
| `LifecycleStores.LifecycleStore.SetPhase` | internal/wrapper/lifecycle_store.go:236-243 | phase and turn are set and written |
| `LifecycleStores.LifecycleStore.Append` | internal/wrapper/lifecycle_store.go:247-261 | one event with the next number, the newest 500 kept, written |
| `LifecycleStores.LifecycleStore.RecordOutcome` | internal/wrapper/lifecycle_store.go:265-276 | the outcome is kept, the session is idle, written |
| `Lifecycles.LifecycleSession.Run` | internal/wrapper/lifecycle.go:221-229 | the stream and the store of a whole turn are the images of one sequence of effects |
| `Lifecycles.LifecycleSession.RunInitialize` | internal/wrapper/lifecycle.go:233-295 | the effects of initialization and whether the business turn may start |
| `Lifecycles.LifecycleSession.RunBusiness` | internal/wrapper/lifecycle.go:299-318 | announces the turn and runs it |
| `Lifecycles.LifecycleSession.RunWork` | internal/wrapper/lifecycle.go:320-356 | open failure, start failure, or everything forwarded but terminal events |
| `Lifecycles.LifecycleSession.SettleTurn` | internal/wrapper/lifecycle.go:358-408 | deadline first, then the caller, then the provider |
| `Lifecycles.LifecycleSession.RunFinalize` | internal/wrapper/lifecycle.go:414-430 | announces the finalize turn and runs it |
| `Lifecycles.LifecycleSession.RunGrace` | internal/wrapper/lifecycle.go:427-480 | grace deadline first, then the provider |
| `Lifecycles.LifecycleSession.FinishTurn` | internal/wrapper/lifecycle.go:496-504 | outcome recorded, announced, and the stream ended |
| `Lifecycles.LifecycleSession.FinishFinalization` | internal/wrapper/lifecycle.go:484-492 | a failed finalization is announced before the outcome |
| `Lifecycles.LifecycleSession.InitializationLost` | internal/wrapper/lifecycle.go:242-257 | a failed initialization: degraded goes on marked, fail-closed ends the stream |
| `Lifecycles.LifecycleSession.Drain` | internal/wrapper/lifecycle.go:345-356 | a drained stream yields its last terminal event, and forwards every other event in order |
| `Lifecycles.LifecycleSession.Announce` | internal/wrapper/lifecycle.go:207-217 | a lifecycle event goes to the store and to the stream |
| `Lifecycles.TurnEndsOnce` | internal/wrapper/lifecycle.go:221-504 | every turn has exactly one terminal effect, the last |
| `Lifecycles.StreamEndsOnce` | internal/wrapper/lifecycle.go:221-504 | every stream ends with exactly one terminal event, after everything else |
| `Lifecycles.TurnFollowsTheGrammar` | internal/wrapper/lifecycle.go:221-504 | the lifecycle events of every turn follow one grammar, triggers and kinds agreeing |
| `Lifecycles.CompletedIff` | internal/wrapper/lifecycle.go:358-381 | completed iff the business turn was reached, its last terminal event was without error, and with finalization on neither deadline nor cancellation had come |
| `Lifecycles.BusinessCloses` | internal/wrapper/lifecycle.go:320-504 | every business turn records one outcome, announces the same and then ends its stream; a table of what provider, deadlines and caller did gives kind, trigger, finalized and error; no error exactly when completed or finalized |
| `Lifecycles.ErrorFreeIff` | internal/wrapper/lifecycle.go:221-504 | a whole turn ends its stream without an error exactly when it was announced as completed or finalized |
| `Lifecycles.FailedInitialization` | internal/wrapper/lifecycle.go:233-295 | an initialization that fails, also by its deadline or its caller leaving, is recorded and announced under its own turn and ends the stream with an error unless tolerated; a successful one records no outcome |
| `Lifecycles.TerminalIsTheLast` | internal/wrapper/lifecycle.go:345-356 | the terminal event that counts is the last one of the stream, if there is one |
| `Lifecycles.BusinessRelays` | internal/wrapper/lifecycle.go:345-450 | the caller is sent all the provider said in the business turn and then in the finalize turn, in order, and nothing else of it |
| `Lifecycles.StoreHasTheOutcome` | internal/wrapper/lifecycle.go:496-504 | after such a turn the store holds its outcome and the session is idle |
| `LifecycleRuns.EveryRunKeepsSaved` | internal/wrapper/lifecycle_store.go:155-187 | in every run the file holds what memory holds but for phases in flight |
| `LifecycleRuns.NeverInitializesAgain` | internal/wrapper/lifecycle_store.go:200-233 | under one version no initialization begins after a recorded success or degradation, across any turns and restarts |
| `LifecycleRuns.EveryRunRemembers` | internal/wrapper/lifecycle_store.go:200-275 | in every run, through restarts, the store tells for each version whether an initialization is due, and the outcome of the last turn, as the session's own history has them |
| `LifecycleRuns.NewVersionInitializesAgain` | internal/wrapper/lifecycle_store.go:200-208 | after any run, a restart under another configuration initializes a marked session again exactly when the version has changed |
| `LifecycleRuns.TurnRunsToItsEnd` | internal/wrapper/lifecycle.go:221-229 | a turn left to itself does, effect by effect, what one turn of the session object does, and then lets the next one in |
| `LifecycleRuns.EveryRunNames` | internal/wrapper/lifecycle_store.go:236-275 | in every run the store names the phase and the turn a session at work last announced, and no turn for a session at rest |
| `LifecycleRuns.BusinessStartsIff` | internal/wrapper/lifecycle.go:221-257 | the business turn starts iff initialization is not due, succeeds, or is tolerated |
| `LifecycleRuns.QuietSessionIsIdle` | internal/wrapper/lifecycle_store.go:173-185 | a session with no turn in progress is idle, and every session is after a restart |
| `LifecycleRuns.EventLogIsTheNewest` | internal/wrapper/lifecycle_store.go:247-261 | each event log is the newest 500 or fewer events ever appended, numbers strictly increasing |
| `LifecycleRuns.DurableLogIsWhatWasAnnounced` | internal/wrapper/lifecycle.go:207-217 | what memory and disk keep of a session is the newest part of what the first file held followed by what its streams have shown, in order |
| `Ledgers.InvocationLedger.constructor` | internal/scheduler/invocation_ledger.go:129-150 | opening a log replays and compacts it |
| `Ledgers.InvocationLedger.ApplyReplayEvent` | internal/scheduler/invocation_ledger.go:521-611 | one event of each kind, for known and unknown ids |
| `Ledgers.InvocationLedger.Begin` | internal/scheduler/invocation_ledger.go:235-270 | a fresh id, a record and its log event |
| `Ledgers.InvocationLedger.UpdateStatus` | internal/scheduler/invocation_ledger.go:334-362 | a known record moves and the move is logged; an unknown id changes nothing |
| `Ledgers.InvocationLedger.Settle` | internal/scheduler/invocation_ledger.go:272-332 | the settlements are moves |
| `Ledgers.InvocationLedger.CompactForRetention` | internal/scheduler/invocation_ledger.go:161-233 | what is kept, in order, and the log that is written for it |
| `Ledgers.EveryRunKeepsInv` | internal/scheduler/invocation_ledger.go:235-611 | in every mix of begins, moves, compactions and restarts the log replays to the live ledger, up to finish times a compacted log does not keep |
| `Ledgers.ReplayIsExact` | internal/scheduler/invocation_ledger.go:235-362 | without compaction the replay is the live ledger exactly: records, order and next id |
| `Ledgers.CompactedKeepsExactly` | internal/scheduler/invocation_ledger.go:452-464 | compaction keeps exactly the records inside their window, unchanged, and the counter |
| `Ledgers.CompactionDropsTheOutdated` | internal/scheduler/invocation_ledger.go:452-464 | a compaction drops exactly the completed records finished more than seven days ago and the others started more than thirty days ago |
| `Ledgers.CompactionIsMonotone` | internal/scheduler/invocation_ledger.go:452-464 | what a later compaction keeps, an earlier one kept |
| `Ledgers.LedgerTellsEachInvocation` | internal/scheduler/invocation_ledger.go:129-611 | in every mix of begins, moves, compactions and restarts the ledger holds of each invocation exactly what the steps about it tell, and no other record |
| `Ledgers.RecordsStayInOrder` | internal/scheduler/invocation_ledger.go:161-270 | in every run the records are listed in the order their ids were handed out |
| `Ledgers.ReplayPassesEveryId` | internal/scheduler/invocation_ledger.go:521-611 | whatever a log holds, the counter it replays to is past every id and every checkpoint in it |
| `Ledgers.UndatedRecords` | internal/scheduler/invocation_ledger.go:452-489 | a record without a finish is judged by its start, one without a start by its finish, one with neither is kept |
| `Ledgers.CompactedLogReplays` | internal/scheduler/invocation_ledger.go:161-233 | a compacted log replays to the retained records in order, up to finish times of unfinished ones |
| `Ledgers.RetainedInOrder` | internal/scheduler/invocation_ledger.go:161-233 | kept ids are the old ids with the expired ones taken out |
| `Ledgers.CompactionIsIdempotent` | internal/scheduler/invocation_ledger.go:161-233 | compacting twice at one instant is compacting once, log included |
| `Ledgers.NoIdIsIssuedTwice` | internal/scheduler/invocation_ledger.go:603-611 | no id is issued twice across begins, settles, compactions and restarts, even when the highest records were pruned |
| `Ledgers.RestartKeepsRetained` | internal/scheduler/invocation_ledger.go:129-150 | a restart leaves what a compaction at that instant would have left |
| `Instances.ParseUndoesNaming` | internal/scheduler/instance.go:18-42 | parsing an instance's name gives its base and ordinal back |
| `Instances.PlainNamesAreNotInstances` | internal/scheduler/instance.go:18-42 | a name without separator parses as itself and is no instance's name |
| `Instances.NamingUndoesParsing` | internal/scheduler/instance.go:31-42 | of all names, parsing and naming fail to give back exactly those that parse as an instance with a sign or a zero after the separator |
| `Instances.NamesAreTakenApart` | internal/scheduler/instance.go:31-42 | every name is split at its last separator and is an instance's exactly when a base stands before it and a positive number behind; other names with a separator are malformed |
| `Instances.SignedNameParses` | internal/scheduler/instance.go:31-42 | a signed suffix parses and is not the instance's name |
| `Instances.InstancePool.constructor` | internal/scheduler/instance.go:90-100 | one instance, no load, a cap of at least one |
| `Instances.InstancePool.PickLocked` | internal/scheduler/instance.go:128-142 | an idle instance if any, else a new one below the cap, else a least loaded one |
| `Instances.InstancePool.Acquire` | internal/scheduler/instance.go:106-121 | a known context keeps its ordinal, a new one is assigned, and the load counts it |
| `Instances.InstancePool.Release` | internal/scheduler/instance.go:147-153 | the load drops by one, never below zero |
| `Instances.EveryRunKeepsInv` | internal/scheduler/instance.go:80-153 | ordinals below spawned, spawned within the cap, loads equal to outstanding acquires, in every history |
| `Instances.AffinityIsForever` | internal/scheduler/instance.go:106-121 | a context keeps its ordinal in every continuation |
| `Instances.SessionStaysWhereItBegan` | internal/scheduler/instance.go:106-121 | every later turn of a session is served where its first turn was, whatever comes in between |
| `Instances.NewSessionsAvoidBusyInstances` | internal/scheduler/instance.go:128-142 | a new session shares a busy instance only when all cap instances are busy, and then a least busy one |
| `Instances.FreshSessionsAreBalanced` | internal/scheduler/instance.go:106-142 | k sessions that start and do not end use max(1, min(k, cap)) instances with loads differing by at most one |
| `Ports.PortCursor.AllocatePort` | internal/scheduler/config.go:228-244 | the candidate at the cursor, wrapped into the range, and the cursor behind it |
| `Ports.PortCursor.Find` | internal/scheduler/scheduler.go:599-633 | the allocation loop is the scan of one pass |
| `Ports.NthIsCyclic` | internal/scheduler/config.go:228-244 | the k-th candidate goes round the range |
| `Ports.OnePassVisitsEachPortOnce` | internal/scheduler/config.go:228-244 | one pass from any cursor visits each port of the range exactly once |
| `Ports.ScanStopsAtFirstUsable` | internal/scheduler/scheduler.go:599-633 | the scan takes the first usable candidate and leaves the cursor behind it |
| `Ports.ScanSucceedsIff` | internal/scheduler/scheduler.go:599-633 | a port is found iff one is neither reserved nor held by a foreign process |
| `Ports.RestartBackoff` | internal/scheduler/scheduler.go:1190-1210 | the delay doubles per attempt up to the maximum, with defaults for non-positive settings |
| `Supervisors.Scheduler.PortReserved` | internal/scheduler/scheduler.go:711-759 | reserved iff another running, wanted or configured agent has the port |
| `Supervisors.Scheduler.StartAgentLocked` | internal/scheduler/scheduler.go:588-699 | port resolution, spawn and publication of a process |
| `Supervisors.Scheduler.StartAgent` | internal/scheduler/scheduler.go:390-412 | a direct start: refused when stopped or already running, otherwise a start that does not look at the idle set |
| `Supervisors.Scheduler.StartAndWatch` | internal/scheduler/scheduler.go:1380-1417 | a start whose caller waits for health |
| `Supervisors.Scheduler.EnsureAwakeOnce` | internal/scheduler/scheduler.go:1380-1417 | only an agent scaled to zero is woken, on a fresh port |
| `Supervisors.Scheduler.EnsureAgent` | internal/scheduler/scheduler.go:419-514 | new, running, idle and crashed agents each get their branch |
| `Supervisors.Scheduler.StartOrWakeInstance` | internal/scheduler/scheduler.go:1546-1591 | an instance is started only while its base is wanted |
| `Supervisors.Scheduler.StopAgent` | internal/scheduler/scheduler.go:547-579 | the name is no longer wanted or idle and its process is being stopped |
| `Supervisors.Scheduler.MonitorAgent` | internal/scheduler/scheduler.go:959-1017 | an exit of the published process: stopped, scaled to zero, or restart scheduled |
| `Supervisors.Scheduler.RestartTimer` | internal/scheduler/scheduler.go:1118-1159 | a restart timer starts a wanted, absent agent on its port, or sets itself again |
| `Supervisors.Scheduler.BeginRollback` | internal/scheduler/scheduler.go:1423-1438 | a failed wake marks its own process stopping if it is still published |
| `Supervisors.Scheduler.EndRollback` | internal/scheduler/scheduler.go:1439-1457 | and then settles the name as scaled to zero if it is still wanted |
| `Supervisors.StepKeepsInvIff` | internal/scheduler/scheduler.go:390-1591 | a step of the supervisor keeps its invariant if and only if it is not a direct start that runs an agent scaled to zero |
| `Supervisors.EveryRunKeepsInv` | internal/scheduler/scheduler.go:390-1591 | the supervisor invariant holds in every interleaving whose direct starts are sound in that sense |
| `Supervisors.NoWantedAgentIsDropped` | internal/scheduler/scheduler.go:959-1017 | idle agents are wanted and not running; every wanted agent runs, is idle, has a restart pending or is inside a rollback that settles it |
| `Supervisors.PortsNeverClash` | internal/scheduler/scheduler.go:599-759 | no two names that run, or are wanted and not idle, have one port |
| `Supervisors.RestartKeepsItsPort` | internal/scheduler/scheduler.go:1118-1159 | a crash restart fails only for what the machine says of its own port or for a failed spawn, never for a reservation |
| `Supervisors.FiredTimer` | internal/scheduler/scheduler.go:1118-1159 | a fired timer of a wanted, absent agent leaves a new process on the agent's own port if the machine takes it, and otherwise everything as it was, timer included; for any other agent only the timer goes |
| `Supervisors.PortChangesOnlyByAStart` | internal/scheduler/scheduler.go:588-1591 | in every run an agent's port changes only by a first or direct start, the start of an instance or a wake, and every process it is given until then is on that port |
| `Supervisors.WakeBringsUp` | internal/scheduler/scheduler.go:1380-1417 | an agent scaled to zero is woken, on a port of the range nobody had, whenever there is one and the process spawns; otherwise nothing changes but the cursor |
| `Supervisors.InstanceNeedsItsBase` | internal/scheduler/scheduler.go:1546-1591 | an instance that is not idle starts only while its base is wanted, and then whenever there is a port and the process spawns |
| `Supervisors.StartTakesThePortItAsksFor` | internal/scheduler/scheduler.go:390-699 | a first start that asks for a port comes up on it exactly when nobody else has it and the machine takes it, and otherwise changes nothing |
| `Supervisors.CrashedAgentComesBack` | internal/scheduler/scheduler.go:959-1159 | a wanted agent that crashes has a timer pending, and with it comes back on its own port if the machine takes it |
| `Supervisors.IdleAgentWaitsForAWake` | internal/scheduler/scheduler.go:959-1017 | one that exits for idleness is scaled to zero with no new timer, and its old timers do nothing |
| `Supervisors.StoppedProcessLeavesNothing` | internal/scheduler/scheduler.go:959-1017 | the exit of a stopped or unwanted process leaves neither a timer nor an idle agent |
| `Supervisors.ForgottenProcessExits` | internal/scheduler/scheduler.go:959-975 | the exit of a process no longer published is noted and touches nothing else |
| `Supervisors.FailedWakeGoesIdle` | internal/scheduler/scheduler.go:1423-1457 | a failed wake takes its process down and scales the agent to zero, still wanted and with no timer for it |
| `Supervisors.HealthyProcessStays` | internal/scheduler/scheduler.go:1410-1416 | a caller that found its process healthy takes nothing down any more |
| `Supervisors.ShutdownIsFinal` | internal/scheduler/scheduler.go:1222-1249 | after a shutdown nothing starts again in any continuation |
| `Supervisors.ReservedHasHolder` | internal/scheduler/scheduler.go:711-759 | a reserved port has a running, wanted or configured holder |
| `Supervisors.StopIsFinal` | internal/scheduler/scheduler.go:547-579 | after a stop of a base name no wake, timer, exit or rollback runs it again until an explicit start |
| `Supervisors.StartAgentKeepsIdleSoundIff` | internal/scheduler/scheduler.go:390-412 | a direct start keeps the idle set sound exactly when it starts nothing or the agent was not scaled to zero |
| `Supervisors.StartAgentCanRunAnIdleAgent` | internal/scheduler/scheduler.go:390-412 | a run, by a direct call, in which an agent is running and scaled to zero at once |
| `Supervisors.RestartAgentIsSound` | internal/scheduler/scheduler.go:1289-1316 | the admin restart, which stops first, makes a sound direct start unless somebody else starts the name in between |
| `RelayRooms.RelayRoom.ScheduleNext` | internal/scheduler/rooms.go:661-678 | mention, else agent organizer other than the speaker, else nobody; never in a stopped room |
| `RelayRooms.RelayRoom.Say` | internal/scheduler/rooms.go:363-417 | a message is appended, resets the chain, schedules, and starts a driver only if none runs |
| `RelayRooms.RelayRoom.Stop` | internal/scheduler/rooms.go:420-433 | stopped, nobody next |
| `RelayRooms.RelayRoom.TakeFloor` | internal/scheduler/rooms.go:438-463 | the driver ends, parks at the chain budget, or lets the next agent speak |
| `RelayRooms.RelayRoom.Deliver` | internal/scheduler/rooms.go:467-490 | a reply is appended, read up to itself, counted and scheduled on |
| `RelayRooms.RelayRoom.RecordFailure` | internal/scheduler/rooms.go:467-482 | a failure is appended, the room waits, the driver ends, nothing counts as read |
| `RelayRooms.RelayRoom.Resume` | internal/scheduler/rooms.go:836-843 | a driver is started for an active room with a next speaker and none running |
| `RelayRooms.RelayRoom.Seen` | internal/scheduler/rooms.go:703-708 | one pass over the transcript finds each speaker's last delivered turn |
| `RelayRooms.RelayRoom.RestoreLastSeen` | internal/scheduler/rooms.go:703-711 | every participant has read up to its last delivered turn |
| `RelayRooms.RelayRoom.RecoverSchedule` | internal/scheduler/rooms.go:702-753 | turn-taking rebuilt from the transcript |
| `RelayRooms.LoadRoom` | internal/scheduler/roomstore.go:159-219 | the replay of a log, recovered; no room without a meta record |
| `RelayRooms.EveryRunKeepsInv` | internal/scheduler/rooms.go:363-492 | the room invariant holds, and the log replays to the room's transcript, in every interleaving with restarts |
| `RelayRooms.OneDriverOneTurn` | internal/scheduler/rooms.go:363-492 | at most one driver and one turn in flight, the one the room shows |
| `RelayRooms.ChainIsBounded` | internal/scheduler/rooms.go:438-490 | at most MaxChain delivered turns between one outside message or restart and the next |
| `RelayRooms.FirstMentionGetsTheFloor` | internal/scheduler/rooms.go:656-678 | a message or reply is appended and gives the floor to its first mention, for want of one to an agent organizer other than the speaker, else to nobody |
| `RelayRooms.NextSpeakerSpeaks` | internal/scheduler/rooms.go:438-491 | whoever has the floor is handed it by the driver and the turn is delivered under that name |
| `RelayRooms.ChainEndParks` | internal/scheduler/rooms.go:446-453 | at the end of the chain the driver ends, nobody speaks or is next, and the room waits |
| `RelayRooms.UnservedIff` | internal/scheduler/rooms.go:467-482 | somebody is left next without a driver exactly by the failure of a turn during which a message gave the floor to another |
| `RelayRooms.FailureCanLeaveAMessageUnserved` | internal/scheduler/rooms.go:467-482 | a run in which that happens |
| `RelayRooms.ResumeServes` | internal/scheduler/rooms.go:827-848 | the resume after a restart gives whoever is next a driver |
| `RelayRooms.DriverStartsForASpeaker` | internal/scheduler/rooms.go:363-417 | a driver is started only in an active room, for somebody who is to speak, where none is at work |
| `RelayRooms.StoppedStaysIff` | internal/scheduler/rooms.go:470-482 | a stopped room leaves that state exactly when a turn in flight fails |
| `RelayRooms.StopCanBeUndone` | internal/scheduler/rooms.go:419-484 | a run in which it does and goes on talking |
| `RelayRooms.StoppedRoomIsSilent` | internal/scheduler/rooms.go:363-445 | in every run nobody is next in a stopped room, it takes no message, and a driver that comes to it ends and lets nobody speak |
| `RelayRooms.StopSurvivesRestart` | internal/scheduler/roomstore.go:117-126 | a recorded stop is what every restart comes back to |
| `RelayRooms.RestartRestoresLastSeenIff` | internal/scheduler/rooms.go:702-711 | in every run, replay restores a participant's lastSeen exactly unless the last thing said under its name was a message it did not deliver |
| `RelayRooms.RestartRestoresLastSeen` | internal/scheduler/rooms.go:702-711 | without messages under a participant's name every lastSeen is restored |
| `RelayRooms.ImpersonationIsMistakenForATurn` | internal/scheduler/rooms.go:703-708 | with such a message it does not |
| `RelayRooms.RestartRestoresTheFloor` | internal/scheduler/rooms.go:718-753 | in every run whose mid-turn messages leave the floor to the speaker: a room ever stopped comes back stopped; otherwise the recovered next speaker is the pending or in-flight one, a failed speaker is retried, a chain cut off by its budget goes on with whomever the last turn addressed, and else nobody speaks |
| `RelayRooms.RestartedRoomIsActiveIff` | internal/scheduler/rooms.go:702-753 | after any run a restored room is active exactly when somebody is next, stopped if a stop was recorded, and starts a new chain |
| `RelayRooms.MidTurnMessageKeepsTheSpeakerIff` | internal/scheduler/rooms.go:733-753 | a message taken in the middle of a turn keeps the floor for the speaker across a restart if and only if it addresses the speaker |
| `RelayRooms.MidTurnMessageHidesTheSpeaker` | internal/scheduler/rooms.go:733-753 | a run in which a mid-turn message to nobody loses the speaker |
| `Roundtables.RoundtableRoom.Say` | internal/scheduler/rooms.go:363-400 | a message opens a fresh cycle and starts a driver only if none runs |
| `Roundtables.RoundtableRoom.Stop` | internal/scheduler/rooms.go:420-433 | stopped |
| `Roundtables.RoundtableRoom.TakeFloor` | internal/scheduler/rooms.go:500-553 | the driver ends, lets the next in the order speak, or calls the moderator |
| `Roundtables.RoundtableRoom.Deliver` | internal/scheduler/rooms.go:535-540 | a reply is appended |
| `Roundtables.RoundtableRoom.RecordFailure` | internal/scheduler/rooms.go:526-534 | a failure is appended, the room waits, the driver ends |
| `Roundtables.RoundtableRoom.ModeratorBack` | internal/scheduler/rooms.go:557-570 | the consolidation is appended unless stopped or blank |
| `Roundtables.RoundtableRoom.Decide` | internal/scheduler/rooms.go:571-585 | park on consensus or used-up budget, else a new order |
| `Roundtables.EveryRunKeepsInv` | internal/scheduler/rooms.go:499-587 | one driver and the budget invariant in every interleaving |
| `Roundtables.OneDriverOneRun` | internal/scheduler/rooms.go:382-587 | at most one driver and one run in flight, the one the room shows |
| `Roundtables.RunsPerMessage` | internal/scheduler/rooms.go:499-587 | at most Budget times (participants + 1) agent runs are started per outside message |
| `Roundtables.RunsAreCounted` | internal/scheduler/rooms.go:499-587 | the runs the bound is about are the runs started since the last message or restart, read off the steps |
| `Roundtables.RestartKeepsTheTranscript` | internal/scheduler/rooms.go:702-725 | a restart keeps transcript, participants and a stop, and nothing of the round |
| `Roundtables.RoundOpens` | internal/scheduler/rooms.go:383-400 | a message opens a round exactly when no agent is at work and no decision is pending; a decision to go on always opens one |
| `Roundtables.CompletedRoundIsAPermutation` | internal/scheduler/rooms.go:508-552 | from a round's opening to the moderator, without a message in between, the transcript gains exactly one turn of each participant, in the order drawn |
| `Roundtables.ParkedIff` | internal/scheduler/rooms.go:499-587 | a question is parked exactly by the steps that end the driver before anyone was given the floor: a failed turn, a stop, consensus, or rounds used up; a restart, which forgets the drawn order, parks none |
| `Roundtables.ParkedHasACause` | internal/scheduler/rooms.go:499-587 | in every run a parked question was parked by such a step and has been parked since |
| `Roundtables.DriverServes` | internal/scheduler/rooms.go:499-587 | a question keeps its driver for as long as no such step comes |
| `Roundtables.QuestionCanBeParked` | internal/scheduler/rooms.go:547-578 | a run in which a question asked during the last consolidation is left without a driver |
| `Roundtables.FailureCanParkAQuestion` | internal/scheduler/rooms.go:523-534 | a run in which one asked during a turn that fails is |
| `Roundtables.StoppedStaysIff` | internal/scheduler/rooms.go:523-586 | a stopped roundtable leaves that state exactly when its driver ends with a failed turn or parks after saving the moderator's text |
| `Roundtables.StopCanBeLost` | internal/scheduler/rooms.go:564-578 | a run in which a stop comes while that text is saved and is overwritten |
| `Roundtables.StopsAreLogged` | internal/scheduler/rooms.go:420-433 | in every run a stopped table has its stop on record |
| `Decimal.ParsePrint` | internal/scheduler/instance.go:20-42 | printed numerals parse back |
| `Decimal.PrintParse` | internal/scheduler/instance.go:31-42 | printing a parsed numeral gives it back exactly when it has no leading zero |

## Left out

- HTTP, gateways, server-sent events and wire types: input and output around the state machines.
- Process spawning, port probing, kill trees, worktrees, file renames and JSON or YAML: oracles or abstract records here; a write to disk does not fail in the model.
- Wall-clock durations: timers fire at any time, retention and idle times are integers handed to the steps.
- Deadlock between locks, and blocking on full channel buffers: each critical section is one step.
- Prompt building, mention and verdict parsing: mentions, verdicts and shuffles are parameters of the steps.
- Codex and one-shot sessions, transcripts, live events, registry and task store, outcome evaluation, metrics, CLI and console: easier or outside the core.
- The vendored copies under plugin/src.
- SessionPools.SessionPool.ReapOnce: taken as one step; a lookup in the middle of it is the subject of LateTailAgreesIff and LateTailForgetsALiveConversation only.
- SessionPools.LiveSessionsWithinCap: for lookups taken one at a time; racing lookups are SessionCaps and RejectCaps.
- SessionPools.SessionPool.LookupOrCreate: taken as one step; its sections one by one are SessionCaps. A stopped pool and changes of the cap at run time are not modelled.
- SessionCaps.EveryRunWithin: a reap is one step, a shadow record is written with the change it records, and the process does not crash.
- SessionPools.SessionPool.constructor: counters that tell gates and sessions apart are handed over from the earlier process, where the source compares pointers.
- Lifecycles.LifecycleSession.Run: timestamps, statistics, message excerpts and error texts of events and outcomes are not kept, and the queue for a session's turn is the one-turn-at-a-time rule of LifecycleRuns.
- LifecycleStores.LifecycleStore.Append: event numbers are unbounded, the source's are 64 bits wide; an unreadable file, which starts empty, is not a step.
- Ledgers.InvocationLedger.UpdateStatus: the in-flight metric is not modelled; moving a record to recovering leaves it unsettled there.
- Supervisors.Scheduler.StartAgentLocked: for a valid card with supervision enabled; the attempt number of a pending restart is not part of the state.
- RelayRooms.EveryRunKeepsInv: appending a turn and writing it to the log are one step, where the source writes after it has let go of the lock; a crash in between, which loses the turn, and two such writes in the wrong order are not steps.
- RelayRooms.LoadRoom: a torn line, which the source skips, is not a record.
- Roundtables.RoundtableRoom.Deliver: what each participant has read and the round number of a turn are not kept; reading is modelled for relay rooms.
- ClaudeSessions.WriteFailureCanEndALaterTurn: of a session used without the gate; behind the pool the gate is held across the write.
