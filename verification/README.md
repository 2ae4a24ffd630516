# Verification of the robot orchestrator

A Dafny model of the part of the system that moves boxes: orders (PICK and PUT), the picking slots they use,
one queue per robot, the five PLC steps of a physical order, the register handshake of one step, and the
recovery and serialization of the Modbus sockets below it. `dafny verify dfyconfig.toml` checks everything.

How it is laid out:

- `Sequences`, `Location`, `LocationText`, `SlotRanking`, `Domain`: sequences and sorting, the location grammar and
  command codes and which texts are read, the ranking of free slots, and the order and slot tables with their transitions.
- `QueueManager`, `StateManager`, `OrchestratorService`: the three services as classes that change their
  fields; each method is proved equal to a function on plain values.
- `Orchestrator`: the state machine. The code between two waits (the PLC call with its backoff, the register
  reset of a retry) is one action: submit, loop iteration, step end, cancel, retry, manual release, pause,
  restart. `Exec` runs any sequence of them.
- `Rehydration`, `NoLostOrders`, `Submission`, `SlotStatus`, `Ownership`, `PlanRecord`, `BoxAccounts`, `BoxTraces`,
  `AccountRuns`, `OneBoxPerSource`, `PlainPicks`, `Durability`, `RobotLoop`, `Fairness`: what every reachable state, or
  every guarded run, satisfies. Where the unrestricted claim is false, the guard is proved exact.
- `Passes`, `ActionEffects`, `LoopEnds`, `PausedQueues`: what each pass and each action leaves of the whole state, when
  the loop returns, and what a pause holds up, all in terms of the fields.
- `Scenes`, `Witnesses`: short runs from the empty system in which the guards of ownership, plan, accounts and one
  box per source fail.
- `StepRetry`, `PlcProtocol`, `ModbusOp`, `Handshake`, `StepReplies`, `Acknowledgements`, `StepBudget`, `ConnectionService`:
  one step down to single attempts on the wire. What the wire, the PLC and the other devices do at each
  attempt is an arbitrary function (`Feed`), resets by the retries of other orders included.
- `WireRuns`: orders and wire in one run.
- `Promises`, `ModbusClient`, `DeviceMutex`: the two promise chains under every interleaving.

Points where the code differs from its comments or documentation; the model follows the code:

- `DeviceMutex` promises strict mutual exclusion, but drops its tail when the running operation settles even
  if others are chained behind it (`DeviceMutexes.CallIsSafeExactly` says when that matters).
- Retry is documented for ERROR orders but checks no status; cancel and manual release check none either. A
  step that fails after its order was canceled sets the order back to ERROR.
- A PUT left waiting for a slot is never reserved one; the flag is only cleared.
- The comment on `runModbusOp` speaks of repeating until success; the code gives up after the bounds above.
- Retry zeroes messageIn without waiting for messageOut, so an old answer can confirm a new command.

Fields added to the source's state: `serving` (which box an order was served from or gave back), `acked`
(commands acknowledged per order), `log`, `tapes`, `command` and `tag` (what has happened on the wire and which
command an answer is to). They only record history: no branch reads them. The guard of the accounts looks at
`serving` only to ask which box a logical order was served from (cancel, retry) and whether a PUT was accepted
on the box in its slot (failed step after a cancel). The program keeps the latter in the order's history entry
(`SLOT_RESERVED` with its previous status) and the former nowhere.

## Model

| member | source | states |
|---|---|---|
| NoLostOrders.NoOrderIsEverLost | src/core/orchestrator/OrchestratorService.js:336-559 | Over every run of the system, with no restriction on requests (cancel and retry in the middle of a step, crashes and pauses included): each PENDING order is queued or active on its robot, each IN_PROGRESS order is its robot's active one, so a robot runs at most one, and no two orders share an external id. |
| NoLostOrders.NextConsistent | src/core/orchestrator/OrchestratorService.js:132-721 | The invariant behind it, kept by every single action: orders and snapshot well shaped, queues and captured step records in agreement with the order table. |
| NoLostOrders.ProcessPass | src/core/orchestrator/OrchestratorService.js:389-559 | How one pass over an order can end, in every case, and that no other order is touched. |
| NoLostOrders.SubmitKeepsGood | src/core/orchestrator/OrchestratorService.js:132-239 | A created order gets an external id nobody had; a returned one has exactly the requested id. |
| Submission.SubmissionIsAtomic | src/core/orchestrator/OrchestratorService.js:132-239 | In every reachable state a submission either is refused and changes nothing at all, or returns the order known under the id and changes nothing, or adds one order, one entry at the end of one queue, and touches no slot but the order's own. |
| Submission.CreatedExactly | src/core/orchestrator/OrchestratorService.js:132-208 | An order is created if and only if the type is empty, pick or put with each letter in either case, the id is absent or an integer not yet known, the codes are readable, locationCode without action letter, and a PUT names a configured slot; it is then the order asked for, on the given robot or the one of its shelf (3X is robot 1). |
| Submission.KindExactly | src/core/orchestrator/OrchestratorService.js:133-136 | The type is a PICK exactly when it is empty or one of the sixteen ways to write pick, a PUT exactly for the eight of put, and nothing else; white space is not trimmed. |
| Submission.RefusedExactly | src/core/orchestrator/OrchestratorService.js:133-208 | Which request is refused for which reason, the first thing wrong deciding: type, id, an action letter on locationCode, locationCode itself, the target, the slot code, and last a PUT on a place that is no slot. |
| Submission.CreatedEffect | src/core/orchestrator/OrchestratorService.js:54-239 | What an accepted request leaves, a physical order having its five steps with the devices and kinds of buildSteps. A PICK whose box stands is logical, in that slot, whose counter goes up; any other PICK names the slot asked for, or none, and touches no slot. A PUT where the counter is above one is logical and lowers it; else it reserves its slot, keeping the box, or waits when the slot is neither LIBRE nor OCUPADO. |
| Submission.ExistingExactly | src/core/orchestrator/OrchestratorService.js:138-149 | The existing order is returned if and only if type and id are valid and some order has that external id, even when the rest of the request is malformed. |
| Passes.PassExactly | src/core/orchestrator/OrchestratorService.js:389-510 | Each outcome of processOrder, exactly when and with exactly what it leaves: nothing for an unknown or ended order; a slotless PICK whose box stands joins it and is done (one canceled meanwhile joins it and stays canceled); a logical order is done; an order without a slot gets the nearest LIBRE one on its side or goes back PENDING and waiting; an order with a slot is IN_PROGRESS, its slot BUSCANDO or DEVOLVIENDO at the first step; with no step left a PICK leaves its box OCUPADO with counter one and a PUT its slot LIBRE. |
| ActionEffects.LoopExactly | src/core/orchestrator/OrchestratorService.js:336-510 | One loop iteration on the whole state: what is taken, the pass above, and then who is active, what stands in line, which step is waited for and whether the tables were saved. |
| ActionEffects.StepEndExactly | src/core/orchestrator/OrchestratorService.js:512-558 | An acknowledged step moves the order one step on and leaves it active; a failed one puts order and slot in ERROR and leaves nothing active. Both are saved. |
| ActionEffects.SubmitExactly | src/core/orchestrator/OrchestratorService.js:132-239 | A refused or known request leaves the whole state as it was; a created order is last in its robot's line, and saved. |
| ActionEffects.CancelExactly | src/core/orchestrator/OrchestratorService.js:693-721 | The order is CANCELED whatever it was and leaves its robot's line and active place; a slot it owns becomes LIBRE and empty (PICK) or OCUPADO with its box (PUT). Nothing is saved and nothing else changes. |
| ActionEffects.RetryExactly | src/core/orchestrator/OrchestratorService.js:665-691 | After a successful reset of the registers, and only then, the order is PENDING at its first step with its steps rebuilt, keeps its slot, and is last in its robot's line and saved. |
| ActionEffects.ReleaseExactly | src/interfaces/api/slotsRoutes.js:19-36 | A known slot becomes LIBRE and empty, whatever its status, and is saved. |
| ActionEffects.RestartExactly | src/core/orchestrator/OrchestratorService.js:100-130 | Tables and lines come from the snapshot, and no loop waits in a step. |
| Ownership.OwnershipKeptExactly | src/core/orchestrator/OrchestratorService.js:132-721 | For every consistent state and every action: slot ownership (each live physical order owns the slot it holds, each RESERVADO/BUSCANDO/DEVOLVIENDO/ERROR slot has such an owner) is kept if and only if the action's guard holds. The guards, all on the request and the tables before it: a PUT goes to a LIBRE or OCUPADO slot or to one whose stack is above one, a PICK names a slot only if its box already stands; a failed step comes only while the order still owns its busy slot; retry only of live, logical or slotless orders; manual release only of LIBRE or OCUPADO slots; restart only from a snapshot that had ownership. |
| Ownership.OwnershipOverRuns | src/core/orchestrator/OrchestratorService.js:132-721 | Ownership in every state of every guarded run, and in its stored snapshot. |
| Ownership.NoSharing | src/core/state/StateManager.js:288-305 | Under ownership no two live physical orders hold the same slot. |
| Ownership.ProcessOwned | src/core/orchestrator/OrchestratorService.js:389-510 | A pass of processOrder keeps ownership with no guard. |
| Ownership.SubmitOwned | src/core/orchestrator/OrchestratorService.js:132-239 | A submission leaves ownership as it was if and only if its guard holds, read off the request and the tables: it is invalid or known, or a PUT on a slot that is LIBRE, OCUPADO or stacked above one, or a PICK that names no slot or whose box already stands. |
| Ownership.StepFailedOwned | src/core/orchestrator/OrchestratorService.js:512-539 | A failed step keeps ownership exactly when its slot has not become another order's meanwhile. |
| Ownership.CancelOwned | src/core/orchestrator/OrchestratorService.js:693-721 | Cancel keeps ownership whatever the order's status. |
| Ownership.RetryOwned | src/core/orchestrator/OrchestratorService.js:665-691 | Retry keeps ownership exactly for live, logical or slotless orders; retrying a DONE order does not. |
| Ownership.ReleaseOwned | src/interfaces/api/slotsRoutes.js:19-36 | Manual release keeps ownership exactly when the slot is LIBRE or OCUPADO. |
| Ownership.RestartOwned | src/core/orchestrator/OrchestratorService.js:100-130 | A restart has ownership exactly when the snapshot had it. |
| Ownership.SecondPutSharesSlot | src/core/orchestrator/OrchestratorService.js:210-215 | Witness: a second PUT on a slot already reserved for one leaves two live orders holding it. |
| Witnesses.LateFailureTakesSlot | src/core/orchestrator/OrchestratorService.js:512-539 | A run from the empty system: a PUT canceled inside its step, its slot given to another PUT, then the first one's step fails and takes the slot back; both name it. |
| Witnesses.RetryOfDoneHoldsFreeSlot | src/core/orchestrator/OrchestratorService.js:665-691 | A run that finishes a PUT and retries it: it holds a slot that is LIBRE. |
| Witnesses.ReleaseTakesSlotAway | src/interfaces/api/slotsRoutes.js:19-36 | A run in which a waiting PUT's slot is released: it still names a slot that is LIBRE. |
| PlanRecord.DoneOrdersFollowedTheirPlan | src/core/orchestrator/OrchestratorService.js:54-98 | In every run whose retries reach orders not inside a later step: each physical order has had acknowledged, since its last start, exactly the first currentStepIndex commands of 41000, 100+level(source), car(source,T), 100+level(destination), car(destination,D), in that order, each sent 1..maxRetries times; a DONE one all five. |
| PlanRecord.DoneOrdersMovedTheirBox | src/core/orchestrator/OrchestratorService.js:70-98 | In such runs the acknowledged commands of a physical DONE order can be read as a move from place a to place b if and only if a is its location and b is its slot (PICK), or its target or else its own location (PUT), and neither is in module 00. |
| PlanRecord.RetryFollowsExactly | src/core/orchestrator/OrchestratorService.js:665-691 | A retry keeps these records, and the agreement of waiting steps with them, if and only if its order is not inside a later step. |
| PlanRecord.LateRetryBreaksPlan | src/core/orchestrator/OrchestratorService.js:665-691 | What goes wrong otherwise: a retry while the order is inside a later step, followed by that step's acknowledgement, leaves a step index its acknowledgements do not account for. |
| Witnesses.RetryInsideStepSkipsOne | src/core/orchestrator/OrchestratorService.js:665-691 | A run in which this happens: an order past two steps on one acknowledgement since its restart. |
| PlanRecord.NextFollows | src/core/orchestrator/OrchestratorService.js:389-691 | Every action keeps the record, for the tables and for the stored snapshot. |
| Orchestrator.CommandableMeaning | src/core/orchestrator/OrchestratorService.js:70-98 | A step has a command exactly when neither location is in module 00; otherwise resolving it throws. |
| SlotStatuses.StatusTellsTheMovement | src/core/state/StateManager.js:288-509 | In every reachable state, with no restriction: a slot is LIBRE if and only if it has no owner, and is then as new; every other slot names a known order, BUSCANDO a PICK and DEVOLVIENDO a PUT; a running owner is not waiting for a slot; the slot an ERROR order still owns is in ERROR. |
| SlotStatuses.LaterStepsTouchNoSlot | src/core/orchestrator/OrchestratorService.js:463-471 | A pass of processOrder that starts an order at a later step than the first leaves every slot as it was (a failure of that step blocks the slot afterwards). |
| SlotStatuses.AssignedSlotIsNearest | src/core/orchestrator/OrchestratorService.js:561-573 | A PICK is given a slot if and only if one on its location's side is LIBRE; it is the closest of them, becomes RESERVADO for the order, and no other slot changes. |
| AccountRuns.CounterIsServedMinusReturned | src/core/state/StateManager.js:315-400 | In every guarded run: for a box standing in an OCUPADO slot, logicalPickStackDepth is the number of PICKs served from that box minus the PUTs accepted on it, and at least 1; for a box being taken away the two numbers are equal. |
| BoxAccounts.PutReturnsAtZero | src/core/orchestrator/OrchestratorService.js:183-195 | A PUT accepted on a standing box lowers that difference by one, and is physical, reserving the slot, exactly when the difference becomes zero. |
| AccountRuns.NextBalancedExactly | src/core/orchestrator/OrchestratorService.js:132-721 | For every action from a state in which slots are owned and the accounts of all boxes are kept (and the invariants every such run has besides): both still hold after it if and only if the guard of ownership and the guard of the accounts hold. The latter concerns a cancel, a failed step of an order canceled meanwhile, and a retry of a canceled order, and nothing else. |
| BoxTraces.CancelBalancedExactly | src/core/orchestrator/OrchestratorService.js:693-721 | A cancel keeps the accounts if and only if the order is canceled already, or is a physical PUT, or a physical PICK that owns its slot or whose box stands in no slot, or a logical order whose box stands in none any more. |
| BoxAccounts.CanceledFailBalanced | src/core/orchestrator/OrchestratorService.js:512-539 | A step that fails after its order was canceled keeps them if and only if: a PICK brought no box and its slot shows none; a PUT was accepted on the very box in its slot, whose counter is one; a PUT on a boxless slot was accepted on none. |
| BoxAccounts.CanceledRetryBalanced | src/core/orchestrator/OrchestratorService.js:665-691 | Where ownership allows it, a retry of a canceled order keeps them if and only if the order counts for no box, or is logical and its box stands in no slot any more. |
| Witnesses.CanceledLogicalPickLeavesCounter | src/core/orchestrator/OrchestratorService.js:693-721 | A run in which a PICK joins a standing box and is canceled: the counter stays at two with one PICK served. |
| OneBoxPerSource.NextOneBoxExactly | src/core/orchestrator/OrchestratorService.js:132-721 | The property: no two OCUPADO slots hold boxes from the same source, and while a PICK fetches from a source no slot holds a box from it and no other PICK fetches from it. Every action from a consistent state that has it keeps it if and only if its guard holds. Two actions have one: a loop iteration that starts a PICK (nothing from its source stands, but for a box in its own slot that this pass replaces, and nobody else fetches from it), and the cancel of a PUT. |
| OneBoxPerSource.OneOccupiedSlotPerSource | src/core/orchestrator/OrchestratorService.js:400-413 | Hence the property in every state of every run that meets these two guards, retries, restarts, overrides and failures at any time included. |
| PlainPicks.PlainRequestsSuffice | src/core/orchestrator/OrchestratorService.js:400-413 | In runs whose submissions name no other robot and no slot for a PICK (unless its box stands), that retry no physical PICK holding a slot and restart while none is on its way, the guard on starting a PICK always holds, so only cancels of PUTs need one. |
| PlainPicks.NextPlainExactly | src/core/orchestrator/OrchestratorService.js:100-691 | These conditions are exact for what they keep: every physical PICK still in line is without a slot, and every PICK is on the robot of its location. |
| PlainPicks.PlainStarts | src/core/orchestrator/OrchestratorService.js:400-413 | From such a state a PICK at the head of a line may always set out: no box from its source stands, or it joins that box, and no other PICK is fetching from there. |
| OneBoxPerSource.CancelPutExactly | src/core/orchestrator/OrchestratorService.js:701-711 | Cancelling a PUT keeps this if and only if the box it puts back has a source that no other slot holds and no PICK is fetching from. |
| OneBoxPerSource.FinishPickExactly | src/core/state/StateManager.js:315-354 | A finishing PICK keeps at most one box per source if and only if no other slot holds one from its source. |
| Witnesses.CanceledPutMakesTwoBoxes | src/core/orchestrator/OrchestratorService.js:701-711 | A run in which a PUT is canceled while another PICK fetches from its box's source: two OCUPADO slots hold boxes from there. |
| Witnesses.RetriedPickMakesTwoBoxes | src/core/orchestrator/OrchestratorService.js:665-691 | A run in which a failed PICK is retried after another has brought the box: again two slots. |
| Witnesses.PlacesServe | src/core/orchestrator/slotDistance.js:21-55 | There are three places as these two runs ask for. |
| Rehydration.RehydratedMeaning | src/core/orchestrator/OrchestratorService.js:100-130 | From any saved state: each robot's queue is exactly its PENDING and formerly IN_PROGRESS orders, each once, nothing active; slots keep status, owner, box and depth; newly configured slots start LIBRE. |
| Rehydration.RebuiltQueueOldestFirst | src/core/orchestrator/OrchestratorService.js:108-122 | The rebuilt queue is in createdAt order, ties in stored order. |
| Rehydration.HydratedMeaning | src/core/state/StateManager.js:74-115 | Orders and saved slots come back unchanged over the configured slots. |
| Rehydration.VisitOrderMeaning | src/core/state/StateManager.js:263-265 | The visit goes through every order once, oldest first, ties in stored order. |
| Rehydration.SnapshotKeyed | src/core/state/StateManager.js:515-525 | A snapshot holds the same orders and slots under the same keys, each listed once. |
| Rehydration.SnapshotSorted | src/core/state/StateManager.js:263-287 | It lists orders newest first and slots by code. |
| Durability.CrashLosesNoProgress | src/core/orchestrator/OrchestratorService.js:100-130 | After a crash in any reachable state and a restart with any slot configuration: every accepted order is there at the step it had reached, DONE and ERROR orders are so again, PENDING and IN_PROGRESS ones are PENDING and queued on their robot. |
| Durability.NextDurable | src/core/orchestrator/OrchestratorService.js:132-721 | Every action keeps the stored snapshot standing for the tables in this sense. |
| Durability.CanceledOrderComesBack | src/core/orchestrator/OrchestratorService.js:693-721 | Witness: cancel does not save, so a queued order that was canceled comes back if the process stops before the next save. |
| RobotLoop.TurnShrinks | src/core/orchestrator/OrchestratorService.js:336-387 | Every iteration of the robot loop after which it goes on lowers (queued items, remaining steps of the active order + 1) lexicographically, duplicate or finished ids in the queue included. |
| RobotLoop.LoopIsARun | src/core/orchestrator/OrchestratorService.js:336-387 | The loop with no outside events, run to its return, is a run of the state machine acting on its own robot only, so all results about runs hold of it. |
| LoopEnds.TurnStopsExactly | src/core/orchestrator/OrchestratorService.js:336-387 | A turn of the loop is its last if and only if there was nothing to take (no active order, and the line empty or paused), or the order it took is then in ERROR, is back in line PENDING, or is still active and IN_PROGRESS without waiting in a step (a location in module 00). After a DONE, CANCELED or unknown one it goes on. |
| LoopEnds.LoopReturnsWithReason | src/core/orchestrator/OrchestratorService.js:336-387 | When a whole loop run returns, its last turn was of that kind. |
| LoopEnds.StepsGetTheirReplies | src/core/orchestrator/OrchestratorService.js:512-558 | The steps of a loop run are judged by the replies the wire gave, one set each and in order. |
| Fairness.NoStarvation | src/core/queue/QueueManager.js:39-68 | Over every run without a restart, an order standing behind k others in its robot's line has been dequeued, or was canceled, once the robot has dequeued more than k times, whatever is enqueued behind it. |
| Fairness.TurnWithinDispatches | src/core/orchestrator/OrchestratorService.js:336-387 | The same in whole loop runs: at most k+1 of them that start on an unpaused queue with nothing active, with any submissions, retries, pauses, cancels and other robots' steps in between. |
| Fairness.DispatchEndsIdle | src/core/orchestrator/OrchestratorService.js:336-387 | A loop run leaves nothing active, except an order with a location in module 00. |
| PausedQueues.PauseSetsFlag | src/core/queue/QueueManager.js:70-80 | The flag becomes the one given; line, active order and everything else stay. |
| PausedQueues.PauseHoldsUp | src/core/queue/QueueManager.js:62-80 | From a pause until a resume or a restart, whatever else happens: the queue stays paused, no order becomes active on the robot and nothing is dequeued. |
| PausedQueues.ResumeTakesFirst | src/core/queue/QueueManager.js:62-80 | After a resume a robot that has nothing active and waits in no step takes the first of its line in its next turn. |
| StepRetry.RunStepMeaning | src/core/orchestrator/OrchestratorService.js:594-663 | A step is sent until the first acknowledgement or the first fatal error, at most maxRetries times. |
| StepRetry.StepSucceedsExactly | src/core/orchestrator/OrchestratorService.js:594-663 | It succeeds if and only if an acknowledgement comes within maxRetries sends with no fatal error before it. |
| StepRetry.ExecuteStepWithRetry | src/core/errors/ErrorHandler.js:6-16 | The loop with its sleeps computes that verdict; k backoffs sleep base*(2^k - 1) in all and k is at most maxRetries - 1. |
| Queues.QueueManager.EnsureRobot | src/core/queue/QueueManager.js:29-35 | An unknown robot gets an empty queue; a known one is returned unchanged. |
| Queues.QueueManager.Push | src/core/queue/QueueManager.js:39-42 | The id goes to the end of its robot's line. |
| Queues.QueueManager.DequeueNext | src/core/queue/QueueManager.js:62-68 | The head leaves the line, or nothing happens when the queue is paused or empty. |
| Queues.QueueManager.Activate | src/core/queue/QueueManager.js:52-55 | The id becomes the robot's active one. |
| Queues.QueueManager.ClearActive | src/core/queue/QueueManager.js:57-60 | The robot has no active order; its line is unchanged. |
| Queues.QueueManager.SetQueuePaused | src/core/queue/QueueManager.js:70-80 | The pause flag becomes the one given, and nothing else changes. |
| Queues.QueueManager.RemoveOrder | src/core/queue/QueueManager.js:87-93 | The new table is the one with the id removed from line and active place. |
| Queues.RemoveForgetsOnlyThat | src/core/queue/QueueManager.js:87-93 | After a removal the id is nowhere in that queue and every other id is where it was. |
| StateManagers.StateManager.ConfigurePickSlots | src/core/state/StateManager.js:63-72 | From any tables: the loop adds the configured slots as specified. |
| Rehydration.WithSlotsMeaning | src/core/state/StateManager.js:63-72 | Codes that are new get a fresh LIBRE slot, once and at the end of the list; slots already there, and all orders, stay as they are. |
| StateManagers.StateManager.HydrateFromSnapshot | src/core/state/StateManager.js:74-115 | The tables become the snapshot over the configured slots. |
| StateManagers.StateManager.FindOrderByExternalId | src/core/state/StateManager.js:249-261 | The first order, in insertion order, with the external id. |
| StateManagers.StateManager.FindOccupiedPickSlot | src/core/state/StateManager.js:342-354 | The first OCUPADO slot, in code order, whose box came from the source. |
| Domain.FindOccupiedMeaning | src/core/state/StateManager.js:342-354 | The search finds a slot if and only if some slot is OCUPADO with a box from that source. |
| Domain.FoundIsFirst | src/core/state/StateManager.js:342-354 | The slot found is the one whose code comes first among all that hold a box from the source. |
| Domain.FindByExternalMeaning | src/core/state/StateManager.js:249-261 | The search finds an order if and only if one has the id. |
| StateManagers.StateManager.ReserveSlot | src/core/state/StateManager.js:288-305 | Succeeds exactly on a LIBRE slot, which becomes RESERVADO for the order. |
| StateManagers.StateManager.ReserveSlotForPut | src/core/state/StateManager.js:430-451 | Succeeds exactly on a LIBRE or OCUPADO slot, which keeps its box and becomes RESERVADO for the order. |
| StateManagers.StateManager.MarkSlotOccupied | src/core/state/StateManager.js:315-340 | The slot is OCUPADO by the order with its box and depth 1. |
| StateManagers.StateManager.IncrementLogicalPickStack | src/core/state/StateManager.js:365-380 | The depth goes up by one; fails exactly on an unknown slot. |
| StateManagers.StateManager.DecrementLogicalPickStack | src/core/state/StateManager.js:382-400 | The depth goes down by one; fails exactly when it is not above one or the slot is unknown. |
| Domain.StackCounts | src/core/state/StateManager.js:356-400 | The counter of a known slot is at least one; raising and lowering move it by one and undo each other; lowering fails exactly at one. |
| StateManagers.StateManager.ReleaseSlot | src/core/state/StateManager.js:453-472 | The slot becomes as new. |
| StateManagers.StateManager.BlockSlot | src/core/state/StateManager.js:474-491 | The slot is in ERROR for the order and keeps its box. |
| StateManagers.StateManager.UpdateSlotStatus | src/core/state/StateManager.js:493-509 | Status changes; the owner only when one is given. |
| StateManagers.StateManager.GetSnapshot | src/core/state/StateManager.js:515-525 | Orders newest first, slots by code. |
| OrchestratorServices.OrchestratorService.SubmitOrder | src/core/orchestrator/OrchestratorService.js:132-239 | The method, step by step on the two managers, is the submission of the state machine, reply included. |
| OrchestratorServices.OrchestratorService.AssignSlotForPickOrder | src/core/orchestrator/OrchestratorService.js:561-573 | The loop over the ranking reserves the nearest free slot, or returns none when the ranking is empty. |
| OrchestratorServices.OrchestratorService.ProcessOrder | src/core/orchestrator/OrchestratorService.js:389-510 | The method is the pass of the state machine up to the PLC call, outcome included. |
| OrchestratorServices.OrchestratorService.CompleteStep | src/core/orchestrator/OrchestratorService.js:512-558 | What follows the PLC call, failure or success, is the step end of the state machine. |
| OrchestratorServices.OrchestratorService.DeferOrderWaitingForSlot | src/core/orchestrator/OrchestratorService.js:575-592 | The order is PENDING, waiting and at the end of its robot's line, and nothing is active. |
| OrchestratorServices.OrchestratorService.RunRobotLoop | src/core/orchestrator/OrchestratorService.js:336-387 | The loop terminates and ends in the state of the specified run, whose end LoopEnds.LoopReturnsWithReason characterises. |
| OrchestratorServices.OrchestratorService.CancelOrder | src/core/orchestrator/OrchestratorService.js:693-721 | The method is the cancel action. |
| OrchestratorServices.OrchestratorService.RetryOrder | src/core/orchestrator/OrchestratorService.js:665-691 | The method is the retry action; a failed register reset leaves everything unchanged. |
| OrchestratorServices.OrchestratorService.ReleaseSlotManually | src/interfaces/api/slotsRoutes.js:19-36 | The method is the release action. |
| OrchestratorServices.OrchestratorService.RehydrateFromSnapshot | src/core/orchestrator/OrchestratorService.js:100-130 | The loop over the saved orders is the restart action. |
| SlotRanking.ComparatorIsLexicographic | src/core/orchestrator/slotDistance.js:21-55 | The comparator is the lexicographic order on (level gap, module gap, module, position, code), which makes its same-level test redundant; it is zero only on equal codes and antisymmetric. |
| SlotRanking.ComparatorTransitive | src/core/orchestrator/slotDistance.js:25-55 | The comparator is transitive. |
| SlotRanking.RankingIsStrictlySorted | src/core/orchestrator/slotDistance.js:57-71 | The ranking holds exactly the same-side free slots, each once, strictly increasing. |
| SlotRanking.NearestIsMinimum | src/core/orchestrator/slotDistance.js:57-76 | Its first element is the unique minimum and exists if and only if some free slot is on the source's side. |
| Location.ParseInvertsPrint | src/core/orchestrator/locationTranslator.js:45-81 | Parsing a printed base code plus any action letter gives back the location and the action; the suffix test agrees. |
| LocationText.ParseExactly | src/core/orchestrator/locationTranslator.js:45-81 | A text reads as a location with an action if and only if it is the location's code followed by T (take), D or L (leave) or nothing, with each letter in either case and any white space around it; nothing else is read. |
| LocationText.SuffixExactly | src/core/orchestrator/locationTranslator.js:79-81 | The test for an action letter looks at the last character of the trimmed text, t, d or l in either case. |
| Location.NormalizationIdempotent | src/core/orchestrator/locationTranslator.js:45-77 | A normalized code parses to itself with no action. |
| Location.PrintInjective | src/core/orchestrator/locationTranslator.js:45-77 | Different locations have different codes. |
| Location.CarCommandValue | src/core/orchestrator/locationTranslator.js:83-111 | There is a car command exactly for modules 1..99, and its digits spell 10000*position + 100*pair + 10 for an odd module + 1 for a take (0 for an even module and for a leave). |
| Location.CommandPairInjective | src/core/orchestrator/locationTranslator.js:83-122 | Car code and lift code together determine module, level, position and action. |
| Location.SplitValue | src/core/connection/ConnectionService.js:478-490 | The two halves rebuild the code modulo 100000 and each fits a 16-bit register (section 6.6 of the MODBUS Application Protocol Specification V1.1b3). |
| Location.CarCommandSplits | src/core/connection/ConnectionService.js:478-490 | Every car command survives the split unchanged. |
| ModbusOps.OpAlwaysEnds | src/core/connection/ConnectionService.js:539-611 | Whatever the wire and the other devices do, an operation makes at most innerAttempts*(max(1, H or 10)+1) attempts, stops at the first that is not lost, and leaves a streak below H when H > 0, and none after a success. |
| ModbusOps.OpGivesUpExactly | src/core/connection/ConnectionService.js:539-611 | With no interference, an operation entered at streak s gives up if and only if the next innerAttempts*(H-s) attempts are all lost (11 rounds for H = 0, 2 for H < 0); it has then made exactly that many and, for H > 0, hard-reset and cleared the streaks; for H <= 0 the streak is what it was plus those rounds. |
| ModbusOps.FaultKeepsStreak | src/core/connection/ConnectionService.js:539-611 | An operation that meets an error other than a lost connection leaves the streak it found plus one for each full round of innerAttempts lost before: the error itself neither clears nor raises it. |
| ModbusOps.StreakCountsRounds | src/core/connection/ConnectionService.js:539-611 | With hard resets of other devices at any attempt: an operation that is not answered ends in a fault, in a hard reset after the first round whose streak (the rounds lost since the last of those resets, this one included) reaches H, or after its last round (H+1, 11 for H = 0, 2 for H < 0) if none does, and leaves that streak. |
| ModbusOps.RegistersAfterOp | src/core/connection/ConnectionService.js:539-611 | After an operation, however it ends, the registers hold what all its attempts together have written, a lost or failed one with the part that went through, with what the PLC and the others did in between; a read brings messageOut as it is at the last attempt, or nothing when that came without data. |
| Handshake.DoneMeansFullHandshake | src/core/connection/ConnectionService.js:742-834 | The operations a step reported DONE has completed are, in order and no others: its command (both car registers), reads of refused codes and then an expected one, the zeroing of messageIn (both registers), reads of non-zero values and then zero, within the configured numbers of polls. What a lost attempt wrote before it was lost is in the registers but completes nothing. |
| StepReplies.RepliesExactly | src/core/connection/ConnectionService.js:742-849 | Every reply of a step, if and only if. DONE: the device exists, its command is written, one of at most ackAttempts reads says 100 with all before it refused, the zeroes are written and one of at most resetAttempts reads then says zero. A fatal error: no device, or confirmed and not brought to rest. A retryable error: the command not written, or a read before the confirmation not answered. Otherwise all reads were refused, and the reply is a PLC error exactly for a last value of 101..199. |
| StepReplies.ResetExactly | src/core/connection/ConnectionService.js:671-707 | The registers are reported reset if and only if the zeroes are written and one of at most resetAttempts reads says zero, with none failing before it. |
| StepReplies.AckedOnRegisters | src/core/connection/ConnectionService.js:742-849 | On a wire that delivers every attempt, for either device: the step is DONE if and only if messageOut, as the PLC and the others leave it, is 100 at one of the ackAttempts reads after the command and zero at one of the resetAttempts reads after the zeroes. |
| Handshake.CommandOnRegisters | src/core/connection/ConnectionService.js:783-796 | After the write the car's two registers read the code modulo 100000 as first digit and rest, the lift's one register the code. |
| Handshake.ConfirmedIsFinal | src/core/connection/ConnectionService.js:742-834 | Once the PLC has confirmed a command it is not sent again in that step; before that, only a missing device or PLC error 99 is final. |
| Handshake.UnconfirmedReply | src/core/connection/ConnectionService.js:798-834 | A step not confirmed within its polls has made all of them, and reports a PLC error exactly when the last value was 101..199, fatal exactly for 199. |
| Acknowledgements.NoLeftoverConfirmation | src/core/connection/ConnectionService.js:671-834 | Over every run of step commands and resets on a device that starts at rest, messageIn being zeroed by other retries at any attempt, with a PLC that answers only a non-zero messageIn, and data in the read that ends each wait for zero: no confirmation is left over from an earlier confirmed step. |
| Acknowledgements.OwnAnswerExactly | src/core/connection/ConnectionService.js:742-811 | A step can only be confirmed by an answer to its own command, whatever the wire and the PLC do, if and only if it starts with messageIn zero and messageOut not 100. |
| Acknowledgements.DoneLeavesRest | src/core/connection/ConnectionService.js:613-707 | A confirmed step ends with messageIn and messageOut zero, provided its last read brought data. |
| Acknowledgements.RetryConfirmedByOldAnswer | src/core/connection/ConnectionService.js:709-740 | Witness: after a failed step and the reset of an order retry, which does not wait for messageOut, a different command is confirmed by the answer to the failed one. |
| Acknowledgements.EmptyReadLetsOldAnswerConfirm | src/core/connection/ConnectionService.js:625-646 | Witness: a read with no data counts as zero, and the next command is then confirmed by the answer to the one before. |
| PlcProtocol.OnlyHundredConfirms | src/config/plcProtocol.js:60-93 | The code a step expects is the one code that decodes as OK. |
| PlcProtocol.DecodedExactly | src/config/plcProtocol.js:51-89 | 100 is OK, 300 and 301 car present and absent, 200..299 a level, 101..199 an error, anything else and no data unknown. |
| PlcProtocol.MatchedExactly | src/core/connection/ConnectionService.js:460-476 | A value is accepted exactly when it is an expected code or in an expected hundred; no data counts as zero. |
| StepBudget.StepUses | src/core/connection/ConnectionService.js:742-834 | One step command makes at most (2 + ackAttempts + resetAttempts) times the per-operation bound of attempts. |
| StepBudget.WholeStepIsBounded | src/core/orchestrator/OrchestratorService.js:594-663 | A whole order step, retries included, makes at most maxRetries*(2 + ackAttempts + resetAttempts)*innerAttempts*(max(1, H or 10)+1) attempts, and its verdict is the one the state machine gives for the replies it got. |
| StepBudget.WholeStepExactly | src/core/orchestrator/OrchestratorService.js:594-663 | A whole order step on the wire succeeds if and only if one of at most maxRetries step commands, each begun where the one before left the wire, is acknowledged, and all before it were answered by errors that allow another (anything but a fatal error and PLC error 99); it ends there, at the first answer that allows no other, or after maxRetries. |
| StepBudget.DoneStepWasConfirmed | src/core/orchestrator/OrchestratorService.js:594-663 | When the state machine counts a step as done on the replies the wire gave, the wire has carried the full handshake of that very command, begun after the step did. |
| WireRuns.DoneOrdersShookHands | src/core/orchestrator/OrchestratorService.js:389-691 | In every run of orders and wire together (the replies of a step are those its own commands got, a retry goes ahead if its resets did, anything else may reach the devices meanwhile) whose retries reach orders not inside a later step: the wire of a physical order's robot carries one full handshake for each step the order has behind it, five when it is DONE, of the planned command on the device of that step, each begun after the one before had ended. |
| WireRuns.WireExecIsARun | src/core/orchestrator/OrchestratorService.js:389-691 | The orders in such a run go through a run of the state machine, so all results about those hold of it. |
| WireRuns.StepUsesItsLine | src/core/connection/ConnectionService.js:742-748 | A step goes over the line of its own device on its robot and touches no other; with no device registered there nothing is sent and the order is in ERROR. |
| WireRuns.RetryMeansReset | src/core/connection/ConnectionService.js:709-740 | A retry that goes ahead has zeroed messageIn, as its one completed operation, on each registered device of the order's robot. |
| WireRuns.RetryGoesAheadExactly | src/core/connection/ConnectionService.js:709-740 | A retry of a known order goes ahead if and only if the zeroes arrive on both devices of its robot, as far as they are registered; both are tried, whatever the first one does, and no other line is touched. |
| ConnectionServices.ConnectionService.RunModbusOp | src/core/connection/ConnectionService.js:539-611 | The nested loops compute the specified operation; a hard reset leaves the whole streak table empty. |
| ConnectionServices.ConnectionService.WaitForExpectedResponse | src/core/connection/ConnectionService.js:648-669 | The polling loop computes the specified wait. |
| ConnectionServices.ConnectionService.WaitForMessageOutZero | src/core/connection/ConnectionService.js:625-646 | The polling loop computes the specified wait for zero. |
| ConnectionServices.ConnectionService.ResetStepRegisters | src/core/connection/ConnectionService.js:671-707 | The method is the specified reset, whose two replies StepReplies.ResetExactly characterises; an incomplete reset is a fatal error. |
| ConnectionServices.ConnectionService.ExecuteStepCommand | src/core/connection/ConnectionService.js:742-834 | The method is the specified step command, its reply included; StepReplies.RepliesExactly says which reply comes when. |
| ModbusClients.SocketIsSerial | src/infra/transport/modbus/ModbusClient.js:100-121 | For every interleaving of requests, starts and settlements: at most one operation runs, operations start in request order, and a failed one never blocks its successors. |
| ModbusClients.RequestChains | src/infra/transport/modbus/ModbusClient.js:19-23 | Each request adds one operation at the end, waiting for the one requested just before it, settled or not, and changes no other. |
| ModbusClients.OutcomeIsKept | src/infra/transport/modbus/ModbusClient.js:100-121 | An operation settles with its own outcome, and those requested after it stay chained behind it. |
| ModbusClients.EveryRequestIsServed | src/infra/transport/modbus/ModbusClient.js:100-121 | After any run there is one operation for each request, and a waiting one starts when its turn comes if and only if all requested before it have settled, with success or failure. |
| ModbusClients.ModbusClient.RunSocketOp | src/infra/transport/modbus/ModbusClient.js:19-23 | One waiting operation is added, chained on the stored tail, and becomes the new tail; all others stay as they are. |
| DeviceMutexes.CounterIsExact | src/infra/transport/modbus/DeviceMutex.js:28-78 | Without clear, in every interleaving, the in-flight counter is the number of started, unsettled operations, and tryRun refuses whenever one runs. |
| DeviceMutexes.TryRunExactly | src/infra/transport/modbus/DeviceMutex.js:64-78 | Without clear, in every interleaving, tryRun changes nothing when a tail is stored for the key or one of its operations runs, and otherwise adds one operation that may start at once; on a key with nothing outstanding it always adds it. |
| DeviceMutexes.SettleExactly | src/infra/transport/modbus/DeviceMutex.js:28-48 | Without clear, in every interleaving: an operation that settles keeps its outcome, and the stored tail of its key is dropped exactly when no other operation of the key runs, even with others waiting behind it. |
| DeviceMutexes.ClearForgets | src/infra/transport/modbus/DeviceMutex.js:80-84 | After clear any tryRun is let in and may start at once, beside whatever runs. |
| DeviceMutexes.EveryCallIsKept | src/infra/transport/modbus/DeviceMutex.js:28-78 | Without clear, in every interleaving, the operations are exactly the calls let in, one each, in call order and under their keys: every run, and each tryRun that found no tail stored and nothing of its key running. |
| DeviceMutexes.SafeRunsAreExclusive | src/infra/transport/modbus/DeviceMutex.js:28-48 | On runs where each call finds a stored tail or nothing outstanding on its key: one operation at a time per key, in call order. |
| DeviceMutexes.CallIsSafeExactly | src/infra/transport/modbus/DeviceMutex.js:28-48 | From such a state a further call keeps exclusion, whatever starts and settles afterwards, if and only if a tail is stored for its key or nothing is outstanding on it. |
| DeviceMutexes.SafeInCallersTerms | src/infra/transport/modbus/DeviceMutex.js:28-48 | The same guard as a caller sees it: nothing is outstanding on the key, or no operation of the key has settled since it last was idle. |
| DeviceMutexes.LateCallRunsBeside | src/infra/transport/modbus/DeviceMutex.js:34-38 | Witness: with two calls made and the first settled, a third runs beside the second. |
| DeviceMutexes.ClearLetsACallBeside | src/infra/transport/modbus/DeviceMutex.js:80-84 | Witness: a call after clear runs beside the operation in flight. |
| DeviceMutexes.NothingBlocks | src/infra/transport/modbus/DeviceMutex.js:28-48 | In every interleaving, clear and failures included, each busy key has an operation running or able to start. |
| DeviceMutexes.DeviceMutex.Enqueue | src/infra/transport/modbus/DeviceMutex.js:28-48 | run chains the operation on the stored tail, if any, and stores it as the new one. |
| DeviceMutexes.DeviceMutex.TryEnqueue | src/infra/transport/modbus/DeviceMutex.js:64-70 | Null, with nothing changed, exactly when the key has a stored tail or a positive counter; otherwise one operation with no predecessor is added and is the new tail. |
| DeviceMutexes.DeviceMutex.Finish | src/infra/transport/modbus/DeviceMutex.js:34-42 | Settling lowers the counter, and at zero drops counter and tail. |

## Left out

- HTTP routes, authentication, application wiring, Swagger, the web client and the soak script: only their calls into the services appear, as actions.
- Persistence (SQLite and file stores), events, metrics, history and timestamps other than createdAt: a snapshot is a saved copy of the tables. A crash between an acknowledgement and the save that follows it is not modelled.
- ExternalQueueManager: only the in-memory queue manager is modelled.
- Robot status, `enabled` and current order of the robot record: display data that no order, queue or slot depends on, except that a disabled robot's loop returns at once.
- `priority`, `origin` and a `waitingForSlot` given in a request body: stored or overwritten, never used to choose. The `status` and `retries` fields inside a step record likewise.
- Random order ids: a counter that never repeats.
- Server start: the server does not wait for rehydration before it starts the dispatch; the model takes restart as one action.
- The connectivity monitor, its backoff and its own client recreation; it reaches the mutex through tryRun only.
- TCP connect and close, the `connected` flag, timeouts, real time: an attempt is delivered, delivered without data, lost, or failed otherwise. Which errors count as lost (`isConnectivityError`) is the feed's choice.
- The loop of resetRobotMessageIn over a robot's devices: a parameter of the retry action, and in `WireRuns` the reset of the two devices, if registered, whose outcome is that both went through.
- Process exit on hard reset, simulation mode, and register addresses: messageIn is one or two registers and messageOut one, whatever their addresses.
- Non-integer or NaN configuration numbers: NaN for the hard limit behaves as 0 in the model; fractions are not modelled.
- Location codes are ASCII and localeCompare is the order of their characters; Unicode and locale rules are left out.
- The composition of mutex, socket queue and recovery: each is proved by itself, and one device's handshake is proved for a device that no other step commands meanwhile. The streak entries that an interleaved reset leaves behind are not counted. Direct writes through the debug routes are not modelled.
- WireRuns.DoneOrdersShookHands: a step and its retries are one stretch of its robot's tape; resets made in the middle of it change the registers but are not listed there.
- NoLostOrders.NextConsistent: the actions are atomic between waits, as they are in a single JavaScript thread whose queue calls resolve at once; another queue manager that really waits is outside it.
- Acknowledgements.NoLeftoverConfirmation: assumes that answers belong to a PLC that keeps the stated discipline, and data in the read that ends a step's wait for zero (the code takes no data for zero; a witness shows the effect).
- Fairness.NoStarvation: does not cover runs with a restart, which rebuilds the line by creation time.
