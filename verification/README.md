# Verification of the stateful core of the n8n server

A Dafny model of five components of `packages/cli/src` that keep state and update it in loops, with proofs over all inputs and all runs. `dafny verify dfyconfig.toml` checks everything.

| component | modules |
|---|---|
| credential inheritance and overwrites | `CredentialTypes`, `CredentialOrder`, `CredentialsOverwrites`, `FirstOccurrence` |
| the registry of running executions and its concurrency control | `ActiveExecutions`, `ConcurrencyQueue` |
| registration of webhooks | `WebhookPath`, `WebhookRegistration` |
| activation of workflows | `ActivationQueue`, `ActiveWorkflowManager`, `SuspendedRemovals`, `RemoveAll`, `MultiMain` |
| the registry of nodes and credentials | `NodeDescriptions`, `AiTools`, `LoadNodesAndCredentials`, `SharedExtends` |

Each component that updates fields in place is a class whose methods, with the loops of the original, are proved against functions on values; the results are lemmas about those functions and about runs of them. The environment (repositories, external services, triggers, the throttle's callers) is an input: a `Plan`, a `Trial`, a `Clearing`, or an event of a run, so that a statement for all inputs is a statement for everything the environment may do. What the functions at the bottom come to is also told in plain terms, with modes, values and fields named (`FailureInPlainTerms`, `BeginByMode`, `SuccessRow`, `FilledExactly`, `EveryLoaderShows`, `TargetsExactly`, `ToolConverts`).

## How the system is modelled

- **Credentials.** `ParentTypes` follows `getParentTypes` including the growth of the stored arrays while they are walked. A history is any sequence of calls whose answer is read (`Asks`) or reversed in place by the caller (`Reverses`), as `FrontendService.overwriteCredentialsProperties` does for every type: the answer is the stored array itself. `shared` are the types whose `extends` field is the stored array, as for packages that are loaded eagerly (`packages/core/src/DirectoryLoader.ts:192-201`); what `setData` reads for them is what the history has left. The `extends` relation is acyclic, given by a rank. The order in which `setData` visits the keys is an input.
- **Executions.** A call of `add` is waiting, admitted, registered, settled or cleaned up; every event moves one call by one stage, so that a run is any interleaving. The queue and the control service are modelled as written. Concurrency control starts enabled with a limit.
- **Webhooks.** The table is a map from method and path to a row, written by upsert. Each webhook's storing and external creation may succeed or fail, clearing may stop at any point, and filling the cache after the loop may fail.
- **Activation.** The state holds queue entries, live timers, retries under way, in-memory entries with the triggers they record, the triggers that really run, the crons that are scheduled, errors and webhooks. A trigger or poller may hand back a function to close it, schedule crons, or both; it may fail to start, and fail to close. Retries can be taken as one step (`Retries`) or as two (`Fires`, `Returns`) with anything in between. Conditions under which a property fails are told from the state and the plan before the step. `SuspendedRemovals` takes the removal from memory apart into capturing the entry, closing its triggers one by one, and deleting whatever entry there is by then, with any other effect on triggers in between.
- **Removing everything.** The concurrent removals are interleaved at every single deregistration and closing.
- **Several mains.** A cluster of managers, each with its own lead; the lead is read when an activation begins, and losing it starts a removal loop that first reads what to remove and then removes one workflow at a time, until it is through or a trigger fails to close.
- **Registry.** Option lists are objects of the loaders, shared by reference; `Lists` holds their contents, and what a reader sees is the view of the nodes under it.

## Where the code does not do what it is meant to do

The model follows the code. Where a property that the documentation suggests does not hold, its exact condition is given.

- `ConcurrencyQueue.remove` gives a slot back although the removed execution held none and lets the next waiter in at once. The limit is exceeded by exactly such removals (`LimitExceededExactlyByRemoval`); the repository's unit test of the queue expects the next execution to start. `removeAll` therefore drops only every second queued execution and starts the others (`EmptyingTheQueue`).
- `shutdown` disables concurrency control before it calls `removeAll`, which then returns at once: throttled executions stay queued instead of being removed (`Shutdown`, `NobodyResumesAfterDisable`). It reads the ids to stop before it awaits `removeAll`, so an execution that is registered meanwhile is not stopped.
- Registering an execution under an id that is still registered hides the earlier or the newer call for good (`CollisionForgets`, `ForgottenForGood`).
- Webhooks are written by upsert, so a path that another workflow owns is taken over rather than refused, and a rollback deletes the row (`OthersKeepUncontestedRows`, `ContestedRowDeleted`). A failure after the loop of `addWebhooks` leaves all rows in place (`ThrowLeavesRowsUnlessCleared`). Clearing deregisters only webhooks of the stored workflow (`FailureLeavesNothingIfDefined`).
- `ActiveWorkflows.add` makes its entry before the first trigger starts and keeps it when a trigger fails. The workflow is then queued and active at once (`QueuedNotActiveUnless`), and the retry replaces the entry, after which nothing closes the triggers that had started and need closing (`OrphansExactly`, `RetryAfterPartialFailureOrphans`). Crons are stopped by every removal (`NoCronSurvivesRemoval`), but until then those of both attempts are scheduled.
- `emitError` does not wait for the removal it starts. If the retry activates the workflow while that removal is closing triggers, the removal deletes the entry of the activation: its triggers and crons run on, and another removal does nothing (`RemovalForgetsActivation`, `LosesExactly`).
- A retry that fails after its workflow has been queued anew arms a second timer (`DoubledRetryLeavesTwoTimers`). A retry that fails after it has taken its workflow out of the queue crashes in its `catch` (`Return`). With several mains a retry only publishes a command and its entry keeps naming a timer that has fired (`TimersMatchUnless`).
- `removeAll` reads the stored ids through a filter that leaves out every workflow with an error, so workflows that only wait for a retry stay queued (`WaitingWorkflowsSurviveRemoveAll`).
- An activation that ends after its instance has lost the lead adds triggers beside the new leader's (`LateEndDuplicates`). A trigger that fails to close ends the removal loop of a follower, which then keeps the rest for good (`AbortedLoopDuplicates`); these are the only two ways (`FollowersLeaveExactly`). And a removal loop that starts late takes workflows from an instance that leads again (`StaleRemovalTakesFromLeader`).
- The frontend service reverses the answers of `getParentTypes` in place, and thereby the stored arrays. A type with two or more ancestors then lists them in another order for good, and `get` answers with a farther ancestor's value (`ReversedGrandparentWins`). With single inheritance the order is right exactly if nobody has reversed a list of two or more on the chain of the type before the type below it was first reached (`OrderExactly`); after a sweep over all types exactly the types with at most one ancestor are answered right for all overwrites (`AfterSweepExactly`). The members of the answer stay right (`MembersAreHistoryIndependent`).
- Where `extends` is the stored array itself, asking for ancestors lengthens what `getOverwrites` walks, and a grandparent that is last in the list beats the parent. `InvisibleExactly` gives the condition for all histories before and after `setData`. The lengthened lists can also make more nodes eligible for the custom option on the next rebuild (`ProxyCapableExactly`, `RebuildingAgain`).
- With several parents `getOverwrites` lets the last parent win and `get` lets the first one win, so that answers are the merge of the raw records for all overwrites and orders only if no type has two parents (`InvisibleExactly`), and with a child of such a type the order of the keys can show (`OrderShowsWhereParentsDisagree`).
- Rebuilding the registry twice differs from rebuilding it once when a usable node holds a list that only other nodes give the custom option (`RebuildingTwice`). An empty list makes the rebuild throw (`ThrowsExactlyOnEmptyTarget`).

## Model

| member | source | states |
|---|---|---|
| `CredentialTypes.MembersAreHistoryIndependent` | packages/cli/src/credential-types.ts:33-41 | for every acyclic `extends` relation and every history of calls and in-place reversals, the returned list has exactly the strict ancestors as members |
| `CredentialTypes.AnswerIsHistoryIndependent` | packages/cli/src/credential-types.ts:33-41 | as long as nobody reverses an answer, its first occurrences are a fixed function of the declared arrays, for every acyclic relation and every history of calls |
| `CredentialTypes.HistoryKeepsConsistent` | packages/cli/src/credential-types.ts:33-41 | after any history of calls whose answers nobody reverses, every stored array still starts with what was stored before, and completing it by the lines of its elements gives the line of its type |
| `CredentialTypes.LineIsAncestors` | packages/cli/src/credential-types.ts:30-41 | the reference list of a type holds exactly the types reachable through one or more `extends` steps |
| `CredentialTypes.AnswersGrow` | packages/cli/src/credential-types.ts:36-38 | a call really lengthens the stored array whenever the first parent has parents itself |
| `CredentialTypes.CredentialTypes.GetParentTypes` | packages/cli/src/credential-types.ts:33-41 | the in-place loop returns and stores what the specification says; whatever callers have reversed before, the answer has exactly the ancestors as members and every array keeps its parents and nothing but ancestors |
| `CredentialTypes.CredentialTypes.ReverseParentTypes` | packages/cli/src/services/frontend.service.ts:379-381 | a caller that reverses the answer reverses the stored array, and no list gains or loses a member |
| `CredentialTypes.CredentialTypes.Sweep` | packages/cli/src/services/frontend.service.ts:374-381 | the loop over all types is the history of their reversals |
| `CredentialOrder.OrderExactly` | packages/cli/src/credential-types.ts:33-41 | with single inheritance and after every history of calls and in-place reversals, the next answer for a type lists its ancestors nearest first if and only if nobody has reversed a list of two or more on its chain before the type below was first reached |
| `CredentialOrder.AllInOrderExactly` | packages/cli/src/services/frontend.service.ts:374-381 | every type is answered in order if and only if nobody has reversed a list of two or more |
| `CredentialOrder.SweepLeavesInOrder` | packages/cli/src/services/frontend.service.ts:374-381 | after any history and a sweep over the given types, a type of them is answered in order if and only if it has at most one ancestor |
| `CredentialOrder.GrownExactly` | packages/cli/src/credential-types.ts:36-38 | as long as nobody reverses a list of two or more, a stored list differs from the declared one if and only if its type has two or more ancestors and has been reached, and then it ends with an ancestor other than the parent |
| `CredentialOrder.MembersExactly` | packages/cli/src/credential-types.ts:33-41 | with single inheritance and after every history, a stored list holds the declared parents until its type is first reached, and all strict ancestors from then on |
| `CredentialsOverwrites.CacheIsInvisible` | packages/cli/src/credentials-overwrites.ts:29-102 | when parents agree, the answer of `get` is the merge of the raw overwrites along the ancestor line, for every order in which `setData` visits the types and every history in which nobody reverses an answer or, with single inheritance, nobody spoils the order of the chain |
| `CredentialsOverwrites.NearestAncestorWins` | packages/cli/src/credentials-overwrites.ts:29-102 | with single inheritance a key is answered if and only if a type on the chain sets it, with the raw value of the nearest one, after every history that has not spoilt the order of the chain |
| `CredentialsOverwrites.InvisibleForExactly` | packages/cli/src/credentials-overwrites.ts:29-102 | with single inheritance and `setData` between any two histories: one type is answered with the merge along its line, for all overwrites and orders, if and only if the whole history has not spoilt the order of its chain |
| `CredentialsOverwrites.AfterSweepExactly` | packages/cli/src/services/frontend.service.ts:374-381 | after a history that ends with a sweep, a swept type is answered right for all overwrites and orders if and only if it has at most one ancestor |
| `CredentialsOverwrites.ReversedGrandparentWins` | packages/cli/src/services/frontend.service.ts:379-381 | three types in a row: after one reversal the grandparent's value is answered, whatever the parent sets |
| `CredentialsOverwrites.AnswersAreSourced` | packages/cli/src/credentials-overwrites.ts:29-102 | for any acyclic relation, any histories before and after `setData`, reversals included, and any sharing of lists: no key of the line is lost, the type's own keys keep their raw values, and every value is a raw value of the type or of an ancestor |
| `CredentialsOverwrites.InvisibleExactly` | packages/core/src/DirectoryLoader.ts:192-201 | for recognised parents, no type extending another twice and every shared list declaring at most one parent: every answer is the merge of the raw overwrites along the line, for all overwrites, all orders and all types, if and only if every type has at most one parent, nobody reverses a list of two or more, and no shared type with two or more ancestors has been reached before `setData` |
| `CredentialsOverwrites.LastParentWins` | packages/cli/src/credentials-overwrites.ts:81-84 | in `getOverwrites` a key that the last parent sets itself has the last parent's value |
| `CredentialsOverwrites.FirstParentWins` | packages/cli/src/credentials-overwrites.ts:95-102 | in `get` over raw records a key that the first parent sets has the first parent's value |
| `CredentialsOverwrites.OrderShowsWhereParentsDisagree` | packages/cli/src/credentials-overwrites.ts:81-102 | a type with two disagreeing parents and a child: visiting the child first gives another answer than visiting the type first |
| `CredentialsOverwrites.SingleInheritanceIsCoherent` | packages/cli/src/credentials-overwrites.ts:81-84 | a single parent never disagrees with itself, so single inheritance meets the condition of `CacheIsInvisible` |
| `CredentialsOverwrites.ResolveBetween` | packages/cli/src/credentials-overwrites.ts:63-93 | where parents agree, what `getOverwrites` returns lies between the raw record and the full resolution, although parents are marked resolved without being stored |
| `CredentialsOverwrites.GetIgnoresHistory` | packages/cli/src/credentials-overwrites.ts:95-102 | repetitions that earlier calls left in the ancestor list do not change the reverse merge, as long as nobody has reversed an answer |
| `CredentialsOverwrites.ReloadingKeepsAnswers` | packages/cli/src/credentials-overwrites.ts:29-42 | where parents agree, feeding the cached data back through `setData`, in any order, changes no answer, after any two histories that leave the order alone |
| `CredentialsOverwrites.FilledIsIdempotent` | packages/cli/src/credentials-overwrites.ts:51-60 | filling twice is filling once, and what can still be filled has no overwrite or an unset one |
| `CredentialsOverwrites.FilledExactly` | packages/cli/src/credentials-overwrites.ts:51-60 | the result is the one record in which absent, null, undefined and empty values give way to an overwrite, every other value stays, and what has no overwrite is as before |
| `CredentialsOverwrites.CredentialsOverwrites.SetData` | packages/cli/src/credentials-overwrites.ts:29-42 | the loop over the keys ends with the cached records of the specification, for the lists as they are read at the time of the call |
| `CredentialsOverwrites.CredentialsOverwrites.GetOverwrites` | packages/cli/src/credentials-overwrites.ts:63-93 | the recursive loop returns the merge and marks types as resolved as specified, for the lists as they are read at the time of the call |
| `CredentialsOverwrites.CredentialsOverwrites.Get` | packages/cli/src/credentials-overwrites.ts:95-102 | the answer is the reverse merge over the list of ancestors as stored by then, in whatever order callers have left it, and the merge along the declared line if that list is in order; the stored arrays end as after one call |
| `CredentialsOverwrites.CredentialsOverwrites.ApplyOverwrite` | packages/cli/src/credentials-overwrites.ts:44-61 | against what `get` answers by then: a key that is absent, null, undefined or the empty string takes its overwrite, every other value and every key without an overwrite stay |
| `CredentialsOverwrites.CredentialsOverwrites.FillUnset` | packages/cli/src/credentials-overwrites.ts:53-58 | the loop fills exactly the keys that are absent, null, undefined or the empty string |
| `ActiveExecutions.RunKeeps` | packages/cli/src/active-executions.ts:49-161 | over every interleaving the queue holds exactly the waiting calls in order, capacity is balanced, and every entry points at its own registered call |
| `ActiveExecutions.SlotsConservedOverRuns` | packages/cli/src/active-executions.ts:49-121 | over every interleaving before `disable`, remaining capacity, slots held (calls past the throttle and not cleaned up) and waiters add up to the limit |
| `ActiveExecutions.LimitExceededExactlyByRemoval` | packages/cli/src/concurrency/concurrency-queue.ts:45-55 | from a state within the limit a step exceeds it if and only if it removes a queued execution while another one waits |
| `ActiveExecutions.RemovalStartsOneMore` | packages/cli/src/concurrency/concurrency-queue.ts:45-55 | such a removal starts one more execution beside a full house |
| `ActiveExecutions.LimitBoundsEveryRun` | packages/cli/src/active-executions.ts:49-121 | while control is on, the webhook and trigger executions past the throttle and not cleaned up exceed the limit by at most the number of such removals in the run |
| `ActiveExecutions.BeginByMode` | packages/cli/src/concurrency/concurrency-control.service.ts:157-172 | while control is on, webhook and trigger executions take capacity and wait without it, evaluations are refused, and all other modes are let through without touching the queue; with control off all are let through |
| `ActiveExecutions.ThrottledExactly` | packages/cli/src/concurrency/concurrency-control.service.ts:89-93 | after every interleaving with control on, a new execution waits if and only if it is a webhook or trigger execution and those past the throttle or waiting reach the limit |
| `ActiveExecutions.CleanupGivesBack` | packages/cli/src/concurrency/concurrency-control.service.ts:98-102 | a cleanup gives capacity back and lets the next waiter through exactly for webhook and trigger executions while control is on |
| `ActiveExecutions.OnUntilDisabled` | packages/cli/src/concurrency/concurrency-control.service.ts:138-140 | control is on after a run if and only if the run does not disable it |
| `ActiveExecutions.RunIsFair` | packages/cli/src/concurrency/concurrency-queue.ts:22-43 | no call is let through before one that came earlier and still waits, over every run |
| `ActiveExecutions.StepAdvances` | packages/cli/src/active-executions.ts:97-116 | a call moves only along throttle, repository, registration, settlement, cleanup, and keeps its id |
| `ActiveExecutions.FirstSettlementWins` | packages/cli/src/active-executions.ts:144-161 | a settled call keeps its first outcome through every later event |
| `ActiveExecutions.FirstSettlementTells` | packages/cli/src/active-executions.ts:144-161 | a registered execution that is stopped first ends cancelled and one that is finalized first ends finished, whatever happens afterwards |
| `ActiveExecutions.CleanedUpOnce` | packages/cli/src/active-executions.ts:107-116 | a run cleans a call up once if it ends cleaned up, and never otherwise |
| `ActiveExecutions.ExactUnlessCollision` | packages/cli/src/active-executions.ts:97-116 | one step keeps the map equal to the registered calls if and only if it does not register over a live id |
| `ActiveExecutions.MapIsExact` | packages/cli/src/active-executions.ts:97-116 | without such collisions an id is in the map exactly from registration until its cleanup, over every run |
| `ActiveExecutions.CollisionForgets` | packages/cli/src/active-executions.ts:97-116 | after a collision the earlier call is forgotten at once if it is unsettled; if it has settled, its cleanup deletes the entry of the newer call, which is forgotten then |
| `ActiveExecutions.ForgottenForGood` | packages/cli/src/active-executions.ts:97-116 | a forgotten call never settles, is never cleaned up and keeps its slot, over every later run |
| `ActiveExecutions.NobodyResumesAfterDisable` | packages/cli/src/concurrency/concurrency-control.service.ts:98-102 | once control is off, no event lets a waiting call through or changes the queue |
| `ActiveExecutions.ActiveExecutions.BeginAdd` | packages/cli/src/active-executions.ts:72-84 | `add` up to its first suspension is one step of the system, told mode by mode in `BeginByMode` |
| `ActiveExecutions.ActiveExecutions.CompleteAdd` | packages/cli/src/active-executions.ts:97-104 | registration under the id |
| `ActiveExecutions.ActiveExecutions.StopExecution` | packages/cli/src/active-executions.ts:144-153 | cancels the entry's promise if it is unsettled, nothing for an unknown id |
| `ActiveExecutions.ActiveExecutions.FinalizeExecution` | packages/cli/src/active-executions.ts:156-161 | resolves the entry's promise if it is unsettled, nothing for an unknown id |
| `ActiveExecutions.ActiveExecutions.CleanUp` | packages/cli/src/active-executions.ts:107-116 | release, then deletion of the id |
| `ActiveExecutions.ActiveExecutions.Remove` | packages/cli/src/concurrency/concurrency-control.service.ts:107-111 | takes a queued execution out and resumes the next waiter |
| `ActiveExecutions.EmptyingTheQueue` | packages/cli/src/concurrency/concurrency-control.service.ts:121-125 | with distinct ids `removeAll` empties the queue, but drops only the waiters at even positions and admits those at odd positions, giving back one slot for each pair |
| `ActiveExecutions.ActiveExecutions.RemoveAll` | packages/cli/src/concurrency/concurrency-control.service.ts:118-125 | removes each queued id once, in queue order, and does nothing once control is off |
| `ActiveExecutions.ActiveExecutions.Shutdown` | packages/cli/src/active-executions.ts:202-228 | whatever happens while it awaits `removeAll` and during the sleeps, `shutdown` is a run of the system; with cancellation the first sleep cleans up every execution registered before unless it has been forgotten, all of them if the map was exact and no add completes while it awaits, and empties the registry if no add completes in the sleep either; no call waiting in the throttle is resumed |
| `ConcurrencyQueue.ConcurrencyQueue.Enqueue` | packages/cli/src/concurrency/concurrency-queue.ts:22-33 | takes a slot, and waits at the end of the queue if none was left |
| `ConcurrencyQueue.ConcurrencyQueue.Dequeue` | packages/cli/src/concurrency/concurrency-queue.ts:39-43 | gives a slot back and resumes the first waiter |
| `ConcurrencyQueue.ConcurrencyQueue.Remove` | packages/cli/src/concurrency/concurrency-queue.ts:45-55 | takes out the first waiter of that id, gives a slot back and resumes the next one |
| `WebhookPath.DynamicMeansColonSegment` | packages/cli/src/active-workflow-manager.ts:181 | the textual test finds exactly the paths with a segment that starts with a colon |
| `WebhookPath.StrippingKeepsDynamic` | packages/cli/src/active-workflow-manager.ts:174-181 | stripping at most one slash at either end keeps whether the path is dynamic |
| `WebhookPath.StrippedExactly` | packages/cli/src/active-workflow-manager.ts:174-179 | the stored path is the raw one without a slash in front, if there is one, and then without one at the end |
| `WebhookPath.SplitJoins` | packages/cli/src/webhooks/webhook.service.ts:54-61 | the segments hold no slash and give the path again when joined by slashes |
| `WebhookPath.LengthOfStripped` | packages/cli/src/active-workflow-manager.ts:174-183 | the recorded length is the raw segment count less the slashes stripped |
| `WebhookPath.LookupLength` | packages/cli/src/webhooks/webhook.service.ts:54-61 | a request is looked up under the recorded length exactly when it has as many segments as the stored path |
| `WebhookRegistration.AddAllComesTo` | packages/cli/src/active-workflow-manager.ts:161-227 | a call writes the webhooks up to the first that fails, and clears the workflow if one fails |
| `WebhookRegistration.SuccessOwnsEveryKey` | packages/cli/src/active-workflow-manager.ts:148-231 | if the call returns, every stored webhook's key is owned by this workflow; outside `init` that is every webhook, each registered externally |
| `WebhookRegistration.SuccessWritesExactly` | packages/cli/src/active-workflow-manager.ts:148-231 | if the call returns, the last webhook that stores a key owns it and all other rows are as before |
| `WebhookRegistration.SuccessRow` | packages/cli/src/active-workflow-manager.ts:165-188 | if the call returns, the row under a method and a path names the workflow and the node of the last webhook stored there, and records the node's webhook id and the raw segment count less the slashes stripped if and only if some raw segment starts with a colon and that id is not empty |
| `WebhookRegistration.RequestFindsRow` | packages/cli/src/webhooks/webhook.service.ts:54-61 | a request under the webhook id finds that row if and only if the webhook has a segment that starts with a colon and as many segments as the rest of the request |
| `WebhookRegistration.ThrowsExactly` | packages/cli/src/active-workflow-manager.ts:186-230 | a call throws if and only if a webhook fails in a way that is not passed over, or filling the cache after them fails, whatever the table holds |
| `WebhookRegistration.ThrowsOnFatal` | packages/cli/src/active-workflow-manager.ts:186-230 | a webhook is fatal if storing or creating it fails, unless this is `init` and the failure is that of a query |
| `WebhookRegistration.FailureLeavesNothingIfDefined` | packages/cli/src/active-workflow-manager.ts:195-270 | if a webhook fails and clearing succeeds, no row of the workflow remains, and no external registration if and only if the stored workflow defines every webhook that was registered for it |
| `WebhookRegistration.FailureLeavesNothing` | packages/cli/src/active-workflow-manager.ts:195-226 | in particular, when the webhooks are those of the stored workflow, no row and no external registration of it remains |
| `WebhookRegistration.ThrowLeavesRowsUnlessCleared` | packages/cli/src/active-workflow-manager.ts:186-230 | after a throw the workflow's rows are gone if and only if a webhook failed and clearing got to its end |
| `WebhookRegistration.OthersKeepUncontestedRows` | packages/cli/src/webhooks/webhook.service.ts:94-98 | a row of another workflow survives a call if and only if no stored webhook has its key |
| `WebhookRegistration.ContestedRowDeleted` | packages/cli/src/active-workflow-manager.ts:205-206 | a contested row is taken over and then deleted by the rollback |
| `WebhookRegistration.WebhookRegistry.AddWebhooks` | packages/cli/src/active-workflow-manager.ts:148-231 | the loop with its rollback ends in the world and the outcome of the specification |
| `WebhookRegistration.WebhookRegistry.StoreWebhook` | packages/cli/src/active-workflow-manager.ts:165-188 | strips the path in place and upserts the row, whose fields `SuccessRow` tells |
| `WebhookRegistration.WebhookRegistry.ClearWebhooks` | packages/cli/src/active-workflow-manager.ts:237-270 | deregisters webhook by webhook, then deletes the rows, stopping at the first failure |
| `ActivationQueue.FailedRetryKeepsUnlessDoubled` | packages/cli/src/active-workflow-manager.ts:637-656 | a failed retry keeps timers and entries in correspondence if and only if its workflow has no live timer by then |
| `ActivationQueue.DoubledRetryLeavesTwoTimers` | packages/cli/src/active-workflow-manager.ts:637-656 | otherwise the workflow has two live timers |
| `ActivationQueue.SettlingKeepsUnlessStranded` | packages/cli/src/active-workflow-manager.ts:514-521 | a retry that leaves the queue alone keeps the correspondence if and only if no entry still names its timer |
| `ActivationQueue.EnqueuedWaits` | packages/cli/src/active-workflow-manager.ts:623-677 | queueing a workflow leaves it with exactly one timer, which waits a second and retries in the mode in which it was queued; other workflows keep theirs |
| `ActivationQueue.DequeuedIsGone` | packages/cli/src/active-workflow-manager.ts:682-687 | taking a workflow out takes its entry and its timer away, and nothing else |
| `ActivationQueue.RearmedWaits` | packages/cli/src/active-workflow-manager.ts:637-656 | a failed retry arms one timer more in its own mode, after twice the recorded timeout but at most a day |
| `ActivationQueue.TimeoutIsCappedDoubling` | packages/cli/src/active-workflow-manager.ts:639-642 | after n failures the timeout is the smaller of 1000 times 2 to the n and the cap |
| `ActivationQueue.TimeoutIsMonotone` | packages/cli/src/active-workflow-manager.ts:639-642 | the timeout never shrinks and never exceeds the cap |
| `ActivationQueue.CapReachedAtSeventeen` | packages/cli/src/constants.ts:68-69 | the cap is reached at seventeen failures and not before |
| `ActiveWorkflowManager.ActivationEnds` | packages/cli/src/active-workflow-manager.ts:508-602 | state and message of an activation, but for the webhooks, can be told from its state and from what the environment does, branch by branch |
| `ActiveWorkflowManager.FailureInPlainTerms` | packages/cli/src/active-workflow-manager.ts:508-602 | told from lead, mode and environment alone: which error an activation ends with, what it leaves as it was, and that webhooks are added on `init`, otherwise by the leader only and never on a change of leadership, triggers and pollers by the leader only |
| `ActiveWorkflowManager.TimersMatchUnless` | packages/cli/src/active-workflow-manager.ts:623-696 | every step keeps live timers and entries in one-to-one correspondence if and only if it is not a retry that fails early beside a live timer of its workflow or, with several mains, a retry that only publishes |
| `ActiveWorkflowManager.OneTimerPerEntry` | packages/cli/src/active-workflow-manager.ts:623-696 | with a single main and retries as one step, in every reachable state every entry names a live timer of its own with the delay it records, and every live timer is named |
| `ActiveWorkflowManager.RetriesKeepTheirMode` | packages/cli/src/active-workflow-manager.ts:623-677 | with a single main and retries as one step, over every run a live timer retries in the mode that its entry records |
| `ActiveWorkflowManager.BackoffOverRuns` | packages/cli/src/active-workflow-manager.ts:637-676 | over every run in which nothing else queues or dequeues the workflow, n failed retries move timeout and live delay n places along the capped doubling |
| `ActiveWorkflowManager.ErrorsKeptUnlessCleared` | packages/cli/src/active-workflow-manager.ts:362-386 | a step keeps an error registered for every queued workflow if and only if it does not clear one by hand |
| `ActiveWorkflowManager.ErrorsKeptOverRuns` | packages/cli/src/active-workflow-manager.ts:508-742 | over every run without such clearing, every queued workflow has an error |
| `ActiveWorkflowManager.QueuedNotActiveUnless` | packages/cli/src/active-workflow-manager.ts:508-595 | a step leaves no queued workflow active in memory if and only if, told before the step, no trigger fails in the activation of a queued workflow, no failing startup queues a workflow in memory, and no trigger fails to close in `emitError` |
| `ActiveWorkflowManager.QueuedNeverActive` | packages/cli/src/active-workflow-manager.ts:508-742 | over every run without such a step no queued workflow is active in memory, at any point of the run |
| `ActiveWorkflowManager.OrphansExactly` | packages/core/src/ActiveWorkflows.ts:60-99 | a step leaves a running trigger that needs closing unrecorded if and only if it activates a workflow as far as its triggers while some trigger of it is running |
| `ActiveWorkflowManager.HandlesStayOwned` | packages/core/src/ActiveWorkflows.ts:60-99 | over every run triggers have handles of their own, and no entry records a running trigger of another workflow |
| `ActiveWorkflowManager.OrphansNeverClosedOverRuns` | packages/core/src/ActiveWorkflows.ts:187-203 | an unrecorded trigger that needs closing is never closed and never recorded again, over every run |
| `ActiveWorkflowManager.CronsInMemoryOverRuns` | packages/core/src/ScheduledTaskManager.ts:31-37 | over every run a workflow with scheduled crons is active in memory, whichever of its triggers were orphaned |
| `ActiveWorkflowManager.NoCronSurvivesRemoval` | packages/core/src/ActiveWorkflows.ts:193 | a removal stops every cron of its workflow, recorded or not, even if a trigger fails to close |
| `ActiveWorkflowManager.RetryAfterPartialFailureOrphans` | packages/core/src/ActiveWorkflows.ts:69-99 | after a trigger failure, a successful retry and a removal exactly the closable triggers that had started the first time keep running; until the removal the crons of both attempts are scheduled |
| `ActiveWorkflowManager.SuccessMeans` | packages/cli/src/active-workflow-manager.ts:508-602 | an activation that does not throw leaves the workflow out of the queue, without timer or error, its triggers running and recorded on the leader only; its webhooks are written on `init`, and on the leader when it is created, updated or activated, and are as before in every other case |
| `ActiveWorkflowManager.RemoveLeavesOnlyOrphans` | packages/cli/src/active-workflow-manager.ts:705-742 | with a single main, a removal whose webhooks can be cleared and whose triggers close leaves no row, registration, error, entry, timer or cron, and of its triggers exactly the orphaned ones |
| `ActiveWorkflowManager.ActivationLeavesOthers` | packages/cli/src/active-workflow-manager.ts:508-602 | an activation leaves queue entry, error, in-memory entry and crons of every other workflow alone |
| `ActiveWorkflowManager.StartUpAllClassifies` | packages/cli/src/active-workflow-manager.ts:417-468 | after startup every stored-active workflow is in exactly one class, that of its own outcome: activated, with all its triggers and pollers running on the leader; given up on authorization; or queued with the initial delay; no failure affects the others |
| `ActiveWorkflowManager.StartUpAllOwnsRows` | packages/cli/src/active-workflow-manager.ts:417-468 | after startup an activated workflow owns the key of every webhook it stored, unless a later workflow stores one under the same key |
| `ActiveWorkflowManager.MentionsAnywhere` | packages/cli/src/active-workflow-manager.ts:460-461 | an error counts as one of authorization if and only if the word stands anywhere in its message |
| `ActiveWorkflowManager.ActiveWorkflowManager.AddQueuedWorkflowActivation` | packages/cli/src/active-workflow-manager.ts:623-677 | replaces an earlier entry and its timer by a new entry with a live timer of the initial delay |
| `ActiveWorkflowManager.ActiveWorkflowManager.RemoveQueuedWorkflowActivation` | packages/cli/src/active-workflow-manager.ts:682-687 | clears the timer that the entry names and deletes the entry |
| `ActiveWorkflowManager.ActiveWorkflowManager.RemoveAllQueuedWorkflowActivations` | packages/cli/src/active-workflow-manager.ts:692-696 | the loop empties the queue and clears every timer that an entry names |
| `ActiveWorkflowManager.ActiveWorkflowManager.Add` | packages/cli/src/active-workflow-manager.ts:508-602 | state and thrown message of one activation are those of the specification |
| `ActiveWorkflowManager.ActiveWorkflowManager.TryRegister` | packages/cli/src/active-workflow-manager.ts:571-581 | webhooks, then triggers, each only where this instance may add them, up to the first failure |
| `ActiveWorkflowManager.ActiveWorkflowManager.StartTriggers` | packages/core/src/ActiveWorkflows.ts:69-123 | the entry is replaced before the first trigger starts and stays when one fails; triggers that need closing are recorded one by one, crons are added to those already scheduled |
| `ActiveWorkflowManager.ActiveWorkflowManager.Remove` | packages/cli/src/active-workflow-manager.ts:705-742 | one removal, with several mains the webhooks only |
| `ActiveWorkflowManager.ActiveWorkflowManager.RemoveWorkflowTriggersAndPollers` | packages/core/src/ActiveWorkflows.ts:187-203 | stops all crons of the workflow, closes the recorded triggers in order, and forgets the workflow unless one fails to close |
| `ActiveWorkflowManager.ActiveWorkflowManager.EmitError` | packages/cli/src/active-workflow-manager.ts:362-386 | removal from memory, an error, and a new entry |
| `ActiveWorkflowManager.TriggerFailureQueues` | packages/cli/src/active-workflow-manager.ts:362-386 | a trigger that fails later leaves its own message as the error, one timer of a second that retries in the mode of the trigger, and the workflow out of memory unless a trigger fails to close |
| `ActiveWorkflowManager.ActiveWorkflowManager.Rearm` | packages/cli/src/active-workflow-manager.ts:639-655 | the next timeout and timer from the entry that is there by then |
| `ActiveWorkflowManager.ActiveWorkflowManager.Return` | packages/cli/src/active-workflow-manager.ts:630-665 | the end of a retry; it crashes in its `catch` if and only if it fails and has no entry left, as every retry that fails late |
| `ActiveWorkflowManager.ActiveWorkflowManager.AddActiveWorkflows` | packages/cli/src/active-workflow-manager.ts:417-468 | the loop over the stored workflows goes on after a failure and queues all but authorization errors |
| `SuspendedRemovals.LosesExactly` | packages/core/src/ActiveWorkflows.ts:187-203 | with removals suspended at any closing and any other effect on triggers in between, a step leaves a running trigger that nothing records and no removal is going to close if and only if it activates over such a trigger, ends a removal early that had more to close of a replaced entry, or deletes an entry whose triggers nobody is closing |
| `SuspendedRemovals.NothingLostExactly` | packages/core/src/ActiveWorkflows.ts:187-203 | over every run no trigger is lost in the end if and only if no step has lost one |
| `SuspendedRemovals.OnlyReplacedEntriesAreLost` | packages/core/src/ActiveWorkflows.ts:195-200 | a removal that finishes loses triggers only if the entry is no longer the one it captured |
| `SuspendedRemovals.LostForGood` | packages/core/src/ActiveWorkflows.ts:187-203 | a lost trigger is never closed, over every run |
| `SuspendedRemovals.RemovalForgetsActivation` | packages/cli/src/active-workflow-manager.ts:362-386 | a workflow activated while its removal is suspended: all triggers of the activation run on unrecorded, its crons stay scheduled, and another removal does nothing |
| `SuspendedRemovals.UndisturbedRemoval` | packages/core/src/ActiveWorkflows.ts:187-203 | the parts of a removal in a row come to the removal taken as one step, whether a trigger fails to close or not |
| `RemoveAll.RemovalsCommute` | packages/cli/src/active-workflow-manager.ts:115-120 | two interleavings, with a suspension before every single deregistration and closing, that take every removal equally far or to its end reach the same state |
| `RemoveAll.CompleteSchedulesAgree` | packages/cli/src/active-workflow-manager.ts:115-120 | every interleaving that takes all removals to their end ends in the same state |
| `RemoveAll.ScheduledByProgress` | packages/cli/src/active-workflow-manager.ts:705-757 | the state an interleaving reaches is told by how many turns each removal has had, and nothing else |
| `RemoveAll.RemoveAllLeaves` | packages/cli/src/active-workflow-manager.ts:104-121 | every complete interleaving leaves in memory exactly the workflows with a trigger that fails to close, stops all crons, keeps running exactly orphans and the triggers from such a failure on, and leaves entries and errors exactly to the workflows that were no target |
| `RemoveAll.WaitingWorkflowsSurviveRemoveAll` | packages/cli/src/active-workflow-manager.ts:104-121 | a queued workflow with an error is taken out of the queue if and only if it was in memory; otherwise its timer stays live |
| `RemoveAll.RemovalIsItsTurns` | packages/cli/src/active-workflow-manager.ts:705-742 | all awaited steps of a removal in a row are one removal |
| `RemoveAll.RemoveAll` | packages/cli/src/active-workflow-manager.ts:104-121 | the removals one after the other are a complete interleaving, and so end where every complete interleaving of them ends; it rejects if and only if a trigger fails to close |
| `MultiMain.FollowersLeaveExactly` | packages/core/src/ActiveWorkflows.ts:205-209 | a step keeps followers down to the workflows they are about to remove if and only if it neither ends an activation, begun under the lead, of a workflow that no removal loop knows of, nor ends a removal loop by a trigger that fails to close while it has workflows left that no other loop removes |
| `MultiMain.FollowersLeaveOverRuns` | packages/cli/src/commands/start.ts:258-266 | over every run followers hold only what they are about to remove, at every point, if and only if no step is of these two kinds |
| `MultiMain.DuplicatesOnlyWhileLeaving` | packages/cli/src/active-workflow-manager.ts:476-487 | over every run without such steps that has at most one leader in the end, two instances hold a workflow only while one of them is a follower still removing it, and once nothing is left to remove only the leader holds workflows |
| `MultiMain.UndividedStepsLeave` | packages/cli/src/active-workflow-manager.ts:834-836 | over every run in which activations are one step and triggers close, followers hold only what they are about to remove, at every point |
| `MultiMain.AbortedLoopDuplicates` | packages/core/src/ActiveWorkflows.ts:205-209 | one trigger that fails to close leaves a workflow on a follower that no longer removes it, beside the next leader |
| `MultiMain.LoopFinishes` | packages/core/src/ActiveWorkflows.ts:205-209 | a removal loop whose triggers close empties its list and takes exactly those workflows out of memory |
| `MultiMain.LateEndDuplicates` | packages/cli/src/active-workflow-manager.ts:514-581 | one lost lead during an activation leaves the same workflow on the new leader and, for good, on a follower that does not know of it |
| `MultiMain.StaleRemovalTakesFromLeader` | packages/cli/src/scaling/multi-main-setup.ee.ts:95-105 | an instance that loses the lead and regains it at once loses a workflow it has just activated to its own removal loop |
| `NodeDescriptions.InjectionIsOnceEach` | packages/cli/src/load-nodes-and-credentials.ts:231-253 | however often a list is visited it gets the custom option once, and the injection throws if and only if a list it visits is empty |
| `NodeDescriptions.TargetsExactly` | packages/cli/src/load-nodes-and-credentials.ts:231-253 | a list gets the option if and only if it belongs to a property named `resource` or `operation` of an eligible node |
| `NodeDescriptions.EligibleInPlainTerms` | packages/cli/src/load-nodes-and-credentials.ts:205-237 | a node is eligible if it has no default version or is that single version, and the first credential type of one of its credential names authenticates or directly extends one of the three OAuth types |
| `NodeDescriptions.CustomIsLast` | packages/cli/src/load-nodes-and-credentials.ts:240-250 | a list keeps its options, and ends with the custom call once |
| `AiTools.ToolIsConvertedView` | packages/cli/src/load-nodes-and-credentials.ts:281-301 | every usable node gains one tool, which shows the conversion of what its base shows and holds no list that was there before |
| `AiTools.ToolConverts` | packages/workflow/src/NodeHelpers.ts:359-434 | in plain terms: the tool bears the name with `Tool` behind it, is not usable as a tool itself, and shows the base's properties behind a notice and a description, with the choice of description where the base has resources or operations |
| `AiTools.ToolListsAreCopies` | packages/cli/src/load-nodes-and-credentials.ts:286-287 | a tool's lists are its own copies, with the options the base had |
| `AiTools.ToolTargets` | packages/workflow/src/NodeHelpers.ts:359-434 | the conversion adds no list that gets the custom option and keeps the base's |
| `AiTools.EarlierSupportKept` | packages/cli/src/load-nodes-and-credentials.ts:293-299 | every supported node stays, in its place |
| `AiTools.SupportIsDerivedUnlessLeaks` | packages/cli/src/load-nodes-and-credentials.ts:285-300 | exactly the tools of supported nodes are appended, in order, if and only if no supported node's tool bears the name of a later usable node that is not supported itself |
| `AiTools.ToolSupportedLikeBase` | packages/cli/src/load-nodes-and-credentials.ts:293-299 | without such a name, a credential supports a tool if and only if it supports the base |
| `AiTools.KnownIsDerivedUnlessToolNamedLater` | packages/cli/src/load-nodes-and-credentials.ts:291 | every tool's known entry is its base's, whatever was known, if and only if no usable node bears the name of an earlier one's tool |
| `LoadNodesAndCredentials.LastLoaderWins` | packages/cli/src/load-nodes-and-credentials.ts:308-348 | what several loaders know or have loaded is taken from the last of them, with that loader's directory and, for a package, its name before every supported node |
| `LoadNodesAndCredentials.EveryLoaderShows` | packages/cli/src/load-nodes-and-credentials.ts:308-312 | no node and no credential type of any loader is lost: the k-th of a loader comes right behind all those of the loaders before it |
| `LoadNodesAndCredentials.UsablesInOrder` | packages/cli/src/load-nodes-and-credentials.ts:281-284 | every usable node is taken once, behind the usable nodes before it |
| `LoadNodesAndCredentials.RebuildSupports` | packages/cli/src/load-nodes-and-credentials.ts:291-300 | a rebuild lets a credential support the tools of the usable nodes it supports, nothing but tools beside what it supported, and changes nothing else of it |
| `LoadNodesAndCredentials.RebuildKnows` | packages/cli/src/load-nodes-and-credentials.ts:291 | after a rebuild a tool is known as its base is and everything else as before, unless a usable node bears the name of an earlier one's tool |
| `LoadNodesAndCredentials.RebuildShows` | packages/cli/src/load-nodes-and-credentials.ts:303-352 | what is visible after a rebuild: the nodes of all loaders one after the other, then one tool for each usable node, every list with the custom option exactly where it is due |
| `LoadNodesAndCredentials.ThrowsExactlyOnEmptyTarget` | packages/cli/src/load-nodes-and-credentials.ts:240-243 | a rebuild throws if and only if some list that gets the option is empty |
| `LoadNodesAndCredentials.RebuildingAgain` | packages/cli/src/load-nodes-and-credentials.ts:303-352 | a second rebuild of the same nodes, after the credential types have changed in any way, shows the same nodes if and only if no list without the option has become a target, and no usable node holds a list that only other nodes had made one |
| `LoadNodesAndCredentials.ThrowsAgainExactly` | packages/cli/src/load-nodes-and-credentials.ts:240-243 | it throws if and only if a list that it gives the option was empty before the first rebuild |
| `LoadNodesAndCredentials.RebuildingTwice` | packages/cli/src/load-nodes-and-credentials.ts:303-352 | with loaders that have not changed at all, the second rebuild gives the same contents if and only if no usable node holds a list that only other nodes give the option |
| `SharedExtends.ProxyCapableExactly` | packages/cli/src/load-nodes-and-credentials.ts:205-225 | with single inheritance and after every history, a credential type lends its authentication if and only if it did before, or its list is shared and has been reached and one of its ancestors, however far, is an OAuth type |
| `SharedExtends.EligibleExactly` | packages/cli/src/load-nodes-and-credentials.ts:205-225 | nodes are eligible as before, whatever credentials they name, if and only if no type gains in this way |
| `SharedExtends.RebuildingAfterHistory` | packages/cli/src/load-nodes-and-credentials.ts:303-352 | a rebuild after a history by which no type gains does not throw and shows the same nodes under the same condition as one from unchanged loaders |
| `LoadNodesAndCredentials.SettledFromSecondRebuild` | packages/cli/src/load-nodes-and-credentials.ts:303-352 | from the second rebuild on the contents stay the same in every case |
| `LoadNodesAndCredentials.SharedListShowsSecondRebuild` | packages/cli/src/load-nodes-and-credentials.ts:281-301 | two nodes sharing a list for which the second rebuild differs from the first |
| `LoadNodesAndCredentials.UnloadedIsForgotten` | packages/cli/src/load-nodes-and-credentials.ts:194-199 | after unloading a package the merge no longer knows what only that package knew |
| `LoadNodesAndCredentials.LoadNodesAndCredentials.MergeLoader` | packages/cli/src/load-nodes-and-credentials.ts:308-348 | one loader's tables are laid over the registry and its lists put behind |
| `LoadNodesAndCredentials.LoadNodesAndCredentials.CreateAiTools` | packages/cli/src/load-nodes-and-credentials.ts:281-301 | the loop over usable nodes and credentials ends in the registry and the lists of the specification |
| `LoadNodesAndCredentials.LoadNodesAndCredentials.InjectCustomApiCallOptions` | packages/cli/src/load-nodes-and-credentials.ts:231-253 | the nested loops push in place, and throw with earlier pushes kept |
| `LoadNodesAndCredentials.LoadNodesAndCredentials.PostProcessLoaders` | packages/cli/src/load-nodes-and-credentials.ts:303-352 | the whole rebuild starts from nothing but the loaders and their lists, and merges all of them |

## Left out

- Timing, logging, telemetry, publishing between instances, error workflows and static data: they do not change the modelled state, apart from the failures that appear as inputs.
- Queue mode of the executions: `add` then registers new executions without the throttle.
- ActiveExecutions.ActiveExecutions.Shutdown: models what happens while it awaits `removeAll` and during each sleep as lists of events, given as inputs, since without cancellation its end depends on the executions. That an execution present at the start is cleaned up by the first sleep is stated with the alternative that it has been forgotten: a cleanup under a colliding id may delete its entry before it is stopped.
- The rejection that an unknown execution mode raises inside `release`: such a call never gets past the throttle while control is on.
- Response promises and the cancelling of new executions in the database by `ConcurrencyControlService.removeAll`.
- A trigger that throws `TriggerCloseError` counts as closed, since the removal goes on; a trigger that fails to close in another way is tried again by the next removal.
- ActiveWorkflowManager.ActiveWorkflowManager.EmitError: takes the removal that it starts and does not wait for as part of its own step. What a removal that is suspended meanwhile does to triggers is the subject of `SuspendedRemovals`, which does not follow queue and errors; there an activation starts its triggers at once.
- Crons fire on the leader only: that a follower's crons are scheduled but silent is not told apart.
- A workflow's triggers firing into `emitError` while its own activation is still starting further triggers.
- Caching of single webhooks and the choice among several dynamic webhooks of the same length.
- MultiMain: webhook table and errors, which the instances share, are held per instance in the cluster; which instance holds triggers does not depend on them. How the lock in the store is kept alive is not part of this model: an instance may gain or lose the lead at any time.
- CredentialsOverwrites.InvisibleExactly: leaves out types with several parents whose list is shared; a grown list can then end with the first parent again and hide the disagreement. `CacheIsInvisible` and what follows from it read lists that are not shared.
- CredentialOrder.OrderExactly: is about single inheritance. With several parents a history without reversals keeps the order (`AnswerIsHistoryIndependent`); the exact condition with reversals is not stated.
- The other effects of the frontend sweep: the names of overwritten properties that it collects.
- Cyclic `extends` relations, on which `getParentTypes` and `getOverwrites` do not end.
- The constructor's parsing of the overwrites, and the sharing of the caller's object by `setData`.
- Texts, icons and default values of node properties; `path.join`, kept as a pair of directory and path.
- Descriptions without a list of properties in `convertNodeToAiTool`, which keep their name.
- Directory scanning, loading of classes, hot reload, post-processors and the check for a package loaded twice: the loaders are given data.
- `node-types.ts`, `credentials-helper.ts` and the HTTP, database and command layers.
