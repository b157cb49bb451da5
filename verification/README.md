# Qraft: a verified model of its orchestration core

Qraft runs execution graphs, chains, iters and batches on top of Django-Q2, with retries,
crash recovery, outbox hooks, retention and rate limits. This project models that core in
Dafny and proves what its documentation and tests promise about it.

Each transaction that holds a row lock is one step. A conditional update is a
compare-and-swap. The broker queue, saved results and whatever a process holds in memory
between two transactions are part of the modelled state, so a crash is a step like any
other. Clocks, random draws, broker answers and exception names are arguments.

Every component appears twice where the source updates rows in place: as functions on
values, which the theorems over whole runs are about, and as a class whose methods update
fields the way the source does and are proved equal to those functions.

| module | source | contents |
|---|---|---|
| Topology | `qraft/graphs.py` | plan validation: cycle search, depth recursion |
| GraphEngine, GraphInvariants, GraphRuns, GraphConfluence, GraphStore | `qraft/graphs.py` | the execution graph: operations, invariant, runs, confluence, rows |
| Outbox | `qraft/graphs.py`, `qraft/hooks.py`, `qraft/retention.py` | settlement rows and their dispatch, across crashes and pruning |
| Attempts, SingleFlight, Recovery, Outcomes, TaskStore | `qraft/scheduler.py`, `qraft/hooks.py`, `qraft/reaper.py`, `qraft/retry.py`, `qraft/dlq.py` | one task and its attempts |
| Lease | `qraft/lease.py`, `qraft/runner.py` | the delivery memo |
| TaskHooks, HookOffers | `qraft/hooks.py`, `qraft/reaper.py` | a task's own hooks, and which routings offer them |
| Workflows, Chain, ChainStore, Parallel | `qraft/dispatchers.py`, `qraft/chain.py`, `qraft/iter.py`, `qraft/batch.py`, `qraft/base.py` | chains, iters and batches |
| Retention, RetentionStore | `qraft/retention.py` | the sweep and its cascades |
| Reals, Backoff, TokenBucket | `qraft/retry.py`, `qraft/throttle.py` | delays and rate limits over reals |
| Common | | shared datatypes |

## What turned out otherwise

The code was followed where it differs from its documentation or from the obvious claim.
Each point has a lemma with the state that shows it, and where a property fails, the exact
condition under which it holds.

- A rejected graph is not failed: it settles CANCELLED, or FAILED if some node failed
  (`GraphRuns.RejectSettles`).
- `requeue` tests the status of the caller's instance. Two instances, each loaded while the
  task was dead, open two attempts; single flight survives iff the task is terminal at the insert
  (`SingleFlight.RequeueKeepsFlightIff`, `StaleRequeueOpensTwo`).
- `_resolve_committed` sets `routed` before its routing runs, so a crash in between loses it
  for good, and nothing else ever does (`Recovery.RoutingIsLostIff`, `FlagRunsAheadIff`,
  `RoutingIsLostByACrashIff`, `LostStaysLost`). It also routes the node alone: the success hook
  of a published orphan is never offered, crash or no crash (`HookOffers.HookIsMissedIff`).
- Only the threaded worker clears the delivery memo. Elsewhere a redelivery to the same
  worker enters the body uncharged (`Lease.EntriesAreChargedIff`, `StandardWorkerOverruns`).
- `Chain.approve` is accepted on a FAILED chain, which then never settles, and
  `Chain.reject` on one that is not parked (`Chain.ApproveKeepsIff`,
  `RejectCancelsAnyOpenChain`).
- Not every change of a chain's status is in the transition table: a gated first step parks a
  pending chain, and a failure handled while it is parked fails it (`Chain.StatusesFollowTheTable`).
- `resume` on a handle that still says FAILED opens the gate of a parked chain
  (`Chain.ResumeOpensGateIff`). A failure read before a resume and handled after it settles
  the new generation, which can happen iff the completion of the resumed step is in flight
  at the resume (`Chain.ResumeIsOvertakenIff`).
- `run` trusts its handle: a chain, iter or batch cancelled by someone else before it ran is
  set RUNNING again. An iter or batch can then neither settle nor be cancelled
  (`Parallel.PublishKeepsIff`, `StaleRunNeverSettles`); a chain leaves that
  state only by a reject or, parked, by a resume on a handle that says FAILED
  (`Chain.StartKeepsIff`, `WedgedStaysWedged`).
- A workflow hook is at most once, not exactly once. An iter's or batch's is lost iff a crash
  falls between the settlement and the dispatch or the broker refuses the message
  (`Parallel.HookIsLostIff`). A chain's is lost in those ways, or as already dispatched, which
  takes a resume that deleted the dispatch rows while the hook of the last settlement was still
  held (`Chain.HookIsLostIff`, `HooksAreLostBy`, `LateHookSuppressesTheNext`).
- A settlement offer held in memory while retention removes the graph and then its dispatch
  row is sent twice (`Outbox.AccountedIff`, `PruningHeldSendsTwice`).
- Retention reads the open graphs once; a resume during the sweep exposes the evidence of a
  running graph (`Retention.BatchIsSafeIff`, `ResumeMidSweepEndangers`). The batch ceiling is
  reported even when its last batch left nothing behind
  (`RetentionStore.RetentionTables.DeleteInBatches`).
- Backoff can shorten when jitter exceeds a third (`Backoff.MonotoneIffJitterAtMostAThird`).
- A bucket is stamped when it is saved, after the read that refilled it, and the time between
  is never refilled. A call is served iff the rest of the time has refilled enough
  (`TokenBucket.ServedIff`), so steady polling can starve (`SkewedPollsStarve`).

## Model

| member | source | states |
|---|---|---|
| Topology.HasCycle | qraft/graphs.py:221-239 | The visiting/visited search answers true exactly when some walk returns to where it began; otherwise it leaves a topological order of the keys. |
| Topology.DepthFirst.Visit | qraft/graphs.py:226-239 | One visit: true only with a real cycle in hand; otherwise the key and everything it depends on is visited, and nothing visited is forgotten. |
| Topology.OrderedIsAcyclic | qraft/graphs.py:221-239 | A topological order over all keys rules out every cycle. |
| Topology.ComputeDepths | qraft/graphs.py:242-255 | The memoised recursion terminates on an acyclic plan and gives each node the length of its longest walk from a root. |
| Topology.DepthMemo.Depth | qraft/graphs.py:246-253 | One memoised call: the memo only grows and every entry is a longest-walk length. |
| Topology.LongestIsLongestWalk | qraft/graphs.py:242-255 | The recurrence one-plus-the-deepest-dependency measures the longest walk: one of that length exists, none is longer. |
| Topology.DepthIncreases | qraft/graphs.py:242-255 | Depth strictly increases along every edge. |
| Topology.ValidatePlan | qraft/graphs.py:207-218 | A plan is accepted exactly when it is non-empty, has distinct keys, known and proper dependencies and no cycle; the error names what was wrong, and an accepted plan carries its longest-walk depths. |
| GraphStore.StartGraph | qraft/graphs.py:134-204 | An acceptable plan, and no other, gets rows: declared edges and gates kept, longest-walk depths, rows read by depth and position, the frontier dispatched, the whole invariant holding, and the graph running or parked. |
| GraphStore.GraphRow.Start | qraft/graphs.py:156-204 | Rows and first dispatch of a validated plan. |
| GraphStore.GraphRow.ReadyRows | qraft/graphs.py:704-720 | Exactly the pending nodes whose dependencies have all succeeded or been skipped, in the order in which the rows are read. |
| GraphStore.ReadingOrder | qraft/graphs.py:711-713 | That order lists every node once, by depth and then by position. |
| GraphStore.GraphRow.DispatchFrontierLocked | qraft/graphs.py:688-701 | Every ready node is dispatched or parked at its gate, and nothing else changes. |
| GraphStore.GraphRow.DispatchNodeRow | qraft/graphs.py:723-763 | A fresh task for the node's generation, bound to it. |
| GraphStore.GraphRow.HandleNodeCompletion | qraft/graphs.py:766-824 | A completion in place equals the value-level step; it reports true exactly when this call settled the graph. |
| GraphStore.GraphRow.MaybeSettleRow | qraft/graphs.py:827-851 | The settlement decision over the set of statuses equals the value-level one and settles at most once. |
| GraphStore.GraphRow.SettleRow | qraft/graphs.py:854-885 | The settlement compare-and-swap: it takes effect exactly on an open, unsettled graph. |
| GraphStore.GraphRow.RecordSettlementRow | qraft/graphs.py:888-901 | The settlement row of a generation is created unless it exists; what it shows is Outbox.RowsAreWrittenOnce. |
| GraphStore.GraphRow.SkipRow | qraft/graphs.py:375-403 | Skip in place: the same acceptance, refusal and new rows as the value-level step. |
| GraphStore.GraphRow.ApproveRow | qraft/graphs.py:619-639 | Approve in place, with its refusals. |
| GraphStore.GraphRow.RejectRow | qraft/graphs.py:642-666 | Reject in place, with its refusals. |
| GraphStore.GraphRow.CancelRow | qraft/graphs.py:406-418 | Cancel in place, refused once settled. |
| GraphStore.GraphRow.PublishRow | qraft/graphs.py:442-509 | A publication writes the receipt of the bound task and the commit stamp of its attempt in one transaction, or refuses and writes neither. |
| GraphStore.GraphRow.DependentRows | qraft/graphs.py:602-605 | The reversed edge lists, complete and exact. |
| GraphStore.GraphRow.Closure | qraft/graphs.py:607-614 | The worklist terminates and returns exactly the nodes reachable from the start set. |
| GraphStore.GraphRow.RerunClosure | qraft/graphs.py:584-616 | It returns exactly the non-pending nodes reachable from the named ones, and refuses exactly an unknown name. |
| GraphStore.GraphRow.ResumeRow | qraft/graphs.py:527-581 | Resume in place: settlement row kept, re-run nodes reset under a new generation, frontier dispatched; the same refusals in the same order. |
| GraphInvariants.StepKeeps | qraft/graphs.py:375-851 | Every operation, refused ones included, keeps: rows refer to each other soundly, causality, one task and one outcome per node generation, the graph status being the verdict on its nodes, and exactly one settlement row per settled generation. |
| GraphInvariants.QuiescentIsDecided | qraft/graphs.py:849-851 | At quiescence without failed, cancelled or parked nodes every node has passed, so the final `return None` is unreachable for a layered plan. |
| GraphInvariants.VerdictIsReached | qraft/graphs.py:827-851 | With nothing ready, the settlement decision is the verdict: running, failed, cancelled, waiting or succeeded, in that precedence. |
| GraphInvariants.RerunIsClosed | qraft/graphs.py:584-616 | No kept node that ran depends on a node that is re-run, which is why a resume preserves causality. |
| GraphInvariants.AdvanceKeeps | qraft/graphs.py:676-701 | Dispatching the frontier and deciding re-establishes the whole invariant from a merely sound graph. |
| GraphConfluence.Confluence | qraft/graphs.py:704-720 | For every acyclic gate-free plan and fixed outcomes, every delivery order (duplicates and superseded completions included) that settles shows each node SUCCEEDED iff it and all ancestors succeed, FAILED iff its strict ancestors succeed and it fails, PENDING otherwise, and the graph FAILED iff some node is. |
| GraphConfluence.RunNeverLies | qraft/graphs.py:766-851 | At every point of every run a settled node already shows its reference status. |
| GraphConfluence.NewsSettlesOneMore | qraft/graphs.py:782-803 | A delivery that changes anything settles exactly one node more. |
| GraphConfluence.EveryRunCanFinish | qraft/graphs.py:766-851 | From every point of every run some deliveries, no more than the unsettled nodes, settle the graph. |
| GraphRuns.Causality | qraft/graphs.py:704-720 | In every reachable state a node that is RUNNING, waiting, SUCCEEDED, FAILED or CANCELLED has every dependency SUCCEEDED or SKIPPED, resumes included. |
| GraphRuns.NoDeadlock | qraft/graphs.py:676-851 | In every reachable state of a graph whose runs accepted no cancel, rejections included: the status is the verdict on the nodes, RUNNING iff some node runs, nothing is ready and undispatched, settled iff neither running nor parked, and whenever it is not RUNNING, CANCELLED included, each pending node is transitively blocked by a failed, cancelled or parked one. |
| GraphRuns.StatusesMean | qraft/graphs.py:827-851 | In every reachable state of such a graph: FAILED iff a node failed and none runs, CANCELLED iff one was rejected and none runs or failed, WAITING iff one is parked and none is any of those, SUCCEEDED iff every node succeeded or was skipped. |
| GraphRuns.CancelledForGood | qraft/graphs.py:406-418 | The hypothesis is the right one: once a cancel is accepted the graph is CANCELLED for good whatever its nodes say, and without one it is CANCELLED only by a rejected node with nothing running. |
| GraphRuns.TransitionsAreBounded | qraft/graphs.py:723-803 | Over whole runs a node changes status fewer than four times per generation. |
| GraphRuns.OneTaskOneOutcome | qraft/graphs.py:723-803 | Over whole runs each node generation creates at most one task and records at most one outcome, and a bound task is its node's current generation. |
| GraphRuns.RoutingSpends | qraft/graphs.py:782-803 | Routing a finished task once leaves nothing more for it to change. |
| GraphRuns.SpentStaysSpent | qraft/graphs.py:782-803 | Whatever happens to the graph afterwards, a resume included, such a task stays without effect. |
| GraphRuns.ReplayIsInert | qraft/reaper.py:199-212 | Anywhere later in the run, routing the same finished task again changes nothing. |
| GraphRuns.PublicationAuthority | qraft/graphs.py:476-509 | In every reachable state a publication is accepted if and only if its body succeeds, its task is the one the node is bound to, and no event of the run has published for the node in its current generation. |
| GraphRuns.PublishedOncePerGeneration | qraft/graphs.py:476-509 | Over whole runs any two accepted publications of one node belong to different generations. |
| GraphRuns.ReceiptIffPublished | qraft/graphs.py:505-509 | Over whole runs a node holds a receipt exactly when its current generation has published. |
| GraphRuns.ReceiptNamesItsPublisher | qraft/graphs.py:505-509 | Over whole runs that receipt names the attempt whose publication of the current generation was accepted. |
| GraphRuns.CompletionMeans | qraft/graphs.py:766-803 | A completion of a task that is pending or running changes nothing; one of a finished task gives the unsettled node bound to it SUCCEEDED or FAILED as that task ended, once, in the log and on the row. |
| GraphRuns.ReceiptsLast | qraft/graphs.py:476-509 | A receipt disappears only with a new generation of its node. |
| GraphRuns.RejectSettles | qraft/graphs.py:642-666 | A rejection cancels its node and no other; the graph goes on running while a node runs, and otherwise settles FAILED if a node failed and CANCELLED if none did. |
| GraphRuns.SkipMeans | qraft/graphs.py:375-403 | A skip is accepted exactly on a pending node of a RUNNING graph, which is then SKIPPED, without a task, whatever the frontier does next. |
| GraphRuns.ApproveMeans | qraft/graphs.py:619-639 | An approval is accepted exactly on a parked node of an unsettled graph; it gives that node a fresh task of its generation, sets the graph RUNNING and touches nothing else. |
| GraphRuns.RejectIsAccepted | qraft/graphs.py:642-666 | A rejection is accepted exactly where an approval is. |
| GraphRuns.CancelMeans | qraft/graphs.py:406-418 | A cancel is accepted exactly on an unsettled graph, which is CANCELLED at that time with its nodes and tasks left as they are. |
| GraphRuns.ResumeIsAcceptedIff | qraft/graphs.py:527-581 | A resume is accepted exactly on a graph that FAILED, or SUCCEEDED with nodes named, if every name is known and some node would run again; a generation that settles at once is stamped now. |
| GraphRuns.GatedNodesAreApproved | qraft/graphs.py:688-701 | Over whole runs, resumes included, every task of a gated node was created by an approval of that node. |
| GraphRuns.WaitingIsGated | qraft/graphs.py:688-701 | Over whole runs only gated nodes wait for a decision. |
| GraphRuns.ResumeKeepsTheRest | qraft/graphs.py:556-567 | Nodes outside the re-run set that ran keep status, task, receipt and generation; those inside get the next generation, no receipt and never the old task. |
| GraphRuns.DefaultResumeRerunsFailures | qraft/graphs.py:584-616 | With no node skipped, a default resume re-runs exactly the FAILED nodes. |
| GraphRuns.DefaultResumeStartsAtFailures | qraft/graphs.py:584-616 | Skips or not, a default resume re-runs every FAILED node, and beyond those only nodes that ran downstream of one. |
| GraphRuns.ResumeEvolves | qraft/graphs.py:527-581 | A resume moves the graph to the next generation and each node forward or back to a new generation, nothing else. |
| Outbox.ExactlyOneRow | qraft/graphs.py:888-901 | While the graph row exists a hooked generation has its one settlement row exactly if it has settled. |
| Outbox.RowsAreWrittenOnce | qraft/graphs.py:854-901 | A step writes at most the row of the generation it settles: it names the status of the graph, the generation and the status of every node after that step, and its time; no row is ever rewritten. |
| Outbox.RowsAreRecords | qraft/graphs.py:888-942 | Over whole runs every row is a record of a point of the run: the graph stood settled there, in that generation, at that time, with that status and those node statuses. |
| Outbox.HooksTellTheReference | qraft/graphs.py:888-942 | With confluence: whatever order completions, replays, crashes and retention come in, every message to the hook of a gate-free graph tells the order-free reference result, for the graph and for every node of the plan. |
| Outbox.AtMostOneEnqueue | qraft/hooks.py:56-99 | Over any run of settling, crashing, replaying, resuming and pruning that prunes no offer still held, no generation's hook is enqueued twice and each carries its own settlement's context. |
| Outbox.AccountedIff | qraft/retention.py:261-266 | The exact condition on one step: at-most-once survives if and only if retention does not prune a dispatch row whose offer a process still holds after the graph is gone. |
| Outbox.PruningHeldSendsTwice | qraft/retention.py:249-266 | Past that point the held offer is enqueued a second time. |
| Outbox.OutboxTables.DispatchHookOnce | qraft/hooks.py:56-99 | Claim and enqueue commit together; a refusal gives the claim back. |
| Outbox.OutboxTables.ReplaySettledHooks | qraft/graphs.py:1026-1064 | The sweep over the tables equals the offers of `Replayed`: every settlement older than the cutoff whose enqueue was not refused has a dispatch row, each new row has exactly one message, and no old row was touched. |
| Outbox.ReplayLeavesNothing | qraft/graphs.py:1026-1064 | From every reachable state whose graph exists, a replay past the grace that is not refused leaves no settled generation undelivered, and none sent twice. |
| Outbox.ReplayIsARun | qraft/graphs.py:1026-1064 | Those offers are reads and dispatches of the modelled run, so every theorem over runs covers them. |
| SingleFlight.OneAttemptInFlight | qraft/scheduler.py:60-123 | Under every interleaving: attempts are numbered 1..n, all but the last resolved, the task status follows the last one, no claim precedes not_before, no attempt exceeds its execution limit, and no stuck claim exists. |
| SingleFlight.StepKeeps | qraft/hooks.py:343-397 | Every step keeps single flight, requeues of a dead task included. |
| SingleFlight.RequeueKeepsFlightIff | qraft/dlq.py:31-76 | The exact condition: a requeue is accepted iff the caller saw a dead status and the true latest number, and then keeps single flight iff the task is terminal at the insert. |
| SingleFlight.StaleRequeueOpensTwo | qraft/dlq.py:52-66 | Two requeues, each on an instance of its own loaded while the row was dead, are both accepted and leave two open attempts. |
| SingleFlight.AttemptsOnlyAdvance | qraft/lease.py:108-171 | Nothing un-starts or un-resolves an attempt, and only an admitted delivery of that attempt raises its execution count. |
| SingleFlight.VerdictsAreBudgeted | qraft/lease.py:108-171 | FIRST only for a never-started attempt; refusal exactly when resolved or at the limit. |
| SingleFlight.BodyEntriesAreBounded | qraft/retry.py:208-255 | The body is entered at most (max_attempts + requeues) times the execution limit, over every run. |
| Recovery.MeasureFalls | qraft/reaper.py:104-215 | No requeue-free step raises the lexicographic measure on attempts left and phase, and every step that moves an attempt lowers it. |
| Recovery.MovesAreBounded | qraft/reaper.py:104-215 | A requeue-free run makes at most as many moves as its measure. |
| Recovery.SomethingIsEnabled | qraft/reaper.py:307-398 | From every unfinished reachable state, crashes included, one named move (claim, delivery, reconciliation, reap or replay) is effective at every clock past its grace, until it is taken: it lowers the measure, or is the first delivery that lets the reaper. |
| Recovery.SweepsFinish | qraft/reaper.py:104-528 | From every such state in which no routing has been lost, clock, deliveries and sweeps alone reach a terminal status whose last resolution was really routed to its node or workflow, not only flagged. |
| HookOffers.SweepsOfferTheHook | qraft/reaper.py:104-528 | The same with the hooks: there the hook of the final outcome has been offered too, unless the attempt was a published orphan. |
| HookOffers.HookIsMissedIff | qraft/reaper.py:429-431 | Over whole runs of a new task: a hook is offered only with its routing, and once an outcome is flagged as routed its hook was never offered if and only if the orphan sweep resolved the attempt on its published output; no crash is needed. |
| HookOffers.HookIsQueuedIff | qraft/hooks.py:403-418 | From attempts to messages: a hook is queued at most once, only if configured and an attempt with its outcome was offered, and exactly then with a broker that refuses nothing. |
| HookOffers.PublishedOrphanIsSilent | qraft/reaper.py:466-471 | A published orphan that is the only success of its task has its success hook queued by nobody. |
| HookOffers.NewTaskLosesARoutingIff | qraft/reaper.py:160-215 | Over whole runs of a new task: a routing is lost iff a crash of the monitor met its flag already set, and only after the orphan sweep resolved that attempt on its published output. |
| Recovery.PublishedIsNeverRetried | qraft/reaper.py:466-471 | An orphan that committed its output is resolved as a success without a retry; any other orphan as a failure named by whether its body returned. |
| Recovery.RoutingIsLostIff | qraft/reaper.py:160-215 | The exact condition, for every event: an owed routing is newly lost if and only if the event is a crash of the process that holds it while its flag is already set. |
| Recovery.FlagRunsAheadIff | qraft/reaper.py:466-471 | That flag gets ahead of its routing exactly when the orphan sweep resolves an attempt that had published. |
| Recovery.RoutingIsLostByACrashIff | qraft/reaper.py:160-215 | Over whole runs a routing is lost if and only if some crash of the monitor met it in that state. |
| Recovery.FlagWasSetByACommittedReap | qraft/reaper.py:401-431 | Over whole runs that state was begun by an earlier sweep over a published attempt. |
| Recovery.CommittedReapThenCrashLoses | qraft/reaper.py:429-431 | The losing sequence, from every state with a published orphan: `_resolve_committed`, then a crash. |
| Recovery.LostStaysLost | qraft/reaper.py:160-215 | No sweep, result, delivery or requeue ever routes what was lost. |
| TaskStore.TaskRow.ScheduleAttemptRow | qraft/scheduler.py:60-123 | The insert is refused exactly when the number is taken, and the task turns PENDING with it. |
| TaskStore.TaskRow.MostOverdue | qraft/scheduler.py:185-191 | The earliest due attempt, or none exactly when nothing is due. |
| TaskStore.TaskRow.ClaimAndEnqueue | qraft/scheduler.py:169-244 | The most overdue attempt is claimed, stamped and enqueued; nothing changes when none is due. |
| TaskStore.TaskRow.DispatchDue | qraft/scheduler.py:247-274 | At most `limit` claims, none early, each stamped and queued, and nothing due is left if the limit allowed. |
| TaskStore.TaskRow.ClaimDelivery | qraft/lease.py:108-171 | The two conditional updates admit, repeat or refuse as the verdict says. |
| TaskStore.TaskRow.HandleTaskRetry | qraft/retry.py:395-447 | A retry, EXHAUSTED, nothing without a policy, or the constraint's error. |
| TaskStore.TaskRow.HookHandler | qraft/hooks.py:343-397 | Resolve by compare-and-set with the retry in the same transaction; an error rolls all of it back. What is recorded is Outcomes.HandlingRecords. |
| TaskStore.TaskRow.ReapOne | qraft/reaper.py:434-528 | Re-check, then resolve as success, as a retried failure or as a failure. |
| TaskStore.TaskRow.ReplayUnrouted | qraft/reaper.py:160-215 | After the sweep nothing resolved before the grace is unrouted, everything newly flagged was told, and no other field moved. |
| TaskStore.TaskRow.RequeueRow | qraft/dlq.py:31-76 | Refused exactly as the specification says; otherwise a new attempt on the row as it now is. |
| Outcomes.HandlingRecords | qraft/hooks.py:343-397 | The handler records the saved result on the attempt, success and time and exception, makes the task SUCCEEDED exactly on a success, and on a failure leaves it FAILED under a cancelled workflow or without a policy, EXHAUSTED, or PENDING with the next attempt due after the delay. |
| Outcomes.ReconcilingRecords | qraft/reaper.py:104-157 | A result the handler missed is recorded the same way once the grace has passed, and not before. |
| Outcomes.OutcomesAreWrittenOnce | qraft/hooks.py:343-353 | No handler, reconciliation or sweep touches an attempt that is resolved, and none of the first two one without a saved result of its own message. |
| Outcomes.ReapingDecides | qraft/reaper.py:401-509 | The reaper takes an attempt exactly when it was handed to a broker, has no outcome, no saved result and no sign of life: a beat within the grace, a queued message or a recent claim saves it. A committed one is recorded as a success, any other as ResultLost or OrphanedTask with the same consequences as a failure. |
| Outcomes.AttemptsAreAddedBy | qraft/retry.py:340-375 | An attempt is added by a retry or a requeue alone, one at a time: the next number, due when the delay is over, with no history. |
| Outcomes.OutcomesHaveCauses | qraft/hooks.py:343-397 | Over whole runs every outcome was written by one step: a handler or reconciliation that read that result for its message, or the reaper on an attempt without a sign of life. |
| Outcomes.OutcomesAreEarned | qraft/reaper.py:401-509 | Over every run of a new task, an attempt shows a success only if the monitor saved one for its message at the time it shows or its body committed its output, and a failure only if one was saved or the attempt had gone silent with nothing committed. |
| Outcomes.SavedChanges | qraft/hooks.py:343-353 | A result is saved by a report alone, at its time, and a saved success is never replaced. |
| Outcomes.CommitChanges | qraft/graphs.py:505-509 | A commit stamp is set exactly by a running body of that attempt, and is never taken away. |
| Outcomes.ClaimsTakeTheDue | qraft/scheduler.py:169-244 | A claim takes a scheduled attempt exactly when it was due as the pass began, and hands it to the broker under an id no other attempt has. |
| Outcomes.ColumnsHaveTheirEvents | qraft/lease.py:68-170 | Over every step each column of an attempt changes exactly with the event it belongs to: executions and start with an admitted delivery, heartbeats with that or a beat of a running body, the return with the body, queueing with a claim. |
| Outcomes.ProcessesFollowTheirEvents | qraft/runner.py:60-132 | Who runs, who has a result to report and what is queued change exactly with deliveries, returns, reports, claims, losses and crashes. |
| Outcomes.RoutingTells | qraft/reaper.py:160-215 | A routing runs exactly for an outcome a process still holds or one unflagged past the grace; it tells the node or workflow, offers the hook unless it is the node's alone, and sets the flag if it got to the end. |
| Outcomes.SurroundingsFollowTheirEvents | qraft/hooks.py:281-320 | No step but its own event moves the clock or cancels the workflow, and none changes the policy. |
| Outcomes.NewTasksStart | qraft/scheduler.py:60-123 | A deferred task is claimed from its time on and not before; an enqueued one can be delivered at once. |
| Lease.DeliveredAttempt.Claim | qraft/lease.py:68-105 | The memoised claim of one worker. |
| Lease.DeliveredAttempt.RunTask | qraft/runner.py:60-132 | Receiver, guard, body and memo cleanup; the body is entered at most once per delivery. |
| Lease.OneClaimPerDelivery | qraft/lease.py:68-105 | With no memo of the message, a delivery charges the row exactly once if admitted and not at all if refused, though claimed twice. |
| Lease.EntriesAreChargedIff | qraft/lease.py:85-105 | The exact condition: body entries and charged executions keep pace if and only if no stale memo answers the delivery. |
| Lease.ClearingWorkersMeetNoMemo | qraft/worker.py:183-193 | Where every worker clears its memo, as the threaded one does, no stale memo is ever met. |
| Lease.BudgetHolds | qraft/lease.py:108-171 | Then entries equal executions and stay within the limit over every run. |
| Lease.StandardWorkerOverruns | qraft/lease.py:85-105 | A worker that keeps its memo enters the body again on a redelivery, uncharged, even after resolution. |
| Backoff.RateLimitNeverExceedsCap | qraft/retry.py:266-318 | After a rate limit or with a hint, no draw gives a wait above the cap. |
| Backoff.HintIsHonoured | qraft/retry.py:266-318 | A hint h waits at least floor(min(h, cap)) and at most a tenth more than h. |
| Backoff.RawDelayIsNominal | qraft/retry.py:293-309 | The delay before jitter is the base delay as the strategy grows it, added again, doubled or left alone by each failure, and after a rate limit doubled and capped whatever the strategy. |
| Backoff.WaitsAroundTheNominal | qraft/retry.py:311-322 | Without a hint the wait is that delay to the second, or within the jitter of it, from below as well as from above, never under a second when jittered and never over the cap after a rate limit. |
| Backoff.MonotoneIffJitterAtMostAThird | qraft/retry.py:266-318 | Exponential waits never shorten, for every base delay and all draws, if and only if jitter is off or at most a third. |
| Backoff.TotalWaitIsBounded | qraft/retry.py:266-318 | k retries wait at most k + (1 + jitter_max) * base * (2^k - 1) seconds. |
| Backoff.SeriesEndsAtFirstFinal | qraft/retry.py:208-255 | A task that keeps failing is tried exactly up to its first final exception, one that is skipped, or neither a rate limit nor on a list that is given, and otherwise to the attempt limit. |
| Backoff.GenerosityNeverGivesUpSooner | qraft/retry.py:208-255 | On no series of failures does a policy with a limit as high, no more skips and no fewer exceptions let through give up sooner. |
| TokenBucket.RateBuckets.Acquire | qraft/throttle.py:27-63 | Seed, refill and withdraw in place, for the named key only. |
| TokenBucket.TokensStayInRange | qraft/throttle.py:48-63 | Tokens stay in [0, capacity] for any interleaving under a monotone clock. |
| TokenBucket.NoClockTakesTokens | qraft/throttle.py:27-63 | A clock that steps back neither refills nor takes tokens; one that moves on refills by the time passed, up to the capacity. |
| TokenBucket.WindowBound | qraft/throttle.py:48-63 | No window of any interleaving is granted more than capacity + rate * its length. |
| TokenBucket.ServedIff | qraft/throttle.py:48-63 | For every choice of read and save stamps: after any denied polls a call is granted if and only if its cost fits the capacity and the time between stamps and next reads has refilled what the bucket lacked. |
| TokenBucket.DeniedPollsRefill | qraft/throttle.py:51-63 | Denied polls leave the tokens that waited time refilled, up to the capacity, whatever the stamps. |
| TokenBucket.DeniedPollsLoseNothingIff | qraft/throttle.py:51-63 | Many denied polls refill exactly as the last alone would, if and only if the time before their stamps is worth nothing or the bucket is full anyway. |
| TokenBucket.TimeIsWaitedOrSkewed | qraft/models/tasks.py:505 | All time is either waited, from a stamp to the next read, or skew, from a read to its stamp. |
| TokenBucket.LoneCallerIsServed | qraft/throttle.py:66-73 | With the default capacity a lone caller is granted exactly when it has waited for what the bucket lacks, and at the latest cost/rate seconds plus the skew of its own polls after it began. |
| TokenBucket.GrantedOnlyWithinCapacity | qraft/throttle.py:73 | A cost above the capacity is never granted, which the default capacity avoids. |
| TokenBucket.DeniedThroughoutIff | qraft/throttle.py:51-63 | A run of polls is denied throughout exactly when at each of them the waited time falls short. |
| TokenBucket.SkewedPollsStarve | qraft/throttle.py:51-63 | However long polling goes on, no poll is served while the time waited in all refills less than the cheapest lacks. |
| TaskHooks.QueuedOnceIff | qraft/hooks.py:420-500 | Over any sequence of offers, from live routings, replays and requeues, a task's hook is queued at most once, and exactly when it is configured and some offer found the broker willing; which routings offer it is HookOffers' matter. |
| TaskHooks.SecondOutcomeIsSilent | qraft/hooks.py:56-99 | Offering the same outcome again, by a replay or a failure after a requeue, queues nothing more. |
| TaskHooks.HookTable.DispatchHook | qraft/hooks.py:56-99 | The claim, the enqueue and the roll-back in place. |
| Workflows.TerminalIsFinal | qraft/models/mixins.py:32-47 | The only transition out of a terminal status is FAILED to RUNNING. |
| Workflows.TransitionsByTarget | qraft/models/mixins.py:32-47 | Who may become what: RUNNING from pending, parked or failed, parked or ended from RUNNING alone, CANCELLED from anything open. |
| Chain.ChainSafety | qraft/dispatchers.py:124-258 | Over whole runs with racing, duplicated and replayed completions: earlier steps succeeded, later ones unbound, one queueing per step and generation, a parked step unbound, SUCCEEDED only with every step won, settled iff terminal, and one hook per settlement at most. |
| Chain.StepKeeps | qraft/dispatchers.py:124-258 | Every sanctioned step keeps the chain invariant. |
| Chain.QueuedAfterPredecessor | qraft/dispatchers.py:548-579 | A step queues at most one task, for the current step, and only after its predecessor succeeded. |
| Chain.StartKeepsIff | qraft/chain.py:142-192 | The exact condition on run: it keeps the invariant unless its handle still shows PENDING for a chain cancelled before it ran. |
| Chain.ApproveKeepsIff | qraft/chain.py:242-263 | The exact condition on approve: it keeps the invariant if and only if the chain has not FAILED. |
| Chain.GatesHold | qraft/dispatchers.py:170-196 | In any state whatever, a step queues at most one task, for a gated step only by an approval or a resume, and a resume alone opens a generation. |
| Chain.GatedStepsAreDecided | qraft/dispatchers.py:170-196 | Over every run, stale handles and late completions included, each task of a gated step was queued by an approval or a resume. |
| Chain.CompletionMovesTheChain | qraft/dispatchers.py:124-217 | A win of a running chain's current step parks the chain at a gated next step with nothing queued, queues an ungated one, or settles SUCCEEDED after the last; a loss settles FAILED. |
| Chain.EarlierCompletionsMoveNothing | qraft/dispatchers.py:124-217 | A completion of a step that is not current queues nothing and moves nothing: a win changes nothing, a loss fails a chain still open. |
| Chain.DecisionsQueueTheCurrent | qraft/chain.py:142-287 | A start, an approval or a resume queues one task for the current step, or parks at the first gate, exactly where it is let through. |
| Chain.CompletionsSettleOnce | qraft/dispatchers.py:46-78 | In any state whatever, no completion settles a chain that is settled or terminal, and a terminal status stays. |
| Chain.OutcomesFollowTheirEvents | qraft/dispatchers.py:634-682 | Over every step a task's outcome is the first one reported for it, and its completion is in flight exactly from the binding read to the handling or a crash. |
| Chain.StatusesFollowTheTable | qraft/models/mixins.py:32-47 | Every change of a chain's status is one the table allows, except a first gate and a failure handled while it is parked. |
| Chain.RowsStandForMessages | qraft/hooks.py:56-99 | Over every run a hook's dispatch row stands for a message that went out; a refused one leaves no row. |
| Chain.CancelledIsAbsorbingIff | qraft/dispatchers.py:651-674 | CANCELLED absorbs every event, queueing nothing, except exactly a run on a handle read before the cancel. |
| Chain.ApprovingFailedWedges | qraft/chain.py:242-263 | Approving a FAILED chain queues its step again with the settlement still in place. |
| Chain.StaleRunWedges | qraft/chain.py:142-192 | A run on such a handle overwrites the cancel and leaves the settlement in place. |
| Chain.WedgedStaysWedged | qraft/dispatchers.py:46-78 | From there no completion settles the chain and cancel is refused. |
| Chain.ResumeOpensGateIff | qraft/chain.py:194-240 | A chain parked at a gate is released by a resume exactly when the caller's handle still says FAILED. |
| Chain.RejectCancelsAnyOpenChain | qraft/chain.py:265-287 | A reject cancels every chain that has not succeeded or failed, parked or not, just as cancel does. |
| Chain.LateFailureOvertakes | qraft/dispatchers.py:634-681 | A failure whose binding was read before a resume and handled after it settles the new generation as FAILED with its task still open. |
| Chain.LateFailureIsReachable | qraft/reaper.py:199-212 | A run that reaches the state above. |
| Chain.ResumeStaysQuietIff | qraft/chain.py:194-240 | The exact condition on a resume: nothing in flight is superseded if and only if the completion of its own step is not in flight. |
| Chain.ResumeIsOvertakenIff | qraft/dispatchers.py:634-681 | A late completion can fail the resumed generation while its task is open, if and only if that completion was in flight at the resume. |
| Chain.OutcomeIsOfBoundTasks | qraft/dispatchers.py:634-681 | Over runs in which no resume overtakes that completion, FAILED means the current bound task lost and every earlier bound task won; repeats of earlier wins may be in flight. |
| Chain.HandlingSpends | qraft/dispatchers.py:124-258 | Handling a completion leaves nothing more for that task to change. |
| Chain.SpentStaysSpent | qraft/dispatchers.py:124-258 | And nothing later in such a run changes that. |
| Chain.RoutingTwiceIsOnce | qraft/reaper.py:199-212 | Routing a finished step task twice equals routing it once. |
| Chain.ReplayIsInert | qraft/reaper.py:199-212 | Over whole runs in which no resume overtakes its step: anywhere after its completion was handled, routing a step task again changes nothing. |
| Chain.HookIsLostIff | qraft/hooks.py:56-99 | The exact condition, for every event and settlement: a hook is lost iff a crash takes the process that holds it, or its dispatch (a decision's included) is refused or finds its kind's row taken. |
| Chain.HookIsLostOnTheWayIff | qraft/hooks.py:56-99 | Over whole runs a settlement is unannounced exactly when some event lost its hook. |
| Chain.LostHookStaysLost | qraft/dispatchers.py:582-631 | No later event sends a lost hook. |
| Chain.HooksStayClearIff | qraft/chain.py:194-240 | The exact condition under which dispatch rows and settlements keep pace: unless a resume deletes the rows while a hook of the settlement is still held. |
| Chain.HooksAreLostBy | qraft/chain.py:215-225 | Over whole runs a hook is lost only by a crash, by a refusal, or after such a resume. |
| Chain.HooksNameTheirSettlement | qraft/dispatchers.py:46-78 | Over every run, a hook on its way or sent is of a settlement the chain made, and is its success, failure or cancelled hook according to the status it settled with. |
| Chain.LateHookSuppressesTheNext | qraft/chain.py:215-225 | Such a resume does lose one: a run with no crash and no refusal in which the late failure hook claims the row and the next failure is announced to nobody. |
| ChainStore.ChainRow.Run | qraft/chain.py:142-192 | Lay the step rows and queue or park the first; refused exactly for an empty chain, a used handle or existing rows. |
| ChainStore.ChainRow.QueueChainStep | qraft/dispatchers.py:548-579 | Task, enqueue and binding of one step. |
| ChainStore.ChainRow.SettleWorkflow | qraft/dispatchers.py:46-78 | Terminal once, by conditional update. |
| ChainStore.ChainRow.HandleStepSuccess | qraft/dispatchers.py:124-217 | Advance, park, queue or complete under the lock, as the step whose gates Chain.CompletionMovesTheChain states. |
| ChainStore.ChainRow.HandleCompletionRow | qraft/dispatchers.py:102-122 | The locked half of a routing equals its specification. |
| ChainStore.ChainRow.ReadBindingRow | qraft/dispatchers.py:651-674 | The unlocked read lets through exactly the bound task. |
| ChainStore.ChainRow.CancelRow | qraft/base.py:85-136 | One conditional update with its hook in the same transaction; a refused enqueue loses the hook and not the cancel. |
| ChainStore.ChainRow.ApproveRow | qraft/chain.py:242-263 | Approve in place; accepted from WAITING_APPROVAL and from FAILED. |
| ChainStore.ChainRow.RejectRow | qraft/chain.py:265-287 | Reject in place, its hook offered or refused; accepted from every status that is not terminal. |
| ChainStore.ChainRow.ResumeRow | qraft/chain.py:194-240 | Resume in place: settlement and hook rows cleared, the current step queued again; the invariant kept. |
| Parallel.CountingIsExact | qraft/dispatchers.py:339-457 | Over whole runs: completed = success + failure = the counted members, at most the total; terminal exactly when every member is counted; SUCCEEDED exactly when all counted and none lost; settled at most once and at most one hook. |
| Parallel.PublishKeepsIff | qraft/iter.py:115-173 | The exact condition on run: counts and settlement are kept unless it publishes on a handle showing a status the workflow has left. |
| Parallel.StaleRunNeverSettles | qraft/batch.py:148-207 | A workflow cancelled and then run on an older handle is RUNNING forever: no completion settles it and cancel is refused. |
| Parallel.CancelFreezesIff | qraft/base.py:110-136 | A cancel freezes status and counters against every event but exactly such a run. |
| Parallel.ReplayIsInert | qraft/reaper.py:199-212 | Anywhere later in the run, routing a routed member again changes nothing. |
| Parallel.MembersFollowTheirEvents | qraft/dispatchers.py:339-457 | Over every step a member's outcome is its first resolution's, and it is counted exactly by a routing of its own once it has one and the workflow is not cancelled. |
| Parallel.OutcomesWereReported | qraft/dispatchers.py:339-457 | Over whole runs every outcome a member shows was reported by a resolution of that member. |
| Parallel.AnswersMean | qraft/dispatchers.py:339-457 | The increment answers PARTIAL exactly when it counted one of several left, and COMPLETE exactly when it settled the workflow; only a PARTIAL reports progress. |
| Parallel.SettlingIsOnce | qraft/dispatchers.py:46-78 | In any state whatever, nothing settles a workflow that is settled or terminal. |
| Parallel.TallyIsFullIff | qraft/dispatchers.py:392-400 | The counts reach the total exactly when every member is counted. |
| Parallel.HookIsLostIff | qraft/hooks.py:56-99 | The exact condition: a step leaves a settlement unannounced if and only if a crash comes before any hook was queued, or the only dispatch, a cancel's included, is refused. |
| Parallel.HookIsLostOnTheWayIff | qraft/dispatchers.py:493-519 | Over whole runs a settled workflow was left unannounced exactly when some such crash or refusal came. |
| Parallel.HooksNameTheOutcome | qraft/dispatchers.py:493-502 | Over whole runs, whatever hook is on its way or sent, the workflow has settled and it is the success hook iff SUCCEEDED, the failure hook iff FAILED, the cancelled hook iff CANCELLED. |
| Parallel.LostHookStaysLost | qraft/dispatchers.py:493-519 | No later completion, replay or cancel sends it. |
| Parallel.WorkflowRow.Run | qraft/iter.py:115-173 | Publish first, then fan out; a member that cannot be created rolls both back. |
| Parallel.WorkflowRow.SettleRow | qraft/dispatchers.py:46-78 | The settlement update matches an unsettled, non-terminal row or nothing; the hook it leaves is the one Parallel.HooksNameTheOutcome says. |
| Parallel.WorkflowRow.AtomicIncrementRow | qraft/dispatchers.py:339-457 | The locked increment and its three answers equal the specification. |
| Parallel.WorkflowRow.CancelRow | qraft/base.py:85-136 | Cancel takes effect exactly on an open workflow; a refused enqueue loses the hook and not the cancel. |
| Retention.BatchIsSafeIff | qraft/retention.py:208-266 | The exact condition: a batch of eligible rows, cascades included, spares every live task and every member of an unsettled workflow or graph if and only if none of its rows carries an unsettled label the snapshot missed. |
| Retention.SweepSparesTheLiving | qraft/retention.py:208-266 | Under the label invariants and a snapshot that covers what is unsettled, every batch of every pass is such a batch. |
| Retention.LiveIsNeverTaken | qraft/retention.py:67-96 | Whatever the snapshot says, no pass or cascade takes a PENDING or RUNNING task. |
| Retention.ResumeMidSweepEndangers | qraft/retention.py:156-162 | A graph resumed after the snapshot was read loses a member task to the task pass. |
| Retention.OutboxSurvives | qraft/retention.py:242-266 | A graph with an undelivered settlement stays with it, and no delivered settlement is made to look undelivered. |
| Retention.DeleteKeepsLabels | qraft/models/mixins.py:88-93 | Every deletion keeps the label invariants, through cascades and columns set null. |
| Retention.DeletesAddUp | qraft/retention.py:67-96 | Two deletions are one deletion of both row sets. |
| Retention.QueryShrinks | qraft/retention.py:67-96 | Deleting part of a pass's queryset leaves exactly the rest of it. |
| Retention.RevivedSurvive | qraft/retention.py:74-85 | A dead task requeued between the select and the delete survives the batch that had picked it. |
| Retention.NewestTasksSurvive | qraft/retention.py:99-114 | The task pass never leaves fewer settled tasks than the count bound asked to keep. |
| RetentionStore.CountCutoff | qraft/retention.py:99-114 | Fewer than N settled tasks are newer than the cutoff and at least N are not older; none while the table is under N. |
| RetentionStore.RetentionTables.DeleteBatch | qraft/retention.py:82-86 | The filter is applied again at the delete. |
| RetentionStore.RetentionTables.DeleteInBatches | qraft/retention.py:67-96 | The loop terminates; live tasks, protected tasks, undelivered settlements and everything the cutoff spares stay whatever is requeued meanwhile; left alone it equals one delete of min(all, 1000 * batch) eligible rows, and the ceiling is reported exactly when the thousandth batch was needed. |
| RetentionStore.RetentionTables.SweepRetention | qraft/retention.py:165-272 | The six passes: nothing without a bound; a cutoff that is one bound and no earlier than the other; nothing protected or undelivered lost; whatever is requeued meanwhile, every open or recent graph and workflow, every recent dispatch row and every live or recent task whose iter, batch and node stay is still there; and with room under the ceilings and no requeue, exactly one whole-queryset delete per pass in order, after which nothing expired is left. |
| Retention.DeleteSparesTheYoung | qraft/retention.py:231-267 | Deleting rows of any queryset spares what is open or was touched at the cutoff or later; nodes and settlements go exactly with their graph, steps with their chain, a task so young only with its iter, batch or node, and a dispatch row of a graph never before the graph. |
| Retention.RoundSparesTheYoung | qraft/retention.py:67-96 | So does a round of the loop, with others reviving tasks between its select and its delete. |
| RetentionStore.SweepLeavesNothingExpired | qraft/retention.py:225-272 | After the whole sweep a settled old workflow is there only for a live member or an open graph, a dead old task only for an open graph or an unsettled workflow, a settled old graph only for live work or an undelivered settlement, an old dispatch row only for its graph. |

## Left out

- SingleFlight.StepKeeps: requires a requeue to find the task terminal when it inserts; RequeueKeepsFlightIff shows the condition is exact.
- SingleFlight.BodyEntriesAreBounded: counts entries charged to the row; Lease shows when a memo lets one go uncharged.
- Recovery.SweepsFinish: is about tasks without a requeue, and starts where no routing has been lost; RoutingIsLostIff says when one is.
- Chain.ChainSafety: excludes approvals of a FAILED chain and runs on a handle older than a cancel, both shown to break it, and a requeue of a step's task.
- Chain.OutcomeIsOfBoundTasks: excludes a resume while the completion of its own step is between its two halves; ResumeStaysQuietIff and ResumeIsOvertakenIff show the condition is exact.
- Parallel.CountingIsExact: excludes a run on a stale handle, shown to break it, and a requeue of a counted member, since counting is per attempt.
- Outbox.AtMostOneEnqueue: requires that no pruned dispatch row has its offer still held; AccountedIff shows the condition is exact.
- GraphConfluence.Confluence: is about plans without gates and runs without skip, cancel or resume; those are covered by GraphRuns.
- RetentionStore.RetentionTables.SweepRetention: lets others requeue tasks during the sweep but resume no graph; ResumeMidSweepEndangers is that case.
- Workflow hooks are taken as configured; one that is not has nothing to lose. A crash takes the hooks every process holds.
- HookOffers is about a node's task and a task of its own: a member of a chain, iter or batch has no hook of its own dispatched.
- The Django ORM, SQL text and isolation levels; models are maps and locked blocks are steps.
- Brokers other than the ORM one, where a claim and an enqueue do not commit together.
- Django-Q2's worker, monitor and sentinel, beyond a queue that delivers or loses and a table of saved results that is never trimmed.
- The marker path for schedules written by older releases, and the bridge loop over graphs settled before the outbox existed in `replay_settled_hooks`.
- `sync_hooks`, under which hooks run inline and are not deduplicated.
- Signals, metrics, tracing, logging, payloads and the graph summary.
- Usage, budgets, progress snapshots and progress-hook delivery, stalls and overdue flags.
- `request_key` and idempotency keys, the plan hash, subjects and labels other than the graph label retention relies on.
- Retry-hint parsing, exception-name extraction, import of functions and pickling; names and hints are inputs.
- Heartbeat threads and process spawning: a heartbeat is a step a running body may take.
- The Python recursion limit in the depth-first search and the depth recursion.
- `_reap_one` reads its attempt before it takes the task's lock; here both are one step.
- A redelivery whose attempt row was pruned.
- Contention and broker errors inside a dispatch pass, which skip or stop it.
- The window in which an attempt is between claim and enqueue in the dispatcher's own transaction; the two commit together.
- Attempts and hook dispatches in the retention tables: they follow their task and nothing refers to them.
- `previous_graph`, which deletion sets null and nothing here reads.
