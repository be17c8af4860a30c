# Verification of the Nico runtime's transactional core

Nico is an agent runtime whose state lives in PostgreSQL tables and an object store. This project
models five parts of it in Dafny and proves what they guarantee over every history of their steps.

| part | files |
|---|---|
| delegation tree: closure table, budget ledgers, settlement of finished children, leases, whole-tree cancellation, waiter wake-up, policy narrowing | `RunStates`, `Forest`, `CoordinationPolicy`, `Coordination`, `CoordinationInvariants`, `CoordinationCancel`, `CoordinationSettlement`, `CoordinationTheorems`, `CoordinationHistories`, `CoordinationCompletion`, `CoordinationLeases`, `CoordinationWrites`, `CoordinationMoves`, `CoordinationRevisions`, `CoordinationLimits`, `CoordinationAdmission`, `CoordinationAnswers`, `CoordinationExample`, `CoordinationBudgetExample`, `CoordinationStore` |
| resumable event stream: SSE printer and parser, paging server, reconnecting client | `Sse`, `SseStandard`, `EventStream` |
| governed growth: guarded memories, skills, evaluations, approvals and canaries | `Growth`, `GrowthWrites`, `GrowthStore` |
| conversations: turns, retries, archiving, compaction, the projection trigger, bounded history | `Conversations`, `ConversationTheorems`, `ConversationSummaries`, `ConversationAnswers`, `ConversationStore`, `HistorySelection` |
| content-addressed artifacts and attachments | `Artifacts`, `ArtifactTheorems`, `ArtifactAnswers`, `ArtifactStore` |

`Foundation` holds option types and sums over finite maps.

Each part has the same shape. Tables are finite maps keyed by row id. Every database transaction is
one command, and a `Step` function gives the new tables and the answer; `After(history)` is the state
after any list of commands from empty tables. An invariant is proved for every step, and the theorems
about histories follow from it. What a single call answers and writes is stated a second time, by
`…Answers`, `…Writes` and `…Moves` lemmas that speak of row columns, true parent links and the bytes
callers sent, and not of the functions the steps are built from. The artifact upload is not one transaction, so its metadata, storage
and closing steps are separate commands that anything may come between. Beside the functions stands
a class per service (`CoordinationStore`, `SseParser`, `GrowthTables`, `ConversationTables`,
`ArtifactTables`) that changes its fields in place, with the loops and early exits of the original;
its methods are proved to end in the state the step function names. The preconditions of these
methods (unique keys, no cycles) are parts of the proved invariants.

Ids are drawn fresh by the caller and collisions are refused. SHA-256 is a constructor, so equal
digests mean equal bytes. Time, sizes of rendered JSON and the JSON decoder of the stream client are
parameters. Transactions are serialised and there is one tenant.

Five points where a statement follows the code:

- `cancel_tree` may move a task from waiting for review, or from revision required, to cancelled, which
  `TASK_TRANSITIONS` does not list; `CancelLeavesTaskTableExactly` says exactly when it does, and
  `CancellationLeavesTaskTable` gives a history that ends in such a write.
- `cancel_tree` returns early on a run that is already cancelled, also when that run was cancelled directly by
  a transition, which leaves its descendants alone; `CancelQuiescesExactly` says exactly when the tree is
  quiescent afterwards, and `ChildOutlivesDirectCancel` gives a history in which a child goes on.
- `retry_turn` does not look for an active compaction, and the control plane may retry a failed
  compaction run or start another run of its task; `ExclusionExactly` says these are the only ways a
  compaction and a turn run come to coexist, and `RetryBesideCompaction`, `CompactionRetriedBesideTurn` and
  `CompactionRerunBesideTurn` give a history for each.
- the SSE parser departs from sections 9.2.5 and 9.2.6 of the WHATWG HTML Living Standard in three
  rules. The end of a stream discards what no blank line ended exactly when no data line is pending
  (`FinishDiscardsExactly`, with `FinishDispatchesUnterminated` where it does not). Its lines are the
  standard's exactly when every CR stands before an LF (`LineEndsExactly`, with `LoneCrStays`). A byte
  order mark is not skipped, which is harmless exactly when the first line has no effect
  (`MarkHarmlessExactly`, with `MarkEatsData`).
- `complete_claim` charges a finished child without looking at what the child still reserves for children of
  its own, so the CHECK constraint of the child's ledger may refuse the whole transaction;
  `CompletesExactly` says exactly when, and `CompletionRefused` gives a history in which it does.

## Model

| member | source | states |
|---|---|---|
| CoordinationTheorems.ClosureTheorem | backend/src/nico_agent/coordination/service.py:811-846 | after every history a row (a, d, k) is stored if and only if following k >= 1 parent links from d reaches a; a row is direct exactly when a is the parent of d; no chain returns to its start |
| Forest.GrowExact | backend/src/nico_agent/coordination/service.py:824-846 | adding the direct row and one row per ancestor of the parent turns an exact closure of the old forest into an exact closure of the forest with the new leaf |
| Forest.StoredTransitive | backend/src/nico_agent/coordination/service.py:818-846 | stored rows compose and their depths add up |
| Forest.SubtreeIsStored | backend/src/nico_agent/coordination/service.py:371-385 | a root with its stored descendants is exactly the set from which parent links reach the root |
| CoordinationStore.CoordinationStore.InsertClosure | backend/src/nico_agent/coordination/service.py:811-846 | the loop over the ancestor rows, in any order, ends in exactly the grown closure table |
| CoordinationTheorems.DistinctVersions | backend/src/nico_agent/coordination/service.py:648-664 | any two different runs on one upward path run different agent versions |
| CoordinationTheorems.DepthBounded | backend/src/nico_agent/coordination/service.py:665-676 | no delegated run has more ancestors than the max_depth of the policy it was accepted under |
| CoordinationTheorems.SessionBounds | backend/src/nico_agent/coordination/service.py:677-706 | a session never has more children, or more active children, than its frozen policy allows, and no session below it has wider policy, tools, permissions or secret references |
| CoordinationHistories.DelegationsAuthorised | backend/src/nico_agent/coordination/service.py:586-594 | every stored delegation was made under a frozen policy with coordination enabled that lists its target version |
| CoordinationAdmission.AdmitsExactly | backend/src/nico_agent/coordination/service.py:78-231 | after any history a delegation is accepted if and only if the lease holder of a planning, running or tool-waiting run asks for a listed target it has not asked for before, the target is published, current and ready, no run on the true upward path runs it, that path leaves room for one more link, children and active children are below their limits, the run's budget (its own columns, or the grant that made it) covers what was used plus the grants of the active delegations plus the new grant in every resource, the target keeps to the session's endpoint and model, and the ids are unused |
| CoordinationAnswers.RefusalsHold | backend/src/nico_agent/coordination/service.py:78-231 | after any history a refused delegation changes nothing, and the reason it names holds of the rows, the true tree and the run's budget |
| CoordinationAnswers.DelegationReplays | backend/src/nico_agent/coordination/service.py:95-103 | a key that already names a delegation of the run is answered with the child it made and changes nothing, whatever else the call says |
| CoordinationAnswers.ResentDelegationIsReplayed | backend/src/nico_agent/coordination/service.py:95-103 | an accepted delegation sent again under its key, any steps later and by whoever then holds the lease, is answered with its child |
| CoordinationAnswers.DelegationWritesExactly | backend/src/nico_agent/coordination/service.py:159-262 | an accepted delegation adds the child run with the grant as its budget, its task with the parent's priority, its delegation row under the parent's frozen policy and its ledger, reserves the grant, grows the closure, and changes nothing else |
| CoordinationAnswers.DuplicatesExactly | backend/src/nico_agent/coordination/policy.py:125-138 | two intents count as duplicates exactly when they agree in all but key, grant, order and repetition of references, and blanks around the objective |
| CoordinationAnswers.StripExactly | backend/src/nico_agent/coordination/policy.py:130 | stripping cuts exactly the blank characters at both ends off |
| CoordinationAnswers.SessionOpensExactly | backend/src/nico_agent/runtime/service.py:230-300 | a session opens once per run; its policy is enabled, and grants, exactly what the tenant's section, the agent's policy and, for a child, the delegation's policy all do; its limits are the least of theirs; a child works with the delegation's permissions |
| CoordinationLimits.LimitsAreBudgets | backend/src/nico_agent/coordination/service.py:710-736 | after every history the ledger a run has, or would get, is limited by the grant of the delegation that made it, or else by the run's token budget, its cost limit in microunits and its tool-call limit, each 0 unless a non-negative integer |
| CoordinationExample.BudgetsToldApart | backend/src/nico_agent/coordination/service.py:738-773 | after a concrete history a root with 1000000 microunits and 5 tool calls is granted 100 microunits and refused 50 tool calls |
| CoordinationAdmission.TreeRefusalExactly | backend/src/nico_agent/coordination/service.py:641-706 | after any history the tree check, which reads the closure table, names the first of version repeat, depth, children and active children that the true parent links exceed |
| CoordinationExample.DelegationHappens | backend/src/nico_agent/coordination/service.py:68-262 | a concrete history of creating, preparing, claiming and planning a root run ends with an accepted delegation |
| CoordinationHistories.TargetWasReady | backend/src/nico_agent/coordination/service.py:134-158 | a delegation is accepted only for a published version that is the current one of a ready agent |
| CoordinationStore.CoordinationStore.ValidateTree | backend/src/nico_agent/coordination/service.py:641-706 | table scans and loops decide exactly the refusal of the tree check, in its order |
| CoordinationStore.CoordinationStore.CurrentDepth | backend/src/nico_agent/coordination/service.py:665-674 | the scan over the closure rows finds the greatest stored depth, 0 for none |
| CoordinationStore.CoordinationStore.VersionInAncestry | backend/src/nico_agent/coordination/service.py:648-664 | the scan over the stored ancestors answers whether the target version already runs there |
| CoordinationStore.CoordinationStore.Delegate | backend/src/nico_agent/coordination/service.py:68-262 | one delegation call answers and changes the tables exactly as its transition, each refusal in order and without writes |
| CoordinationInvariants.DelegateKeeps | backend/src/nico_agent/coordination/service.py:68-240 | an accepted delegation keeps foreign keys, closure, ledgers, liveness, lineage, uniqueness, leases, fan-out and authority bounds |
| CoordinationTheorems.StepKeeps | backend/src/nico_agent/coordination/service.py:68-583 | every transaction, the completion of a run included, keeps the whole invariant |
| CoordinationTheorems.BudgetConserved | backend/src/nico_agent/coordination/service.py:398-411 | for each of tokens, cost and tool calls, limit minus reservations, summed over everything reachable from any run by active delegations, equals that run's own limit, after any delegations, cancellations and settlements |
| CoordinationLimits.OwnBudgetConserved | backend/src/nico_agent/coordination/service.py:722-727 | what is still available over the active tree below a root run adds up to the root's own three budget columns, after any history |
| CoordinationTheorems.ActiveTreeIsReachable | backend/src/nico_agent/coordination/service.py:55-58 | a run is reached from a root by active delegations exactly when it is the root, or is stored below it and no delegation on the way up has ended |
| CoordinationTheorems.LedgerRecount | backend/migrations/versions/20260718_0013_multi_agent_coordination.py:300-324 | a ledger's reservations equal the grants of its run's active delegations, its child count the number of its delegations, its commitments never exceed its limits, and a child's limits are its grant |
| CoordinationTheorems.ReleaseNeverClamps | backend/src/nico_agent/coordination/service.py:615-638 | whenever a cancellation releases a delegation, the parent has a ledger and it reserves at least what is taken out, so neither the missing-ledger return nor the clamp at 0 takes effect |
| CoordinationCompletion.CompletesExactly | backend/src/nico_agent/runtime/service.py:1025-1066 | after any history the holder of a live lease ends its run if and only if the run is nobody's unfinished child, or in every resource its charge (usage up to its grant), what its own children consumed and what it still reserves fit into the grant; the parent's CHECK constraints never refuse |
| CoordinationBudgetExample.CompletionRefused | backend/src/nico_agent/runtime/service.py:1042-1046 | after a concrete history a child that used 7 tokens of its 10 and reserved 5 for its own child cannot end, and nothing is written |
| CoordinationCompletion.CompletionSettles | backend/src/nico_agent/runtime/service.py:1031-1066 | a completed child's grant leaves its parent's reservation and its charge enters the parent's consumption and its own; no other ledger moves |
| CoordinationCompletion.ConsumptionRecount | backend/migrations/versions/20260718_0013_multi_agent_coordination.py:300-324 | after every history the consumption a ledger books for children is the sum of what its children were charged; no child was charged more than its grant, and an unfinished one nothing |
| CoordinationCompletion.FinishWakesParent | backend/src/nico_agent/runtime/service.py:1105-1147 | a completed child's delegation has ended, and its parent is running, unleased and claimable in the same transaction exactly when it waited and no other delegation of it is active; otherwise the parent's run is untouched |
| CoordinationExample.ChildFinishes | backend/src/nico_agent/runtime/service.py:1000-1147 | after a concrete history the only child of a waiting parent finishes with 7 of its 10 tokens used: the parent runs on, reserves 10 less and books 7 as consumed |
| CoordinationSettlement.SettleKeeps | backend/src/nico_agent/runtime/service.py:1008-1066 | settling an active child's grant keeps the whole invariant |
| CoordinationSettlement.SettledRowPassesGuard | backend/migrations/versions/20260718_0013_multi_agent_coordination.py:382-427 | the ended row of an active delegation passes the delegation guard unless it was only proposed and its child was not cancelled |
| CoordinationInvariants.LedgerAfterReserve | backend/src/nico_agent/coordination/service.py:739-773 | reserving the grant of a new active delegation keeps the ledger equal to the recount |
| CoordinationCancel.ReleaseKeepsExact | backend/src/nico_agent/coordination/service.py:615-638 | releasing any set of cancelled children keeps the ledger equal to the recount |
| CoordinationStore.ReleaseTableStep | backend/src/nico_agent/coordination/service.py:625-638 | clamping after every single release is the same as clamping once by the total |
| MapSums.SumByOwner | backend/src/nico_agent/coordination/service.py:739-773 | reservations counted per parent add up to the grants counted once per child |
| CoordinationHistories.CancelQuiesces | backend/src/nico_agent/coordination/service.py:366-545 | cancelling a run that is not cancelled yet leaves every run of its true subtree terminal, no active delegation into it, no pending or running tool call and no requested approval |
| CoordinationWrites.CancelWritesExactly | backend/src/nico_agent/coordination/service.py:360-583 | after any history a cancellation with the current revision of a run not cancelled yet stops exactly the unfinished runs of the true subtree; cancels their sessions unless ended and their tasks unless completed, failed or cancelled; cancels the tree's open tool calls with their unfinished steps, withdraws its requested approvals and ends the active delegations into it; every other row stays |
| CoordinationWrites.CancelAnswersExactly | backend/src/nico_agent/coordination/service.py:364-371 | a cancellation goes through exactly for an existing run, not cancelled, with its current revision; otherwise nothing changes |
| CoordinationHistories.CancelQuiescesExactly | backend/src/nico_agent/coordination/service.py:368-371 | after a cancellation with the current revision the true subtree is quiescent if and only if the root was not cancelled before or the subtree was quiescent already |
| CoordinationExample.ChildOutlivesDirectCancel | backend/src/nico_agent/control_plane.py:616-740 | a concrete history in which the parent of an accepted delegation is cancelled by a transition, a tree cancellation on it then returns early, and the child is still pending under an active delegation |
| CoordinationHistories.CancelFrame | backend/src/nico_agent/coordination/service.py:398-458 | outside the subtree runs and delegations are untouched, and so is every ledger except that of the root's parent, where only the reservation falls, by exactly the root's grant, if that was still active |
| CoordinationHistories.CancelledForGood | backend/src/nico_agent/coordination/service.py:360-583 | after a cancellation, under every later history, the subtree keeps its members, each stays terminal and every delegation into it stays ended |
| CoordinationHistories.StoppedForGood | backend/src/nico_agent/coordination/service.py:86-93 | a subtree whose runs are all terminal gets no new member and no status change by any later history |
| CoordinationCancel.TreeIdsAreSubtree | backend/src/nico_agent/coordination/service.py:371-385 | the run ids a cancellation locks are exactly the true subtree |
| CoordinationCancel.CancelRowsPassGuard | backend/migrations/versions/20260718_0013_multi_agent_coordination.py:382-427 | every delegation row a cancellation changes passes the delegation guard, and exactly the cancelled children stop being active |
| CoordinationHistories.CancelWritesFollowTables | backend/src/nico_agent/coordination/service.py:446-545 | every run, tool call, step and approval row that a cancellation after any history changes moves along its transition table and none appears or vanishes; a task row it changes does so if and only if the task was created, assigned or running |
| CoordinationHistories.CancelLeavesTaskTableExactly | backend/src/nico_agent/coordination/service.py:478-489 | a cancellation writes a task row off its table if and only if some run of the true subtree is unfinished while its task waits for review or needs revision |
| CoordinationExample.CancellationLeavesTaskTable | backend/src/nico_agent/control_plane.py:541-558 | a concrete history sends the task of a pending run to review and then cancels the run: the task row moves from waiting for review to cancelled |
| CoordinationStore.CoordinationStore.EndDelegations | backend/src/nico_agent/coordination/service.py:398-417 | the loop over the active delegations leaves the delegation and ledger tables released and cancelled, whatever the row order |
| CoordinationStore.CoordinationStore.StopRuns | backend/src/nico_agent/coordination/service.py:446-487 | the loop over the locked runs stops exactly the unfinished ones with their sessions and tasks |
| CoordinationStore.CoordinationStore.CancelToolCalls | backend/src/nico_agent/coordination/service.py:488-522 | the loop over open tool calls cancels them and their unfinished steps, each step once |
| CoordinationStore.CoordinationStore.WithdrawApprovals | backend/src/nico_agent/coordination/service.py:523-545 | the loop over requested approvals withdraws exactly those of the tree |
| CoordinationStore.CoordinationStore.CancelTree | backend/src/nico_agent/coordination/service.py:360-583 | the whole transaction, with its early returns, ends in the state of its transition |
| CoordinationStore.CoordinationStore.AdvanceRun | backend/src/nico_agent/control_plane.py:616-740 | moving a run, with the writes to its session, open tool calls, their steps and its task, ends in the state of its transition |
| CoordinationStore.CoordinationStore.CompleteClaim | backend/src/nico_agent/runtime/service.py:679-834 | ending a run, with the writes to its session, task, delegation, both ledgers and its waiting parent, ends in the state of its transition |
| CoordinationMoves.CompletionWritesExactly | backend/src/nico_agent/runtime/service.py:679-834 | beside the ledgers a completion ends the run, its session, its running task (completed only for a delegated child or a compaction, else left for review, cancelled or failed) and its delegation, wakes a parent that waited for this child alone, and changes nothing else |
| CoordinationMoves.AdvancesExactly | backend/src/nico_agent/control_plane.py:616-740 | a transition goes through exactly with the current revision and an allowed target; only a terminal target drops the lease, only a completion or cancellation moves a running task, only a cancellation ends session, open calls and steps; delegations, ledgers and closure never change |
| CoordinationMoves.SuspendsExactly | backend/src/nico_agent/runtime/service.py:846-923 | a worker suspends its run exactly while it holds an unexpired lease and the run has a session |
| CoordinationMoves.ReconcilesExactly | backend/migrations/versions/20260718_0013_multi_agent_coordination.py:430-486 | one pass moves exactly the unlocked waiting parents with a delegation and none active, and pauses their suspended sessions |
| CoordinationMoves.RunsStartExactly | backend/src/nico_agent/control_plane.py:560-586 | a further run and a retry are queued exactly under their task and run statuses, pending, unleased and with the requested columns |
| CoordinationMoves.TasksMoveExactly | backend/src/nico_agent/control_plane.py:541-558 | a task moves exactly with its current revision to a status its status leads to |
| CoordinationRevisions.SameRevisionSameRow | backend/src/nico_agent/domain/states.py:411-413 | over any further history revisions never fall and a run or task with the same revision is the same row (a run up to its lease), so a call accepted for an expected revision acts on the row its caller read; version, task and budgets of a run never change |
| CoordinationLeases.FencedDelegation | backend/src/nico_agent/coordination/service.py:86-93 | an accepted delegation carries worker and token of the latest claim of that run, with no cancellation, wake, suspension, completion or later claim in between |
| CoordinationLeases.StaleTokenRefused | backend/src/nico_agent/coordination/service.py:86-93 | once a claim's lease was dropped and its token is not handed out again, no later delegation of that run is accepted under it |
| CoordinationLeases.LeaseHasClaim | backend/migrations/versions/20260717_0005_tool_execution_context.py:63-86 | a lease on a run is always the one handed out by the latest claim of it |
| CoordinationLeases.ExpiryIgnored | backend/src/nico_agent/coordination/service.py:86-93 | the verdict on a delegation does not depend on the expiry of the lease |
| CoordinationLeases.ClaimsExactly | backend/migrations/versions/20260717_0005_tool_execution_context.py:53-90 | a claim with a valid name and duration takes the first of the unlocked claimable runs without a live lease, by task priority (highest first), creation time and id, leases it until then and changes nothing else; without such a run nothing changes |
| CoordinationStore.CoordinationStore.ClaimNextRun | backend/migrations/versions/20260717_0005_tool_execution_context.py:53-90 | the scan for the first free row takes exactly the run the queue order names |
| CoordinationLeases.WakesExactly | backend/migrations/versions/20260718_0013_multi_agent_coordination.py:430-486 | one pass makes running, unleased and claimable exactly the unlocked waiting parents with a delegation and none active, and leaves every other run alone |
| CoordinationLeases.StaysReady | backend/migrations/versions/20260718_0013_multi_agent_coordination.py:440-460 | a parent that is ready stays ready through every later step that does not release or explicitly move it |
| CoordinationLeases.CancelLastChildWakesParent | backend/src/nico_agent/coordination/service.py:398-417 | cancelling the last active child makes the waiting parent ready, and the next pass that can lock it makes it running and claimable |
| CoordinationStore.CoordinationStore.ReconcileWaiters | backend/migrations/versions/20260718_0013_multi_agent_coordination.py:438-484 | the two updates of the reconciler end in the state of its transition |
| PolicyChains.ChainIsIntersection | backend/src/nico_agent/coordination/policy.py:96-122 | the coordination policy at the end of a chain of any length is enabled, and holds a grant, exactly when every policy on the way is or does |
| PolicyChains.ChainLimitIsLeast | backend/src/nico_agent/coordination/policy.py:96-156 | a limit at the end of a chain is the least positive limit met on the way |
| PolicyChains.ChainNeverWidens | backend/src/nico_agent/coordination/policy.py:96-122 | every run of a chain is bounded by every ancestor, and nothing below a disabled policy is enabled |
| PolicyChains.NarrowPolicyExact | backend/src/nico_agent/coordination/policy.py:96-122 | one narrowing keeps a grant iff both sides hold it and a limit as the smaller of the two |
| PolicyChains.NarrowPermissionsExact | backend/src/nico_agent/coordination/policy.py:49-93 | a tool or permission survives one narrowing iff parent, child and restriction grant it; a secret iff its name is among the parent's references, in the child's list of secrets and kept by the restriction, and then with the parent's reference |
| PolicyChains.PermissionChainNeverWidens | backend/src/nico_agent/coordination/policy.py:49-93 | along a chain of any length tools, permissions and secrets stay inside every ancestor's, secret references unchanged, model and endpoint the same |
| PolicyChains.SnapshotExactly | backend/src/nico_agent/coordination/service.py:776-808 | a delegation is granted exactly the tools and permissions that the session has, the target asks for and the restriction leaves, and the secrets that the session references, the policy allows, the target asks for and the restriction leaves, under the session's references |
| PolicyChains.PermissionsExist | backend/src/nico_agent/coordination/policy.py:57-66 | the permissions exist exactly when the target leaves endpoint and model open or names the session's, and the restriction on secrets can be read as a set |
| PolicyChains.SnapshotIsIntersection | backend/src/nico_agent/coordination/policy.py:13-46 | a frozen policy is enabled exactly when the tenant's own section and the agent's policy both are and neither holds a wildcard; it grants what both grant and takes the smaller of two positive limits |
| PolicyChains.DocumentsReadExactly | backend/src/nico_agent/coordination/policy.py:142-160 | only `true` enables, only positive integers limit, only non-empty strings of a list grant |
| RunStates.TerminalMeansFinal | backend/src/nico_agent/domain/states.py:238-278 | the four terminal statuses are exactly those no history of allowed moves ever leaves |
| RunStates.RunsComeFrom | backend/src/nico_agent/domain/states.py:238-280 | read by target, the run table leads into each status exactly from the listed ones: cancelled from every unfinished one, running from planning, the three waits and paused, completed from planning and running |
| RunStates.TasksComeFrom | backend/src/nico_agent/domain/states.py:209-236 | the same for tasks: running from assigned, sent back and failed; cancelled from created, assigned and running |
| RunStates.CallsComeFrom | backend/src/nico_agent/domain/states.py:282-340 | the same for steps, tool calls and approvals: every unfinished one can be cancelled and ends are final |
| Sse.FeedSplit | backend/src/nico_agent/cli/sse.py:43-53 | from every parser state, feeding a and then b is feeding a + b |
| Sse.ChunksDoNotMatter | backend/src/nico_agent/cli/sse.py:43-53 | feeding any list of chunks is feeding their concatenation |
| Sse.StreamRoundTrip | backend/src/nico_agent/cli/sse.py:43-94 | for any printable events and keep-alive comments, in any chunking, the parser returns exactly the original ids, types and data, and its flush adds nothing |
| Sse.FrameReadsBack | backend/src/nico_agent/model_api.py:303-316 | a frame of single-line fields is read back unchanged if and only if its type is not empty and neither field ends in a carriage return |
| Sse.CutTextGivesPrefix | backend/src/nico_agent/cli/sse.py:43-53 | the events of a cut text are a prefix of the events of the whole |
| SseStandard.FinishDiscardsExactly | backend/src/nico_agent/cli/sse.py:55-65 | the flush yields nothing, as section 9.2.6 of the HTML Living Standard asks, if and only if no data line is pending and the unterminated rest is not one; it never yields more than one event |
| SseStandard.FinishAfterChunks | backend/src/nico_agent/cli/sse.py:43-65 | the same at the end of every stream, in any chunking |
| SseStandard.FinishDispatchesUnterminated | backend/src/nico_agent/cli/sse.py:55-65 | an unterminated data line on a parser at rest is dispatched by the flush |
| SseStandard.LineEndsExactly | backend/src/nico_agent/cli/sse.py:46-49 | splitting at LF and dropping one CR gives the lines of section 9.2.5, which end at CRLF, LF or CR, if and only if every CR stands before an LF |
| SseStandard.StandardLinesRead | backend/src/nico_agent/cli/sse.py:43-53 | a stream whose every CR stands before an LF is read, in any chunking, line by line as the standard splits it |
| SseStandard.LoneCrStays | backend/src/nico_agent/cli/sse.py:46-51 | a CR inside a data line, where the standard ends the line, ends up in the data of the event |
| SseStandard.MarkHarmlessExactly | backend/src/nico_agent/cli/sse.py:67-81 | a stream behind a byte order mark gives the events of the stream without it, whatever follows its first line, if and only if that line is blank, a comment, an unknown field or a value without effect |
| SseStandard.MarkEatsData | backend/src/nico_agent/cli/sse.py:67-81 | behind a byte order mark a one-line data event is lost |
| Sse.CursorRoundTrip | backend/src/nico_agent/cli/client.py:362-369 | the decimal cursor header is read back as the number that was written |
| Sse.SseParser.Feed | backend/src/nico_agent/cli/sse.py:43-53 | the in-place loop leaves the parser and returns the events that its specification gives for the chunk |
| Sse.SseParser.Finish | backend/src/nico_agent/cli/sse.py:55-65 | the flush leaves the parser and returns the events its specification gives |
| Sse.SseParser.TakeLine | backend/src/nico_agent/cli/sse.py:67-81 | one line changes the four fields as the field rules say |
| EventStream.ExactlyOnce | backend/src/nico_agent/cli/client.py:354-425 | over any sequence of cut connections the client yields exactly the contiguous stretch of the log after its starting cursor, in order, once; it fails on no event, and a timeout, disconnection or refusal is what its last attempt met; a clean end means everything the terminal poll saw was delivered |
| EventStream.FailuresBounded | backend/src/nico_agent/cli/client.py:409-425 | at most max(0, limit) + 1 connections are used, all but the last of them cut; after more than the limit of cuts the client has given up |
| EventStream.ResumesWhereItStopped | backend/src/nico_agent/cli/client.py:361-369 | yielded sequences strictly increase, and a stream resumed from the last one goes on with the next event |
| EventStream.ServeIsSlice | backend/src/nico_agent/model_api.py:298-318 | one connection prints, page by page, a contiguous slice of the log after the cursor; if the server ended it, the slice covers all its last poll could see |
| EventStream.PageIsSlice | backend/src/nico_agent/model_api.py:186-204 | a page is the run of visible events right after the cursor, as many as are visible and at most 500 |
| EventStream.OneMorePoll | backend/src/nico_agent/model_api.py:298-318 | each poll of a connection prints the next events, at most 500, or a keep-alive, and ends the stream exactly when the run has ended and all it sees was printed |
| EventStream.NeverTwice | backend/src/nico_agent/cli/client.py:361-406 | whatever any server sends over any connections, the client yields rising sequences beyond its starting cursor, each once at most |
| EventStream.TakesExactly | backend/src/nico_agent/cli/client.py:386-399 | the first event that is no object, or has no integer sequence, ends the stream with the error for it |
| EventStream.NewIsYielded | backend/src/nico_agent/cli/client.py:395-399 | before that, every event beyond the cursor and all earlier events is yielded |
| EventStream.LastTakesExactly | backend/src/nico_agent/cli/client.py:400-405 | what the flush adds fails only on what is no object |
| EventStream.StreamEvents | backend/src/nico_agent/model_api.py:298-318 | the nested generator loops print exactly the specified stream |
| EventStream.StreamRunEvents | backend/src/nico_agent/cli/client.py:354-425 | the reconnect loop with its cursor and failure count computes the specified run |
| EventStream.ReadStream | backend/src/nico_agent/cli/client.py:385-408 | feeding chunk by chunk and stopping at the first unusable event delivers what the whole parsed text gives |
| GrowthTheorems.EvidenceOutlivesPublication | backend/migrations/versions/20260717_0006_memory_skill_growth.py:678-726 | whatever was active, invalidated, expired or published at any point has, at every later point, a source, a completed passing evaluation and an approved publication for its content hash; for skill versions by a reviewer other than the requester |
| GrowthTheorems.PublishedOnLatest | backend/migrations/versions/20260717_0009_skill_release_guards.py:58-106 | every published skill version was published by one write at which its latest terminal evaluation had passed and an approval of its content by someone other than the requester existed that had no expiry or expired strictly later |
| GrowthWrites.PublishesExactly | backend/migrations/versions/20260717_0009_skill_release_guards.py:59-106 | a skill version is published if and only if it is in testing and unchanged, has a source, its newest completed or failed evaluation passed, and someone other than the requester approved its content with no expiry or one strictly later than the write |
| GrowthWrites.ActivatesExactly | backend/migrations/versions/20260717_0006_memory_skill_growth.py:705-726 | a memory becomes active if and only if it is an unchanged candidate with a source, a passed evaluation and an approval of its content with no expiry or a strictly later one, and no other version of it is active |
| GrowthWrites.ActivatedOnApproval | backend/migrations/versions/20260717_0006_memory_skill_growth.py:705-726 | every memory that is active, invalidated or expired was made active by one write of the history, at which all this held for the content it still has |
| GrowthWrites.MemoryWritesExactly | backend/migrations/versions/20260717_0006_memory_skill_growth.py:674-740 | every other update of a memory is accepted exactly when it keeps the content, makes one of the listed moves and brings the time its status needs |
| GrowthWrites.MemoryInsertsExactly | backend/migrations/versions/20260717_0006_memory_skill_growth.py:650-672 | a memory is inserted exactly as a new candidate that follows on the stored version before it |
| GrowthWrites.VersionWritesExactly | backend/migrations/versions/20260717_0006_memory_skill_growth.py:759-788 | every other update of a skill version is accepted exactly when it keeps the content and stays, tests or rejects |
| GrowthWrites.SkillWritesExactly | backend/migrations/versions/20260717_0006_memory_skill_growth.py:828-872 | a skill update is accepted exactly when identity and scope stay, the move is listed, the pointer fits the status, and no running canary is stopped or loses its pointer |
| GrowthWrites.CanaryWritesExactly | backend/migrations/versions/20260717_0009_skill_release_guards.py:109-137 | a canary starts exactly on a published version of a published skill, for a project or agent inside its scope where no other one runs, and can only be retired |
| GrowthWrites.EvaluationWritesExactly | backend/migrations/versions/20260717_0006_memory_skill_growth.py:929-974 | an evaluation is inserted exactly as pending, for the stored content, once per evaluator, and updated exactly once, to end, with subject, evaluator and content unchanged |
| GrowthWrites.ReviewWritesExactly | backend/migrations/versions/20260717_0006_memory_skill_growth.py:977-1022 | an approval is inserted exactly as requested, for the stored content, one open request at a time, and updated exactly once, to end, with content, requester and expiry unchanged |
| GrowthWrites.VersionInsertsExactly | backend/migrations/versions/20260717_0006_memory_skill_growth.py:753-758 | a skill version is inserted exactly as a draft under a free number of a stored skill |
| GrowthWrites.SkillInsertsExactly | backend/migrations/versions/20260717_0006_memory_skill_growth.py:822-827 | a skill is inserted exactly as a candidate without a version under a free name |
| GrowthWrites.AlwaysUnique | backend/migrations/versions/20260717_0008_growth_review_idempotency.py:38-80 | after every history skill names, version numbers and sources are unique, an evaluator judged a content once at most, one request at most is open about a content, and one canary at most runs per skill and scope |
| GrowthWrites.SourceWritesExactly | backend/migrations/versions/20260717_0006_memory_skill_growth.py:875-926 | a source is accepted exactly when it is new to its subject, the subject is stored and the run, step, tool call and session it names are over and the agent version is the run's |
| GrowthWrites.WritesTakeEffect | backend/migrations/versions/20260717_0006_memory_skill_growth.py:641-1081 | an accepted write puts its row in place and touches nothing else, a refused one changes nothing |
| GrowthTheorems.ChainReachesFirst | backend/migrations/versions/20260717_0006_memory_skill_growth.py:655-675 | following supersedes links from version v gives a row exactly for fewer than v steps, one version lower each time, with key, type and scope constant |
| GrowthTheorems.VersionsAreContiguous | backend/migrations/versions/20260717_0006_memory_skill_growth.py:159-167 | the versions stored for a key are exactly 1..n, each once, and at most one is active |
| GrowthTheorems.CanariesAlwaysSafe | backend/migrations/versions/20260717_0009_skill_release_guards.py:109-137 | an active canary belongs to a published skill with a published current version, runs a published version of that skill and stays inside its scope |
| GrowthTheorems.PointerHeldByCanary | backend/migrations/versions/20260717_0009_skill_release_guards.py:161-179 | a canary that is still active after any further writes sees the stable pointer it saw before them |
| GrowthTheorems.MemoriesStamped | backend/migrations/versions/20260717_0006_memory_skill_growth.py:728-739 | invalidated and deleted memories carry their time, expired ones an expiry |
| GrowthTheorems.AlwaysGoverned | backend/migrations/versions/20260717_0006_memory_skill_growth.py:641-1081 | all facts above hold after every history of guarded writes |
| GrowthTheorems.WriteKeepsEvidence | backend/migrations/versions/20260717_0008_growth_review_idempotency.py:20-37 | no accepted write changes a source, a finished evaluation or a decided approval |
| GrowthStore.GrowthTables.WriteMemory | backend/migrations/versions/20260717_0006_memory_skill_growth.py:641-743 | the memory trigger accepts a write, and replaces the row, exactly when its specification does |
| GrowthStore.GrowthTables.WriteVersion | backend/migrations/versions/20260717_0006_memory_skill_growth.py:746-810 | the two skill version triggers together accept exactly the specified writes |
| GrowthStore.GrowthTables.LatestTerminal | backend/migrations/versions/20260717_0009_skill_release_guards.py:72-90 | the scan finds the latest terminal evaluation of a content, or none |
| GrowthStore.GrowthTables.EvidenceOfVersion | backend/migrations/versions/20260717_0009_skill_release_guards.py:59-106 | source, latest evaluation and independent approval decide exactly the publication checks |
| GrowthStore.GrowthTables.WriteSkill | backend/migrations/versions/20260717_0006_memory_skill_growth.py:813-872 | the three skill triggers together accept exactly the specified writes |
| GrowthStore.GrowthTables.WriteEvaluation | backend/migrations/versions/20260717_0006_memory_skill_growth.py:929-974 | the evaluation trigger accepts exactly the specified writes, as `WriteSource`, `WriteReview` and `WriteDeployment` do for their tables |
| ConversationTheorems.TurnsAreNumbered | backend/src/nico_agent/conversations/service.py:256-264 | the turns of a conversation carry the sequences 1..n, each once, and last_turn_id is turn n |
| ConversationAnswers.CreatesExactly | backend/src/nico_agent/conversations/service.py:199-413 | after any history a turn is queued if and only if the conversation is active, the key new to it, no turn and no compaction of it unfinished, agent and version ready and the ids unused; it carries the next number, the call's input and key and a new pending run, and nothing else changes; a refusal changes nothing and names a reason that holds |
| ConversationAnswers.TurnReplaysExactly | backend/src/nico_agent/conversations/service.py:213-226 | a key that already names a turn of an active conversation is answered with that turn if the input is the same, and refused if not, and nothing changes |
| ConversationAnswers.ResentTurnIsReplayed | backend/src/nico_agent/conversations/service.py:213-226 | a call that queued a turn and is sent again, any steps later while the conversation is active, is answered with that turn, which still carries the call's input and key |
| ConversationAnswers.RetriesExactly | backend/src/nico_agent/conversations/service.py:627-820 | after any history a retry goes through exactly under its guards; the turn then points at a new pending run one attempt above every earlier one; a refusal changes nothing and names a reason that holds |
| ConversationAnswers.PatchesExactly | backend/src/nico_agent/conversations/service.py:162-197 | a patch goes through exactly with the current revision, unless it revives an archived conversation or archives one with an unfinished turn |
| ConversationAnswers.CompactsExactly | backend/src/nico_agent/conversations/service.py:415-574 | a compaction is queued exactly when the conversation is active, the key new, no turn or compaction unfinished and a completed turn not covered; it covers the turns up to the last completed one |
| ConversationAnswers.ResentCompactionIsReplayed | backend/src/nico_agent/conversations/service.py:446-476 | a compaction call sent again, any steps later while the conversation is active, is answered with the task it queued |
| ConversationAnswers.RunsStartExactly | backend/src/nico_agent/control_plane.py:763-803 | the control plane retries and starts further runs exactly under their guards, never a turn's, each one attempt above the earlier runs of its task |
| ConversationAnswers.WritersMoveExactly | backend/src/nico_agent/control_plane.py:616-740 | any other write moves a run along its table or ends it and is shown on the turn that points at it; a task moves along its table, with its tree or with its run |
| ConversationSummaries.SummaryCoversFinished | backend/src/nico_agent/runtime/service.py:762-780 | a turn that a summary covers never moves again: under every later history it keeps its run, the run its final status, and the summary goes on covering it |
| ConversationSummaries.SummaryWrittenExactly | backend/src/nico_agent/runtime/service.py:762-780 | a completed compaction run moves the summary to where it was queued for, unless it reaches further already |
| ConversationTheorems.OnlyLastTurnRuns | backend/src/nico_agent/conversations/service.py:228-233 | of all runs a conversation's turns point at, or pointed at before retries, only the current run of the last turn can be unfinished |
| ConversationTheorems.TurnsMirrorRuns | backend/migrations/versions/20260719_0017_conversations.py:315-345 | every turn shows output, usage and error of its current run, and its status: queued, waiting for approval, completed, failed (also when timed out), cancelled, and running for every other status |
| ConversationTheorems.ArchivedForGood | backend/src/nico_agent/conversations/service.py:175-183 | an archived conversation stays archived and no run of its turns is ever unfinished again |
| ConversationTheorems.SupersededIsDone | backend/src/nico_agent/conversations/service.py:658-665 | every run a retry replaced, however many retries back, failed or timed out, belongs to the same task and has a smaller attempt |
| ConversationTheorems.ExclusionExactly | backend/src/nico_agent/conversations/service.py:228-238 | a step that starts from a last turn and a compaction excluding each other ends with both active if and only if it is a retry of the turn whose guards hold beside an active compaction, or a control-plane retry or a further run of a compaction task, guards and agent readiness holding, beside an active turn |
| ConversationTheorems.RetryBesideCompaction | backend/src/nico_agent/conversations/service.py:627-665 | after a concrete history, exclusive so far, the retry of a timed-out turn makes it active beside a queued compaction |
| ConversationTheorems.CompactionRetriedBesideTurn | backend/src/nico_agent/control_plane.py:763-803 | after a concrete history, exclusive so far, the control plane's retry of a timed-out compaction makes it active beside a queued turn |
| ConversationTheorems.CompactionRerunBesideTurn | backend/src/nico_agent/control_plane.py:560-586 | after a concrete history, exclusive so far, a further run of a compaction task sent back for revision is active beside a queued turn |
| ConversationTheorems.StepKeeps | backend/src/nico_agent/conversations/service.py:162-823 | every transaction keeps the whole invariant |
| ConversationStore.ConversationTables.CreateTurn | backend/src/nico_agent/conversations/service.py:199-413 | the transaction, exits in order, ends in the state of its transition |
| ConversationStore.ConversationTables.RetryTurn | backend/src/nico_agent/conversations/service.py:627-820 | the transaction, exits in order, ends in the state of its transition |
| ConversationStore.ConversationTables.Patch | backend/src/nico_agent/conversations/service.py:162-197 | archiving is refused while the last run is active and can never be undone; otherwise the row changes as specified |
| ConversationStore.ConversationTables.Compact | backend/src/nico_agent/conversations/service.py:415-574 | a compaction is queued exactly when nothing is active and something completed is uncovered |
| ConversationStore.ConversationTables.ActiveCompaction | backend/src/nico_agent/conversations/service.py:881-900 | the scan over unfinished runs finds a compaction of the conversation exactly when there is one |
| ConversationStore.ConversationTables.UpdateRun | backend/migrations/versions/20260719_0017_conversations.py:315-345 | a run write followed by the trigger ends in the specified state |
| HistorySelection.SelectRecentTurns | backend/src/nico_agent/conversations/context.py:166-186 | the result is the contiguous newest stretch, oldest first, with selected + omitted = total, never empty for a non-empty input, and as long as the budget allows and no longer; if the newest turn fits whole, the full sizes sum to at most the budget |
| HistorySelection.ConsumedExactly | backend/src/nico_agent/conversations/context.py:166-186 | every selected turn counts in full but the newest, which counts shortened when it alone is too big |
| HistorySelection.BoundReferences | backend/src/nico_agent/conversations/context.py:63-86 | the kept references are the longest prefix that fits, each summary cut to what the ones before left over, the first always kept |
| HistorySelection.TrimExactly | backend/src/nico_agent/conversations/context.py:63-86 | a reference keeps its id and as many leading characters of its summary as the budget leaves |
| HistorySelection.Deduplicate | backend/src/nico_agent/conversations/context.py:56-62 | every id once, in order of first mention, with the value of its last mention |
| HistorySelection.BudgetsFit | backend/src/nico_agent/conversations/context.py:38-92 | the size is clamped to 4000 to 256000; the parts are 55, 25 and 15 percent of it rounded down, their minimum sizes never take effect, and together they never exceed it |
| ArtifactTheorems.ReadsNeverFail | backend/src/nico_agent/artifacts/service.py:189-230 | after any interleaving a read by a run that exists returns the bytes exactly for the owner or a holder of a live link of an available artifact, with the recorded hash and size; the integrity, missing-object and unavailable failures are unreachable |
| ArtifactAnswers.UploadedBytesAreRead | backend/src/nico_agent/artifacts/service.py:40-145 | once an upload's artifact is available, whatever came between its steps, its owner reads exactly the bytes the upload was called with, and so does the direct parent if sharing was asked for |
| ArtifactAnswers.EveryoneReadsFirstUpload | backend/src/nico_agent/artifacts/service.py:52-101 | whoever is told "stored" for a run and key reads the bytes of the call that opened the upload |
| ArtifactAnswers.BeginsExactly | backend/src/nico_agent/artifacts/service.py:46-101 | an upload begins exactly when the bytes fit, the run exists, has no artifact under the key and the id is unused; a taken key is answered by the state of its row |
| ArtifactAnswers.AttachedCarriesUpload | backend/src/nico_agent/conversations/attachments.py:45-149 | after any history an answered attachment upload names a row with the call's conversation, key, name, type, hash and size, and its object holds exactly the call's bytes |
| ArtifactAnswers.AttachReplaysExactly | backend/src/nico_agent/conversations/attachments.py:82-100 | a key that already names an attachment is answered with it if name, type and bytes are the same, and refused if not, and nothing changes |
| ArtifactAnswers.ResentAttachmentIsReplayed | backend/src/nico_agent/conversations/attachments.py:82-100 | an answered upload sent again, any steps later, is answered with the same attachment |
| ArtifactAnswers.AttachesExactly | backend/src/nico_agent/conversations/attachments.py:56-149 | a new key is taken exactly when the bytes fit, the conversation is active and what is staged and not overdue leaves room; the overdue rows expire with it |
| ArtifactAnswers.AttachedBytesReachRun | backend/src/nico_agent/conversations/service.py:300-368 | the bytes of an answered upload that is still staged when a turn is created are the bytes the turn's run reads, at every later point |
| ArtifactAnswers.ConsumesExactly | backend/src/nico_agent/conversations/service.py:300-368 | a turn takes exactly the attachments staged for its conversation and not overdue: each is consumed by it, and its run owns one artifact for each and no other |
| ArtifactAnswers.RetryCopiesExactly | backend/src/nico_agent/conversations/service.py:726-761 | a retried run owns exactly one copy of each available artifact the turn refers to and reads the bytes the old owner reads |
| ArtifactAnswers.FailsExactly | backend/src/nico_agent/artifacts/service.py:146-163 | a failed upload marks its row failed exactly while it is uploading |
| ArtifactAnswers.LooksExactly | backend/src/nico_agent/artifacts/service.py:255-279 | a look answers with an available row, an error for a failed or missing one, and waits otherwise |
| ArtifactAnswers.DiscardsExactly | backend/src/nico_agent/conversations/attachments.py:182-203 | exactly the staged attachments of the conversation can be discarded |
| ArtifactTheorems.SameArtifactForAll | backend/src/nico_agent/artifacts/service.py:52-163 | all callers told "stored" for one run and key, whether they uploaded, replayed or waited, are told the same artifact with the same row |
| ArtifactTheorems.AvailableForGood | backend/migrations/versions/20260718_0014_shared_artifacts.py:158-184 | an available artifact's row and bytes never change again, also when other rows share the bytes |
| ArtifactTheorems.OnlyParentHoldsLink | backend/src/nico_agent/artifacts/service.py:301-341 | a sharing link is only ever held by the owner's direct parent |
| ArtifactTheorems.StagedWithinLimits | backend/src/nico_agent/conversations/attachments.py:101-130 | no conversation ever has more staged attachments or staged bytes than configured |
| ArtifactTheorems.AttachmentsUnique | backend/src/nico_agent/conversations/attachments.py:82-100 | an idempotency key names at most one attachment of a conversation |
| ArtifactTheorems.StepKeeps | backend/src/nico_agent/artifacts/service.py:40-163 | every step of an upload, attachment, turn or retry keeps objects content-addressed and rows sound |
| ArtifactTheorems.ConsumeKeeps | backend/src/nico_agent/conversations/service.py:300-368 | turning staged attachments into artifacts that share their bytes keeps the invariant |
| ArtifactTheorems.CopyKeeps | backend/src/nico_agent/conversations/service.py:726-761 | copying artifact rows for a retried run keeps the invariant |
| ArtifactStore.ArtifactTables.BeginUpload | backend/src/nico_agent/artifacts/service.py:46-101 | the opening transaction answers and writes as specified |
| ArtifactStore.ArtifactTables.FinishUpload | backend/src/nico_agent/artifacts/service.py:106-145 | the closing transaction makes the row available with hash and size and shares it with the direct parent only |
| ArtifactStore.ArtifactTables.FailUpload | backend/src/nico_agent/artifacts/service.py:146-163 | a failed upload marks the row failed only while it is still uploading, and ends as its transition says |
| ArtifactStore.ArtifactTables.StoreRuntimeArtifact | backend/src/nico_agent/artifacts/service.py:40-145 | an upload under a new key with nothing in between stores exactly the given bytes, readable at once by its owner |
| ArtifactStore.ArtifactTables.ReadArtifact | backend/src/nico_agent/artifacts/service.py:189-230 | the read checks the reading run, access, presence, hash and size exactly as specified |
| ArtifactStore.WaitForReplay | backend/src/nico_agent/artifacts/service.py:255-279 | a waiting caller is answered by the first decisive one of 300 looks and gives up only if all of them find the row uploading |
| ArtifactStore.ArtifactTables.UploadAttachment | backend/src/nico_agent/conversations/attachments.py:45-149 | the transaction, refusals rolled back, ends in the state of its transition |
| ArtifactStore.ArtifactTables.ExpireOverdue | backend/src/nico_agent/conversations/attachments.py:101-118 | the loop expires exactly the overdue staged rows of the conversation |

## Left out

- Settlement: the usage a worker reports is a parameter, the child's result message and knowledge usages are not modelled, and a delegation is active from acceptance to its end, without the step from accepted to running. A ledger books what its run's direct children were charged, as in the code; usage deeper down enters through their charges only.
- Agent messages, `request_retry`, events, audit records and knowledge policy: written beside the modelled rows and read by none of the modelled decisions.
- `max_steps`, timeouts and wall deadlines: not reserved in ledgers and not read by the modelled checks.
- Worker heartbeats, tool gateway, model gateway, the executor loop: other writers of a run appear only as the `Advance`, `Suspend`, `Complete`, `RecordCall` and `RecordApproval` commands; a suspension is always one that waits for children.
- Creating, assigning and retrying check that the task has a ready agent; here the new run's version is a parameter and these checks only appear as readiness flags of the conversation model. `CreateRun`, `RetryRun` and `MoveTask` of the delegation model allow every call the control plane allows, and more.
- Sessions: a run's session is prepared once with a policy narrowed by its own delegation; the backfill of empty snapshots is not modelled, and the statement about model and endpoint is about folding the narrowing functions, not about session rows.
- Blank characters: `Strip` removes spaces, tabs and line ends, not every Unicode blank.
- Integer widths: all counters, revisions and sequences are unbounded.
- CoordinationPolicy fingerprints: the duplicate guard is the tuple of fields that the original hashes.
- HTTP details of the stream: a connection that was cut is assumed to be reported as an error, and commit order is assumed to equal sequence order, so that what a poll sees is a prefix of the log.
- `int()` on the cursor header is modelled for the plain decimal texts the client sends.
- Growth rows: CHECK constraints on shapes are not enforced, so what is exact about accepted writes is exact up to these. An update is taken not to change a row's primary key.
- Growth origins: the runs, steps, tool calls and sessions a source names are a parameter of the write.
- Conversations: titles, budgets, agents and versions appear only as readiness flags; the text of a summary is not modelled, and a completed compaction writes how far it reaches in a step of its own at any later time, also more than once.
- ConversationStore.ConversationTables.ProjectTurn: the trigger's UPDATE is a map comprehension, since a statement has no row order.
- HistorySelection.BudgetsFit: shares of the budget are exact reals, not floating point.
- HistorySelection.SelectRecentTurns: an oversize newest turn is shortened only in the accounting, so no size is claimed for it.
- Artifact content types, excerpts, metadata and listing; no code path deletes an artifact, and a row marked deleted is only waited for; whether the reading run exists is a parameter of the read.
- Attachment uploads run as one step inside their transaction and may get lost between their storage calls; uploads of different keys do not interleave with each other inside a transaction.
- Routers, schemas, settings, CLI commands, console, row-level security, roles, CRUD of projects, agents and tasks, migration downgrades.
