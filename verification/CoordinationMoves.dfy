/** What moves single runs: direct transitions, completions, suspensions, the reconciler and new runs,
    each with everything it writes in terms of the rows; and what the revisions of rows protect. */
module CoordinationMoves {
  import opened Foundation
  import opened RunStates
  import opened Coordination
  import opened CoordinationSettlement
  import opened CoordinationTheorems
  import opened CoordinationCompletion

  // ----- transition_run -----

  /** The run takes the target, and a terminal target takes its lease. */
  ghost predicate RunMoved(s: State, s': State, run: Id, target: RunStatus)
    requires run in s.runs
  {
    s'.runs == s.runs[run := s.runs[run].(status := target, revision := s.runs[run].revision + 1,
                                          lease := if target in {Completed, Failed, Cancelled, TimedOut} then None else s.runs[run].lease)]
  }

  /** A running task goes to review when its run completes, and is cancelled with it. */
  ghost predicate TaskFollowed(s: State, s': State, run: Id, target: RunStatus)
    requires run in s.runs
  {
    && s'.tasks.Keys == s.tasks.Keys
    && forall t :: t in s.tasks ==>
         s'.tasks[t] ==
           if t == s.runs[run].task && s.tasks[t].status == TaskRunning && target in {Completed, Cancelled}
           then Task(if target == Completed then TaskWaitingForReview else TaskCancelled, s.tasks[t].priority, s.tasks[t].revision + 1)
           else s.tasks[t]
  }

  /** Only a cancellation touches the run's session, its open tool calls and their unfinished steps. */
  ghost predicate RestFollowed(s: State, s': State, run: Id, target: RunStatus) {
    && s'.sessions.Keys == s.sessions.Keys && s'.toolCalls.Keys == s.toolCalls.Keys && s'.steps.Keys == s.steps.Keys
    && (forall r :: r in s.sessions ==>
          s'.sessions[r] == if r == run && target == Cancelled
                            then s.sessions[r].(status := SessionCancelled, revision := s.sessions[r].revision + 1) else s.sessions[r])
    && (forall c :: c in s.toolCalls ==>
          s'.toolCalls[c] == if OpenCallOf(s, run, c) && target == Cancelled
                             then s.toolCalls[c].(status := CallCancelled, revision := s.toolCalls[c].revision + 1) else s.toolCalls[c])
    && (forall t :: t in s.steps ==>
          s'.steps[t] == if (exists c :: OpenCallOf(s, run, c) && s.toolCalls[c].step == t) && target == Cancelled
                            && s.steps[t].status in {StepPending, StepRunning, StepWaiting}
                         then s.steps[t].(status := StepCancelled, revision := s.steps[t].revision + 1) else s.steps[t])
  }

  predicate OpenCallOf(s: State, run: Id, c: Id) {
    c in s.toolCalls && s.toolCalls[c].run == run && s.toolCalls[c].status in {CallPending, CallRunning}
  }

  /** A transition goes through if and only if it names an existing run with its current revision and a
      target its status leads to. Delegations, ledgers and the closure table never change, whatever the
      target; a refusal changes nothing and says what is wrong. */
  lemma AdvancesExactly(s: State, run: Id, target: RunStatus, expectedRevision: nat)
    ensures var (s', o) := Step(s, Command.Advance(run, target, expectedRevision));
      var ok := run in s.runs && s.runs[run].revision == expectedRevision && target in RunTargets(s.runs[run].status);
      && (ok ==>
            && o == (if target in {Completed, Failed, Cancelled, TimedOut} then Released({run}) else Done)
            && RunMoved(s, s', run, target) && TaskFollowed(s, s', run, target) && RestFollowed(s, s', run, target)
            && s'.delegations == s.delegations && s'.ledgers == s.ledgers && s'.relations == s.relations && s'.approvals == s.approvals)
      && (!ok ==>
            s' == s
            && o == if run !in s.runs then Refused(RunNotFound)
                    else if s.runs[run].revision != expectedRevision then Conflict(RevisionConflict(expectedRevision, s.runs[run].revision))
                    else Conflict(InvalidTransition(s.runs[run].status, target)))
  {
    hide AdvancedTables, RunTargets, RunMoved, TaskFollowed, RestFollowed;
    if run in s.runs {
      AdvancedRun(s, run, target);
      AdvancedTask(s, run, target);
      AdvancedRest(s, run, target);
    }
  }

  lemma AdvancedRun(s: State, run: Id, target: RunStatus)
    requires run in s.runs
    ensures var s' := AdvancedTables(s, run, target);
      RunMoved(s, s', run, target) && s'.delegations == s.delegations && s'.ledgers == s.ledgers
      && s'.relations == s.relations && s'.approvals == s.approvals
  {
    hide AdvancedTasks, AdvancedSessions, CallsEnding, CancelCalls, CancelSteps, StepsOf;
  }

  lemma AdvancedTask(s: State, run: Id, target: RunStatus)
    requires run in s.runs
    ensures TaskFollowed(s, AdvancedTables(s, run, target), run, target)
  {
    hide AdvancedSessions, CallsEnding, CancelCalls, CancelSteps, StepsOf, Advanced;
  }

  lemma AdvancedRest(s: State, run: Id, target: RunStatus)
    requires run in s.runs
    ensures RestFollowed(s, AdvancedTables(s, run, target), run, target)
  {
    EndingExactly(s, run, target);
    AdvancedColumns(s, run, target);
    EndingRows(s, AdvancedTables(s, run, target), run, target);
    hide *;
  }

  lemma EndingExactly(s: State, run: Id, target: RunStatus)
    ensures var ending := CallsEnding(s.toolCalls, run, target);
      && (forall c :: c in ending <==> OpenCallOf(s, run, c) && target == Cancelled)
      && (forall t :: t in StepsOf(s.toolCalls, ending) <==>
            (exists c :: OpenCallOf(s, run, c) && s.toolCalls[c].step == t) && target == Cancelled)
  {
    var ending := CallsEnding(s.toolCalls, run, target);
    forall c ensures c in ending <==> OpenCallOf(s, run, c) && target == Cancelled {}
    hide CallsEnding;
  }

  lemma AdvancedColumns(s: State, run: Id, target: RunStatus)
    requires run in s.runs
    ensures var s', ending := AdvancedTables(s, run, target), CallsEnding(s.toolCalls, run, target);
      && s'.sessions == AdvancedSessions(s.sessions, run, target) && s'.toolCalls == CancelCalls(s.toolCalls, ending)
      && s'.steps == CancelSteps(s.steps, StepsOf(s.toolCalls, ending))
  {
    hide Advanced, AdvancedTasks, AdvancedSessions, CallsEnding, CancelCalls, CancelSteps, StepsOf;
  }

  lemma EndingRows(s: State, s': State, run: Id, target: RunStatus)
    requires var ending := CallsEnding(s.toolCalls, run, target);
      && s'.sessions == AdvancedSessions(s.sessions, run, target) && s'.toolCalls == CancelCalls(s.toolCalls, ending)
      && s'.steps == CancelSteps(s.steps, StepsOf(s.toolCalls, ending))
      && (forall c :: c in ending <==> OpenCallOf(s, run, c) && target == Cancelled)
      && (forall t :: t in StepsOf(s.toolCalls, ending) <==>
            (exists c :: OpenCallOf(s, run, c) && s.toolCalls[c].step == t) && target == Cancelled)
    ensures RestFollowed(s, s', run, target)
  {
    hide CallsEnding, StepsOf, OpenCallOf;
  }

  // ----- complete_claim -----

  /** Nothing else keeps the parent of a finishing child waiting. */
  ghost predicate WakesParent(s: State, run: Id, p: Id) {
    && ActiveChild(s, run) && s.delegations[run].parent == p && LastChild(s, run)
  }

  /** The finished run's row and, if it was the last child of a waiting parent, the parent's. */
  ghost predicate RunsEnded(s: State, s': State, run: Id, target: RunStatus) {
    && s'.runs.Keys == s.runs.Keys
    && forall r :: r in s.runs ==>
         s'.runs[r] ==
           if r == run then s.runs[r].(status := target, lease := None, revision := s.runs[r].revision + 1)
           else if WakesParent(s, run, r) then s.runs[r].(status := Running, lease := None, revision := s.runs[r].revision + 1)
           else s.runs[r]
  }

  ghost predicate SessionsEnded(s: State, s': State, run: Id, ended: SessionStatus) {
    && s'.sessions.Keys == s.sessions.Keys
    && forall r :: r in s.sessions ==>
         s'.sessions[r] ==
           if r == run then s.sessions[r].(status := ended, revision := s.sessions[r].revision + 1)
           else if WakesParent(s, run, r) then s.sessions[r].(status := SessionPaused, revision := s.sessions[r].revision + 1)
           else s.sessions[r]
  }

  /** A running task ends with its run: completed only for a delegated child or a compaction, otherwise
      a completed run leaves it for review. */
  ghost predicate TaskEnds(s: State, s': State, run: Id, target: RunStatus, compaction: bool)
    requires run in s.runs
  {
    && s'.tasks.Keys == s.tasks.Keys
    && forall t :: t in s.tasks ==>
         s'.tasks[t] ==
           if t != s.runs[run].task || s.tasks[t].status != TaskRunning then s.tasks[t]
           else s.tasks[t].(revision := s.tasks[t].revision + 1,
                            status := match target
                                      case Completed => if run in s.delegations || compaction then TaskCompleted else TaskWaitingForReview
                                      case Cancelled => TaskCancelled
                                      case _ => TaskFailed)
  }

  ghost predicate DelegationEnds(s: State, s': State, run: Id, target: RunStatus) {
    && s'.delegations.Keys == s.delegations.Keys
    && forall c :: c in s.delegations ==>
         s'.delegations[c] ==
           if c == run && s.delegations[c].status in {Proposed, Accepted, Executing}
           then s.delegations[c].(revision := s.delegations[c].revision + 1,
                                  status := match target case Completed => Finished case Cancelled => TreeCancelled case _ => Errored)
           else s.delegations[c]
  }

  /** Everything a completion writes beside the ledgers: the run, its session, its task and its
      delegation end, and a parent that waited for this child alone goes on. Tool calls, steps,
      approvals and the closure table stay. */
  lemma CompletionWritesExactly(history: seq<Command>, run: Id, worker: string, token: Id, now: int, target: RunStatus,
                                ended: SessionStatus, usage: Amounts, compaction: bool)
    requires var c := Complete(run, worker, token, now, target, ended, usage, compaction); Step(After(history), c).1.Released?
    ensures var s := After(history);
      var s' := Step(s, Complete(run, worker, token, now, target, ended, usage, compaction)).0;
      && run in s.runs && RunsEnded(s, s', run, target) && SessionsEnded(s, s', run, ended)
      && TaskEnds(s, s', run, target, compaction) && DelegationEnds(s, s', run, target)
      && s'.toolCalls == s.toolCalls && s'.steps == s.steps && s'.approvals == s.approvals && s'.relations == s.relations
    ensures var s, c := After(history), Complete(run, worker, token, now, target, ended, usage, compaction);
      forall r :: r in Step(s, c).1.runs <==> r == run || WakesParent(s, run, r)
  {
    hide *;
    Reachable(history);
    var s, c := After(history), Complete(run, worker, token, now, target, ended, usage, compaction);
    InvParts(s);
    StepIsComplete(s, c);
    CompletePasses(s, run, worker, token, now, target, ended, usage, compaction);
    CompletionIs(s, run, target, ended, usage, compaction);
    var finished := EndRun(s, run, target, ended, compaction);
    EndRunRows(s, run, target, ended, compaction);
    ReleasedIs(s, run, target, ended, usage, compaction);
    if ActiveChild(s, run) {
      ParentWoken(s, run);
      ActiveChildRow(s, run);
      var d := s.delegations[run];
      var settled := Settle(finished, run, target, Charge(usage, d.grant));
      SettledRest(finished, run, target, Charge(usage, d.grant));
      SettledDefinitions(s.delegations, run, target);
      LastMeans(s, settled, run, Advanced(s.runs[run], target));
      WokenRows(s, finished, settled, run, target, ended);
      SettledRow(s, WakeParent(settled, d.parent), run, target);
      TasksSame(s, finished, WakeParent(settled, d.parent), run, target, compaction);
    } else {
      UnsettledRows(s, finished, run, target, ended);
      NoParentWoken(s, run);
    }
  }

  lemma NoParentWoken(s: State, run: Id)
    requires !ActiveChild(s, run)
    ensures forall r :: !WakesParent(s, run, r)
  {}

  lemma EndRunRows(s: State, run: Id, target: RunStatus, ended: SessionStatus, compaction: bool)
    requires run in s.runs && run in s.sessions && Terminal(target)
    ensures var f := EndRun(s, run, target, ended, compaction);
      && f == s.(runs := s.runs[run := Advanced(s.runs[run], target)], sessions := s.sessions[run := EndedSession(s.sessions[run], ended)],
                 tasks := f.tasks)
      && TaskEnds(s, f, run, target, compaction)
  {
    hide Advanced, EndedSession;
  }

  lemma SettledRest(s: State, run: Id, target: RunStatus, charge: Amounts)
    requires run in s.delegations
    ensures var s' := Settle(s, run, target, charge);
      s' == s.(delegations := s.delegations[run := EndDelegation(s.delegations[run], target)], ledgers := s'.ledgers)
  {
    hide EndDelegation, SettledLedgers;
  }

  lemma WokenRows(s: State, finished: State, settled: State, run: Id, target: RunStatus, ended: SessionStatus)
    requires run in s.runs && run in s.sessions && Terminal(target) && ActiveChild(s, run) && run in s.delegations
    requires s.delegations[run].parent != run
    requires finished.runs == s.runs[run := Advanced(s.runs[run], target)]
    requires finished.sessions == s.sessions[run := EndedSession(s.sessions[run], ended)]
    requires settled.runs == finished.runs && settled.sessions == finished.sessions
    requires settled.toolCalls == s.toolCalls && settled.steps == s.steps && settled.approvals == s.approvals && settled.relations == s.relations
    requires WaitsForNone(settled, s.delegations[run].parent) <==> LastChild(s, run)
    ensures var s' := WakeParent(settled, s.delegations[run].parent);
      && RunsEnded(s, s', run, target) && SessionsEnded(s, s', run, ended)
      && s'.toolCalls == s.toolCalls && s'.steps == s.steps && s'.approvals == s.approvals && s'.relations == s.relations
      && s'.delegations == settled.delegations && s'.tasks == settled.tasks
  {
    hide *;
    var p := s.delegations[run].parent;
    WakeTables(settled, p);
    if WaitsForNone(settled, p) { WaitsMeans(settled, p); }
    ParentWoken(s, run);
    WokenRuns(s, WakeParent(settled, p), run, target, p, WaitsForNone(settled, p));
    WokenSessions(s, WakeParent(settled, p), run, ended, p, WaitsForNone(settled, p));
  }

  lemma WakeTables(s: State, p: Id)
    ensures var s' := WakeParent(s, p);
      && s' == s.(runs := s'.runs, sessions := s'.sessions)
      && (!WaitsForNone(s, p) ==> s'.runs == s.runs && s'.sessions == s.sessions)
      && (WaitsForNone(s, p) ==>
            && p in s.runs && s'.runs == s.runs[p := WakeRun(s.runs[p])]
            && s'.sessions == if p in s.sessions
                              then s.sessions[p := s.sessions[p].(status := SessionPaused, revision := s.sessions[p].revision + 1)]
                              else s.sessions)
  {
    hide ActiveChildrenOf, WakeRun;
  }

  lemma ParentWoken(s: State, run: Id)
    requires ActiveChild(s, run) && run in s.delegations
    ensures forall r :: WakesParent(s, run, r) <==> r == s.delegations[run].parent && LastChild(s, run)
  {
    hide LastChild;
  }

  lemma WokenRuns(s: State, s': State, run: Id, target: RunStatus, p: Id, waits: bool)
    requires run in s.runs && Terminal(target) && p != run && (waits ==> p in s.runs)
    requires forall r :: WakesParent(s, run, r) <==> r == p && waits
    requires var runs := s.runs[run := Advanced(s.runs[run], target)];
      s'.runs == if waits then runs[p := WakeRun(runs[p])] else runs
    ensures RunsEnded(s, s', run, target)
  {
    hide WakesParent;
  }

  lemma WokenSessions(s: State, s': State, run: Id, ended: SessionStatus, p: Id, waits: bool)
    requires run in s.sessions && p != run && forall r :: WakesParent(s, run, r) <==> r == p && waits
    requires var sessions := s.sessions[run := EndedSession(s.sessions[run], ended)];
      s'.sessions == if waits && p in sessions
                     then sessions[p := sessions[p].(status := SessionPaused, revision := sessions[p].revision + 1)] else sessions
    ensures SessionsEnded(s, s', run, ended)
  {
    hide WakesParent;
  }

  lemma SettledRow(s: State, s': State, run: Id, target: RunStatus)
    requires ActiveChild(s, run) && run in s.delegations && Terminal(target)
    requires s'.delegations == s.delegations[run := EndDelegation(s.delegations[run], target)]
    ensures DelegationEnds(s, s', run, target)
  {}

  lemma TasksSame(s: State, finished: State, s': State, run: Id, target: RunStatus, compaction: bool)
    requires run in s.runs && TaskEnds(s, finished, run, target, compaction) && s'.tasks == finished.tasks
    ensures TaskEnds(s, s', run, target, compaction)
  {}

  lemma UnsettledRows(s: State, finished: State, run: Id, target: RunStatus, ended: SessionStatus)
    requires run in s.runs && run in s.sessions && Terminal(target) && !ActiveChild(s, run)
    requires finished.runs == s.runs[run := Advanced(s.runs[run], target)]
    requires finished.sessions == s.sessions[run := EndedSession(s.sessions[run], ended)]
    requires finished.delegations == s.delegations
    ensures RunsEnded(s, finished, run, target) && SessionsEnded(s, finished, run, ended) && DelegationEnds(s, finished, run, target)
  {}

  // ----- suspension and wake-up -----

  /** A worker suspends its run exactly while it holds an unexpired lease and the run has a session;
      run and session wait, the lease is gone, and nothing else changes. */
  lemma SuspendsExactly(s: State, run: Id, worker: string, token: Id, now: int)
    ensures var (s', o) := Step(s, Command.Suspend(run, worker, token, now));
      var ok := run in s.runs && run in s.sessions && s.runs[run].lease.Some? && s.runs[run].lease.value.owner == worker
                && s.runs[run].lease.value.token == token && s.runs[run].lease.value.expires > now;
      && (ok ==>
            && o == Released({run})
            && s' == s.(runs := s.runs[run := s.runs[run].(status := WaitingForSubagent, lease := None, revision := s.runs[run].revision + 1)],
                        sessions := s.sessions[run := s.sessions[run].(status := Suspended, revision := s.sessions[run].revision + 1)]))
      && (!ok ==> s' == s && o == Refused(LeaseLost))
  {}

  /** The parent waits, delegated something, and nothing it delegated is going on. */
  ghost predicate WaitsInVain(s: State, r: Id) {
    && r in s.runs && s.runs[r].status == WaitingForSubagent
    && (exists c :: c in s.delegations && s.delegations[c].parent == r)
    && (forall c :: c in s.delegations && s.delegations[c].parent == r ==>
          s.delegations[c].status in {Finished, Errored, TreeCancelled, Rejected})
  }

  /** One reconciler pass: the unlocked parents that wait in vain run on without a lease, their
      suspended sessions are paused, and nothing else changes. */
  lemma ReconcilesExactly(s: State, locked: set<Id>)
    ensures var o := Step(s, Reconcile(locked)).1;
      o.Released? && forall r :: r in o.runs <==> WaitsInVain(s, r) && r !in locked
    ensures var s' := Step(s, Reconcile(locked)).0;
      && s' == s.(runs := s'.runs, sessions := s'.sessions) && s'.runs.Keys == s.runs.Keys && s'.sessions.Keys == s.sessions.Keys
      && (forall r :: r in s.runs ==>
            s'.runs[r] == if WaitsInVain(s, r) && r !in locked
                          then s.runs[r].(status := Running, lease := None, revision := s.runs[r].revision + 1) else s.runs[r])
      && (forall r :: r in s.sessions ==>
            s'.sessions[r] == if WaitsInVain(s, r) && r !in locked && s.sessions[r].status == Suspended
                              then s.sessions[r].(status := SessionPaused, revision := s.sessions[r].revision + 1) else s.sessions[r])
  {
    forall r ensures Eligible(s, r) <==> WaitsInVain(s, r) { EligibleExactly(s, r); }
    hide Eligible, WaitsInVain;
  }

  lemma EligibleExactly(s: State, r: Id)
    ensures Eligible(s, r) <==> WaitsInVain(s, r)
  {
    var children, active := ChildrenOf(s.delegations, r), ActiveChildrenOf(s.delegations, r);
    forall c ensures c in children <==> c in s.delegations && s.delegations[c].parent == r {}
    forall c | c in children ensures c in active <==> s.delegations[c].status !in {Finished, Errored, TreeCancelled, Rejected} {
      EndedIs(s.delegations[c].status);
    }
    hide ChildrenOf;
    assert active <= children;
    hide Active, ActiveChildrenOf;
  }

  lemma EndedIs(status: DelegationStatus)
    ensures Active(status) <==> status !in {Finished, Errored, TreeCancelled, Rejected}
  {}

  // ----- new tasks and runs -----

  /** A pending run of the task with the columns of its request, unleased. */
  predicate Queued(run: Run, task: Id, spec: RunSpec) {
    && run.status == Pending && run.task == task && run.version == spec.version && run.tokenBudget == spec.tokenBudget
    && run.budgets == spec.budgets && run.createdAt == spec.now && run.lease == None && run.revision == 1
  }

  /** The tables with one more run, of a task that runs from then on. */
  ghost predicate RunQueued(s: State, s': State, run: Id, task: Id, spec: RunSpec) {
    && s' == s.(runs := s'.runs, tasks := s'.tasks) && run in s'.runs && Queued(s'.runs[run], task, spec)
    && s'.runs == s.runs[run := s'.runs[run]]
    && task in s.tasks && task in s'.tasks && s'.tasks == s.tasks[task := s'.tasks[task]]
    && s'.tasks[task] == if s.tasks[task].status == TaskRunning then s.tasks[task]
                         else s.tasks[task].(status := TaskRunning, revision := s.tasks[task].revision + 1)
  }

  /** A further run is queued exactly for a task that is assigned or sent back for revision; a retry
      exactly for a failed or timed-out run whose task is running, sent back or failed; both under an
      unused id. */
  lemma RunsStartExactly(s: State, run: Id, task: Id, previous: Id, spec: RunSpec)
    ensures var (s', o) := Step(s, CreateRun(run, task, spec));
      var ok := task in s.tasks && s.tasks[task].status in {TaskAssigned, TaskRevisionRequired} && run !in s.runs;
      (ok ==> o == Done && RunQueued(s, s', run, task, spec)) && (!ok ==> o.Refused? && s' == s)
    ensures var (s', o) := Step(s, RetryRun(run, previous, spec));
      var ok := previous in s.runs && s.runs[previous].status in {Failed, TimedOut} && run !in s.runs
                && s.runs[previous].task in s.tasks
                && s.tasks[s.runs[previous].task].status in {TaskRunning, TaskRevisionRequired, TaskFailed};
      (ok ==> o == Done && RunQueued(s, s', run, s.runs[previous].task, spec)) && (!ok ==> o.Refused? && s' == s)
  {
    if task in s.tasks { WithRunIs(s, run, task, spec); }
    if previous in s.runs && s.runs[previous].task in s.tasks { WithRunIs(s, run, s.runs[previous].task, spec); }
    hide WithRun, RunQueued;
  }

  lemma WithRunIs(s: State, run: Id, task: Id, spec: RunSpec)
    requires task in s.tasks
    ensures RunQueued(s, WithRun(s, run, task, spec), run, task, spec)
  {
    assert s.tasks == s.tasks[task := s.tasks[task]];
  }

  /** New tasks: alone, assigned or not, or together with their first run. */
  lemma TasksStartExactly(s: State, task: Id, hasAssignee: bool, priority: int, run: Id, spec: RunSpec)
    ensures var (s', o) := Step(s, CreateTask(task, hasAssignee, priority));
      && (task !in s.tasks ==>
            o == Done && s' == s.(tasks := s.tasks[task := Task(if hasAssignee then TaskAssigned else TaskCreated, priority, 1)]))
      && (task in s.tasks ==> o.Refused? && s' == s)
    ensures var (s', o) := Step(s, CreateRoot(run, task, spec, priority));
      var ok := run !in s.runs && task !in s.tasks;
      && (ok ==> o == Done && run in s'.runs && Queued(s'.runs[run], task, spec)
                 && s' == s.(runs := s.runs[run := s'.runs[run]], tasks := s.tasks[task := Task(TaskRunning, priority, 1)]))
      && (!ok ==> o.Refused? && s' == s)
  {}

  /** A task moves if and only if the call names its current revision and a status its status leads to. */
  lemma TasksMoveExactly(s: State, task: Id, target: TaskStatus, expectedRevision: nat)
    ensures var (s', o) := Step(s, MoveTask(task, target, expectedRevision));
      var ok := task in s.tasks && s.tasks[task].revision == expectedRevision && target in TaskTargets(s.tasks[task].status);
      && (ok ==> o == Done && s' == s.(tasks := s.tasks[task := s.tasks[task].(status := target, revision := expectedRevision + 1)]))
      && (!ok ==> s' == s && (o.Conflict? || o.Refused?))
  {
    hide TaskTargets;
  }
}
