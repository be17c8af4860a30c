/** What the transactions write, row by row: after any history, in terms of true parent links and of
    statuses, with every other row unchanged. */
module CoordinationWrites {
  import opened Foundation
  import opened RunStates
  import opened Forest
  import opened Coordination
  import opened CoordinationInvariants
  import opened CoordinationCancel
  import opened CoordinationTheorems
  import opened CoordinationHistories

  // ----- cancel_tree -----

  /** The run belongs to the true subtree of `root`. */
  ghost predicate Below(s: State, root: Id, r: Id) { InSubtree(ParentsOf(s.delegations), root, r) }

  /** The cancellation of `root` finds this run unfinished. */
  ghost predicate Stops(s: State, root: Id, r: Id) {
    r in s.runs && Below(s, root, r) && s.runs[r].status !in {Completed, Failed, Cancelled, TimedOut}
  }

  /** The task of a run it stops. */
  ghost predicate StopsTask(s: State, root: Id, t: Id) {
    exists r :: Stops(s, root, r) && s.runs[r].task == t
  }

  /** An open tool call of the tree, whether its run is stopped or was finished before. */
  ghost predicate EndsCall(s: State, root: Id, c: Id) {
    c in s.toolCalls && Below(s, root, s.toolCalls[c].run) && s.toolCalls[c].status in {CallPending, CallRunning}
  }

  ghost predicate EndsStep(s: State, root: Id, t: Id) {
    exists c :: EndsCall(s, root, c) && s.toolCalls[c].step == t
  }

  /** Runs: the unfinished ones of the tree are cancelled and lose their lease. */
  ghost predicate RunsStopped(s: State, s': State, root: Id) {
    && s'.runs.Keys == s.runs.Keys
    && forall r :: r in s.runs ==>
         s'.runs[r] == if Stops(s, root, r) then s.runs[r].(status := Cancelled, lease := None, revision := s.runs[r].revision + 1)
                       else s.runs[r]
  }

  /** Sessions: those of the stopped runs are cancelled unless they had ended. */
  ghost predicate SessionsStopped(s: State, s': State, root: Id) {
    && s'.sessions.Keys == s.sessions.Keys
    && forall r :: r in s.sessions ==>
         s'.sessions[r] == if Stops(s, root, r) && s.sessions[r].status !in {SessionCompleted, SessionFailed, SessionCancelled}
                           then s.sessions[r].(status := SessionCancelled, revision := s.sessions[r].revision + 1)
                           else s.sessions[r]
  }

  /** Tasks: those of the stopped runs are cancelled unless they were completed, failed or cancelled. */
  ghost predicate TasksStopped(s: State, s': State, root: Id) {
    && s'.tasks.Keys == s.tasks.Keys
    && forall t :: t in s.tasks ==>
         s'.tasks[t] == if StopsTask(s, root, t) && s.tasks[t].status !in {TaskCompleted, TaskFailed, TaskCancelled}
                        then s.tasks[t].(status := TaskCancelled, revision := s.tasks[t].revision + 1)
                        else s.tasks[t]
  }

  /** Tool calls: the open ones of the tree are cancelled. */
  ghost predicate CallsStopped(s: State, s': State, root: Id) {
    && s'.toolCalls.Keys == s.toolCalls.Keys
    && forall c :: c in s.toolCalls ==>
         s'.toolCalls[c] == if EndsCall(s, root, c) then s.toolCalls[c].(status := CallCancelled, revision := s.toolCalls[c].revision + 1)
                            else s.toolCalls[c]
  }

  /** Steps: the unfinished steps of those calls are cancelled, each once. */
  ghost predicate StepsStopped(s: State, s': State, root: Id) {
    && s'.steps.Keys == s.steps.Keys
    && forall t :: t in s.steps ==>
         s'.steps[t] == if EndsStep(s, root, t) && s.steps[t].status in {StepPending, StepRunning, StepWaiting}
                        then s.steps[t].(status := StepCancelled, revision := s.steps[t].revision + 1)
                        else s.steps[t]
  }

  /** Approvals: the requested ones of the tree are withdrawn. */
  ghost predicate ApprovalsWithdrawn(s: State, s': State, root: Id) {
    && s'.approvals.Keys == s.approvals.Keys
    && forall a :: a in s.approvals ==>
         s'.approvals[a] == if Below(s, root, s.approvals[a].run) && s.approvals[a].status == ApprovalRequested
                            then s.approvals[a].(status := ApprovalCancelled, revision := s.approvals[a].revision + 1)
                            else s.approvals[a]
  }

  /** Delegations: the active ones into the tree are cancelled, the root's own included. */
  ghost predicate DelegationsEnded(s: State, s': State, root: Id) {
    && s'.delegations.Keys == s.delegations.Keys
    && forall c :: c in s.delegations ==>
         s'.delegations[c] == if Below(s, root, c) && s.delegations[c].status in {Proposed, Accepted, Executing}
                              then s.delegations[c].(status := TreeCancelled, revision := s.delegations[c].revision + 1)
                              else s.delegations[c]
  }

  ghost predicate SubtreeKnown(s: State, root: Id) {
    forall r :: r in TreeIds(s, root) <==> Below(s, root, r)
  }

  lemma SubtreeIsKnown(s: State, root: Id)
    requires Closed(s)
    ensures SubtreeKnown(s, root)
  {
    forall r ensures r in TreeIds(s, root) <==> Below(s, root, r) { TreeIdsAreSubtree(s, root, r); }
    hide TreeIds, Closed;
  }

  lemma StoppedExactly(s: State, root: Id)
    requires SubtreeKnown(s, root)
    ensures forall r :: r in Stopped(s.runs, TreeIds(s, root)) <==> Stops(s, root, r)
    ensures forall t :: t in TasksOf(s.runs, Stopped(s.runs, TreeIds(s, root))) <==> StopsTask(s, root, t)
  {
    hide TreeIds, Below;
    forall t | StopsTask(s, root, t) ensures t in TasksOf(s.runs, Stopped(s.runs, TreeIds(s, root))) {
      var r :| Stops(s, root, r) && s.runs[r].task == t;
      assert r in Stopped(s.runs, TreeIds(s, root));
    }
    forall t | t in TasksOf(s.runs, Stopped(s.runs, TreeIds(s, root))) ensures StopsTask(s, root, t) {
      var r :| r in Stopped(s.runs, TreeIds(s, root)) && r in s.runs && s.runs[r].task == t;
      assert Stops(s, root, r);
    }
  }

  lemma EndedCallsExactly(s: State, root: Id)
    requires SubtreeKnown(s, root)
    ensures forall c :: c in OpenCalls(s.toolCalls, TreeIds(s, root)) <==> EndsCall(s, root, c)
    ensures forall t :: t in StepsOf(s.toolCalls, OpenCalls(s.toolCalls, TreeIds(s, root))) <==> EndsStep(s, root, t)
  {
    hide TreeIds, Below;
    var open := OpenCalls(s.toolCalls, TreeIds(s, root));
    forall t | EndsStep(s, root, t) ensures t in StepsOf(s.toolCalls, open) {
      var c :| EndsCall(s, root, c) && s.toolCalls[c].step == t;
      assert c in open;
    }
    forall t | t in StepsOf(s.toolCalls, open) ensures EndsStep(s, root, t) {
      var c :| c in open && c in s.toolCalls && s.toolCalls[c].step == t;
      assert EndsCall(s, root, c);
    }
  }

  lemma CancelledRuns(s: State, root: Id)
    requires SubtreeKnown(s, root)
    ensures RunsStopped(s, TreeCancel(s, root), root)
  {
    CancelTables(s, root);
    StoppedExactly(s, root);
    hide TreeCancel, TreeIds, Below;
  }

  lemma CancelledSessions(s: State, root: Id)
    requires SubtreeKnown(s, root)
    ensures SessionsStopped(s, TreeCancel(s, root), root)
  {
    CancelTables(s, root);
    StoppedExactly(s, root);
    hide TreeCancel, TreeIds, Stops, Stopped;
  }

  lemma CancelledTasks(s: State, root: Id)
    requires SubtreeKnown(s, root)
    ensures TasksStopped(s, TreeCancel(s, root), root)
  {
    CancelTables(s, root);
    StoppedExactly(s, root);
    hide TreeCancel, TreeIds, StopsTask, TasksOf, Stopped;
  }

  lemma CancelledCalls(s: State, root: Id)
    requires SubtreeKnown(s, root)
    ensures CallsStopped(s, TreeCancel(s, root), root)
  {
    TreeCancelOtherTables(s, root);
    EndedCallsExactly(s, root);
    hide TreeCancel, TreeIds, EndsCall, EndsStep, OpenCalls, StepsOf;
  }

  lemma CancelledSteps(s: State, root: Id)
    requires SubtreeKnown(s, root)
    ensures StepsStopped(s, TreeCancel(s, root), root)
  {
    TreeCancelOtherTables(s, root);
    EndedCallsExactly(s, root);
    hide TreeCancel, TreeIds, EndsCall, EndsStep, OpenCalls, StepsOf;
  }

  lemma CancelledGrants(s: State, root: Id)
    requires SubtreeKnown(s, root)
    ensures ApprovalsWithdrawn(s, TreeCancel(s, root), root) && DelegationsEnded(s, TreeCancel(s, root), root)
  {
    CancelTables(s, root);
    TreeCancelOtherTables(s, root);
    hide TreeCancel, TreeIds, Below;
  }

  lemma CancelReleases(s: State, root: Id)
    requires root in s.runs && s.runs[root].status != Cancelled
    ensures Step(s, CancelTree(root, s.runs[root].revision)).1 == Released(Stopped(s.runs, TreeIds(s, root)))
  {
    hide TreeCancel, Stopped, TreeIds;
  }

  /** Everything a tree cancellation writes, after any history: called with the current revision on a
      run that is not cancelled yet, it stops the unfinished runs of the true subtree with their
      sessions and tasks, cancels the tree's open tool calls with their unfinished steps, withdraws its
      requested approvals and ends the active delegations into it. All other rows of these tables, and
      the closure table, stay what they were. */
  lemma CancelWritesExactly(history: seq<Command>, root: Id)
    requires root in After(history).runs && After(history).runs[root].status != Cancelled
    ensures var s := After(history);
      var s' := Step(s, CancelTree(root, s.runs[root].revision)).0;
      && RunsStopped(s, s', root) && SessionsStopped(s, s', root) && TasksStopped(s, s', root)
      && CallsStopped(s, s', root) && StepsStopped(s, s', root) && ApprovalsWithdrawn(s, s', root)
      && DelegationsEnded(s, s', root) && s'.relations == s.relations
      && var o := Step(s, CancelTree(root, s.runs[root].revision)).1; o.Released? && forall r :: r in o.runs <==> Stops(s, root, r)
  {
    hide *;
    Reachable(history);
    var s := After(history);
    InvParts(s);
    CancelGoesThrough(s, root);
    SubtreeIsKnown(s, root);
    CancelTables(s, root);
    StoppedExactly(s, root);
    CancelReleases(s, root);
    CancelledRuns(s, root);
    CancelledSessions(s, root);
    CancelledTasks(s, root);
    CancelledCalls(s, root);
    CancelledSteps(s, root);
    CancelledGrants(s, root);
  }

  /** A cancellation goes through if and only if it names an existing run that is not cancelled yet with
      its current revision; on a cancelled run it does nothing, and otherwise it says what is wrong. */
  lemma CancelAnswersExactly(s: State, root: Id, expectedRevision: nat)
    ensures var (s', o) := Step(s, CancelTree(root, expectedRevision));
      && (o.Released? <==> root in s.runs && s.runs[root].status != Cancelled && s.runs[root].revision == expectedRevision)
      && (o == Done <==> root in s.runs && s.runs[root].status == Cancelled)
      && (root !in s.runs ==> o == Refused(RunNotFound))
      && (o.Conflict? ==> o.error == RevisionConflict(expectedRevision, s.runs[root].revision))
      && (!o.Released? ==> s' == s)
  {
    hide TreeCancel;
  }
}
