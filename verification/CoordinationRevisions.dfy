/** Optimistic locking: a row of the run or task table whose revision is the one a caller read is the row
    the caller read. */
module CoordinationRevisions {
  import opened Foundation
  import opened RunStates
  import opened CoordinationPolicy
  import opened Coordination
  import opened CoordinationInvariants
  import opened CoordinationCancel
  import opened CoordinationSettlement
  import opened CoordinationTheorems
  import opened CoordinationHistories
  import opened CoordinationLeases
  import opened CoordinationMoves

  /** Nothing but the lease differs, or the revision went up by one and the run's definition stayed. */
  predicate RunRevised(was: Run, now: Run) {
    || now.(lease := was.lease) == was
    || (now.revision == was.revision + 1 && SameRunDefinition(was, now))
  }

  predicate SameRunDefinition(was: Run, now: Run) {
    && now.version == was.version && now.task == was.task && now.createdAt == was.createdAt
    && now.tokenBudget == was.tokenBudget && now.budgets == was.budgets
  }

  predicate TaskRevised(was: Task, now: Task) {
    now == was || (now.revision == was.revision + 1 && now.priority == was.priority)
  }

  ghost predicate RunsRevised(runs: map<Id, Run>, runs': map<Id, Run>) {
    forall r :: r in runs ==> r in runs' && RunRevised(runs[r], runs'[r])
  }

  ghost predicate TasksRevised(tasks: map<Id, Task>, tasks': map<Id, Task>) {
    forall t :: t in tasks ==> t in tasks' && TaskRevised(tasks[t], tasks'[t])
  }

  ghost predicate Revised(s: State, s': State) { RunsRevised(s.runs, s'.runs) && TasksRevised(s.tasks, s'.tasks) }

  lemma SameIsRevised(s: State, s': State)
    requires s'.runs == s.runs && s'.tasks == s.tasks
    ensures Revised(s, s')
  {}

  lemma DelegateRevises(s: State, cat: Catalog, q: Request)
    ensures Revised(s, DelegateStep(s, cat, q).0)
  {
    var verdict := Admission(s, cat, q);
    SameIsRevised(s, s);
    hide Admission, WithDelegation, Admitted, Revised;
    if verdict.Admit? {
      AdmissionMeans(s, cat, q);
      AdmittedInserts(s, cat, q, verdict.permissions);
      InsertRevises(s, q, verdict.permissions);
    }
  }

  lemma InsertRevises(s: State, q: Request, permissions: Doc)
    requires Insertable(s, q)
    ensures Revised(s, WithDelegation(s, q, permissions))
  {
    hide NewDelegation, ChildLedger, Reserved, LedgerOf, ChildRun;
  }

  lemma CancelRevises(s: State, root: Id, expectedRevision: nat)
    ensures Revised(s, CancelStep(s, root, expectedRevision).0)
  {
    CancelTables(s, root);
    TreeRevised(s, TreeCancel(s, root), TreeIds(s, root), TasksOf(s.runs, Stopped(s.runs, TreeIds(s, root))));
    SameIsRevised(s, s);
    hide TreeCancel, Revised, TreeIds, Stopped, TasksOf;
  }

  lemma TreeRevised(s: State, s': State, ids: set<Id>, owned: set<Id>)
    requires s'.runs == CancelRuns(s.runs, ids) && s'.tasks == CancelTasks(s.tasks, owned)
    ensures Revised(s, s')
  {}

  lemma CompleteRevises(history: seq<Command>, c: Command)
    requires c.Complete?
    ensures Revised(After(history), Step(After(history), c).0)
  {
    hide *;
    var s := After(history);
    Reachable(history);
    InvParts(s);
    StepIsComplete(s, c);
    CompleteOutcome(s, c.run, c.worker, c.token, c.now, c.target, c.ended, c.usage, c.compaction);
    SameIsRevised(s, s);
    if Step(s, c).1.Released? {
      ReleasedCompletes(s, c);
      CompletionWritesExactly(history, c.run, c.worker, c.token, c.now, c.target, c.ended, c.usage, c.compaction);
      EndedRevised(s, Step(s, c).0, c.run, c.target, c.compaction);
    } else {
      NotCompleted(s, c);
    }
  }

  lemma ReleasedCompletes(s: State, c: Command)
    requires c.Complete? && Step(s, c).1.Released?
    ensures c == Complete(c.run, c.worker, c.token, c.now, c.target, c.ended, c.usage, c.compaction)
  {
    hide Step;
  }

  lemma NotCompleted(s: State, c: Command)
    requires c.Complete? && !Step(s, c).1.Released?
    ensures Step(s, c).0 == s
  {
    hide Completion, ReleasedByCompletion, SettlementPasses, Charge, HoldsLease, Terminal;
  }

  lemma EndedRevised(s: State, s': State, run: Id, target: RunStatus, compaction: bool)
    requires run in s.runs && RunsEnded(s, s', run, target) && TaskEnds(s, s', run, target, compaction)
    ensures Revised(s, s')
  {
    hide WakesParent;
  }

  lemma AdvanceRevises(s: State, run: Id, target: RunStatus, expectedRevision: nat)
    ensures Revised(s, Step(s, Command.Advance(run, target, expectedRevision)).0)
  {
    hide *;
    AdvancesExactly(s, run, target, expectedRevision);
    SameIsRevised(s, s);
    if run in s.runs && s.runs[run].revision == expectedRevision && target in RunTargets(s.runs[run].status) {
      MovedRevises(s, Step(s, Command.Advance(run, target, expectedRevision)).0, run, target);
    }
  }

  lemma MovedRevises(s: State, s': State, run: Id, target: RunStatus)
    requires run in s.runs && RunMoved(s, s', run, target) && TaskFollowed(s, s', run, target)
    ensures Revised(s, s')
  {}

  lemma ReconcileRevises(s: State, locked: set<Id>)
    ensures Revised(s, Step(s, Reconcile(locked)).0)
  {
    ReconcilesExactly(s, locked);
    hide Step, WaitsInVain;
  }

  lemma SuspendRevises(s: State, run: Id, worker: string, token: Id, now: int)
    ensures Revised(s, Step(s, Command.Suspend(run, worker, token, now)).0)
  {
    SuspendsExactly(s, run, worker, token, now);
    hide Step;
  }

  lemma ClaimRevises(s: State, c: Command)
    requires c.Claim?
    ensures Revised(s, Step(s, c).0)
  {
    if ValidClaim(c.worker, c.seconds) {
      ClaimTakesLeast(s, c.worker, c.seconds, c.now, c.locked, c.token);
    } else {
      InvalidClaim(s, c);
    }
    SameIsRevised(s, s);
    hide Step, ValidClaim, FreeRuns, Before;
  }

  lemma InvalidClaim(s: State, c: Command)
    requires c.Claim? && !ValidClaim(c.worker, c.seconds)
    ensures Step(s, c).0 == s
  {
    hide NextRun, ValidClaim;
  }

  lemma StartRevises(s: State, c: Command)
    requires c.CreateRun? || c.RetryRun? || c.CreateTask? || c.CreateRoot? || c.MoveTask?
    ensures Revised(s, Step(s, c).0)
  {
    hide *;
    SameIsRevised(s, s);
    match c {
      case CreateRun(run, task, spec) =>
        RunsStartExactly(s, run, task, run, spec);
        if Step(s, c).0 != s { QueuedRevises(s, Step(s, c).0, run, task, spec); }
      case RetryRun(run, previous, spec) =>
        RunsStartExactly(s, run, run, previous, spec);
        if Step(s, c).0 != s { QueuedRevises(s, Step(s, c).0, run, s.runs[previous].task, spec); }
      case CreateTask(task, hasAssignee, priority) =>
        TasksStartExactly(s, task, hasAssignee, priority, task, RunSpec("", None, map[], 0));
        if task !in s.tasks { NewTaskRevises(s, Step(s, c).0, task, Task(if hasAssignee then TaskAssigned else TaskCreated, priority, 1)); }
      case CreateRoot(run, task, spec, priority) =>
        TasksStartExactly(s, task, false, priority, run, spec);
        if Step(s, c).0 != s { RootRevises(s, Step(s, c).0, run, task); }
      case MoveTask(task, target, expectedRevision) =>
        TasksMoveExactly(s, task, target, expectedRevision);
        if Step(s, c).0 != s { MoveRevises(s, Step(s, c).0, task, target); }
    }
  }

  lemma QueuedRevises(s: State, s': State, run: Id, task: Id, spec: RunSpec)
    requires RunQueued(s, s', run, task, spec) && run !in s.runs
    ensures Revised(s, s')
  {
    hide Queued;
  }

  lemma NewTaskRevises(s: State, s': State, task: Id, row: Task)
    requires s' == s.(tasks := s.tasks[task := row]) && task !in s.tasks
    ensures Revised(s, s')
  {}

  lemma RootRevises(s: State, s': State, run: Id, task: Id)
    requires run !in s.runs && task !in s.tasks && run in s'.runs && task in s'.tasks
    requires s' == s.(runs := s.runs[run := s'.runs[run]], tasks := s.tasks[task := s'.tasks[task]])
    ensures Revised(s, s')
  {}

  lemma MoveRevises(s: State, s': State, task: Id, target: TaskStatus)
    requires task in s.tasks
    requires s' == s.(tasks := s.tasks[task := s.tasks[task].(status := target, revision := s.tasks[task].revision + 1)])
    ensures Revised(s, s')
  {}

  lemma OtherwiseRevises(s: State, c: Command)
    requires c.Prepare? || c.RecordCall? || c.RecordApproval?
    ensures Revised(s, Step(s, c).0)
  {
    hide *;
    SameRows(s, c);
    SameIsRevised(s, Step(s, c).0);
  }

  lemma SameRows(s: State, c: Command)
    requires c.Prepare? || c.RecordCall? || c.RecordApproval?
    ensures Step(s, c).0.runs == s.runs && Step(s, c).0.tasks == s.tasks
  {
    hide SessionPolicy, SessionTools;
  }

  lemma StepRevises(history: seq<Command>, c: Command)
    ensures Revised(After(history), Step(After(history), c).0)
  {
    hide *;
    var s := After(history);
    match c {
      case Delegate(request, catalog) => StepIsDelegate(s, c); DelegateRevises(s, catalog, request);
      case CancelTree(root, expectedRevision) => StepIsCancel(s, c); CancelRevises(s, root, expectedRevision);
      case Complete(_, _, _, _, _, _, _, _) => CompleteRevises(history, c);
      case Advance(run, target, expectedRevision) => AdvanceRevises(s, run, target, expectedRevision);
      case Reconcile(locked) => ReconcileRevises(s, locked);
      case Suspend(run, worker, token, now) => SuspendRevises(s, run, worker, token, now);
      case Claim(_, _, _, _, _) => ClaimRevises(s, c);
      case CreateRun(_, _, _) => StartRevises(s, c);
      case RetryRun(_, _, _) => StartRevises(s, c);
      case CreateTask(_, _, _) => StartRevises(s, c);
      case CreateRoot(_, _, _, _) => StartRevises(s, c);
      case MoveTask(_, _, _) => StartRevises(s, c);
      case Prepare(_, _, _, _, _, _) => OtherwiseRevises(s, c);
      case RecordCall(_, _, _) => OtherwiseRevises(s, c);
      case RecordApproval(_, _) => OtherwiseRevises(s, c);
    }
  }

  /** Over any further history revisions never fall, a run whose revision is the same is the same run
      up to its lease, and a task whose revision is the same is the same task. So a cancellation, a
      transition or a task move that is accepted for an expected revision acts on the row its caller
      read. Version, task and budgets of a run never change at all. */
  lemma {:induction false} SameRevisionSameRow(history: seq<Command>, later: seq<Command>, r: Id, t: Id)
    ensures var s, s' := After(history), After(history + later);
      && (r in s.runs ==>
            && r in s'.runs && s'.runs[r].revision >= s.runs[r].revision && SameRunDefinition(s.runs[r], s'.runs[r])
            && (s'.runs[r].revision == s.runs[r].revision ==> s'.runs[r].(lease := s.runs[r].lease) == s.runs[r]))
      && (t in s.tasks ==>
            && t in s'.tasks && s'.tasks[t].revision >= s.tasks[t].revision
            && (s'.tasks[t].revision == s.tasks[t].revision ==> s'.tasks[t] == s.tasks[t]))
    decreases |later|
  {
    if later == [] {
      assert history + later == history;
      hide After;
    } else {
      hide *;
      var n := |later| - 1;
      var before := history + later[..n];
      assert history + later == before + [later[n]];
      SameRevisionSameRow(history, later[..n], r, t);
      AfterStep(before, later[n]);
      StepRevises(before, later[n]);
      RevisedAt(After(before), After(history + later), r, t);
      RevisedOn(After(history), After(before), After(history + later), r, t);
    }
  }

  lemma RevisedAt(s: State, s': State, r: Id, t: Id)
    requires Revised(s, s')
    ensures r in s.runs ==> r in s'.runs && RunRevised(s.runs[r], s'.runs[r])
    ensures t in s.tasks ==> t in s'.tasks && TaskRevised(s.tasks[t], s'.tasks[t])
  {
    hide RunRevised, TaskRevised;
  }

  lemma RevisedOn(s: State, u: State, s': State, r: Id, t: Id)
    requires r in s.runs ==>
      && r in u.runs && u.runs[r].revision >= s.runs[r].revision && SameRunDefinition(s.runs[r], u.runs[r])
      && (u.runs[r].revision == s.runs[r].revision ==> u.runs[r].(lease := s.runs[r].lease) == s.runs[r])
    requires t in s.tasks ==>
      && t in u.tasks && u.tasks[t].revision >= s.tasks[t].revision
      && (u.tasks[t].revision == s.tasks[t].revision ==> u.tasks[t] == s.tasks[t])
    requires r in u.runs ==> r in s'.runs && RunRevised(u.runs[r], s'.runs[r])
    requires t in u.tasks ==> t in s'.tasks && TaskRevised(u.tasks[t], s'.tasks[t])
    ensures r in s.runs ==>
      && r in s'.runs && s'.runs[r].revision >= s.runs[r].revision && SameRunDefinition(s.runs[r], s'.runs[r])
      && (s'.runs[r].revision == s.runs[r].revision ==> s'.runs[r].(lease := s.runs[r].lease) == s.runs[r])
    ensures t in s.tasks ==>
      && t in s'.tasks && s'.tasks[t].revision >= s.tasks[t].revision
      && (s'.tasks[t].revision == s.tasks[t].revision ==> s'.tasks[t] == s.tasks[t])
  {}
}
