/** Theorems about whole histories: what a cancellation writes, stops for good and leaves alone, and
    what every delegation was allowed by. */
module CoordinationHistories {
  import opened Foundation
  import opened MapSums
  import opened RunStates
  import opened Forest
  import opened CoordinationPolicy
  import opened Coordination
  import opened CoordinationInvariants
  import opened CoordinationCancel
  import opened CoordinationSettlement
  import opened CoordinationTheorems

  // ----- cancel_tree: what it stops -----

  /** Nothing of `d` is left running or waiting. */
  ghost predicate Quiescent(s: State, d: Id) {
    && (d in s.runs ==> Terminal(s.runs[d].status))
    && (d in s.delegations ==> !Active(s.delegations[d].status))
    && (forall t :: t in s.toolCalls && s.toolCalls[t].run == d ==> s.toolCalls[t].status !in {CallPending, CallRunning})
    && (forall a :: a in s.approvals && s.approvals[a].run == d ==> s.approvals[a].status != ApprovalRequested)
  }

  lemma CancelledMemberIsQuiet(s: State, root: Id, d: Id)
    requires d in TreeIds(s, root)
    ensures Quiescent(TreeCancel(s, root), d)
  {
    var ids, s' := TreeIds(s, root), TreeCancel(s, root);
    CancelTables(s, root);
    CancelRowsPassGuard(s.delegations, ids);
    assert d in s.runs ==> Terminal(s'.runs[d].status);
    assert s'.toolCalls == CancelCalls(s.toolCalls, OpenCalls(s.toolCalls, ids));
    assert s'.approvals == CancelApprovals(s.approvals, ids);
    hide TreeCancel, TreeIds, CancelRuns, CancelDelegations, ReleaseLedgers, CancelSessions, CancelTasks;
  }

  lemma CancelGoesThrough(s: State, root: Id)
    requires root in s.runs && s.runs[root].status != Cancelled
    ensures Step(s, CancelTree(root, s.runs[root].revision)).0 == TreeCancel(s, root)
  {
    hide TreeCancel;
  }

  /** Cancelling a run that is not yet cancelled leaves its whole true subtree quiescent. */
  lemma CancelQuiesces(history: seq<Command>, root: Id, d: Id)
    requires var s := After(history);
      root in s.runs && s.runs[root].status != Cancelled && InSubtree(ParentsOf(s.delegations), root, d)
    ensures var s := After(history);
      Quiescent(Step(s, CancelTree(root, s.runs[root].revision)).0, d)
  {
    Reachable(history);
    var s := After(history);
    CancelGoesThrough(s, root);
    hide After, Step, TreeCancel, InSubtree, TreeIds, Quiescent, Exact, ParentsOf;
    TreeIdsAreSubtree(s, root, d);
    CancelledMemberIsQuiet(s, root, d);
  }

  /** The root's own delegation is the one that reserves in `p`'s ledger. */
  predicate ReservesFor(s: State, root: Id, p: Id) {
    root in s.delegations && s.delegations[root].parent == p && Active(s.delegations[root].status)
  }

  lemma ReservesMeans(s: State, root: Id, p: Id)
    requires ReservesFor(s, root, p)
    ensures root in s.delegations && s.delegations[root].parent == p && Active(s.delegations[root].status)
  {}

  /** Outside the subtree only the root's own parent ledger changes. */
  lemma OutsideReleases(s: State, root: Id, p: Id)
    requires Closed(s) && p !in TreeIds(s, root)
    ensures ReleasedBy(s.delegations, TreeIds(s, root), p)
         == if ReservesFor(s, root, p) then {root} else {}
  {
    forall c | c in s.delegations && c in TreeIds(s, root) && s.delegations[c].parent == p
      ensures c == root
    {
      if c != root {
        TreeIdsAreSubtree(s, root, c);
        SubtreeIsStored(ParentsOf(s.delegations), s.relations, root, c);
        StoredUnfold(ParentsOf(s.delegations), s.relations, root, c);
        SubtreeIsStored(ParentsOf(s.delegations), s.relations, root, p);
        TreeIdsAreSubtree(s, root, p);
      }
    }
    assert root in TreeIds(s, root);
    hide TreeIds, Closed;
  }

  lemma ReleasedKeys(ds: Delegations, ids: set<Id>, p: Id, r: Resource)
    ensures Only(Grants(ds, p, r), ids).Keys == ReleasedBy(ds, ids, p)
    ensures forall c :: c in ReleasedBy(ds, ids, p) ==> c in ds && Only(Grants(ds, p, r), ids)[c] == Of(ds[c].grant, r)
  {}

  lemma NothingReleased(l: Ledger, ds: Delegations, ids: set<Id>, p: Id)
    requires ReleasedBy(ds, ids, p) == {}
    ensures ReleaseLedger(l, ds, ids, p) == l
  {
    forall r: Resource ensures ReleasedAmounts(ds, ids, p, r) == 0 {
      ReleasedKeys(ds, ids, p, r);
      hide ReleasedBy, Grants, Only;
      SumZero(Only(Grants(ds, p, r), ids));
    }
    hide ReleasedAmounts, ReleasedBy;
  }

  lemma OneAmountReleased(ds: Delegations, ids: set<Id>, p: Id, c: Id, r: Resource)
    requires ReleasedBy(ds, ids, p) == {c}
    ensures c in ds && ReleasedAmounts(ds, ids, p, r) == Of(ds[c].grant, r)
  {
    ReleasedKeys(ds, ids, p, r);
    hide ReleasedBy, Grants, Only, Of, Sum;
    assert c in ReleasedBy(ds, ids, p);
    assert Only(Grants(ds, p, r), ids) == map[][c := Of(ds[c].grant, r)];
    SumZero(map[]);
    SumInsert(map[], c, Of(ds[c].grant, r));
  }

  lemma OneReleased(l: Ledger, ds: Delegations, ids: set<Id>, p: Id, c: Id, r: Resource)
    requires ReleasedBy(ds, ids, p) == {c} && LedgerExact(l, ds, p)
    ensures c in ds
    ensures Of(ReleaseLedger(l, ds, ids, p).reserved, r) == Of(l.reserved, r) - Of(ds[c].grant, r)
  {
    ReleaseIsExact(l, ds, ids, p, r);
    OneAmountReleased(ds, ids, p, c, r);
    hide LedgerExact, ReleasedBy, ReleasedAmounts;
    match r case Tokens => case Cost => case ToolCalls =>
  }

  lemma CancelRowFrame(s: State, root: Id, d: Id)
    requires d !in TreeIds(s, root)
    ensures var s' := TreeCancel(s, root);
      && s'.runs.Keys == s.runs.Keys && s'.delegations.Keys == s.delegations.Keys
      && (d in s.runs ==> s'.runs[d] == s.runs[d])
      && (d in s.delegations ==> s'.delegations[d] == s.delegations[d])
      && s'.relations == s.relations
  {
    CancelTables(s, root);
    hide TreeCancel, TreeIds, CancelRun, CancelDelegation;
  }

  /** What a cancellation may change in the ledger of a run outside the cancelled tree. */
  ghost predicate LedgerFrame(s: State, s': State, root: Id, d: Id, r: Resource)
    requires d in s.ledgers
  {
    && d in s'.ledgers
    && if ReservesFor(s, root, d) then GivesBack(s.ledgers[d], s'.ledgers[d], s.delegations[root].grant, r)
       else s'.ledgers[d] == s.ledgers[d]
  }

  /** Only the reservation falls, by the grant. */
  predicate GivesBack(l: Ledger, l': Ledger, grant: Amounts, r: Resource) {
    && Of(l'.reserved, r) == Of(l.reserved, r) - Of(grant, r)
    && l'.limit == l.limit && l'.direct == l.direct && l'.childConsumed == l.childConsumed && l'.childCount == l.childCount
  }

  lemma OneGivenBack(l: Ledger, ds: Delegations, ids: set<Id>, p: Id, c: Id, r: Resource)
    requires ReleasedBy(ds, ids, p) == {c} && LedgerExact(l, ds, p)
    ensures c in ds && GivesBack(l, ReleaseLedger(l, ds, ids, p), ds[c].grant, r)
  {
    OneReleased(l, ds, ids, p, c, r);
    ReleaseColumns(l, ds, ids, p);
    hide LedgerExact, ReleasedBy, ReleaseLedger;
  }

  lemma ReleaseColumns(l: Ledger, ds: Delegations, ids: set<Id>, p: Id)
    ensures var l' := ReleaseLedger(l, ds, ids, p);
      l'.limit == l.limit && l'.direct == l.direct && l'.childConsumed == l.childConsumed && l'.childCount == l.childCount
  {
    hide ReleasedAmounts, ReleasedBy;
  }

  lemma ReleasedLedger(s: State, root: Id, d: Id)
    requires Recounted(s) && d in s.ledgers
    ensures d in TreeCancel(s, root).ledgers
    ensures TreeCancel(s, root).ledgers[d] == ReleaseLedger(s.ledgers[d], s.delegations, TreeIds(s, root), d)
    ensures LedgerExact(s.ledgers[d], s.delegations, d)
  {
    CancelTables(s, root);
    hide TreeCancel, TreeIds, ReleaseLedger, LedgerExact;
  }

  lemma CancelLedgerFrame(s: State, root: Id, d: Id, r: Resource)
    requires Closed(s) && Recounted(s) && d !in TreeIds(s, root) && d in s.ledgers
    ensures LedgerFrame(s, TreeCancel(s, root), root, d, r)
  {
    hide *;
    var ids := TreeIds(s, root);
    OutsideReleases(s, root, d);
    ReleasedLedger(s, root, d);
    if ReservesFor(s, root, d) {
      ReservesMeans(s, root, d);
      OneGivenBack(s.ledgers[d], s.delegations, ids, d, root, r);
    } else {
      NothingReleased(s.ledgers[d], s.delegations, ids, d);
    }
    FrameOf(s, TreeCancel(s, root), root, d, r);
  }

  lemma FrameOf(s: State, s': State, root: Id, d: Id, r: Resource)
    requires d in s.ledgers && d in s'.ledgers
    requires ReservesFor(s, root, d) ==> root in s.delegations && GivesBack(s.ledgers[d], s'.ledgers[d], s.delegations[root].grant, r)
    requires !ReservesFor(s, root, d) ==> s'.ledgers[d] == s.ledgers[d]
    ensures LedgerFrame(s, s', root, d, r)
  {
    hide GivesBack;
  }

  /** The frame of a cancellation: outside the subtree, runs and delegations are untouched, and so
      is every ledger except the one of the root's parent, where only the reservation falls, by
      exactly the root's grant, if the root's delegation was still active. */
  lemma CancelFrame(history: seq<Command>, root: Id, d: Id, r: Resource)
    requires var s := After(history);
      root in s.runs && s.runs[root].status != Cancelled && !InSubtree(ParentsOf(s.delegations), root, d)
    ensures var s := After(history);
      var s' := Step(s, CancelTree(root, s.runs[root].revision)).0;
      && (d in s.runs ==> d in s'.runs && s'.runs[d] == s.runs[d])
      && (d in s.delegations ==> d in s'.delegations && s'.delegations[d] == s.delegations[d])
      && (d in s.ledgers ==> LedgerFrame(s, s', root, d, r))
      && s'.relations == s.relations
  {
    Reachable(history);
    var s := After(history);
    CancelGoesThrough(s, root);
    hide After, Step, TreeCancel, InSubtree, TreeIds, Closed, Recounted, ParentsOf, LedgerFrame;
    assert Closed(s) && Recounted(s);
    TreeIdsAreSubtree(s, root, d);
    CancelRowFrame(s, root, d);
    if d in s.ledgers { CancelLedgerFrame(s, root, d, r); }
  }

  // ----- which rows a cancellation may move -----

  ghost predicate RunsFollow(runs: map<Id, Run>, runs': map<Id, Run>) {
    runs'.Keys == runs.Keys
    && forall r :: r in runs && runs'[r] != runs[r] ==> runs'[r].status in RunTargets(runs[r].status)
  }

  ghost predicate CallsFollow(calls: map<Id, ToolCall>, calls': map<Id, ToolCall>) {
    calls'.Keys == calls.Keys
    && forall t :: t in calls && calls'[t] != calls[t] ==> calls'[t].status in ToolCallTargets(calls[t].status)
  }

  ghost predicate StepsFollow(steps: map<Id, RunStep>, steps': map<Id, RunStep>) {
    steps'.Keys == steps.Keys
    && forall t :: t in steps && steps'[t] != steps[t] ==> steps'[t].status in StepTargets(steps[t].status)
  }

  ghost predicate ApprovalsFollow(approvals: map<Id, Approval>, approvals': map<Id, Approval>) {
    approvals'.Keys == approvals.Keys
    && forall a :: a in approvals && approvals'[a] != approvals[a] ==>
         approvals'[a].status in ToolApprovalTargets(approvals[a].status)
  }

  /** The row of task `t` was written with a status its old status does not lead to. */
  ghost predicate OffTable(tasks: map<Id, Task>, tasks': map<Id, Task>, t: Id) {
    t in tasks && t in tasks' && tasks'[t] != tasks[t] && tasks'[t].status !in TaskTargets(tasks[t].status)
  }

  lemma CancelledRunsFollow(runs: map<Id, Run>, ids: set<Id>)
    ensures RunsFollow(runs, CancelRuns(runs, ids))
  {
    forall r | r in runs && !Terminal(runs[r].status) ensures Cancelled in RunTargets(runs[r].status) {}
  }

  lemma CancelledCallsFollow(calls: map<Id, ToolCall>, ids: set<Id>)
    ensures CallsFollow(calls, CancelCalls(calls, OpenCalls(calls, ids)))
  {}

  lemma CancelledStepsFollow(steps: map<Id, RunStep>, touched: set<Id>)
    ensures StepsFollow(steps, CancelSteps(steps, touched))
  {}

  lemma WithdrawnFollow(approvals: map<Id, Approval>, ids: set<Id>)
    ensures ApprovalsFollow(approvals, CancelApprovals(approvals, ids))
  {}

  lemma CancelTaskRow(tasks: map<Id, Task>, owned: set<Id>, t: Id)
    ensures CancelTasks(tasks, owned).Keys == tasks.Keys
    ensures OffTable(tasks, CancelTasks(tasks, owned), t) <==>
      t in tasks && t in owned && tasks[t].status in {TaskWaitingForReview, TaskRevisionRequired}
    ensures t in tasks && CancelTasks(tasks, owned)[t] != tasks[t] ==>
      (!OffTable(tasks, CancelTasks(tasks, owned), t) <==> tasks[t].status in {TaskCreated, TaskAssigned, TaskRunning})
  {}

  lemma TreeCancelOtherTables(s: State, root: Id)
    ensures var ids, s' := TreeIds(s, root), TreeCancel(s, root);
      && s'.toolCalls == CancelCalls(s.toolCalls, OpenCalls(s.toolCalls, ids))
      && s'.steps == CancelSteps(s.steps, StepsOf(s.toolCalls, OpenCalls(s.toolCalls, ids)))
      && s'.approvals == CancelApprovals(s.approvals, ids)
  {}

  /** Every changed run, tool call, step and approval row moved along its table, and no row appeared
      or vanished; the row of task `t`, if changed, did so exactly when it was in one of three statuses. */
  ghost predicate WritesFollow(s: State, s': State, t: Id) {
    && RunsFollow(s.runs, s'.runs) && CallsFollow(s.toolCalls, s'.toolCalls)
    && StepsFollow(s.steps, s'.steps) && ApprovalsFollow(s.approvals, s'.approvals)
    && s'.tasks.Keys == s.tasks.Keys
    && (t in s.tasks && s'.tasks[t] != s.tasks[t] ==>
          (!OffTable(s.tasks, s'.tasks, t) <==> s.tasks[t].status in {TaskCreated, TaskAssigned, TaskRunning}))
  }

  lemma NothingWritten(s: State, t: Id)
    ensures WritesFollow(s, s, t)
  {
    hide OffTable;
  }

  lemma TreeCancelFollows(s: State, root: Id, t: Id)
    ensures WritesFollow(s, TreeCancel(s, root), t)
  {
    var ids := TreeIds(s, root);
    CancelTables(s, root);
    TreeCancelOtherTables(s, root);
    hide *;
    CancelledRunsFollow(s.runs, ids);
    CancelledCallsFollow(s.toolCalls, ids);
    CancelledStepsFollow(s.steps, StepsOf(s.toolCalls, OpenCalls(s.toolCalls, ids)));
    WithdrawnFollow(s.approvals, ids);
    CancelTaskRow(s.tasks, TasksOf(s.runs, Stopped(s.runs, ids)), t);
    AllFollow(s, TreeCancel(s, root), t);
  }

  lemma AllFollow(s: State, s': State, t: Id)
    requires RunsFollow(s.runs, s'.runs) && CallsFollow(s.toolCalls, s'.toolCalls)
    requires StepsFollow(s.steps, s'.steps) && ApprovalsFollow(s.approvals, s'.approvals)
    requires s'.tasks.Keys == s.tasks.Keys
    requires t in s.tasks && s'.tasks[t] != s.tasks[t] ==>
      (!OffTable(s.tasks, s'.tasks, t) <==> s.tasks[t].status in {TaskCreated, TaskAssigned, TaskRunning})
    ensures WritesFollow(s, s', t)
  {
    hide RunsFollow, CallsFollow, StepsFollow, ApprovalsFollow, OffTable;
  }

  /** Every run, tool call, step and approval row that `cancel_tree` changes, called after any
      history, moves along its transition table. A task row it changes does so exactly when the task
      was created, assigned or running. */
  lemma CancelWritesFollowTables(history: seq<Command>, root: Id, expectedRevision: nat, t: Id)
    ensures var s := After(history);
      WritesFollow(s, Step(s, CancelTree(root, expectedRevision)).0, t)
  {
    var s := After(history);
    NothingWritten(s, t);
    TreeCancelFollows(s, root, t);
    hide After, TreeCancel, WritesFollow;
  }

  /** The exact condition under which `cancel_tree` leaves the task table: some run of the true
      subtree is unfinished while its task waits for review or needs revision. */
  lemma CancelLeavesTaskTableExactly(history: seq<Command>, root: Id)
    requires var s := After(history); root in s.runs && s.runs[root].status != Cancelled
    ensures var s := After(history);
      var s' := Step(s, CancelTree(root, s.runs[root].revision)).0;
      (exists t :: OffTable(s.tasks, s'.tasks, t)) <==>
      (exists r :: r in s.runs && InSubtree(ParentsOf(s.delegations), root, r) && UnfinishedUnderReview(s, r))
  {
    Reachable(history);
    var s := After(history);
    CancelGoesThrough(s, root);
    hide *;
    assert Closed(s) by { InvParts(s); }
    forall r ensures r in TreeIds(s, root) <==> InSubtree(ParentsOf(s.delegations), root, r) {
      TreeIdsAreSubtree(s, root, r);
    }
    TreeCancelLeavesTable(s, root);
  }

  /** The run is unfinished and its task is waiting for review or needs revision. */
  predicate UnfinishedUnderReview(s: State, r: Id) {
    r in s.runs && !Terminal(s.runs[r].status) && s.runs[r].task in s.tasks
    && s.tasks[s.runs[r].task].status in {TaskWaitingForReview, TaskRevisionRequired}
  }

  lemma TreeCancelLeavesTable(s: State, root: Id)
    ensures (exists t :: OffTable(s.tasks, TreeCancel(s, root).tasks, t)) <==>
            (exists r :: r in TreeIds(s, root) && UnfinishedUnderReview(s, r))
  {
    var owned, tasks' := TasksOf(s.runs, Stopped(s.runs, TreeIds(s, root))), TreeCancel(s, root).tasks;
    CancelTables(s, root);
    hide TreeCancel, TreeIds, CancelTasks, OffTable, Terminal;
    forall t ensures OffTable(s.tasks, tasks', t) <==>
      t in s.tasks && t in owned && s.tasks[t].status in {TaskWaitingForReview, TaskRevisionRequired}
    {
      CancelTaskRow(s.tasks, owned, t);
    }
    if t :| OffTable(s.tasks, tasks', t) {
      var r :| r in Stopped(s.runs, TreeIds(s, root)) && s.runs[r].task == t;
      assert UnfinishedUnderReview(s, r);
    }
    if r :| r in TreeIds(s, root) && UnfinishedUnderReview(s, r) {
      assert r in Stopped(s.runs, TreeIds(s, root));
      assert OffTable(s.tasks, tasks', s.runs[r].task);
    }
  }

  // ----- what a direct cancellation leaves for cancel_tree -----

  /** After a `cancel_tree` with the current revision the true subtree of `root` is quiescent if
      and only if the root was not cancelled yet, or the subtree was quiescent already: a root that
      was cancelled directly, by a run transition, is where the transaction returns early. */
  lemma CancelQuiescesExactly(history: seq<Command>, root: Id)
    requires root in After(history).runs
    ensures var s := After(history);
      var s' := Step(s, CancelTree(root, s.runs[root].revision)).0;
      (forall d :: InSubtree(ParentsOf(s.delegations), root, d) ==> Quiescent(s', d)) <==>
      s.runs[root].status != Cancelled || (forall d :: InSubtree(ParentsOf(s.delegations), root, d) ==> Quiescent(s, d))
  {
    var s := After(history);
    if s.runs[root].status == Cancelled {
      CancelReturnsEarly(s, root, s.runs[root].revision);
      hide *;
    } else {
      hide *;
      forall d | InSubtree(ParentsOf(s.delegations), root, d)
        ensures Quiescent(Step(s, CancelTree(root, s.runs[root].revision)).0, d)
      {
        CancelQuiesces(history, root, d);
      }
    }
  }

  lemma CancelReturnsEarly(s: State, root: Id, expectedRevision: nat)
    requires root in s.runs && s.runs[root].status == Cancelled
    ensures Step(s, CancelTree(root, expectedRevision)) == (s, Done)
  {
    hide TreeCancel;
  }

  // ----- and keeps stopped -----

  /** No step revives a terminal run or leases one. */
  lemma StepEvolves(s: State, c: Command)
    requires Inv(s)
    ensures RunsEvolve(s.runs, Step(s, c).0.runs)
  {
    hide *;
    InvParts(s);
    if c.Delegate? {
      StepIsDelegate(s, c);
      DelegateStepEvolves(s, c.catalog, c.request);
    } else if c.CancelTree? {
      StepIsCancel(s, c);
      CancelStepEvolves(s, c.root, c.expectedRevision);
    } else if c.Complete? {
      StepIsComplete(s, c);
      CompleteEvolves(s, c.run, c.worker, c.token, c.now, c.target, c.ended, c.usage, c.compaction);
    } else {
      OtherwisePlain(c);
      QuietStep(s, c);
      QuietEvolves(s, Step(s, c).0);
    }
  }

  lemma QuietEvolves(s: State, s': State)
    requires Quiet(s, s')
    ensures RunsEvolve(s.runs, s'.runs) && s'.delegations == s.delegations && s'.relations == s.relations
  {
    hide RunsEvolve, SessionsEvolve;
  }

  lemma DelegateStepEvolves(s: State, cat: Catalog, q: Request)
    requires Leased(s)
    ensures RunsEvolve(s.runs, DelegateStep(s, cat, q).0.runs)
  {
    hide RunsEvolve, Admission, WithDelegation, Leased, Admitted;
    RunsStay(s);
    var verdict := Admission(s, cat, q);
    if verdict.Admit? {
      AdmissionMeans(s, cat, q);
      AdmittedInserts(s, cat, q, verdict.permissions);
      DelegateEvolves(s, q, verdict.permissions);
    }
  }

  lemma CancelStepEvolves(s: State, root: Id, expectedRevision: nat)
    requires Leased(s)
    ensures RunsEvolve(s.runs, CancelStep(s, root, expectedRevision).0.runs)
  {
    RunsStay(s);
    CancelTables(s, root);
    hide RunsEvolve, TreeCancel, TreeIds;
    CancelEvolves(s.runs, TreeIds(s, root));
  }

  lemma OutsideTree(s: State, root: Id, r: Id)
    ensures r in TreeIds(s, root) <==> r == root || Pair(root, r) in s.relations
  {
    if Pair(root, r) in s.relations {
      assert Pair(root, r).ancestor == root && Pair(root, r).descendant == r;
    }
    if r in DescendantsOf(s.relations, root) {
      var k :| k in s.relations && k.ancestor == root && k.descendant == r;
      assert k == Pair(root, r);
    }
  }

  /** Growing below a run outside the tree leaves the tree alone. */
  lemma GrowAway(rel: Closure, parent: Id, child: Id, delegation: Id, root: Id)
    requires parent != root && Pair(root, parent) !in rel
    ensures DescendantsOf(Grow(rel, parent, child, delegation), root) == DescendantsOf(rel, root)
  {
    var rel' := Grow(rel, parent, child, delegation);
    forall k | k in rel' && k.ancestor == root ensures k in rel {
      GrowCases(rel, parent, child, delegation, k);
    }
    assert rel.Keys <= rel'.Keys;
    hide Grow;
  }

  /** Every run of the stored tree below `root` exists and is terminal. */
  ghost predicate StoppedTree(s: State, root: Id) {
    forall d :: d in TreeIds(s, root) ==> d in s.runs && Terminal(s.runs[d].status)
  }

  lemma QuietTables(s: State, c: Command)
    requires Rows(s) && Leased(s) && Plain(c)
    ensures Step(s, c).0.relations == s.relations && Step(s, c).0.delegations == s.delegations
  {
    hide *;
    QuietStep(s, c);
    QuietEvolves(s, Step(s, c).0);
  }

  /** Only delegations write relation rows. */
  lemma RelationsStay(s: State, c: Command)
    requires Rows(s) && Leased(s) && !c.Delegate?
    ensures Step(s, c).0.relations == s.relations
  {
    hide *;
    if c.CancelTree? {
      StepIsCancel(s, c);
      CancelRelations(s, c.root, c.expectedRevision);
    } else if c.Complete? {
      StepIsComplete(s, c);
      CompleteEnds(s, c.run, c.worker, c.token, c.now, c.target, c.ended, c.usage, c.compaction);
    } else {
      OtherwisePlain(c);
      QuietTables(s, c);
    }
  }

  lemma CancelRelations(s: State, root: Id, expectedRevision: nat)
    ensures CancelStep(s, root, expectedRevision).0.relations == s.relations
  {
    hide TreeCancel, TreeIds;
    CancelTables(s, root);
  }

  /** A step adds relation rows only below a live run, so a stopped tree gets no new members. */
  lemma StepKeepsTree(s: State, c: Command, root: Id)
    requires Rows(s) && Leased(s) && StoppedTree(s, root)
    ensures TreeIds(Step(s, c).0, root) == TreeIds(s, root)
  {
    if c.Delegate? {
      hide Rows, Leased, DelegateStep, TreeIds, StoppedTree;
      DelegateKeepsTree(s, c.catalog, c.request, root);
    } else {
      RelationsStay(s, c);
      hide Step, Rows, Leased, StoppedTree, DescendantsOf;
    }
  }

  lemma DelegateKeepsTree(s: State, cat: Catalog, q: Request, root: Id)
    requires StoppedTree(s, root)
    ensures TreeIds(DelegateStep(s, cat, q).0, root) == TreeIds(s, root)
  {
    hide Admission, WithDelegation, DescendantsOf;
    var verdict := Admission(s, cat, q);
    if verdict.Admit? {
      AdmissionMeans(s, cat, q);
      OutsideTree(s, root, q.run);
      AdmittedRunIsLive(s, cat, q, verdict.permissions);
      hide Admitted, TreeIds;
      GrowAway(s.relations, q.run, q.childRun, q.delegation, root);
      TreeAfter(s, q, verdict.permissions, root);
    }
  }

  lemma AdmittedRunIsLive(s: State, cat: Catalog, q: Request, permissions: Doc)
    requires Admitted(s, cat, q, permissions)
    ensures q.run in s.runs && q.run in s.sessions && s.runs[q.run].task in s.tasks && !Terminal(s.runs[q.run].status)
  {}

  lemma TreeAfter(s: State, q: Request, permissions: Doc, root: Id)
    requires q.run in s.runs && q.run in s.sessions && s.runs[q.run].task in s.tasks
    ensures TreeIds(WithDelegation(s, q, permissions), root)
         == {root} + DescendantsOf(Grow(s.relations, q.run, q.childRun, q.delegation), root)
    ensures TreeIds(s, root) == {root} + DescendantsOf(s.relations, root)
  {
    hide DescendantsOf, Grow;
  }

  lemma AfterStep(history: seq<Command>, c: Command)
    ensures After(history + [c]) == Step(After(history), c).0
  {
    assert (history + [c])[..|history|] == history;
    hide Step;
  }

  lemma StoppedStep(s: State, c: Command, root: Id)
    requires Inv(s) && StoppedTree(s, root)
    ensures var s' := Step(s, c).0;
      && TreeIds(s', root) == TreeIds(s, root) && StoppedTree(s', root)
      && forall d :: d in TreeIds(s, root) ==> d in s.runs && d in s'.runs && s'.runs[d].status == s.runs[d].status
  {
    hide *;
    InvParts(s);
    StepEvolves(s, c);
    StepKeepsTree(s, c, root);
    StaysStopped(s, Step(s, c).0, root);
  }

  lemma StaysStopped(s: State, s': State, root: Id)
    requires RunsEvolve(s.runs, s'.runs) && TreeIds(s', root) == TreeIds(s, root) && StoppedTree(s, root)
    ensures StoppedTree(s', root)
    ensures forall d :: d in TreeIds(s, root) ==> d in s.runs && d in s'.runs && s'.runs[d].status == s.runs[d].status
  {
    hide TreeIds, Terminal;
  }

  lemma {:induction false} TreeStaysStopped(history: seq<Command>, later: seq<Command>, root: Id)
    requires StoppedTree(After(history), root)
    ensures var s, s' := After(history), After(history + later);
      && TreeIds(s', root) == TreeIds(s, root) && StoppedTree(s', root)
      && forall d :: d in TreeIds(s, root) ==> d in s.runs && d in s'.runs && s'.runs[d].status == s.runs[d].status
    decreases |later|
  {
    if later == [] {
      assert history + later == history;
    } else {
      var before, c := later[..|later| - 1], later[|later| - 1];
      assert history + later == (history + before) + [c];
      TreeStaysStopped(history, before, root);
      AfterStep(history + before, c);
      Reachable(history + before);
      hide After, TreeIds, Step, Inv, StoppedTree;
      StoppedStep(After(history + before), c, root);
    }
  }

  lemma TreeIdsAreSubtrees(history: seq<Command>, root: Id)
    ensures var s := After(history);
      forall d :: d in TreeIds(s, root) <==> InSubtree(ParentsOf(s.delegations), root, d)
  {
    Reachable(history);
    var s := After(history);
    hide After, InSubtree, TreeIds, Exact;
    forall d ensures d in TreeIds(s, root) <==> InSubtree(ParentsOf(s.delegations), root, d) {
      TreeIdsAreSubtree(s, root, d);
    }
  }

  lemma TreeMembersAreRuns(history: seq<Command>, root: Id)
    requires root in After(history).runs
    ensures forall d :: d in TreeIds(After(history), root) ==> d in After(history).runs
  {
    Reachable(history);
    RelationEnds(After(history));
    hide After, Inv;
  }

  /** A stopped subtree stays stopped: under every later history it has the same members, and each
      of them keeps its terminal status. */
  lemma StoppedForGood(history: seq<Command>, later: seq<Command>, root: Id)
    requires var s := After(history);
      && root in s.runs
      && forall d :: InSubtree(ParentsOf(s.delegations), root, d) && d in s.runs ==> Terminal(s.runs[d].status)
    ensures var s, s' := After(history), After(history + later);
      forall d ::
        && (InSubtree(ParentsOf(s'.delegations), root, d) <==> InSubtree(ParentsOf(s.delegations), root, d))
        && (InSubtree(ParentsOf(s.delegations), root, d) ==>
              d in s.runs && d in s'.runs && s'.runs[d].status == s.runs[d].status)
  {
    TreeIdsAreSubtrees(history, root);
    TreeIdsAreSubtrees(history + later, root);
    TreeMembersAreRuns(history, root);
    hide After, InSubtree, TreeIds, ParentsOf, Terminal;
    TreeStaysStopped(history, later, root);
  }

  /** What a delegation call that was accepted wrote to the run and delegation tables. */
  ghost predicate DelegateWrote(s: State, s': State, q: Request) {
    && q.run in s.runs && HoldsLease(s.runs[q.run], q.worker, q.token) && Delegatable(s.runs[q.run].status)
    && q.childRun !in s.runs && q.childRun !in s.delegations && q.childRun in s'.delegations
    && s'.runs == s.runs[q.childRun := ChildRun(q)]
    && s'.delegations == s.delegations[q.childRun := s'.delegations[q.childRun]]
    && s'.delegations[q.childRun].parent == q.run && Active(s'.delegations[q.childRun].status)
  }

  lemma InsertWrites(s: State, q: Request, permissions: Doc)
    requires Rows(s) && Insertable(s, q) && HoldsLease(s.runs[q.run], q.worker, q.token) && Delegatable(s.runs[q.run].status)
    ensures DelegateWrote(s, WithDelegation(s, q, permissions), q)
  {
    FreshChild(s, q);
    DelegationTables(s, q, permissions);
    var d := NewDelegation(q, s.sessions[q.run].policy, permissions);
    assert d.parent == q.run && Active(d.status);
    assert q.childRun !in s.runs;
    hide *;
    WroteBy(s, WithDelegation(s, q, permissions), q, d);
  }

  lemma WroteBy(s: State, s': State, q: Request, d: Delegation)
    requires q.run in s.runs && HoldsLease(s.runs[q.run], q.worker, q.token) && Delegatable(s.runs[q.run].status)
    requires q.childRun !in s.runs && q.childRun !in s.delegations && s'.runs == s.runs[q.childRun := ChildRun(q)]
    requires s'.delegations == s.delegations[q.childRun := d] && d.parent == q.run && Active(d.status)
    ensures DelegateWrote(s, s', q)
  {
    hide HoldsLease, Delegatable, ChildRun, Active;
  }

  lemma AdmittedInserts(s: State, cat: Catalog, q: Request, permissions: Doc)
    requires Admitted(s, cat, q, permissions)
    ensures Insertable(s, q) && HoldsLease(s.runs[q.run], q.worker, q.token) && Delegatable(s.runs[q.run].status)
  {}

  /** A delegation call either changes nothing or is accepted and writes its rows. */
  lemma DelegateOutcome(s: State, cat: Catalog, q: Request)
    requires Rows(s)
    ensures var (s', o) := DelegateStep(s, cat, q);
      || (s' == s && (o.Refused? || o.Replayed?))
      || (o == DelegationMade(q.run, q.childRun, q.worker, q.token) && DelegateWrote(s, s', q))
  {
    hide Rows, Admission, WithDelegation, DelegateWrote, Admitted, HoldsLease, Delegatable;
    var verdict := Admission(s, cat, q);
    if verdict.Admit? {
      AdmissionMeans(s, cat, q);
      AdmittedRunIsLive(s, cat, q, verdict.permissions);
      AdmittedInserts(s, cat, q, verdict.permissions);
      InsertWrites(s, q, verdict.permissions);
    }
  }

  lemma EndedRowStaysInDelegate(s: State, cat: Catalog, q: Request, d: Id)
    requires Rows(s) && d in s.delegations
    ensures var s' := DelegateStep(s, cat, q).0; d in s'.delegations && s'.delegations[d] == s.delegations[d]
  {
    DelegateOutcome(s, cat, q);
    hide Rows, DelegateStep, HoldsLease, ChildRun;
  }

  /** An ended delegation is never touched again. */
  lemma EndedRowStays(s: State, c: Command, d: Id)
    requires Rows(s) && Leased(s) && d in s.delegations && !Active(s.delegations[d].status)
    ensures d in Step(s, c).0.delegations && Step(s, c).0.delegations[d] == s.delegations[d]
  {
    hide *;
    if c.Delegate? {
      StepIsDelegate(s, c);
      EndedRowStaysInDelegate(s, c.catalog, c.request, d);
    } else if c.CancelTree? {
      StepIsCancel(s, c);
      EndedRowStaysInCancel(s, c.root, c.expectedRevision, d);
    } else if c.Complete? {
      StepIsComplete(s, c);
      CompleteEnds(s, c.run, c.worker, c.token, c.now, c.target, c.ended, c.usage, c.compaction);
      SameRows(s.delegations, Step(s, c).0.delegations);
    } else {
      OtherwisePlain(c);
      QuietTables(s, c);
    }
  }

  lemma EndedRowStaysInCancel(s: State, root: Id, expectedRevision: nat, d: Id)
    requires d in s.delegations && !Active(s.delegations[d].status)
    ensures var s' := CancelStep(s, root, expectedRevision).0; d in s'.delegations && s'.delegations[d] == s.delegations[d]
  {
    hide TreeCancel, TreeIds, CancelRuns, ReleaseLedgers, CancelSessions, CancelTasks;
    CancelTables(s, root);
  }

  lemma {:induction false} EndedForGood(history: seq<Command>, later: seq<Command>, d: Id)
    requires var s := After(history); d in s.delegations && !Active(s.delegations[d].status)
    ensures var s, s' := After(history), After(history + later);
      d in s'.delegations && s'.delegations[d] == s.delegations[d]
    decreases |later|
  {
    if later == [] {
      assert history + later == history;
    } else {
      var before, c := later[..|later| - 1], later[|later| - 1];
      assert history + later == (history + before) + [c];
      EndedForGood(history, before, d);
      AfterStep(history + before, c);
      Reachable(history + before);
      var s := After(history + before);
      assert Rows(s) && Leased(s);
      hide After, Step, Inv, Rows, Leased;
      EndedRowStays(s, c, d);
    }
  }

  lemma SubtreeAfterCancel(history: seq<Command>, root: Id, d: Id)
    requires var s := After(history); root in s.runs && s.runs[root].status != Cancelled
    ensures var s := After(history);
      var s' := After(history + [CancelTree(root, s.runs[root].revision)]);
      && s' == Step(s, CancelTree(root, s.runs[root].revision)).0
      && s'.runs.Keys == s.runs.Keys && s'.delegations.Keys == s.delegations.Keys
      && (InSubtree(ParentsOf(s'.delegations), root, d) <==> InSubtree(ParentsOf(s.delegations), root, d))
  {
    var s := After(history);
    AfterStep(history, CancelTree(root, s.runs[root].revision));
    CancelGoesThrough(s, root);
    CancelTables(s, root);
    CancelRowsPassGuard(s.delegations, TreeIds(s, root));
    SameParents(s.delegations, TreeCancel(s, root).delegations);
    assert CancelRuns(s.runs, TreeIds(s, root)).Keys == s.runs.Keys;
    hide *;
    assert CancelDelegations(s.delegations, TreeIds(s, root)).Keys == s.delegations.Keys by { CancelledKeys(s.delegations, TreeIds(s, root)); }
  }

  lemma CancelledKeys(ds: Delegations, ids: set<Id>)
    ensures CancelDelegations(ds, ids).Keys == ds.Keys
  {}

  /** Once a run's tree is cancelled, then under every later history of delegations, claims, wakes,
      advances and cancellations the tree keeps exactly its members, every member's run stays
      terminal and every delegation into the tree stays ended. */
  lemma CancelledForGood(history: seq<Command>, later: seq<Command>, root: Id, d: Id)
    requires var s := After(history); root in s.runs && s.runs[root].status != Cancelled
    ensures var s := After(history);
      var s' := After(history + [CancelTree(root, s.runs[root].revision)] + later);
      && (InSubtree(ParentsOf(s'.delegations), root, d) <==> InSubtree(ParentsOf(s.delegations), root, d))
      && (InSubtree(ParentsOf(s.delegations), root, d) ==>
            && d in s'.runs && Terminal(s'.runs[d].status)
            && (d in s.delegations ==> d in s'.delegations && !Active(s'.delegations[d].status)))
  {
    var s := After(history);
    var cancelled := history + [CancelTree(root, s.runs[root].revision)];
    forall x
      ensures InSubtree(ParentsOf(After(cancelled).delegations), root, x) <==> InSubtree(ParentsOf(s.delegations), root, x)
      ensures After(cancelled).runs.Keys == s.runs.Keys && After(cancelled).delegations.Keys == s.delegations.Keys
      ensures InSubtree(ParentsOf(s.delegations), root, x) ==> Quiescent(After(cancelled), x)
    {
      SubtreeAfterCancel(history, root, x);
      if InSubtree(ParentsOf(s.delegations), root, x) { CancelQuiesces(history, root, x); }
    }
    hide After, InSubtree, ParentsOf, Terminal, Step, Active;
    StoppedForGood(cancelled, later, root);
    if InSubtree(ParentsOf(s.delegations), root, d) && d in s.delegations {
      assert Quiescent(After(cancelled), d);
      EndedForGood(cancelled, later, d);
    }
  }

  // ----- what every delegation was allowed by -----

  /** The frozen policy of a delegation was enabled and listed its target. */
  ghost predicate Authorised(d: Delegation) {
    EnabledFor(d.policy) && d.target in StringSet(Get(d.policy, "allowed_agent_version_ids"))
  }

  ghost predicate AllAuthorised(ds: Delegations) {
    forall c :: c in ds ==> Authorised(ds[c])
  }

  lemma AdmittedUnderPolicy(s: State, cat: Catalog, q: Request)
    requires Admission(s, cat, q).Admit?
    ensures q.run in s.sessions && EnabledFor(s.sessions[q.run].policy)
    ensures q.intent.target in StringSet(Get(s.sessions[q.run].policy, "allowed_agent_version_ids"))
    ensures q.intent.target in cat.versions && cat.versions[q.intent.target].published && TargetReady(cat, q.intent.target)
  {
    hide TreeRefusal, ReserveRefusal, PermissionsFor, HoldsLease, Delegatable, FreshIds, StringSet, EnabledFor,
         TargetReady, LedgerOf, FingerprintOf;
  }

  lemma InsertAuthorises(s: State, q: Request, permissions: Doc)
    requires Insertable(s, q) && AllAuthorised(s.delegations) && EnabledFor(s.sessions[q.run].policy)
    requires q.intent.target in StringSet(Get(s.sessions[q.run].policy, "allowed_agent_version_ids"))
    ensures AllAuthorised(WithDelegation(s, q, permissions).delegations)
  {
    DelegationTables(s, q, permissions);
    NewIsAuthorised(q, s.sessions[q.run].policy, permissions);
    hide WithDelegation, Authorised, NewDelegation, Insertable, EnabledFor, StringSet, Get, ChildRun, ChildLedger, Reserved,
         LedgerOf, Grow;
  }

  lemma DelegateAuthorises(s: State, cat: Catalog, q: Request)
    requires AllAuthorised(s.delegations)
    ensures AllAuthorised(DelegateStep(s, cat, q).0.delegations)
  {
    hide Admission, WithDelegation, AllAuthorised, Admitted, HoldsLease, Delegatable, EnabledFor, StringSet, Get, TargetReady;
    var verdict := Admission(s, cat, q);
    if verdict.Admit? {
      AdmissionMeans(s, cat, q);
      AdmittedInserts(s, cat, q, verdict.permissions);
      AdmittedUnderPolicy(s, cat, q);
      AdmittedRunIsLive(s, cat, q, verdict.permissions);
      hide Insertable;
      InsertAuthorises(s, q, verdict.permissions);
    }
  }

  lemma NewIsAuthorised(q: Request, policy: Doc, permissions: Doc)
    requires EnabledFor(policy) && q.intent.target in StringSet(Get(policy, "allowed_agent_version_ids"))
    ensures Authorised(NewDelegation(q, policy, permissions))
  {
    hide EnabledFor, StringSet, Get, FingerprintOf;
  }

  lemma SameAuthorised(ds: Delegations, ds': Delegations)
    requires AllAuthorised(ds) && SameDefinitions(ds, ds')
    ensures AllAuthorised(ds')
  {
    forall c | c in ds' ensures ds'[c].policy == ds[c].policy && ds'[c].target == ds[c].target {}
    hide EnabledFor, StringSet, Get, SameDefinitions;
    SameRows(ds, ds');
  }

  lemma CancelDefinitions(s: State, root: Id, expectedRevision: nat)
    ensures SameDefinitions(s.delegations, CancelStep(s, root, expectedRevision).0.delegations)
  {
    hide TreeCancel, TreeIds, SameDefinitions;
    CancelTables(s, root);
    CancelRowsPassGuard(s.delegations, TreeIds(s, root));
    SameIsSame(s.delegations);
  }

  lemma StepAuthorises(s: State, c: Command)
    requires Rows(s) && Leased(s) && AllAuthorised(s.delegations)
    ensures AllAuthorised(Step(s, c).0.delegations)
  {
    hide *;
    if c.Delegate? {
      StepIsDelegate(s, c);
      DelegateAuthorises(s, c.catalog, c.request);
    } else if c.CancelTree? {
      StepIsCancel(s, c);
      CancelDefinitions(s, c.root, c.expectedRevision);
      SameAuthorised(s.delegations, Step(s, c).0.delegations);
    } else if c.Complete? {
      StepIsComplete(s, c);
      CompleteEnds(s, c.run, c.worker, c.token, c.now, c.target, c.ended, c.usage, c.compaction);
      SameAuthorised(s.delegations, Step(s, c).0.delegations);
    } else {
      OtherwisePlain(c);
      QuietTables(s, c);
    }
  }

  /** In every reachable state each delegation was made under a frozen policy that had coordination
      enabled and listed the target agent version. */
  lemma {:induction false} DelegationsAuthorised(history: seq<Command>)
    ensures AllAuthorised(After(history).delegations)
    decreases |history|
  {
    if history != [] {
      var before := history[..|history| - 1];
      DelegationsAuthorised(before);
      Reachable(before);
      var s := After(before);
      assert Rows(s) && Leased(s);
      hide Inv, Step, Rows, Leased, AllAuthorised;
      StepAuthorises(s, history[|history| - 1]);
    }
  }

  /** A delegation is only ever accepted for a published version that is the current one of a ready
      agent. */
  lemma TargetWasReady(s: State, c: Command)
    requires Step(s, c).1.DelegationMade?
    ensures c.Delegate? && c.request.intent.target in c.catalog.versions
    ensures c.catalog.versions[c.request.intent.target].published && TargetReady(c.catalog, c.request.intent.target)
  {
    hide Admission, TreeCancel, TreeIds, Reconciled, ReadyIds, SessionPolicy, WithDelegation, TargetReady;
    AdmittedUnderPolicy(s, c.catalog, c.request);
  }
}
