/** What every transaction keeps. */
module CoordinationInvariants {
  import opened Foundation
  import opened MapSums
  import opened RunStates
  import opened Forest
  import opened CoordinationPolicy
  import opened PolicyChains
  import opened Coordination

  // ----- the invariant, one predicate per concern -----

  /** The rows one delegation refers to, and the values copied between them. */
  ghost predicate DelegationRow(s: State, c: Id)
    requires c in s.delegations
  {
    && c in s.runs && s.delegations[c].parent in s.runs && s.delegations[c].parent != c
    && s.runs[c].version == s.delegations[c].target
    && c in s.ledgers && s.ledgers[c].limit == s.delegations[c].grant
    && s.delegations[c].parent in s.ledgers && s.delegations[c].parent in s.sessions
  }

  ghost predicate DelegationRows(s: State) {
    forall c :: c in s.delegations ==> DelegationRow(s, c)
  }

  ghost predicate RelationRows(s: State) { RelationTable(s.relations, s.runs, s.sessions, s.delegations) }

  ghost predicate RelationTable(rel: Closure, runs: map<Id, Run>, sessions: map<Id, Session>, ds: Delegations) {
    forall k :: k in rel ==> k.ancestor in runs && k.ancestor in sessions && k.descendant in ds
  }

  ghost predicate OwnerRows(s: State) {
    && (forall r :: r in s.ledgers ==> r in s.runs)
    && (forall r :: r in s.sessions ==> r in s.runs)
    && (forall r :: r in s.runs ==> s.runs[r].task in s.tasks)
  }

  /** Foreign keys of all tables. */
  ghost predicate Rows(s: State) {
    DelegationRows(s) && RelationRows(s) && OwnerRows(s)
  }

  /** The closure table is exactly the reachability relation of the parent links. */
  ghost predicate Closed(s: State) {
    Exact(ParentsOf(s.delegations), s.relations)
  }

  /** The ledger is what a recount of the delegation rows would give, within its limits. */
  ghost predicate LedgerExact(l: Ledger, ds: Delegations, p: Id) {
    && (forall r: Resource :: Of(l.reserved, r) == Sum(Grants(ds, p, r)))
    && l.childCount == |ChildrenOf(ds, p)|
    && WithinLimits(l)
  }

  ghost predicate Recounted(s: State) { RecountedTables(s.ledgers, s.delegations) }

  ghost predicate RecountedTables(ledgers: map<Id, Ledger>, ds: Delegations) {
    forall p :: p in ledgers ==> LedgerExact(ledgers[p], ds, p)
  }

  /** Whoever's own delegation has ended has stopped. */
  ghost predicate Live(s: State) { LiveTables(s.delegations, s.runs) }

  ghost predicate LiveTables(ds: Delegations, runs: map<Id, Run>) {
    forall c :: c in ds && !Active(ds[c].status) && c in runs ==> Terminal(runs[c].status)
  }

  /** What each child of `p` was charged when it finished. */
  function Charges(ledgers: map<Id, Ledger>, ds: Delegations, p: Id, r: Resource): (m: map<Id, int>) {
    map c | c in ds && ds[c].parent == p && c in ledgers :: Of(ledgers[c].direct, r)
  }

  ghost predicate ChargesAddUp(ledgers: map<Id, Ledger>, ds: Delegations, p: Id)
    requires p in ledgers
  {
    forall r: Resource :: Of(ledgers[p].childConsumed, r) == Sum(Charges(ledgers, ds, p, r))
  }

  /** A ledger's consumption by children is what its children were charged, and only finished
      children have been charged. */
  ghost predicate AccountedTables(ledgers: map<Id, Ledger>, ds: Delegations) {
    && (forall p :: p in ledgers ==> ChargesAddUp(ledgers, ds, p))
    && (forall c :: c in ds && Active(ds[c].status) && c in ledgers ==> ledgers[c].direct == NOTHING)
  }

  ghost predicate Accounted(s: State) { AccountedTables(s.ledgers, s.delegations) }

  /** No agent version repeats on a path, and no path is longer than its leaf's policy allowed. */
  ghost predicate Lineage(s: State) { LineageTables(s.relations, s.delegations, s.runs) }

  ghost predicate LineageTables(rel: Closure, ds: Delegations, runs: map<Id, Run>) {
    forall k :: k in rel ==> LineageRow(rel[k], k, ds, runs)
  }

  ghost predicate LineageRow(row: Relation, k: Pair, ds: Delegations, runs: map<Id, Run>) {
    k.ancestor in runs && k.descendant in runs && k.descendant in ds ==>
      && runs[k.ancestor].version != runs[k.descendant].version
      && row.depth <= PositiveInt(Get(ds[k.descendant].policy, "max_depth"))
  }

  /** The UNIQUE constraints of the delegation table. */
  ghost predicate Unique(s: State) { UniqueTable(s.delegations) }

  ghost predicate UniqueTable(ds: Delegations) {
    forall a, b :: a in ds && b in ds && a != b ==>
      ds[a].id != ds[b].id
      && (ds[a].parent == ds[b].parent ==> ds[a].key != ds[b].key && ds[a].fingerprint != ds[b].fingerprint)
  }

  /** Only live runs are leased. */
  ghost predicate Leased(s: State) { LeasedTable(s.runs) }

  ghost predicate LeasedTable(runs: map<Id, Run>) {
    forall r :: r in runs && runs[r].lease.Some? ==> !Terminal(runs[r].status)
  }

  /** The frozen policy of a parent bounds its children for good. */
  ghost predicate Fanout(s: State) {
    forall p :: p in s.sessions ==> WithinFanout(s.delegations, p, s.sessions[p].policy)
  }

  ghost predicate WithinFanout(ds: Delegations, p: Id, policy: Doc) {
    && |ChildrenOf(ds, p)| <= PositiveInt(Get(policy, "max_children"))
    && |ActiveChildrenOf(ds, p)| <= PositiveInt(Get(policy, "max_parallelism"))
  }

  /** Tools, permissions and secret references of `leaf` all come from `top`. */
  ghost predicate NoWiderTools(leaf: Doc, top: Doc) {
    && StringSet(Get(leaf, "allow")) <= StringSet(Get(top, "allow"))
    && StringSet(Get(leaf, "permissions")) <= StringSet(Get(top, "permissions"))
    && (forall name :: name in SecretRefs(leaf) ==>
          name in SecretRefs(top) && SecretRefs(leaf)[name] == SecretRefs(top)[name])
  }

  /** The authority facts of one delegation row against one ancestor session. */
  ghost predicate Bounded(d: Delegation, ancestor: Session) {
    NoWiderPolicy(d.policy, ancestor.policy) && NoWiderTools(d.permissions, ancestor.tools)
  }

  /** A session holds what its own delegation granted, narrowed by its own policy. */
  ghost predicate Holds(session: Session, d: Delegation) {
    NoWiderPolicy(session.policy, d.policy) && session.tools == d.permissions
  }

  ghost predicate AuthorityTables(rel: Closure, ds: Delegations, sessions: map<Id, Session>) {
    && (forall k :: k in rel && k.ancestor in sessions && k.descendant in ds ==>
          Bounded(ds[k.descendant], sessions[k.ancestor]))
    && (forall d :: d in ds && d in sessions ==> Holds(sessions[d], ds[d]))
  }

  ghost predicate Authority(s: State) { AuthorityTables(s.relations, s.delegations, s.sessions) }

  ghost predicate Inv(s: State) {
    Rows(s) && Closed(s) && Recounted(s) && Accounted(s) && Live(s) && Lineage(s) && Unique(s) && Leased(s) && Fanout(s)
    && Authority(s)
  }

  // ----- steps that touch neither delegations nor relations -----

  /** How any step may change a run: identity columns stay, terminal is final, only live runs are leased. */
  ghost predicate RunMay(run: Run, run': Run) {
    && run'.version == run.version && run'.task == run.task && run'.tokenBudget == run.tokenBudget
    && run'.budgets == run.budgets && run'.createdAt == run.createdAt
    && (Terminal(run.status) ==> run'.status == run.status)
    && (run'.lease.Some? ==> !Terminal(run'.status))
  }

  ghost predicate RunsEvolve(runs: map<Id, Run>, runs': map<Id, Run>) {
    && (forall r :: r in runs ==> r in runs' && RunMay(runs[r], runs'[r]))
    && (forall r :: r in runs' && r !in runs ==> runs'[r].lease.None?)
  }

  ghost predicate SessionsEvolve(s: State, s': State) {
    && (forall r :: r in s.sessions ==>
          r in s'.sessions && s'.sessions[r].policy == s.sessions[r].policy && s'.sessions[r].tools == s.sessions[r].tools)
    && (forall r :: r in s'.sessions && r !in s.sessions ==>
          && r in s.runs
          && (r in s.delegations ==>
                && NoWiderPolicy(s'.sessions[r].policy, s.delegations[r].policy)
                && s'.sessions[r].tools == s.delegations[r].permissions))
  }

  ghost predicate Quiet(s: State, s': State) {
    && s'.delegations == s.delegations && s'.relations == s.relations && s'.ledgers == s.ledgers
    && RunsEvolve(s.runs, s'.runs) && SessionsEvolve(s, s')
    && (forall r :: r in s'.runs ==> s'.runs[r].task in s'.tasks)
  }

  lemma RunStays(s: State, r: Id)
    requires Leased(s) && r in s.runs
    ensures RunMay(s.runs[r], s.runs[r])
  {}

  lemma OneRunEvolves(s: State, r: Id, run': Run)
    requires Leased(s) && r in s.runs && RunMay(s.runs[r], run')
    ensures RunsEvolve(s.runs, s.runs[r := run'])
  {
    forall q | q in s.runs ensures RunMay(s.runs[q], s.runs[r := run'][q]) { RunStays(s, q); }
    hide RunMay, Leased;
  }

  lemma RunsStay(s: State)
    requires Leased(s)
    ensures RunsEvolve(s.runs, s.runs)
  {
    forall q | q in s.runs ensures RunMay(s.runs[q], s.runs[q]) { RunStays(s, q); }
    hide RunMay, Leased;
  }

  lemma WakeStays(s: State, locked: set<Id>, q: Id)
    requires Leased(s) && q in s.runs
    ensures RunMay(s.runs[q], Reconciled(s, locked).runs[q])
    ensures (q in ReadyIds(s, locked) <==> q !in locked && Eligible(s, q))
  {
    hide ChildrenOf, ActiveChildrenOf;
  }

  lemma ReconcileEvolves(s: State, locked: set<Id>)
    requires Leased(s)
    ensures RunsEvolve(s.runs, Reconciled(s, locked).runs)
  {
    forall q | q in s.runs ensures RunMay(s.runs[q], Reconciled(s, locked).runs[q]) { WakeStays(s, locked, q); }
    hide RunMay, Leased, ReadyIds, WakeRun;
  }

  lemma QuietRuns(s: State, s': State)
    requires Rows(s) && RunsEvolve(s.runs, s'.runs) && s'.runs.Keys == s.runs.Keys
    requires s' == s.(runs := s'.runs)
    ensures Quiet(s, s')
  {
    hide WithinLimits, NoWiderPolicy;
  }

  lemma QuietSessions(s: State, s': State)
    requires Rows(s) && Leased(s) && SessionsEvolve(s, s') && s' == s.(sessions := s'.sessions)
    ensures Quiet(s, s')
  {
    RunsStay(s);
    hide WithinLimits, NoWiderPolicy, SessionsEvolve, RunsEvolve;
  }

  lemma QuietClaim(s: State, worker: string, seconds: int, now: int, locked: set<Id>, token: Id)
    requires Rows(s) && Leased(s)
    ensures Quiet(s, ClaimStep(s, worker, seconds, now, locked, token).0)
  {
    RunsStay(s);
    QuietRuns(s, s);
    hide Rows, Leased, RunMay, RunsEvolve, Quiet;
    var next := NextRun(s, now, locked);
    if ValidClaim(worker, seconds) && next.Some? {
      QuietOneRun(s, next.value, ClaimedRun(s.runs[next.value], worker, token, now + seconds));
    }
  }

  lemma QuietOneRun(s: State, r: Id, run': Run)
    requires Rows(s) && Leased(s) && r in s.runs && RunMay(s.runs[r], run')
    ensures Quiet(s, s.(runs := s.runs[r := run']))
  {
    OneRunEvolves(s, r, run');
    QuietRuns(s, s.(runs := s.runs[r := run']));
  }

  /** Steps that move run statuses and session statuses together. */
  lemma QuietRunsAndSessions(s: State, s': State)
    requires Rows(s) && RunsEvolve(s.runs, s'.runs) && s'.runs.Keys == s.runs.Keys
    requires s' == s.(runs := s'.runs, sessions := s'.sessions, tasks := s'.tasks, toolCalls := s'.toolCalls, steps := s'.steps)
    requires s'.sessions.Keys == s.sessions.Keys && s'.tasks.Keys == s.tasks.Keys
    requires forall r :: r in s.sessions ==>
      s'.sessions[r].policy == s.sessions[r].policy && s'.sessions[r].tools == s.sessions[r].tools
    ensures Quiet(s, s')
  {
    hide WithinLimits, NoWiderPolicy;
  }

  lemma QuietReconcile(s: State, locked: set<Id>)
    requires Rows(s) && Leased(s)
    ensures Quiet(s, Reconciled(s, locked))
  {
    ReconcileEvolves(s, locked);
    ReconciledColumns(s, locked);
    hide Reconciled, RunsEvolve, Leased, Rows, Quiet;
    QuietRunsAndSessions(s, Reconciled(s, locked));
  }

  lemma ReconciledColumns(s: State, locked: set<Id>)
    ensures var s' := Reconciled(s, locked);
      && s' == s.(runs := s'.runs, sessions := s'.sessions)
      && s'.runs.Keys == s.runs.Keys && s'.sessions.Keys == s.sessions.Keys
      && forall r :: r in s.sessions ==>
           s'.sessions[r].policy == s.sessions[r].policy && s'.sessions[r].tools == s.sessions[r].tools
  {
    hide ReadyIds;
  }

  lemma QuietSuspend(s: State, run: Id, worker: string, token: Id, now: int)
    requires Rows(s) && Leased(s)
    ensures Quiet(s, SuspendStep(s, run, worker, token, now).0)
  {
    RunsStay(s);
    QuietRuns(s, s);
    hide RunsEvolve, Quiet, Rows;
    var s' := SuspendStep(s, run, worker, token, now).0;
    if s' != s {
      OneRunEvolves(s, run, s'.runs[run]);
      QuietRunsAndSessions(s, s');
    }
  }

  lemma QuietAdvance(s: State, run: Id, target: RunStatus, expectedRevision: nat)
    requires Rows(s) && Leased(s)
    ensures Quiet(s, AdvanceStep(s, run, target, expectedRevision).0)
  {
    RunsStay(s);
    QuietRuns(s, s);
    hide Rows, Quiet, RunsEvolve;
    var s' := AdvanceStep(s, run, target, expectedRevision).0;
    if s' != s {
      assert target in RunTargets(s.runs[run].status);
      AdvancedColumns(s, run, target);
      OneRunEvolves(s, run, Advanced(s.runs[run], target));
      hide AdvancedTables, AdvanceStep;
      QuietRunsAndSessions(s, AdvancedTables(s, run, target));
    }
  }

  lemma AdvancedColumns(s: State, run: Id, target: RunStatus)
    requires run in s.runs
    ensures var s' := AdvancedTables(s, run, target);
      && s' == s.(runs := s'.runs, sessions := s'.sessions, tasks := s'.tasks, toolCalls := s'.toolCalls, steps := s'.steps)
      && s'.runs == s.runs[run := Advanced(s.runs[run], target)]
      && s'.sessions.Keys == s.sessions.Keys && s'.tasks.Keys == s.tasks.Keys
      && forall r :: r in s.sessions ==>
           s'.sessions[r].policy == s.sessions[r].policy && s'.sessions[r].tools == s.sessions[r].tools
  {
    hide CallsEnding, CancelCalls, CancelSteps, StepsOf, Advanced, TaskAdvanced;
  }

  lemma QuietPrepare(s: State, run: Id, session: Session)
    requires Rows(s) && Leased(s) && run in s.runs && run !in s.sessions
    requires run in s.delegations ==>
      && NoWiderPolicy(session.policy, s.delegations[run].policy)
      && session.tools == s.delegations[run].permissions
    ensures Quiet(s, s.(sessions := s.sessions[run := session]))
  {
    hide NoWiderPolicy, Leased;
    QuietSessions(s, s.(sessions := s.sessions[run := session]));
  }

  /** At most one new run, unleased and with a task; every task stays. */
  ghost predicate AddsRun(s: State, s': State, run: Id) {
    && s' == s.(runs := s'.runs, tasks := s'.tasks) && s.tasks.Keys <= s'.tasks.Keys
    && (s'.runs == s.runs
        || (run !in s.runs && run in s'.runs && s'.runs == s.runs[run := s'.runs[run]]
            && s'.runs[run].lease.None? && s'.runs[run].task in s'.tasks))
  }

  lemma QuietCreate(s: State, s': State, run: Id)
    requires Rows(s) && Leased(s) && AddsRun(s, s', run)
    ensures Quiet(s, s')
  {
    RunsStay(s);
    hide WithinLimits, RunMay, Leased;
  }

  lemma QuietRecord(s: State, s': State)
    requires Rows(s) && Leased(s)
    requires s' == s.(toolCalls := s'.toolCalls, steps := s'.steps, approvals := s'.approvals)
    ensures Quiet(s, s')
  {
    RunsStay(s);
    hide WithinLimits, RunsEvolve, Leased;
  }

  lemma QuietPrepareStep(s: State, c: Command)
    requires Rows(s) && Leased(s) && c.Prepare?
    ensures var policy := SessionPolicy(s, c.run, c.tenantSettings, c.agentPolicy);
      Quiet(s, PrepareStep(s, c.run, policy, SessionTools(s, c.run, c.tools), c.endpoint, c.model).0)
  {
    QuietRecord(s, s);
    SessionIsNarrower(s, c.run, c.tenantSettings, c.agentPolicy, c.tools);
    hide Rows, Leased, Quiet, NoWiderPolicy, SessionPolicy, SessionTools;
    if c.run in s.runs && c.run !in s.sessions {
      QuietPrepare(s, c.run, Session(SessionRunning, SessionPolicy(s, c.run, c.tenantSettings, c.agentPolicy),
                                     SessionTools(s, c.run, c.tools), c.endpoint, c.model, 1));
    }
  }

  lemma SessionIsNarrower(s: State, run: Id, tenantSettings: Doc, agentPolicy: Value, tools: Doc)
    ensures run in s.delegations ==>
      && NoWiderPolicy(SessionPolicy(s, run, tenantSettings, agentPolicy), s.delegations[run].policy)
      && SessionTools(s, run, tools) == s.delegations[run].permissions
  {
    hide NoWiderPolicy, NarrowPolicy, BuildSnapshot;
    if run in s.delegations {
      NarrowPolicyNeverWidens(s.delegations[run].policy, BuildSnapshot(tenantSettings, agentPolicy));
    }
  }

  lemma WithRunAdds(s: State, run: Id, task: Id, spec: RunSpec)
    requires task in s.tasks && run !in s.runs
    ensures AddsRun(s, WithRun(s, run, task, spec), run)
  {}

  lemma CreateRunAdds(s: State, run: Id, task: Id, spec: RunSpec)
    ensures AddsRun(s, CreateRunStep(s, run, task, spec).0, run)
  {
    hide WithRun;
    if CreateRunStep(s, run, task, spec).1.Done? {
      hide AddsRun;
      WithRunAdds(s, run, task, spec);
    }
  }

  lemma RetryRunAdds(s: State, run: Id, previous: Id, spec: RunSpec)
    ensures AddsRun(s, RetryRunStep(s, run, previous, spec).0, run)
  {
    hide WithRun;
    if RetryRunStep(s, run, previous, spec).1.Done? {
      hide AddsRun;
      WithRunAdds(s, run, s.runs[previous].task, spec);
    }
  }

  lemma AddsNothing(s: State, run: Id)
    ensures AddsRun(s, s, run)
  {}

  lemma TaskWritten(s: State, t: Id, task: Task, run: Id)
    ensures AddsRun(s, s.(tasks := s.tasks[t := task]), run)
  {}

  lemma MoveTaskAdds(s: State, task: Id, target: TaskStatus, expectedRevision: nat, run: Id)
    ensures AddsRun(s, MoveTaskStep(s, task, target, expectedRevision).0, run)
  {
    hide TaskTargets, AddsRun;
    AddsNothing(s, run);
    if task in s.tasks { TaskWritten(s, task, Task(target, s.tasks[task].priority, expectedRevision + 1), run); }
  }

  lemma CreateTaskAdds(s: State, task: Id, hasAssignee: bool, priority: int, run: Id)
    ensures AddsRun(s, CreateTaskStep(s, task, hasAssignee, priority).0, run)
  {
    hide AddsRun;
    AddsNothing(s, run);
    TaskWritten(s, task, Task(if hasAssignee then TaskAssigned else TaskCreated, priority, 1), run);
  }

  lemma CreateRootAdds(s: State, run: Id, task: Id, spec: RunSpec, priority: int)
    ensures AddsRun(s, CreateRootStep(s, run, task, spec, priority).0, run)
  {}

  /** Creating or moving a task, and creating or retrying a run. */
  lemma QuietTaskStep(s: State, c: Command)
    requires Rows(s) && Leased(s)
    requires c.CreateTask? || c.MoveTask? || c.CreateRoot? || c.CreateRun? || c.RetryRun?
    ensures Quiet(s, Step(s, c).0)
  {
    hide *;
    var run := if c.CreateRoot? || c.CreateRun? || c.RetryRun? then c.run else Uuid(0);
    TaskStepAdds(s, c, run);
    QuietCreate(s, Step(s, c).0, run);
  }

  lemma TaskStepAdds(s: State, c: Command, run: Id)
    requires c.CreateTask? || c.MoveTask? || c.CreateRoot? || c.CreateRun? || c.RetryRun?
    requires c.CreateRoot? || c.CreateRun? || c.RetryRun? ==> run == c.run
    ensures AddsRun(s, Step(s, c).0, run)
  {
    hide AddsRun, CreateTaskStep, CreateRootStep, CreateRunStep, RetryRunStep, MoveTaskStep;
    match c {
      case CreateTask(task, hasAssignee, priority) => CreateTaskAdds(s, task, hasAssignee, priority, run);
      case MoveTask(task, target, revision) => MoveTaskAdds(s, task, target, revision, run);
      case CreateRoot(_, task, spec, priority) => CreateRootAdds(s, run, task, spec, priority);
      case CreateRun(_, task, spec) => CreateRunAdds(s, run, task, spec);
      case RetryRun(_, previous, spec) => RetryRunAdds(s, run, previous, spec);
    }
  }

  lemma QuietStep(s: State, c: Command)
    requires Rows(s) && Leased(s) && Plain(c)
    ensures Quiet(s, Step(s, c).0)
  {
    hide Rows, Leased, Quiet, Reconciled, ReadyIds, ClaimStep, SuspendStep, AdvanceStep, PrepareStep, SessionPolicy, SessionTools;
    match c {
      case CreateTask(_, _, _) => QuietTaskStep(s, c);
      case MoveTask(_, _, _) => QuietTaskStep(s, c);
      case CreateRoot(_, _, _, _) => QuietTaskStep(s, c);
      case CreateRun(_, _, _) => QuietTaskStep(s, c);
      case RetryRun(_, _, _) => QuietTaskStep(s, c);
      case Prepare(_, _, _, _, _, _) => QuietPrepareStep(s, c);
      case Claim(worker, seconds, now, locked, token) => QuietClaim(s, worker, seconds, now, locked, token);
      case Reconcile(locked) => QuietReconcile(s, locked);
      case Suspend(run, worker, token, now) => QuietSuspend(s, run, worker, token, now);
      case Advance(run, target, expectedRevision) => QuietAdvance(s, run, target, expectedRevision);
      case RecordCall(id, call, step) =>
        QuietRecord(s, s.(toolCalls := s.toolCalls[id := call], steps := s.steps[call.step := step]));
      case RecordApproval(id, approval) => QuietRecord(s, s.(approvals := s.approvals[id := approval]));
    }
  }

  // ----- quiet steps keep the invariant -----

  lemma QuietKeepsRows(s: State, s': State)
    requires Rows(s) && Quiet(s, s')
    ensures Rows(s')
  {
    hide NoWiderPolicy, WithinLimits;
  }

  lemma QuietKeepsLedgers(s: State, s': State)
    requires Recounted(s) && Quiet(s, s')
    ensures Recounted(s')
  {
    hide Sum, Grants, RunsEvolve, SessionsEvolve, WithinLimits;
  }

  lemma QuietKeepsAccounts(s: State, s': State)
    requires Accounted(s) && Quiet(s, s')
    ensures Accounted(s')
  {
    hide AccountedTables, RunsEvolve, SessionsEvolve;
  }

  lemma QuietKeepsLive(s: State, s': State)
    requires Rows(s) && Quiet(s, s') && Live(s)
    ensures Live(s')
  {
    hide SessionsEvolve;
  }

  lemma QuietKeepsLineage(s: State, s': State)
    requires Rows(s) && Quiet(s, s') && Lineage(s)
    ensures Lineage(s')
  {
    hide SessionsEvolve;
  }

  lemma QuietKeepsLeased(s: State, s': State)
    requires Quiet(s, s')
    ensures Leased(s')
  {
    hide SessionsEvolve;
  }

  lemma QuietKeepsFanout(s: State, s': State)
    requires Rows(s) && Quiet(s, s') && Fanout(s)
    ensures Fanout(s')
  {
    hide RunsEvolve, NoWiderPolicy;
    forall p | p in s'.sessions && p !in s.sessions
      ensures ChildrenOf(s.delegations, p) == {} && ActiveChildrenOf(s.delegations, p) == {}
    {}
  }

  lemma QuietKeepsAuthority(s: State, s': State)
    requires Rows(s) && Quiet(s, s') && Authority(s)
    ensures Authority(s')
  {
    hide RunsEvolve, NoWiderPolicy, NoWiderTools;
  }

  lemma QuietKeeps(s: State, s': State)
    requires Inv(s) && Quiet(s, s')
    ensures Inv(s')
  {
    QuietKeepsRows(s, s');
    QuietKeepsLedgers(s, s');
    QuietKeepsAccounts(s, s');
    QuietKeepsLive(s, s');
    QuietKeepsLineage(s, s');
    QuietKeepsLeased(s, s');
    QuietKeepsFanout(s, s');
    QuietKeepsAuthority(s, s');
    hide Rows, Recounted, Accounted, Live, Lineage, Unique, Leased, Fanout, Authority, Exact;
  }

  // ----- an accepted delegation keeps the invariant -----

  /** What `delegate` has checked once it admits a request. */
  ghost predicate Admitted(s: State, cat: Catalog, q: Request, permissions: Doc) {
    && q.run in s.runs && q.run in s.sessions && s.runs[q.run].task in s.tasks
    && HoldsLease(s.runs[q.run], q.worker, q.token) && Delegatable(s.runs[q.run].status)
    && WithKey(s.delegations, q.run, q.intent.key) == {}
    && WithFingerprint(s.delegations, q.run, FingerprintOf(q.intent)) == {}
    && TreeRefusal(s, q.run, q.intent.target, s.sessions[q.run].policy).None?
    && ReserveRefusal(LedgerOf(s, q.run), q.intent.grant, s.sessions[q.run].policy).None?
    && q.intent.target in cat.versions
    && PermissionsFor(s.sessions[q.run], cat, q.intent) == Ok(permissions)
    && FreshIds(s, q)
  }

  lemma AdmissionMeans(s: State, cat: Catalog, q: Request)
    requires Admission(s, cat, q).Admit?
    ensures Admitted(s, cat, q, Admission(s, cat, q).permissions)
  {
    hide TreeRefusal, ReserveRefusal, PermissionsFor, HoldsLease, Delegatable, FreshIds, StringSet, EnabledFor,
         TargetReady, LedgerOf;
    assert WithKey(s.delegations, q.run, q.intent.key) == {};
  }

  /** The child id is new to the closure table and to the ledger table. */
  lemma FreshChild(s: State, q: Request)
    requires Rows(s) && FreshIds(s, q)
    ensures q.childRun !in s.delegations && q.childRun !in ParentsOf(s.delegations)
    ensures q.childRun !in ParentsOf(s.delegations).Values
    ensures q.childRun !in s.ledgers && q.childRun !in s.sessions
  {
    forall c | c in s.delegations ensures s.delegations[c].parent != q.childRun {}
  }

  /** What the inserts need. */
  ghost predicate Insertable(s: State, q: Request) {
    q.run in s.runs && q.run in s.sessions && s.runs[q.run].task in s.tasks && FreshIds(s, q)
  }

  /** The columns an accepted delegation leaves behind, table by table. */
  lemma DelegationTables(s: State, q: Request, permissions: Doc)
    requires Insertable(s, q)
    ensures var s' := WithDelegation(s, q, permissions);
      && s'.runs == s.runs[q.childRun := ChildRun(q)]
      && s'.delegations == s.delegations[q.childRun := NewDelegation(q, s.sessions[q.run].policy, permissions)]
      && s'.ledgers == s.ledgers[q.run := Reserved(LedgerOf(s, q.run), q.intent.grant)][q.childRun := ChildLedger(q)]
      && s'.sessions == s.sessions
      && s'.relations == Grow(s.relations, q.run, q.childRun, q.delegation)
  {}

  lemma DelegateKeepsOldRow(s: State, q: Request, permissions: Doc, c: Id)
    requires Rows(s) && Insertable(s, q) && c in s.delegations && c != q.childRun
    ensures DelegationRow(WithDelegation(s, q, permissions), c)
  {
    assert DelegationRow(s, c);
    FreshChild(s, q);
    hide FreshIds, FingerprintOf, Plus, DefaultLedger, Grow, ParentsOf, Rows, NewDelegation, ChildRun, ChildLedger;
  }

  lemma DelegateMakesNewRow(s: State, q: Request, permissions: Doc)
    requires Insertable(s, q)
    ensures DelegationRow(WithDelegation(s, q, permissions), q.childRun)
  {
    hide FingerprintOf, Plus, DefaultLedger, Grow;
  }

  lemma DelegateKeepsOwnerRows(s: State, q: Request, permissions: Doc)
    requires Rows(s) && Insertable(s, q)
    ensures OwnerRows(WithDelegation(s, q, permissions))
  {
    hide FreshIds, FingerprintOf, Plus, DefaultLedger, Grow, ParentsOf, Reserved, NewDelegation, DelegationRow;
  }

  lemma DelegateKeepsRows(s: State, q: Request, permissions: Doc)
    requires Rows(s) && Insertable(s, q)
    ensures Rows(WithDelegation(s, q, permissions))
  {
    forall c | c in WithDelegation(s, q, permissions).delegations
      ensures DelegationRow(WithDelegation(s, q, permissions), c)
    {
      if c == q.childRun {
        DelegateMakesNewRow(s, q, permissions);
      } else {
        DelegateKeepsOldRow(s, q, permissions, c);
      }
    }
    DelegateKeepsRelationRows(s, q, permissions);
    DelegateKeepsOwnerRows(s, q, permissions);
    hide WithDelegation, Insertable, DelegationRow, RelationRows, OwnerRows;
  }

  lemma GrowKeepsEnds(rel: Closure, runs: map<Id, Run>, sessions: map<Id, Session>, ds: Delegations, parent: Id, child: Id, delegation: Id,
                      run: Run, d: Delegation)
    requires RelationTable(rel, runs, sessions, ds) && parent in runs && parent in sessions
    ensures RelationTable(Grow(rel, parent, child, delegation), runs[child := run], sessions, ds[child := d])
  {
    forall k | k in Grow(rel, parent, child, delegation)
      ensures k.ancestor in runs && k.ancestor in sessions && (k.descendant == child || k.descendant in ds)
    {
      GrowCases(rel, parent, child, delegation, k);
      hide Grow;
      if Pair(k.ancestor, parent) in rel {
        assert Pair(k.ancestor, parent).ancestor in runs;
      }
    }
    hide Grow;
  }

  lemma DelegateKeepsRelationRows(s: State, q: Request, permissions: Doc)
    requires Rows(s) && Insertable(s, q)
    ensures RelationRows(WithDelegation(s, q, permissions))
  {
    DelegationTables(s, q, permissions);
    hide WithDelegation, FreshIds, ChildRun, NewDelegation, Grow, RelationTable, DelegationRows, OwnerRows;
    GrowKeepsEnds(s.relations, s.runs, s.sessions, s.delegations, q.run, q.childRun, q.delegation, ChildRun(q),
                  NewDelegation(q, s.sessions[q.run].policy, permissions));
  }

  lemma DelegateParents(ds: Delegations, c: Id, d: Delegation)
    ensures ParentsOf(ds[c := d]) == ParentsOf(ds)[c := d.parent]
  {}

  lemma DelegateKeepsClosed(s: State, q: Request, permissions: Doc)
    requires Rows(s) && Closed(s) && Insertable(s, q)
    ensures Closed(WithDelegation(s, q, permissions))
  {
    FreshChild(s, q);
    DelegationTables(s, q, permissions);
    var d := NewDelegation(q, s.sessions[q.run].policy, permissions);
    assert d.parent == q.run;
    DelegateParents(s.delegations, q.childRun, d);
    hide Rows, Exact, Grow, ParentsOf, WithDelegation, NewDelegation;
    GrowExact(ParentsOf(s.delegations), s.relations, q.run, q.childRun, q.delegation);
  }

  // ledgers

  lemma GrantsOfNew(ds: Delegations, c: Id, d: Delegation, p: Id, r: Resource)
    requires c !in ds && Active(d.status)
    ensures Grants(ds[c := d], p, r) == if p == d.parent then Grants(ds, p, r)[c := Of(d.grant, r)] else Grants(ds, p, r)
    ensures ChildrenOf(ds[c := d], p) == ChildrenOf(ds, p) + if p == d.parent then {c} else {}
    ensures ActiveChildrenOf(ds[c := d], p) == ActiveChildrenOf(ds, p) + if p == d.parent then {c} else {}
    ensures c !in ChildrenOf(ds, p) && c !in ActiveChildrenOf(ds, p) && c !in Grants(ds, p, r)
  {}

  lemma SumOfNew(ds: Delegations, c: Id, d: Delegation, p: Id, r: Resource)
    requires c !in ds && Active(d.status)
    ensures Sum(Grants(ds[c := d], p, r)) == Sum(Grants(ds, p, r)) + if p == d.parent then Of(d.grant, r) else 0
  {
    GrantsOfNew(ds, c, d, p, r);
    hide Sum;
    if p == d.parent { SumInsert(Grants(ds, p, r), c, Of(d.grant, r)); }
  }

  lemma NoChildrenNoGrants(ds: Delegations, p: Id)
    requires forall c :: c in ds ==> ds[c].parent != p
    ensures ChildrenOf(ds, p) == {} && ActiveChildrenOf(ds, p) == {}
    ensures forall r: Resource :: Sum(Grants(ds, p, r)) == 0
  {
    forall r: Resource ensures Sum(Grants(ds, p, r)) == 0 { SumZero(Grants(ds, p, r)); }
  }

  lemma ReservedWithin(l: Ledger, grant: Amounts)
    requires Committed(l, Tokens) + grant.tokens <= l.limit.tokens
    requires Committed(l, Cost) + grant.cost <= l.limit.cost
    requires Committed(l, ToolCalls) + grant.tools <= l.limit.tools
    ensures WithinLimits(Reserved(l, grant))
    ensures forall r: Resource :: Of(Reserved(l, grant).reserved, r) == Of(l.reserved, r) + Of(grant, r)
  {}

  /** A ledger's recount after one more active delegation of its run. */
  lemma LedgerAfterReserve(l: Ledger, ds: Delegations, c: Id, d: Delegation)
    requires c !in ds && Active(d.status) && LedgerExact(l, ds, d.parent)
    requires WithinLimits(Reserved(l, d.grant))
    requires forall r: Resource :: Of(Reserved(l, d.grant).reserved, r) == Of(l.reserved, r) + Of(d.grant, r)
    ensures LedgerExact(Reserved(l, d.grant), ds[c := d], d.parent)
  {
    hide Sum, Grants, ChildrenOf, ActiveChildrenOf, WithinLimits, Plus, Of, Active;
    forall r: Resource
      ensures Sum(Grants(ds[c := d], d.parent, r)) == Sum(Grants(ds, d.parent, r)) + Of(d.grant, r)
    {
      SumOfNew(ds, c, d, d.parent, r);
    }
    GrantsOfNew(ds, c, d, d.parent, Tokens);
  }

  /** Other ledgers recount to what they did. */
  lemma LedgerElsewhere(l: Ledger, ds: Delegations, c: Id, d: Delegation, p: Id)
    requires c !in ds && Active(d.status) && p != d.parent && LedgerExact(l, ds, p)
    ensures LedgerExact(l, ds[c := d], p)
  {
    forall r: Resource ensures Grants(ds[c := d], p, r) == Grants(ds, p, r) { GrantsOfNew(ds, c, d, p, r); }
    GrantsOfNew(ds, c, d, p, Tokens);
    hide Sum, Grants, ChildrenOf, ActiveChildrenOf, WithinLimits, Of;
  }

  lemma EmptyLedger(l: Ledger, ds: Delegations, p: Id)
    requires l.direct == l.childConsumed == l.reserved == NOTHING && l.childCount == 0
    requires forall c :: c in ds ==> ds[c].parent != p
    ensures LedgerExact(l, ds, p)
  {
    NoChildrenNoGrants(ds, p);
    hide Sum, Grants, ChildrenOf;
  }

  lemma ParentLedgerExact(s: State, run: Id)
    requires Rows(s) && Recounted(s) && run in s.runs
    ensures LedgerExact(LedgerOf(s, run), s.delegations, run)
  {
    if run !in s.ledgers {
      assert forall c :: c in s.delegations ==> DelegationRow(s, c);
      EmptyLedger(LedgerOf(s, run), s.delegations, run);
    }
  }

  lemma ChildLedgerExact(s: State, q: Request, d: Delegation)
    requires Rows(s) && Insertable(s, q) && d.parent == q.run
    ensures LedgerExact(ChildLedger(q), s.delegations[q.childRun := d], q.childRun)
  {
    FreshChild(s, q);
    var ds' := s.delegations[q.childRun := d];
    forall c | c in ds' ensures ds'[c].parent != q.childRun {
      if c != q.childRun { assert DelegationRow(s, c); }
    }
    EmptyLedger(ChildLedger(q), ds', q.childRun);
  }

  lemma DelegateKeepsRecounted(s: State, q: Request, permissions: Doc)
    requires Rows(s) && Recounted(s) && Insertable(s, q)
    requires ReserveRefusal(LedgerOf(s, q.run), q.intent.grant, s.sessions[q.run].policy).None?
    ensures Recounted(WithDelegation(s, q, permissions))
  {
    var d := NewDelegation(q, s.sessions[q.run].policy, permissions);
    assert Active(d.status) && d.parent == q.run && d.grant == q.intent.grant;
    FreshChild(s, q);
    DelegationTables(s, q, permissions);
    ParentLedgerExact(s, q.run);
    ChildLedgerExact(s, q, d);
    ReservedWithin(LedgerOf(s, q.run), q.intent.grant);
    hide *;
    NewLeafRecounted(s.ledgers, s.delegations, q.childRun, d, LedgerOf(s, q.run), ChildLedger(q));
    assert RecountedTables(
      s.ledgers[d.parent := Reserved(LedgerOf(s, q.run), d.grant)][q.childRun := ChildLedger(q)],
      s.delegations[q.childRun := d]);
  }

  lemma NewLeafRecounted(ledgers: map<Id, Ledger>, ds: Delegations, c: Id, d: Delegation, above: Ledger, below: Ledger)
    requires c !in ds && Active(d.status) && RecountedTables(ledgers, ds)
    requires LedgerExact(above, ds, d.parent) && LedgerExact(below, ds[c := d], c)
    requires WithinLimits(Reserved(above, d.grant))
    requires forall r: Resource :: Of(Reserved(above, d.grant).reserved, r) == Of(above.reserved, r) + Of(d.grant, r)
    ensures RecountedTables(ledgers[d.parent := Reserved(above, d.grant)][c := below], ds[c := d])
  {
    LedgerAfterReserve(above, ds, c, d);
    forall p | p in ledgers && p != d.parent ensures LedgerExact(ledgers[p], ds[c := d], p) {
      LedgerElsewhere(ledgers[p], ds, c, d, p);
    }
    hide LedgerExact, Reserved, WithinLimits, Of, Active;
  }

  // accounts

  lemma NewLeafCharges(ledgers: map<Id, Ledger>, ds: Delegations, c: Id, d: Delegation, above: Ledger, below: Ledger, p: Id, r: Resource)
    requires c !in ds && c !in ledgers && d.parent != c && below.direct == NOTHING
    requires forall x :: x in ds ==> x in ledgers && x != c
    requires d.parent in ledgers ==> above.direct == ledgers[d.parent].direct
    ensures Sum(Charges(ledgers[d.parent := above][c := below], ds[c := d], p, r)) == Sum(Charges(ledgers, ds, p, r))
  {
    var charges := Charges(ledgers, ds, p, r);
    if p == d.parent {
      assert Charges(ledgers[d.parent := above][c := below], ds[c := d], p, r) == charges[c := 0];
      hide Sum, Charges;
      SumInsert(charges, c, 0);
    } else {
      assert Charges(ledgers[d.parent := above][c := below], ds[c := d], p, r) == charges;
    }
  }

  lemma NoChildrenNoCharges(ledgers: map<Id, Ledger>, ds: Delegations, p: Id, r: Resource)
    requires forall c :: c in ds ==> ds[c].parent != p
    ensures Sum(Charges(ledgers, ds, p, r)) == 0
  {
    hide Of;
    assert Charges(ledgers, ds, p, r) == map[];
    SumZero(map[]);
  }

  lemma NewLeafAccounted(ledgers: map<Id, Ledger>, ds: Delegations, c: Id, d: Delegation, above: Ledger, below: Ledger)
    requires AccountedTables(ledgers, ds) && c !in ds && c !in ledgers && d.parent != c
    requires forall x :: x in ds ==> x in ledgers && x != c && ds[x].parent in ledgers && ds[x].parent != c
    requires below.direct == NOTHING && below.childConsumed == NOTHING
    requires if d.parent in ledgers then above.direct == ledgers[d.parent].direct && above.childConsumed == ledgers[d.parent].childConsumed
             else above.direct == NOTHING && above.childConsumed == NOTHING
    ensures AccountedTables(ledgers[d.parent := above][c := below], ds[c := d])
  {
    var ledgers', ds' := ledgers[d.parent := above][c := below], ds[c := d];
    forall p | p in ledgers' ensures ChargesAddUp(ledgers', ds', p) {
      forall r: Resource ensures Of(ledgers'[p].childConsumed, r) == Sum(Charges(ledgers', ds', p, r)) {
        NewLeafCharges(ledgers, ds, c, d, above, below, p, r);
        if p !in ledgers { NoChildrenNoCharges(ledgers, ds, p, r); } else { assert ChargesAddUp(ledgers, ds, p); }
      }
    }
    hide ChargesAddUp, Sum, Charges;
  }

  lemma DelegateKeepsAccounts(s: State, q: Request, permissions: Doc)
    requires Rows(s) && Accounted(s) && Insertable(s, q)
    ensures Accounted(WithDelegation(s, q, permissions))
  {
    FreshChild(s, q);
    DelegationTables(s, q, permissions);
    var d := NewDelegation(q, s.sessions[q.run].policy, permissions);
    assert d.parent == q.run && d.grant == q.intent.grant;
    forall c | c in s.delegations ensures c in s.ledgers && c != q.childRun && s.delegations[c].parent in s.ledgers && s.delegations[c].parent != q.childRun {
      assert DelegationRow(s, c);
    }
    assert q.run != q.childRun;
    hide Rows, WithDelegation, NewDelegation, AccountedTables, Grow, ParentsOf, Insertable, Plus;
    NewLeafAccounted(s.ledgers, s.delegations, q.childRun, d, Reserved(LedgerOf(s, q.run), q.intent.grant), ChildLedger(q));
  }

  lemma NewLeafLive(ds: Delegations, runs: map<Id, Run>, c: Id, d: Delegation, run: Run)
    requires LiveTables(ds, runs) && c !in ds && Active(d.status)
    ensures LiveTables(ds[c := d], runs[c := run])
  {
    hide Active, Terminal;
  }

  lemma DelegateKeepsLive(s: State, q: Request, permissions: Doc)
    requires Rows(s) && Live(s) && Insertable(s, q)
    ensures Live(WithDelegation(s, q, permissions))
  {
    FreshChild(s, q);
    DelegationTables(s, q, permissions);
    assert forall c :: c in s.delegations ==> DelegationRow(s, c);
    hide Rows, Grow, WithDelegation;
    NewLeafLive(s.delegations, s.runs, q.childRun, NewDelegation(q, s.sessions[q.run].policy, permissions), ChildRun(q));
  }

  /** What passing `_validate_tree` means, read off the closure table. */
  lemma TreeAcceptsMeans(s: State, run: Id, target: string, policy: Doc)
    requires TreeRefusal(s, run, target, policy).None? && run in s.runs
    ensures s.runs[run].version != target
    ensures forall k :: k in s.relations && k.descendant == run && k.ancestor in s.runs ==> s.runs[k.ancestor].version != target
    ensures 1 <= PositiveInt(Get(policy, "max_depth"))
    ensures forall k :: k in s.relations && k.descendant == run ==>
      s.relations[k].depth + 1 <= PositiveInt(Get(policy, "max_depth"))
    ensures |ChildrenOf(s.delegations, run)| < PositiveInt(Get(policy, "max_children"))
    ensures |ActiveChildrenOf(s.delegations, run)| < PositiveInt(Get(policy, "max_parallelism"))
  {
    forall k | k in s.relations && k.descendant == run
      ensures s.relations[k].depth in Depths(s.relations, run) && k.ancestor in AncestorsOf(s.relations, run)
    {}
    hide PositiveInt, Get, ChildrenOf, ActiveChildrenOf, Depths, AncestorsOf;
  }

  lemma NewLeafLineage(rel: Closure, ds: Delegations, runs: map<Id, Run>, c: Id, d: Delegation, run: Run)
    requires LineageTables(rel, ds, runs) && c !in runs
    requires forall k :: k in rel ==> k.ancestor in runs && k.descendant in ds && k.descendant in runs
    requires run.version == d.target && d.parent in runs && runs[d.parent].version != d.target
    requires forall k :: k in rel && k.descendant == d.parent ==> runs[k.ancestor].version != d.target
    requires 1 <= PositiveInt(Get(d.policy, "max_depth"))
    requires forall k :: k in rel && k.descendant == d.parent ==> rel[k].depth + 1 <= PositiveInt(Get(d.policy, "max_depth"))
    ensures LineageTables(Grow(rel, d.parent, c, d.id), ds[c := d], runs[c := run])
  {
    var rel' := Grow(rel, d.parent, c, d.id);
    hide PositiveInt, Get;
    forall k | k in rel' ensures LineageRow(rel'[k], k, ds[c := d], runs[c := run]) {
      GrowCases(rel, d.parent, c, d.id, k);
      if k in rel && k.descendant != c {
        assert LineageRow(rel[k], k, ds, runs);
      } else if k.ancestor != d.parent {
        assert Pair(k.ancestor, d.parent).descendant == d.parent;
      }
    }
  }

  lemma DelegateKeepsLineage(s: State, q: Request, permissions: Doc)
    requires Rows(s) && Lineage(s) && Insertable(s, q)
    requires TreeRefusal(s, q.run, q.intent.target, s.sessions[q.run].policy).None?
    ensures Lineage(WithDelegation(s, q, permissions))
  {
    DelegationTables(s, q, permissions);
    TreeAcceptsMeans(s, q.run, q.intent.target, s.sessions[q.run].policy);
    RelationEnds(s);
    var d := NewDelegation(q, s.sessions[q.run].policy, permissions);
    assert d.target == q.intent.target && d.parent == q.run && d.policy == s.sessions[q.run].policy && d.id == q.delegation;
    hide WithDelegation, Grow, NewDelegation, LineageTables, TreeRefusal, Rows;
    NewLeafLineage(s.relations, s.delegations, s.runs, q.childRun, d, ChildRun(q));
  }

  lemma RelationEnds(s: State)
    requires Rows(s)
    ensures forall k :: k in s.relations ==>
      k.ancestor in s.runs && k.ancestor in s.sessions && k.descendant in s.delegations && k.descendant in s.runs
  {
    forall k | k in s.relations ensures k.descendant in s.runs { assert DelegationRow(s, k.descendant); }
  }

  lemma NewLeafUnique(ds: Delegations, c: Id, d: Delegation)
    requires UniqueTable(ds) && c !in ds
    requires forall x :: x in ds ==>
      ds[x].id != d.id && (ds[x].parent == d.parent ==> ds[x].key != d.key && ds[x].fingerprint != d.fingerprint)
    ensures UniqueTable(ds[c := d])
  {}

  lemma DelegateKeepsUnique(s: State, q: Request, permissions: Doc)
    requires Unique(s) && Insertable(s, q) && Rows(s)
    requires WithKey(s.delegations, q.run, q.intent.key) == {}
    requires WithFingerprint(s.delegations, q.run, FingerprintOf(q.intent)) == {}
    ensures Unique(WithDelegation(s, q, permissions))
  {
    forall c | c in s.delegations && s.delegations[c].parent == q.run
      ensures s.delegations[c].key != q.intent.key && s.delegations[c].fingerprint != FingerprintOf(q.intent)
    {
      assert c !in WithKey(s.delegations, q.run, q.intent.key);
      assert c !in WithFingerprint(s.delegations, q.run, FingerprintOf(q.intent));
    }
    FreshChild(s, q);
    DelegationTables(s, q, permissions);
    var d := NewDelegation(q, s.sessions[q.run].policy, permissions);
    assert d.id == q.delegation && d.parent == q.run && d.key == q.intent.key && d.fingerprint == FingerprintOf(q.intent);
    hide WithDelegation, NewDelegation, FingerprintOf, WithKey, WithFingerprint, UniqueTable, Rows, ParentsOf;
    NewLeafUnique(s.delegations, q.childRun, d);
  }

  lemma DelegateEvolves(s: State, q: Request, permissions: Doc)
    requires Leased(s) && Insertable(s, q)
    ensures RunsEvolve(s.runs, WithDelegation(s, q, permissions).runs)
    ensures Leased(WithDelegation(s, q, permissions))
  {
    DelegationTables(s, q, permissions);
    hide WithDelegation, Grow;
    NewRunEvolves(s.runs, q.childRun, ChildRun(q));
  }

  lemma NewRunEvolves(runs: map<Id, Run>, r: Id, run: Run)
    requires r !in runs && run.lease.None? && LeasedTable(runs)
    ensures RunsEvolve(runs, runs[r := run]) && LeasedTable(runs[r := run])
  {
    forall q | q in runs ensures RunMay(runs[q], runs[q]) {}
    hide RunMay, Terminal;
  }

  lemma NewLeafFanout(ds: Delegations, c: Id, d: Delegation, p: Id, policy: Doc)
    requires c !in ds && Active(d.status) && WithinFanout(ds, p, policy)
    requires p == d.parent ==>
      && |ChildrenOf(ds, p)| < PositiveInt(Get(policy, "max_children"))
      && |ActiveChildrenOf(ds, p)| < PositiveInt(Get(policy, "max_parallelism"))
    ensures WithinFanout(ds[c := d], p, policy)
  {
    GrantsOfNew(ds, c, d, p, Tokens);
    hide ChildrenOf, ActiveChildrenOf, Grants, PositiveInt, Get;
  }

  lemma DelegateKeepsFanout(s: State, q: Request, permissions: Doc)
    requires Fanout(s) && Insertable(s, q) && Rows(s)
    requires TreeRefusal(s, q.run, q.intent.target, s.sessions[q.run].policy).None?
    ensures Fanout(WithDelegation(s, q, permissions))
  {
    FreshChild(s, q);
    DelegationTables(s, q, permissions);
    TreeAcceptsMeans(s, q.run, q.intent.target, s.sessions[q.run].policy);
    var d := NewDelegation(q, s.sessions[q.run].policy, permissions);
    assert Active(d.status) && d.parent == q.run;
    hide WithDelegation, Grow, Rows, TreeRefusal, ParentsOf, NewDelegation, FreshIds, ChildrenOf, ActiveChildrenOf,
         WithinFanout, PositiveInt, Get;
    forall p | p in s.sessions
      ensures WithinFanout(s.delegations[q.childRun := d], p, s.sessions[p].policy)
    {
      NewLeafFanout(s.delegations, q.childRun, d, p, s.sessions[p].policy);
    }
  }

  // authority

  lemma NoWiderReflexive(d: Doc)
    ensures NoWiderPolicy(d, d) && NoWiderTools(d, d)
  {}

  lemma NoWiderToolsTransitive(a: Doc, b: Doc, c: Doc)
    requires NoWiderTools(a, b) && NoWiderTools(b, c)
    ensures NoWiderTools(a, c)
  {
    hide StringSet, SecretRefs, Get;
  }

  /** What a delegation grants comes from the delegating session's tools. */
  lemma SnapshotIsNarrower(session: Session, cat: Catalog, intent: Intent)
    requires intent.target in cat.versions && PermissionsFor(session, cat, intent).Ok?
    ensures NoWiderTools(PermissionsFor(session, cat, intent).value, session.tools)
  {
    hide NarrowPermissions, StringSet, IterableNames, SecretRefs;
    var parent := session.tools["model_endpoint_id" := session.endpoint]["model" := session.model];
    var v := cat.versions[intent.target];
    var child := v.toolPolicy["model_endpoint_id" := v.endpoint]["model" := v.model];
    var allowed := StringSet(Get(session.policy, "allowed_secret_refs"));
    var requested := if "secrets" in intent.restrictions then IterableNames(intent.restrictions["secrets"]) else Some(allowed);
    var cut := intent.restrictions["secrets" := Names(allowed * requested.value)];
    assert PermissionsFor(session, cat, intent) == NarrowPermissions(parent, child, cut);
    NarrowPermissionsNeverWidens(parent, child, cut);
    ModelIsNoGrant(session.tools, session.endpoint, session.model, NarrowPermissions(parent, child, cut).value);
  }

  lemma ModelIsNoGrant(tools: Doc, endpoint: Value, model: Value, d: Doc)
    requires NoWiderTools(d, tools["model_endpoint_id" := endpoint]["model" := model])
    ensures NoWiderTools(d, tools)
  {
    hide StringSet;
    var parent := tools["model_endpoint_id" := endpoint]["model" := model];
    assert Get(parent, "allow") == Get(tools, "allow");
    assert Get(parent, "permissions") == Get(tools, "permissions");
    assert Get(parent, "secret_refs") == Get(tools, "secret_refs");
  }

  lemma BoundedThrough(d: Delegation, parent: Session, mine: Delegation, ancestor: Session)
    requires Bounded(d, parent) && Bounded(mine, ancestor) && Holds(parent, mine)
    ensures Bounded(d, ancestor)
  {
    hide NoWiderPolicy, NoWiderTools;
    NoWiderTransitive(d.policy, parent.policy, mine.policy);
    NoWiderTransitive(d.policy, mine.policy, ancestor.policy);
    NoWiderToolsTransitive(d.permissions, parent.tools, ancestor.tools);
  }

  lemma NewLeafAuthority(rel: Closure, ds: Delegations, sessions: map<Id, Session>, c: Id, d: Delegation)
    requires AuthorityTables(rel, ds, sessions) && c !in ds && c !in sessions
    requires forall k :: k in rel ==> k.ancestor in sessions && k.descendant in ds
    requires d.parent in sessions && Bounded(d, sessions[d.parent])
    ensures AuthorityTables(Grow(rel, d.parent, c, d.id), ds[c := d], sessions)
  {
    var rel' := Grow(rel, d.parent, c, d.id);
    hide Bounded, Holds;
    forall k | k in rel' && k.ancestor in sessions && k.descendant in ds[c := d]
      ensures Bounded(ds[c := d][k.descendant], sessions[k.ancestor])
    {
      GrowCases(rel, d.parent, c, d.id, k);
      if k !in rel && k.ancestor != d.parent {
        assert Pair(k.ancestor, d.parent).descendant in ds;
        assert Bounded(ds[d.parent], sessions[k.ancestor]) && Holds(sessions[d.parent], ds[d.parent]);
        BoundedThrough(d, sessions[d.parent], ds[d.parent], sessions[k.ancestor]);
      }
    }
  }

  lemma DelegateKeepsAuthority(s: State, cat: Catalog, q: Request, permissions: Doc)
    requires Rows(s) && Authority(s) && Insertable(s, q)
    requires q.intent.target in cat.versions && PermissionsFor(s.sessions[q.run], cat, q.intent) == Ok(permissions)
    ensures Authority(WithDelegation(s, q, permissions))
  {
    FreshChild(s, q);
    DelegationTables(s, q, permissions);
    RelationEnds(s);
    var d := NewDelegation(q, s.sessions[q.run].policy, permissions);
    NoWiderReflexive(d.policy);
    SnapshotIsNarrower(s.sessions[q.run], cat, q.intent);
    assert Bounded(d, s.sessions[q.run]) && d.parent == q.run && d.id == q.delegation;
    hide WithDelegation, Grow, NewDelegation, Bounded, AuthorityTables, PermissionsFor, Rows;
    NewLeafAuthority(s.relations, s.delegations, s.sessions, q.childRun, d);
  }

  lemma DelegateKeeps(s: State, cat: Catalog, q: Request, permissions: Doc)
    requires Inv(s) && Admitted(s, cat, q, permissions)
    ensures Inv(WithDelegation(s, q, permissions))
  {
    hide Rows, Recounted, Accounted, Live, Lineage, Unique, Leased, Fanout, Authority, Exact, WithDelegation, TreeRefusal,
         ReserveRefusal, PermissionsFor, FreshIds, WithKey, WithFingerprint, HoldsLease, LedgerOf;
    DelegateKeepsRows(s, q, permissions);
    DelegateKeepsClosed(s, q, permissions);
    DelegateKeepsRecounted(s, q, permissions);
    DelegateKeepsAccounts(s, q, permissions);
    DelegateKeepsLive(s, q, permissions);
    DelegateKeepsLineage(s, q, permissions);
    DelegateKeepsUnique(s, q, permissions);
    DelegateEvolves(s, q, permissions);
    DelegateKeepsFanout(s, q, permissions);
    DelegateKeepsAuthority(s, cat, q, permissions);
  }
}
