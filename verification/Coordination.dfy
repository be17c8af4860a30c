/** The coordination tables and one atomic step per database transaction. */
module Coordination {
  import opened Foundation
  import opened MapSums
  import opened RunStates
  import opened Forest
  import opened CoordinationPolicy

  // ----- rows -----

  /** One grant or one column group of a ledger: tokens, cost in microunits, tool calls. */
  datatype Amounts = Amounts(tokens: nat, cost: nat, tools: nat)

  datatype Resource = Tokens | Cost | ToolCalls

  const NOTHING := Amounts(0, 0, 0)

  function Of(a: Amounts, r: Resource): (n: nat) {
    match r case Tokens => a.tokens case Cost => a.cost case ToolCalls => a.tools
  }

  function Plus(a: Amounts, b: Amounts): (c: Amounts) {
    Amounts(a.tokens + b.tokens, a.cost + b.cost, a.tools + b.tools)
  }

  /** `max(0, x - y)` */
  function Less(x: int, y: int): (n: nat) {
    if x - y >= 0 then x - y else 0
  }

  function ClampedMinus(a: Amounts, b: Amounts): (c: Amounts) {
    Amounts(Less(a.tokens, b.tokens), Less(a.cost, b.cost), Less(a.tools, b.tools))
  }

  datatype Lease = Lease(owner: string, token: Id, expires: int)

  datatype Run = Run(
    status: RunStatus, version: string, task: Id, tokenBudget: Option<nat>, budgets: Doc,
    createdAt: int, lease: Option<Lease>, revision: nat)

  datatype DelegationStatus =
    | Proposed | Accepted | Executing | Finished | Errored | TreeCancelled | Rejected

  predicate Active(status: DelegationStatus) { status in {Proposed, Accepted, Executing} }

  /** The duplicate guard: everything of the intent except its key and the order of its references. */
  datatype Fingerprint = Fingerprint(
    target: string, objective: string, acceptance: Doc, refs: set<string>, restrictions: Doc, mode: string)

  datatype Delegation = Delegation(
    id: Id, parent: Id, target: string, grant: Amounts, policy: Doc, permissions: Doc,
    key: string, fingerprint: Fingerprint, status: DelegationStatus, revision: nat)

  datatype Ledger = Ledger(
    limit: Amounts, direct: Amounts, childConsumed: Amounts, reserved: Amounts,
    childCount: nat, revision: nat)

  datatype SessionStatus = Created | SessionRunning | SessionPaused | Suspended
                         | SessionCompleted | SessionFailed | SessionCancelled

  datatype Session = Session(
    status: SessionStatus, policy: Doc, tools: Doc, endpoint: Value, model: Value, revision: nat)

  datatype Task = Task(status: TaskStatus, priority: int, revision: nat)
  datatype ToolCall = ToolCall(run: Id, step: Id, status: ToolCallStatus, revision: nat)
  datatype RunStep = RunStep(status: StepStatus, revision: nat)
  datatype Approval = Approval(run: Id, status: ToolApprovalStatus, revision: nat)

  /** Keyed by child run: `uq_delegations_child_run`. */
  type Delegations = map<Id, Delegation>

  datatype State = State(
    runs: map<Id, Run>,
    delegations: Delegations,
    relations: Closure,
    ledgers: map<Id, Ledger>,
    sessions: map<Id, Session>,
    tasks: map<Id, Task>,
    toolCalls: map<Id, ToolCall>,
    steps: map<Id, RunStep>,
    approvals: map<Id, Approval>)

  const EMPTY := State(map[], map[], map[], map[], map[], map[], map[], map[], map[])

  // ----- what an agent version and its agent look like when a delegation names them -----

  datatype Version = Version(agent: Id, published: bool, toolPolicy: Doc, endpoint: Value, model: Value)
  datatype Agent = Agent(currentVersion: string, ready: bool)
  datatype Catalog = Catalog(versions: map<string, Version>, agents: map<Id, Agent>)

  predicate TargetReady(cat: Catalog, target: string) {
    && target in cat.versions
    && cat.versions[target].agent in cat.agents
    && cat.agents[cat.versions[target].agent] == Agent(target, true)
  }

  // ----- queries -----

  function ParentsOf(ds: Delegations): (p: Parents) {
    map c | c in ds :: ds[c].parent
  }

  function ChildrenOf(ds: Delegations, parent: Id): (s: set<Id>) {
    set c | c in ds && ds[c].parent == parent
  }

  function ActiveChildrenOf(ds: Delegations, parent: Id): (s: set<Id>) {
    set c | c in ds && ds[c].parent == parent && Active(ds[c].status)
  }

  function WithKey(ds: Delegations, parent: Id, key: string): (s: set<Id>) {
    set c | c in ds && ds[c].parent == parent && ds[c].key == key
  }

  function WithFingerprint(ds: Delegations, parent: Id, f: Fingerprint): (s: set<Id>) {
    set c | c in ds && ds[c].parent == parent && ds[c].fingerprint == f
  }

  function AncestorsOf(rel: Closure, d: Id): (s: set<Id>) {
    set k | k in rel && k.descendant == d :: k.ancestor
  }

  function DescendantsOf(rel: Closure, a: Id): (s: set<Id>) {
    set k | k in rel && k.ancestor == a :: k.descendant
  }

  function Depths(rel: Closure, d: Id): (s: set<nat>) {
    set k | k in rel && k.descendant == d :: rel[k].depth
  }

  /** The greatest member, 0 for the empty set: `coalesce(max(depth), 0)`. */
  ghost function MaxOf(s: set<nat>): (m: nat)
    ensures s == {} ==> m == 0
    ensures s != {} ==> m in s
    ensures forall x :: x in s ==> x <= m
  {
    if s == {} then 0 else
      var x :| x in s;
      var rest := MaxOf(s - {x});
      assert forall y :: y in s ==> y == x || y in s - {x};
      if rest > x then rest else x
  }

  /** Grants of the active delegations of one parent, for one resource. */
  function Grants(ds: Delegations, parent: Id, r: Resource): (m: map<Id, int>) {
    map c | c in ds && ds[c].parent == parent && Active(ds[c].status) :: Of(ds[c].grant, r)
  }

  // ----- delegate -----

  datatype Intent = Intent(
    target: string, objective: string, acceptance: Doc, refs: seq<string>, grant: Amounts,
    restrictions: Doc, mode: string, key: string)

  /** A delegation call with the three fresh ids the service draws and the creation time. */
  datatype Request = Request(
    run: Id, worker: string, token: Id, intent: Intent,
    delegation: Id, childTask: Id, childRun: Id, now: int)

  predicate Blank(c: char) { c in {' ', '\t', '\n', '\r'} }

  function Strip(text: string): (s: string) {
    if text == "" then text
    else if Blank(text[0]) then Strip(text[1..])
    else if Blank(text[|text| - 1]) then Strip(text[..|text| - 1])
    else text
  }

  function FingerprintOf(intent: Intent): (f: Fingerprint) {
    Fingerprint(intent.target, Strip(intent.objective), intent.acceptance,
                set i | 0 <= i < |intent.refs| :: intent.refs[i], intent.restrictions, intent.mode)
  }

  datatype Refusal =
    | RunNotFound | LeaseLost | NotDelegatable | SessionRequired | CoordinationDisabled | TargetDenied
    | DuplicateDelegation | VersionNotFound | TargetNotReady | DelegationCycle | DepthExceeded
    | CountExceeded | ParallelismExceeded | TaskNotFound | BudgetExceeded(resource: Resource)
    | PermissionRefused(error: PermissionError) | IdCollision | TaskNotRunnable | RunNotRetryable

  function DefaultLedger(run: Run): (l: Ledger) {
    Ledger(Amounts(OrZero(run.tokenBudget), NonNegativeInt(Get(run.budgets, "cost_limit_microunits")),
                   NonNegativeInt(Get(run.budgets, "tool_call_limit"))),
           NOTHING, NOTHING, NOTHING, 0, 1)
  }

  /** The stored ledger, or the one `_locked_ledger` creates on first use. */
  function LedgerOf(s: State, r: Id): (l: Ledger)
    requires r in s.runs
  {
    if r in s.ledgers then s.ledgers[r] else DefaultLedger(s.runs[r])
  }

  function Committed(l: Ledger, r: Resource): (n: nat) {
    Of(l.direct, r) + Of(l.childConsumed, r) + Of(l.reserved, r)
  }

  /** `_reserve`: the refusal it raises, if any, in the order it checks. */
  function ReserveRefusal(l: Ledger, grant: Amounts, policy: Doc): (r: Option<Refusal>) {
    if l.childCount >= PositiveInt(Get(policy, "max_children")) then Some(CountExceeded)
    else if Committed(l, Tokens) + grant.tokens > l.limit.tokens then Some(BudgetExceeded(Tokens))
    else if Committed(l, Cost) + grant.cost > l.limit.cost then Some(BudgetExceeded(Cost))
    else if Committed(l, ToolCalls) + grant.tools > l.limit.tools then Some(BudgetExceeded(ToolCalls))
    else None
  }

  function Reserved(l: Ledger, grant: Amounts): (r: Ledger) {
    l.(reserved := Plus(l.reserved, grant), childCount := l.childCount + 1, revision := l.revision + 1)
  }

  predicate Cyclic(s: State, run: Id, target: string) {
    exists a :: a in AncestorsOf(s.relations, run) + {run} && a in s.runs && s.runs[a].version == target
  }

  /** `_validate_tree`: reads only the closure table, the run versions and the delegation rows. */
  ghost function TreeRefusal(s: State, run: Id, target: string, policy: Doc): (r: Option<Refusal>) {
    if Cyclic(s, run, target) then Some(DelegationCycle)
    else if MaxOf(Depths(s.relations, run)) + 1 > PositiveInt(Get(policy, "max_depth")) then Some(DepthExceeded)
    else if |ChildrenOf(s.delegations, run)| >= PositiveInt(Get(policy, "max_children")) then Some(CountExceeded)
    else if |ActiveChildrenOf(s.delegations, run)| >= PositiveInt(Get(policy, "max_parallelism")) then
      Some(ParallelismExceeded)
    else None
  }

  function PermissionsFor(session: Session, cat: Catalog, intent: Intent): (r: Result<Doc, PermissionError>)
    requires intent.target in cat.versions
  {
    var v := cat.versions[intent.target];
    PermissionSnapshot(session.tools, session.endpoint, session.model,
                       v.toolPolicy["model_endpoint_id" := v.endpoint]["model" := v.model],
                       intent.restrictions, session.policy)
  }

  datatype Verdict = Refuse(why: Refusal) | Replay(child: Id) | Admit(permissions: Doc)

  predicate HoldsLease(run: Run, worker: string, token: Id) {
    run.lease.Some? && run.lease.value.owner == worker && run.lease.value.token == token
  }

  predicate EnabledFor(policy: Doc) {
    Get(policy, "version") == Int(1) && IsTrue(Get(policy, "enabled"))
  }

  /** The row a keyed lookup finds; the UNIQUE constraint leaves at most one. */
  ghost function Existing(keyed: set<Id>): (c: Id)
    requires keyed != {}
    ensures c in keyed
  {
    var c :| c in keyed; c
  }

  /** Everything `delegate` decides before it writes, in the order it decides. */
  ghost function Admission(s: State, cat: Catalog, q: Request): (a: Verdict) {
    if q.run !in s.runs then Refuse(RunNotFound)
    else if !HoldsLease(s.runs[q.run], q.worker, q.token) then Refuse(LeaseLost)
    else if !Delegatable(s.runs[q.run].status) then Refuse(NotDelegatable)
    else if WithKey(s.delegations, q.run, q.intent.key) != {} then
      Replay(Existing(WithKey(s.delegations, q.run, q.intent.key)))
    else if q.run !in s.sessions then Refuse(SessionRequired)
    else AdmissionUnderPolicy(s, cat, q, s.sessions[q.run])
  }

  ghost function AdmissionUnderPolicy(s: State, cat: Catalog, q: Request, session: Session): (a: Verdict)
    requires q.run in s.runs
  {
    var policy, target := session.policy, q.intent.target;
    if !EnabledFor(policy) then Refuse(CoordinationDisabled)
    else if target !in StringSet(Get(policy, "allowed_agent_version_ids")) then Refuse(TargetDenied)
    else if WithFingerprint(s.delegations, q.run, FingerprintOf(q.intent)) != {} then Refuse(DuplicateDelegation)
    else if target !in cat.versions || !cat.versions[target].published then Refuse(VersionNotFound)
    else if !TargetReady(cat, target) then Refuse(TargetNotReady)
    else
      var tree := TreeRefusal(s, q.run, target, policy);
      if tree.Some? then Refuse(tree.value)
      else if s.runs[q.run].task !in s.tasks then Refuse(TaskNotFound)
      else
        var budget := ReserveRefusal(LedgerOf(s, q.run), q.intent.grant, policy);
        if budget.Some? then Refuse(budget.value)
        else
          var permissions := PermissionsFor(session, cat, q.intent);
          if permissions.Err? then Refuse(PermissionRefused(permissions.error))
          else if !FreshIds(s, q) then Refuse(IdCollision)
          else Admit(permissions.value)
  }

  /** The primary keys the three inserts need. */
  predicate FreshIds(s: State, q: Request) {
    && q.childRun !in s.runs
    && q.childTask !in s.tasks
    && forall c :: c in s.delegations ==> s.delegations[c].id != q.delegation
  }

  function ChildRun(q: Request): (run: Run) {
    Run(Pending, q.intent.target, q.childTask, Some(q.intent.grant.tokens),
        map["cost_limit_microunits" := Int(q.intent.grant.cost), "tool_call_limit" := Int(q.intent.grant.tools)],
        q.now, None, 1)
  }

  function ChildLedger(q: Request): (l: Ledger) {
    Ledger(q.intent.grant, NOTHING, NOTHING, NOTHING, 0, 1)
  }

  function NewDelegation(q: Request, policy: Doc, permissions: Doc): (d: Delegation) {
    Delegation(q.delegation, q.run, q.intent.target, q.intent.grant, policy, permissions,
               q.intent.key, FingerprintOf(q.intent), Accepted, 1)
  }

  /** The rows an accepted delegation writes. */
  function WithDelegation(s: State, q: Request, permissions: Doc): (s': State)
    requires q.run in s.runs && q.run in s.sessions && s.runs[q.run].task in s.tasks
  {
    s.(runs := s.runs[q.childRun := ChildRun(q)],
       tasks := s.tasks[q.childTask := Task(TaskRunning, s.tasks[s.runs[q.run].task].priority, 1)],
       delegations := s.delegations[q.childRun := NewDelegation(q, s.sessions[q.run].policy, permissions)],
       ledgers := s.ledgers[q.run := Reserved(LedgerOf(s, q.run), q.intent.grant)][q.childRun := ChildLedger(q)],
       relations := Grow(s.relations, q.run, q.childRun, q.delegation))
  }

  // ----- cancel_tree -----

  /** Root plus stored descendants. */
  function TreeIds(s: State, root: Id): (ids: set<Id>) {
    {root} + DescendantsOf(s.relations, root)
  }

  function CancelDelegation(d: Delegation): (d': Delegation) {
    d.(status := TreeCancelled, revision := d.revision + 1)
  }

  function CancelDelegations(ds: Delegations, ids: set<Id>): (r: Delegations) {
    map c | c in ds :: if c in ids && Active(ds[c].status) then CancelDelegation(ds[c]) else ds[c]
  }

  /** Active delegations of `parent` whose child is being cancelled. */
  function ReleasedBy(ds: Delegations, ids: set<Id>, parent: Id): (s: set<Id>) {
    set c | c in ds && c in ids && ds[c].parent == parent && Active(ds[c].status)
  }

  ghost function ReleasedAmounts(ds: Delegations, ids: set<Id>, parent: Id, r: Resource): (n: int) {
    Sum(Only(Grants(ds, parent, r), ids))
  }

  /** `_release_reserved_budget`, applied once for every cancelled child of the ledger's run. */
  ghost function ReleaseLedger(l: Ledger, ds: Delegations, ids: set<Id>, parent: Id): (l': Ledger) {
    l.(reserved := Amounts(Less(l.reserved.tokens, ReleasedAmounts(ds, ids, parent, Tokens)),
                           Less(l.reserved.cost, ReleasedAmounts(ds, ids, parent, Cost)),
                           Less(l.reserved.tools, ReleasedAmounts(ds, ids, parent, ToolCalls))),
       revision := l.revision + |ReleasedBy(ds, ids, parent)|)
  }

  ghost function ReleaseLedgers(ledgers: map<Id, Ledger>, ds: Delegations, ids: set<Id>): (r: map<Id, Ledger>) {
    map p | p in ledgers :: ReleaseLedger(ledgers[p], ds, ids, p)
  }

  function CancelRun(run: Run): (run': Run) {
    run.(status := Cancelled, lease := None, revision := run.revision + 1)
  }

  /** Runs of the tree that the cancellation actually stops. */
  function Stopped(runs: map<Id, Run>, ids: set<Id>): (s: set<Id>) {
    set r | r in ids && r in runs && !Terminal(runs[r].status)
  }

  function CancelRuns(runs: map<Id, Run>, ids: set<Id>): (r: map<Id, Run>) {
    map r | r in runs :: if r in ids && !Terminal(runs[r].status) then CancelRun(runs[r]) else runs[r]
  }

  function CancelSessions(sessions: map<Id, Session>, stopped: set<Id>): (r: map<Id, Session>) {
    map r | r in sessions ::
      if r in stopped && sessions[r].status !in {SessionCompleted, SessionFailed, SessionCancelled}
      then sessions[r].(status := SessionCancelled, revision := sessions[r].revision + 1)
      else sessions[r]
  }

  function CancelTasks(tasks: map<Id, Task>, owned: set<Id>): (r: map<Id, Task>) {
    map t | t in tasks ::
      if t in owned && tasks[t].status !in {TaskCompleted, TaskFailed, TaskCancelled}
      then tasks[t].(status := TaskCancelled, revision := tasks[t].revision + 1)
      else tasks[t]
  }

  function TasksOf(runs: map<Id, Run>, stopped: set<Id>): (s: set<Id>) {
    set r | r in stopped && r in runs :: runs[r].task
  }

  function OpenCalls(calls: map<Id, ToolCall>, ids: set<Id>): (s: set<Id>) {
    set t | t in calls && calls[t].run in ids && calls[t].status in {CallPending, CallRunning}
  }

  function CancelCalls(calls: map<Id, ToolCall>, open: set<Id>): (r: map<Id, ToolCall>) {
    map t | t in calls ::
      if t in open then calls[t].(status := CallCancelled, revision := calls[t].revision + 1) else calls[t]
  }

  function StepsOf(calls: map<Id, ToolCall>, open: set<Id>): (s: set<Id>) {
    set t | t in open && t in calls :: calls[t].step
  }

  function CancelSteps(steps: map<Id, RunStep>, touched: set<Id>): (r: map<Id, RunStep>) {
    map t | t in steps ::
      if t in touched && steps[t].status in {StepPending, StepRunning, StepWaiting}
      then steps[t].(status := StepCancelled, revision := steps[t].revision + 1)
      else steps[t]
  }

  function CancelApprovals(approvals: map<Id, Approval>, ids: set<Id>): (r: map<Id, Approval>) {
    map a | a in approvals ::
      if approvals[a].run in ids && approvals[a].status == ApprovalRequested
      then approvals[a].(status := ApprovalCancelled, revision := approvals[a].revision + 1)
      else approvals[a]
  }

  ghost function TreeCancel(s: State, root: Id): (s': State) {
    var ids := TreeIds(s, root);
    var stopped := Stopped(s.runs, ids);
    var open := OpenCalls(s.toolCalls, ids);
    State(
      CancelRuns(s.runs, ids),
      CancelDelegations(s.delegations, ids),
      s.relations,
      ReleaseLedgers(s.ledgers, s.delegations, ids),
      CancelSessions(s.sessions, stopped),
      CancelTasks(s.tasks, TasksOf(s.runs, stopped)),
      CancelCalls(s.toolCalls, open),
      CancelSteps(s.steps, StepsOf(s.toolCalls, open)),
      CancelApprovals(s.approvals, ids))
  }

  // ----- the waiter reconciler -----

  /** A waiting parent whose delegations have all ended. */
  predicate Eligible(s: State, r: Id) {
    && r in s.runs && s.runs[r].status == WaitingForSubagent
    && ChildrenOf(s.delegations, r) != {}
    && ActiveChildrenOf(s.delegations, r) == {}
  }

  function ReadyIds(s: State, locked: set<Id>): (ids: set<Id>) {
    set r | r in s.runs && r !in locked && Eligible(s, r)
  }

  function WakeRun(run: Run): (run': Run) {
    run.(status := Running, lease := None, revision := run.revision + 1)
  }

  /** One pass; `locked` are the rows another transaction holds (SKIP LOCKED). */
  function Reconciled(s: State, locked: set<Id>): (s': State) {
    var ready := ReadyIds(s, locked);
    s.(runs := map r | r in s.runs :: if r in ready then WakeRun(s.runs[r]) else s.runs[r],
       sessions := map r | r in s.sessions ::
         if r in ready && s.sessions[r].status == Suspended
         then s.sessions[r].(status := SessionPaused, revision := s.sessions[r].revision + 1)
         else s.sessions[r])
  }

  // ----- the claim queue -----

  /** Rows `claim_next_run` may take: claimable, unlocked, joined to a task, lease free or expired. */
  predicate Free(s: State, now: int, locked: set<Id>, r: Id) {
    && r in s.runs && r !in locked
    && Claimable(s.runs[r].status)
    && s.runs[r].task in s.tasks
    && (s.runs[r].lease.None? || s.runs[r].lease.value.expires <= now)
  }

  function Priority(s: State, r: Id): (n: int) {
    if r in s.runs && s.runs[r].task in s.tasks then s.tasks[s.runs[r].task].priority else 0
  }

  function CreatedAt(s: State, r: Id): (n: int) {
    if r in s.runs then s.runs[r].createdAt else 0
  }

  /** ORDER BY priority DESC, created_at, id */
  predicate Before(s: State, a: Id, b: Id) {
    Priority(s, a) > Priority(s, b)
    || (Priority(s, a) == Priority(s, b)
        && (CreatedAt(s, a) < CreatedAt(s, b) || (CreatedAt(s, a) == CreatedAt(s, b) && a.bits < b.bits)))
  }

  function FreeRuns(s: State, now: int, locked: set<Id>): (ids: set<Id>) {
    set r | r in s.runs && Free(s, now, locked, r)
  }

  ghost predicate IsNext(s: State, now: int, locked: set<Id>, r: Id) {
    && Free(s, now, locked, r)
    && forall q :: q != r && Free(s, now, locked, q) ==> Before(s, r, q)
  }

  ghost function NextRun(s: State, now: int, locked: set<Id>): (next: Option<Id>)
    ensures next.Some? ==> IsNext(s, now, locked, next.value)
    ensures next.None? ==> forall r :: !IsNext(s, now, locked, r)
  {
    if r :| IsNext(s, now, locked, r) then Some(r) else None
  }

  function ClaimedRun(run: Run, worker: string, token: Id, expires: int): (run': Run) {
    run.(lease := Some(Lease(worker, token, expires)))
  }

  predicate ValidClaim(worker: string, seconds: int) {
    1 <= |worker| <= 200 && 5 <= seconds <= 3600
  }

  // ----- every transaction as a command -----

  /** The columns a new run takes from its request and its agent. */
  datatype RunSpec = RunSpec(version: string, tokenBudget: Option<nat>, budgets: Doc, now: int)

  datatype Command =
    | CreateTask(task: Id, hasAssignee: bool, priority: int)
    | MoveTask(task: Id, taskTarget: TaskStatus, expectedRevision: nat)
    | CreateRoot(run: Id, task: Id, spec: RunSpec, priority: int)
    | CreateRun(run: Id, task: Id, spec: RunSpec)
    | RetryRun(run: Id, previous: Id, spec: RunSpec)
    | Prepare(run: Id, tenantSettings: Doc, agentPolicy: Value, tools: Doc, endpoint: Value, model: Value)
    | Claim(worker: string, seconds: int, now: int, locked: set<Id>, token: Id)
    | Delegate(request: Request, catalog: Catalog)
    | CancelTree(root: Id, expectedRevision: nat)
    | Reconcile(locked: set<Id>)
    | Suspend(run: Id, worker: string, token: Id, now: int)
    | Advance(run: Id, target: RunStatus, expectedRevision: nat)
    | Complete(run: Id, worker: string, token: Id, now: int, target: RunStatus, ended: SessionStatus, usage: Amounts, compaction: bool)
    | RecordCall(id: Id, call: ToolCall, step: RunStep)
    | RecordApproval(id: Id, approval: Approval)

  datatype Outcome =
    | Done
    | Refused(why: Refusal)
    | Replayed(existing: Id)
    | DelegationMade(parent: Id, child: Id, worker: string, token: Id)
    | Claimed(run: Id, worker: string, token: Id)
    | Released(runs: set<Id>)
    | Conflict(error: GuardError)
    | Invalid

  /** CHECK constraints of one ledger row. */
  predicate WithinLimits(l: Ledger) {
    Committed(l, Tokens) <= l.limit.tokens && Committed(l, Cost) <= l.limit.cost
    && Committed(l, ToolCalls) <= l.limit.tools
  }

  /** The session policy: the delegation's policy narrows the run's own one. */
  function SessionPolicy(s: State, run: Id, tenantSettings: Doc, agentPolicy: Value): (d: Doc) {
    var own := BuildSnapshot(tenantSettings, agentPolicy);
    if run in s.delegations then NarrowPolicy(s.delegations[run].policy, own) else own
  }

  function SessionTools(s: State, run: Id, tools: Doc): (d: Doc) {
    if run in s.delegations then s.delegations[run].permissions else tools
  }

  /** `transition_run`: terminal targets drop the lease. */
  function Advanced(run: Run, target: RunStatus): (run': Run) {
    run.(status := target, revision := run.revision + 1, lease := if Terminal(target) then None else run.lease)
  }

  /** `transition_run` moves a running task on when its run completes or is cancelled. */
  function TaskAdvanced(task: Task, target: RunStatus): (task': Task) {
    if task.status != TaskRunning then task
    else if target == Completed then Task(TaskWaitingForReview, task.priority, task.revision + 1)
    else if target == Cancelled then Task(TaskCancelled, task.priority, task.revision + 1)
    else task
  }

  function AdvancedTasks(tasks: map<Id, Task>, t: Id, target: RunStatus): (r: map<Id, Task>) {
    if t in tasks then tasks[t := TaskAdvanced(tasks[t], target)] else tasks
  }

  function AdvancedSessions(sessions: map<Id, Session>, run: Id, target: RunStatus): (r: map<Id, Session>) {
    if target == Cancelled && run in sessions
    then sessions[run := sessions[run].(status := SessionCancelled, revision := sessions[run].revision + 1)]
    else sessions
  }

  /** The tool calls that end with the run. */
  function CallsEnding(calls: map<Id, ToolCall>, run: Id, target: RunStatus): (s: set<Id>) {
    if target == Cancelled then OpenCalls(calls, {run}) else {}
  }

  /** A direct cancellation ends the run's own session, open tool calls and their steps, and
      nothing below the run. */
  function AdvancedTables(s: State, run: Id, target: RunStatus): (s': State)
    requires run in s.runs
  {
    var ending := CallsEnding(s.toolCalls, run, target);
    s.(runs := s.runs[run := Advanced(s.runs[run], target)],
       sessions := AdvancedSessions(s.sessions, run, target),
       tasks := AdvancedTasks(s.tasks, s.runs[run].task, target),
       toolCalls := CancelCalls(s.toolCalls, ending),
       steps := CancelSteps(s.steps, StepsOf(s.toolCalls, ending)))
  }

  function NewRun(task: Id, spec: RunSpec): (run: Run) {
    Run(Pending, spec.version, task, spec.tokenBudget, spec.budgets, spec.now, None, 1)
  }

  /** A new pending run of an existing task, which is running from then on. */
  function WithRun(s: State, run: Id, task: Id, spec: RunSpec): (s': State)
    requires task in s.tasks
  {
    var t := s.tasks[task];
    s.(runs := s.runs[run := NewRun(task, spec)],
       tasks := if t.status == TaskRunning then s.tasks
                else s.tasks[task := Task(TaskRunning, t.priority, t.revision + 1)])
  }

  ghost function DelegateStep(s: State, cat: Catalog, q: Request): (r: (State, Outcome)) {
    match Admission(s, cat, q)
    case Refuse(why) => (s, Refused(why))
    case Replay(child) => (s, Replayed(child))
    case Admit(permissions) => (WithDelegation(s, q, permissions), DelegationMade(q.run, q.childRun, q.worker, q.token))
  }

  ghost function CancelStep(s: State, root: Id, expectedRevision: nat): (r: (State, Outcome)) {
    if root !in s.runs then (s, Refused(RunNotFound))
    else if s.runs[root].status == Cancelled then (s, Done)
    else if expectedRevision != s.runs[root].revision then
      (s, Conflict(RevisionConflict(expectedRevision, s.runs[root].revision)))
    else (TreeCancel(s, root), Released(Stopped(s.runs, TreeIds(s, root))))
  }

  ghost function ClaimStep(s: State, worker: string, seconds: int, now: int, locked: set<Id>, token: Id)
    : (r: (State, Outcome))
  {
    if !ValidClaim(worker, seconds) then (s, Invalid)
    else match NextRun(s, now, locked)
      case Some(r) =>
        (s.(runs := s.runs[r := ClaimedRun(s.runs[r], worker, token, now + seconds)]), Claimed(r, worker, token))
      case None => (s, Done)
  }

  ghost function SuspendStep(s: State, run: Id, worker: string, token: Id, now: int): (r: (State, Outcome)) {
    if run !in s.runs || !HoldsLease(s.runs[run], worker, token) || s.runs[run].lease.value.expires <= now
       || run !in s.sessions then (s, Refused(LeaseLost))
    else
      (s.(runs := s.runs[run := s.runs[run].(status := WaitingForSubagent, lease := None, revision := s.runs[run].revision + 1)],
          sessions := s.sessions[run := s.sessions[run].(status := Suspended, revision := s.sessions[run].revision + 1)]),
       Released({run}))
  }

  ghost function AdvanceStep(s: State, run: Id, target: RunStatus, expectedRevision: nat): (r: (State, Outcome)) {
    if run !in s.runs then (s, Refused(RunNotFound))
    else if expectedRevision != s.runs[run].revision then
      (s, Conflict(RevisionConflict(expectedRevision, s.runs[run].revision)))
    else match TransitionRun(s.runs[run].status, target)
      case Err(error) => (s, Conflict(error))
      case Ok(status) => (AdvancedTables(s, run, status), if Terminal(status) then Released({run}) else Done)
  }

  // complete_claim

  /** The status the task of a finished run takes if it is running: that of a delegated child ends
      with the run, any other waits for review, except after a compaction. */
  function TaskEnded(task: Task, target: RunStatus, final: bool): (task': Task) {
    if task.status != TaskRunning then task
    else
      task.(status := if target == Completed then (if final then TaskCompleted else TaskWaitingForReview)
                      else if target == Cancelled then TaskCancelled else TaskFailed,
            revision := task.revision + 1)
  }

  function EndedTasks(tasks: map<Id, Task>, t: Id, target: RunStatus, final: bool): (r: map<Id, Task>) {
    if t in tasks then tasks[t := TaskEnded(tasks[t], target, final)] else tasks
  }

  function EndedSession(session: Session, ended: SessionStatus): (s: Session) {
    session.(status := ended, revision := session.revision + 1)
  }

  /** The finished run itself: its status, lease, session and task. */
  function EndRun(s: State, run: Id, target: RunStatus, ended: SessionStatus, compaction: bool): (s': State)
    requires run in s.runs && run in s.sessions
  {
    s.(runs := s.runs[run := Advanced(s.runs[run], target)],
       sessions := s.sessions[run := EndedSession(s.sessions[run], ended)],
       tasks := EndedTasks(s.tasks, s.runs[run].task, target, run in s.delegations || compaction))
  }

  function EndStatus(target: RunStatus): (status: DelegationStatus) {
    if target == Completed then Finished else if target == Cancelled then TreeCancelled else Errored
  }

  function EndDelegation(d: Delegation, target: RunStatus): (d': Delegation) {
    d.(status := EndStatus(target), revision := d.revision + 1)
  }

  function Smaller(a: nat, b: nat): (n: nat) { if a <= b then a else b }

  /** What the parent is charged: the usage, up to the grant. */
  function Charge(usage: Amounts, grant: Amounts): (c: Amounts) {
    Amounts(Smaller(usage.tokens, grant.tokens), Smaller(usage.cost, grant.cost), Smaller(usage.tools, grant.tools))
  }

  function ChargedRow(l: Ledger, charge: Amounts): (l': Ledger) {
    l.(direct := charge, revision := l.revision + 1)
  }

  /** The grant is no longer reserved, the charge is consumed. */
  function SettledRow(l: Ledger, grant: Amounts, charge: Amounts): (l': Ledger) {
    l.(reserved := ClampedMinus(l.reserved, grant), childConsumed := Plus(l.childConsumed, charge), revision := l.revision + 1)
  }

  function SettledLedgers(ledgers: map<Id, Ledger>, run: Id, d: Delegation, charge: Amounts): (r: map<Id, Ledger>) {
    var charged := if run in ledgers then ledgers[run := ChargedRow(ledgers[run], charge)] else ledgers;
    if d.parent in charged then charged[d.parent := SettledRow(charged[d.parent], d.grant, charge)] else charged
  }

  /** `a` is at least `b` in every resource. */
  predicate Covers(a: Amounts, b: Amounts) {
    a.tokens >= b.tokens && a.cost >= b.cost && a.tools >= b.tools
  }

  /** The CHECK constraints of the two ledger rows a settlement writes. */
  predicate SettlementPasses(ledgers: map<Id, Ledger>, run: Id, d: Delegation, charge: Amounts) {
    var after := SettledLedgers(ledgers, run, d, charge);
    && (run in after ==> WithinLimits(after[run]))
    && (d.parent in ledgers ==>
          d.parent in after && WithinLimits(after[d.parent]) && Covers(ledgers[d.parent].reserved, d.grant))
  }

  /** Ends the delegation of `run` and settles its grant. */
  function Settle(s: State, run: Id, target: RunStatus, charge: Amounts): (s': State)
    requires run in s.delegations
  {
    var d := s.delegations[run];
    s.(delegations := s.delegations[run := EndDelegation(d, target)], ledgers := SettledLedgers(s.ledgers, run, d, charge))
  }

  /** The parent waits, and no delegation of it is active any more. */
  predicate WaitsForNone(s: State, p: Id) {
    p in s.runs && s.runs[p].status == WaitingForSubagent && ActiveChildrenOf(s.delegations, p) == {}
  }

  /** The last child to finish wakes its parent at once. */
  function WakeParent(s: State, p: Id): (s': State) {
    if !WaitsForNone(s, p) then s
    else s.(runs := s.runs[p := WakeRun(s.runs[p])],
            sessions := if p in s.sessions
                        then s.sessions[p := s.sessions[p].(status := SessionPaused, revision := s.sessions[p].revision + 1)]
                        else s.sessions)
  }

  predicate ActiveChild(s: State, run: Id) { run in s.delegations && Active(s.delegations[run].status) }

  /** The tables after a run finished: a delegated child settles and may wake its parent. */
  function Completion(s: State, run: Id, target: RunStatus, ended: SessionStatus, usage: Amounts, compaction: bool): (s': State)
    requires run in s.runs && run in s.sessions
  {
    var finished := EndRun(s, run, target, ended, compaction);
    if !ActiveChild(s, run) then finished
    else
      var d := s.delegations[run];
      WakeParent(Settle(finished, run, target, Charge(usage, d.grant)), d.parent)
  }

  /** Runs whose lease a completion takes: the finished one and a parent it wakes. */
  function ReleasedByCompletion(s: State, run: Id, target: RunStatus, ended: SessionStatus, usage: Amounts, compaction: bool)
    : (ids: set<Id>)
    requires run in s.runs && run in s.sessions
  {
    var finished := EndRun(s, run, target, ended, compaction);
    if !ActiveChild(s, run) then {run}
    else
      var d := s.delegations[run];
      {run} + if WaitsForNone(Settle(finished, run, target, Charge(usage, d.grant)), d.parent) then {d.parent} else {}
  }

  /** `complete_claim`: the worker that holds an unexpired lease ends the run, whatever its status. */
  function CompleteStep(s: State, run: Id, worker: string, token: Id, now: int, target: RunStatus, ended: SessionStatus,
                        usage: Amounts, compaction: bool): (r: (State, Outcome))
  {
    if !Terminal(target) then (s, Invalid)
    else if run !in s.runs || !HoldsLease(s.runs[run], worker, token) || s.runs[run].lease.value.expires <= now then
      (s, Refused(LeaseLost))
    else if Terminal(s.runs[run].status) then (s, Done)
    else if run !in s.sessions then (s, Refused(LeaseLost))
    else if ActiveChild(s, run)
            && !SettlementPasses(s.ledgers, run, s.delegations[run], Charge(usage, s.delegations[run].grant)) then
      (s, Invalid)
    else (Completion(s, run, target, ended, usage, compaction),
          Released(ReleasedByCompletion(s, run, target, ended, usage, compaction)))
  }

  /** Opens the session of a run that has none. */
  function PrepareStep(s: State, run: Id, policy: Doc, tools: Doc, endpoint: Value, model: Value): (r: (State, Outcome)) {
    if run !in s.runs || run in s.sessions then (s, Invalid)
    else (s.(sessions := s.sessions[run := Session(SessionRunning, policy, tools, endpoint, model, 1)]), Done)
  }

  function CreateTaskStep(s: State, task: Id, hasAssignee: bool, priority: int): (r: (State, Outcome)) {
    if task in s.tasks then (s, Refused(IdCollision))
    else (s.(tasks := s.tasks[task := Task(if hasAssignee then TaskAssigned else TaskCreated, priority, 1)]), Done)
  }

  /** A run together with its own new task, as conversations start them. */
  function CreateRootStep(s: State, run: Id, task: Id, spec: RunSpec, priority: int): (r: (State, Outcome)) {
    if run in s.runs || task in s.tasks then (s, Refused(IdCollision))
    else (s.(runs := s.runs[run := NewRun(task, spec)], tasks := s.tasks[task := Task(TaskRunning, priority, 1)]), Done)
  }

  /** `transition_task`; that an assigned task has a ready agent is the caller's matter. */
  function MoveTaskStep(s: State, task: Id, target: TaskStatus, expectedRevision: nat): (r: (State, Outcome)) {
    if task !in s.tasks then (s, Refused(TaskNotFound))
    else if expectedRevision != s.tasks[task].revision then
      (s, Conflict(RevisionConflict(expectedRevision, s.tasks[task].revision)))
    else if target !in TaskTargets(s.tasks[task].status) then
      (s, Conflict(InvalidTaskTransition(s.tasks[task].status, target)))
    else (s.(tasks := s.tasks[task := Task(target, s.tasks[task].priority, expectedRevision + 1)]), Done)
  }

  /** `create_run`: a further run of a task that is assigned or needs revision. */
  function CreateRunStep(s: State, run: Id, task: Id, spec: RunSpec): (r: (State, Outcome)) {
    if task !in s.tasks then (s, Refused(TaskNotFound))
    else if s.tasks[task].status !in {TaskAssigned, TaskRevisionRequired} then (s, Refused(TaskNotRunnable))
    else if run in s.runs then (s, Refused(IdCollision))
    else (WithRun(s, run, task, spec), Done)
  }

  /** `retry_run`: a new run of the task whose previous run failed or timed out. For the tasks of
      conversation turns `retry_turn` does the same to these tables. */
  function RetryRunStep(s: State, run: Id, previous: Id, spec: RunSpec): (r: (State, Outcome)) {
    if previous !in s.runs then (s, Refused(RunNotFound))
    else if s.runs[previous].status !in {Failed, TimedOut} then (s, Refused(RunNotRetryable))
    else if s.runs[previous].task !in s.tasks then (s, Refused(TaskNotFound))
    else if s.tasks[s.runs[previous].task].status !in {TaskRunning, TaskRevisionRequired, TaskFailed} then
      (s, Refused(TaskNotRunnable))
    else if run in s.runs then (s, Refused(IdCollision))
    else (WithRun(s, run, s.runs[previous].task, spec), Done)
  }

  /** Commands that neither make nor end a delegation. */
  predicate Plain(c: Command) { !c.Delegate? && !c.CancelTree? && !c.Complete? }

  ghost function Step(s: State, c: Command): (r: (State, Outcome)) {
    match c
    case CreateTask(task, hasAssignee, priority) => CreateTaskStep(s, task, hasAssignee, priority)
    case MoveTask(task, target, expectedRevision) => MoveTaskStep(s, task, target, expectedRevision)
    case CreateRoot(run, task, spec, priority) => CreateRootStep(s, run, task, spec, priority)
    case CreateRun(run, task, spec) => CreateRunStep(s, run, task, spec)
    case RetryRun(run, previous, spec) => RetryRunStep(s, run, previous, spec)
    case Prepare(run, tenantSettings, agentPolicy, tools, endpoint, model) =>
      PrepareStep(s, run, SessionPolicy(s, run, tenantSettings, agentPolicy), SessionTools(s, run, tools), endpoint, model)
    case Claim(worker, seconds, now, locked, token) => ClaimStep(s, worker, seconds, now, locked, token)
    case Delegate(request, catalog) => DelegateStep(s, catalog, request)
    case CancelTree(root, expectedRevision) => CancelStep(s, root, expectedRevision)
    case Reconcile(locked) => (Reconciled(s, locked), Released(ReadyIds(s, locked)))
    case Suspend(run, worker, token, now) => SuspendStep(s, run, worker, token, now)
    case Advance(run, target, expectedRevision) => AdvanceStep(s, run, target, expectedRevision)
    case Complete(run, worker, token, now, target, ended, usage, compaction) =>
      CompleteStep(s, run, worker, token, now, target, ended, usage, compaction)
    case RecordCall(id, call, step) =>
      (s.(toolCalls := s.toolCalls[id := call], steps := s.steps[call.step := step]), Done)
    case RecordApproval(id, approval) => (s.(approvals := s.approvals[id := approval]), Done)
  }

  /** The state after a history of commands, from the empty database. */
  ghost function After(history: seq<Command>): (s: State)
    decreases |history|
  {
    if history == [] then EMPTY
    else Step(After(history[..|history| - 1]), history[|history| - 1]).0
  }

  /** What the i-th command of a history answered. */
  ghost function Answer(history: seq<Command>, i: nat): (o: Outcome)
    requires i < |history|
  {
    Step(After(history[..i]), history[i]).1
  }
}
