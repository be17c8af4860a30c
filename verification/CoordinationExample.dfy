/** Concrete histories of the delegation tree: one in which a delegation is accepted, one in which its
    child outlives the cancellation of its parent, one in which the child finishes, and one in which a
    cancellation leaves the task table. */
module CoordinationExample {
  import opened Foundation
  import opened RunStates
  import opened Forest
  import opened CoordinationPolicy
  import opened Coordination
  import opened CoordinationAdmission
  import opened CoordinationInvariants
  import opened CoordinationCancel
  import opened CoordinationSettlement
  import opened CoordinationTheorems
  import opened CoordinationCompletion
  import opened CoordinationHistories
  import opened CoordinationLeases

  const RUN := Uuid(0)
  const TASK := Uuid(1)
  const TOKEN := Uuid(2)

  const POLICY: Doc := map[
    "enabled" := Bool(true), "max_depth" := Int(2), "max_children" := Int(2), "max_parallelism" := Int(2),
    "allowed_agent_version_ids" := Names({"v2", "v3"})]

  const CATALOG := Catalog(
    map["v2" := Version(Uuid(9), true, map[], Null, Null), "v3" := Version(Uuid(13), true, map[], Null, Null)],
    map[Uuid(9) := Agent("v2", true), Uuid(13) := Agent("v3", true)])

  /** The root may spend 1000000 microunits, but make only 5 tool calls. */
  const BUDGETS: Doc := map["cost_limit_microunits" := Int(1000000), "tool_call_limit" := Int(5)]

  const CREATE := Command.CreateRoot(RUN, TASK, RunSpec("v1", Some(1000), BUDGETS, 0), 0)
  const PREPARE := Command.Prepare(RUN, map["coordination_policy" := Dict(POLICY)], Dict(POLICY), map[], Null, Null)
  const CLAIM := Command.Claim("worker", 60, 0, {}, TOKEN)
  const PLAN := Command.Advance(RUN, Planning, 1)
  const CHILD := Uuid(5)
  const REQUEST := Request(RUN, "worker", TOKEN, Intent("v2", "write a summary", map[], [], Amounts(10, 0, 0), map[], "parallel", "k1"),
                           Uuid(3), Uuid(4), CHILD, 1)

  /** One root run of version v1 at `status`, and nothing delegated yet. */
  ghost predicate OneRun(s: State, status: RunStatus) {
    && s.runs.Keys == {RUN} && s.tasks.Keys == {TASK}
    && s.delegations == map[] && s.relations == map[] && s.ledgers == map[]
    && s.runs[RUN].status == status && s.runs[RUN].version == "v1" && s.runs[RUN].task == TASK
    && s.runs[RUN].tokenBudget == Some(1000) && s.runs[RUN].budgets == BUDGETS && s.runs[RUN].revision == 1
  }

  ghost predicate Prepared(s: State) {
    s.sessions.Keys == {RUN}
    && s.sessions[RUN] == Session(SessionRunning, BuildSnapshot(map["coordination_policy" := Dict(POLICY)], Dict(POLICY)), map[], Null, Null, 1)
  }

  lemma PolicyAllows()
    ensures var p := BuildSnapshot(map["coordination_policy" := Dict(POLICY)], Dict(POLICY));
      && EnabledFor(p) && {"v2", "v3"} <= StringSet(Get(p, "allowed_agent_version_ids"))
      && PositiveInt(Get(p, "max_depth")) == PositiveInt(Get(p, "max_children")) == PositiveInt(Get(p, "max_parallelism")) == 2
  {
    hide StringSet;
    NamesRead({"v2", "v3"});
    NamesRead({"v2", "v3"} * {"v2", "v3"});
    NullNames();
    assert !HasWildcard({"v2", "v3"} + {"v2", "v3"}) && !HasWildcard({});
  }

  lemma NullNames()
    ensures StringSet(Null) == {}
  {}

  lemma NamesRead(names: set<string>)
    requires "" !in names
    ensures StringSet(Names(names)) == names
  {}

  lemma Created()
    ensures OneRun(Step(EMPTY, CREATE).0, Pending) && Step(EMPTY, CREATE).0.sessions == map[]
    ensures Step(EMPTY, CREATE).0.runs[RUN].lease.None?
  {}

  lemma PreparedNext(s: State)
    requires OneRun(s, Pending) && s.sessions == map[] && s.runs[RUN].lease.None?
    ensures OneRun(Step(s, PREPARE).0, Pending) && Prepared(Step(s, PREPARE).0) && Step(s, PREPARE).0.runs[RUN].lease.None?
  {
    hide BuildSnapshot;
  }

  lemma ClaimedNext(s: State)
    requires OneRun(s, Pending) && Prepared(s) && s.runs[RUN].lease.None?
    ensures var s' := Step(s, CLAIM).0; OneRun(s', Pending) && Prepared(s') && HoldsLease(s'.runs[RUN], "worker", TOKEN)
  {
    assert RUN in FreeRuns(s, 0, {});
    ClaimTakesLeast(s, "worker", 60, 0, {}, TOKEN);
    hide Step, BuildSnapshot;
  }

  lemma PlannedNext(s: State)
    requires OneRun(s, Pending) && Prepared(s) && HoldsLease(s.runs[RUN], "worker", TOKEN)
    ensures var s' := Step(s, PLAN).0;
      s'.runs.Keys == {RUN} && s'.runs[RUN].revision == 2
      && OneRun(s'.(runs := s'.runs[RUN := s'.runs[RUN].(revision := 1)]), Planning)
      && Prepared(s') && HoldsLease(s'.runs[RUN], "worker", TOKEN)
  {
    hide BuildSnapshot;
  }

  lemma NothingAbove(s: State, policy: Doc)
    requires s.runs.Keys == {RUN} && s.delegations == map[] && s.relations == map[] && s.runs[RUN].version == "v1"
    requires PositiveInt(Get(policy, "max_depth")) == 2
    requires PositiveInt(Get(policy, "max_children")) == PositiveInt(Get(policy, "max_parallelism")) == 2
    ensures TreeRefusal(s, RUN, "v2", policy).None?
  {
    assert AncestorsOf(s.relations, RUN) == {} && Depths(s.relations, RUN) == {};
    assert ChildrenOf(s.delegations, RUN) == {} && ActiveChildrenOf(s.delegations, RUN) == {};
    hide PositiveInt, Get;
  }

  lemma PermissionsGranted(session: Session, intent: Intent)
    requires session.endpoint == Null && session.model == Null && intent.target in {"v2", "v3"} && intent.restrictions == map[]
    ensures PermissionsFor(session, CATALOG, intent).Ok?
  {
    hide StringSet, Intersected, SecretRefs, RestrictionSet;
  }

  lemma BudgetFits(s: State, policy: Doc, grant: Amounts)
    requires RUN in s.runs && s.ledgers == map[] && s.runs[RUN].tokenBudget == Some(1000) && s.runs[RUN].budgets == BUDGETS
    requires PositiveInt(Get(policy, "max_children")) == 2
    ensures grant.tokens <= 1000 && grant.cost <= 1000000 ==>
      ReserveRefusal(LedgerOf(s, RUN), grant, policy) == if grant.tools <= 5 then None else Some(BudgetExceeded(ToolCalls))
  {
    RootLedger(s.runs[RUN]);
    hide PositiveInt, DefaultLedger, RUN, Get;
  }

  lemma RootLedger(run: Run)
    requires run.tokenBudget == Some(1000) && run.budgets == BUDGETS
    ensures DefaultLedger(run) == Ledger(Amounts(1000, 1000000, 5), NOTHING, NOTHING, NOTHING, 0, 1)
  {}

  lemma NothingDelegatedYet(s: State, grant: Amounts)
    requires s.runs.Keys == {RUN} && s.tasks.Keys == {TASK} && s.delegations == map[]
    ensures var q := AskingFor(grant);
      && WithKey(s.delegations, RUN, q.intent.key) == {}
      && WithFingerprint(s.delegations, RUN, FingerprintOf(q.intent)) == {}
      && TargetReady(CATALOG, "v2") && FreshIds(s, q)
  {
    hide FingerprintOf;
  }

  /** The first request, with another grant. */
  function AskingFor(grant: Amounts): (q: Request) { REQUEST.(intent := REQUEST.intent.(grant := grant)) }

  /** A planned root is refused only what its budget does not cover. */
  lemma Answered(s: State, grant: Amounts)
    requires s.runs.Keys == {RUN} && OneRun(s.(runs := s.runs[RUN := s.runs[RUN].(revision := 1)]), Planning)
    requires Prepared(s) && HoldsLease(s.runs[RUN], "worker", TOKEN) && grant.tokens <= 1000 && grant.cost <= 1000000
    ensures Step(s, Delegate(AskingFor(grant), CATALOG)).1 ==
      if grant.tools <= 5 then DelegationMade(RUN, CHILD, "worker", TOKEN) else Refused(BudgetExceeded(ToolCalls))
  {
    hide *;
    var q := AskingFor(grant);
    RequestFields(grant);
    PolicyAllows();
    PlannedRow(s);
    NothingAbove(s, s.sessions[RUN].policy);
    PermissionsGranted(s.sessions[RUN], q.intent);
    BudgetFits(s, s.sessions[RUN].policy, grant);
    NothingDelegatedYet(s, grant);
    if grant.tools <= 5 {
      PassesEveryCheck(s, CATALOG, q);
      AdmittedIsMade(s, CATALOG, q);
    } else {
      RefusedByBudget(s, CATALOG, q, BudgetExceeded(ToolCalls));
    }
  }

  lemma RefusedByBudget(s: State, cat: Catalog, q: Request, why: Refusal)
    requires q.run in s.runs && q.run in s.sessions && s.runs[q.run].task in s.tasks
    requires HoldsLease(s.runs[q.run], q.worker, q.token) && Delegatable(s.runs[q.run].status)
    requires EnabledFor(s.sessions[q.run].policy)
    requires q.intent.target in StringSet(Get(s.sessions[q.run].policy, "allowed_agent_version_ids"))
    requires WithKey(s.delegations, q.run, q.intent.key) == {}
    requires WithFingerprint(s.delegations, q.run, FingerprintOf(q.intent)) == {}
    requires q.intent.target in cat.versions && cat.versions[q.intent.target].published && TargetReady(cat, q.intent.target)
    requires TreeRefusal(s, q.run, q.intent.target, s.sessions[q.run].policy).None?
    requires ReserveRefusal(LedgerOf(s, q.run), q.intent.grant, s.sessions[q.run].policy) == Some(why)
    ensures Step(s, Delegate(q, cat)).1 == Refused(why)
  {
    hide TreeRefusal, ReserveRefusal, PermissionsFor, HoldsLease, Delegatable, FreshIds, StringSet, EnabledFor, Get,
         TargetReady, LedgerOf, FingerprintOf, WithKey, WithFingerprint, WithDelegation;
  }

  lemma Accepted(s: State)
    requires s.runs.Keys == {RUN} && OneRun(s.(runs := s.runs[RUN := s.runs[RUN].(revision := 1)]), Planning)
    requires Prepared(s) && HoldsLease(s.runs[RUN], "worker", TOKEN)
    ensures Step(s, Delegate(REQUEST, CATALOG)).1 == DelegationMade(RUN, CHILD, "worker", TOKEN)
  {
    Answered(s, GRANT);
    assert AskingFor(GRANT) == REQUEST;
    hide *;
  }

  lemma RequestFields(grant: Amounts)
    ensures var q := AskingFor(grant);
      && q.run == RUN && q.worker == "worker" && q.token == TOKEN && q.childRun == CHILD
      && q.intent.target == "v2" && q.intent.restrictions == map[] && q.intent.grant == grant
    ensures "v2" in CATALOG.versions && CATALOG.versions["v2"].published
  {}

  lemma PlannedRow(s: State)
    requires s.runs.Keys == {RUN} && OneRun(s.(runs := s.runs[RUN := s.runs[RUN].(revision := 1)]), Planning) && Prepared(s)
    ensures RUN in s.runs && RUN in s.sessions && s.runs[RUN].task in s.tasks && Delegatable(s.runs[RUN].status)
    ensures s.tasks.Keys == {TASK} && s.delegations == map[] && s.relations == map[] && s.ledgers == map[]
    ensures s.runs[RUN].version == "v1" && s.runs[RUN].tokenBudget == Some(1000) && s.runs[RUN].budgets == BUDGETS
    ensures s.sessions[RUN].policy == BuildSnapshot(map["coordination_policy" := Dict(POLICY)], Dict(POLICY))
    ensures s.sessions[RUN].endpoint == Null && s.sessions[RUN].model == Null
  {
    hide BuildSnapshot, POLICY;
  }

  /** A root run is created, prepared, claimed and planned. */
  ghost function Planned(): (history: seq<Command>) { [] + [CREATE] + [PREPARE] + [CLAIM] + [PLAN] }

  lemma PlannedRun()
    ensures var s := After(Planned());
      && s.runs.Keys == {RUN} && s.runs[RUN].revision == 2
      && OneRun(s.(runs := s.runs[RUN := s.runs[RUN].(revision := 1)]), Planning)
      && Prepared(s) && HoldsLease(s.runs[RUN], "worker", TOKEN)
  {
    assert After([]) == EMPTY;
    hide After, Step, Answer;
    AfterStep([], CREATE);
    AfterStep([] + [CREATE], PREPARE);
    AfterStep([] + [CREATE] + [PREPARE], CLAIM);
    AfterStep([] + [CREATE] + [PREPARE] + [CLAIM], PLAN);
    Created();
    PreparedNext(After([] + [CREATE]));
    ClaimedNext(After([] + [CREATE] + [PREPARE]));
    PlannedNext(After([] + [CREATE] + [PREPARE] + [CLAIM]));
  }

  /** The lease of the planned run runs until 60. */
  lemma PlannedLease()
    ensures var s := After(Planned()); RUN in s.runs && s.runs[RUN].lease == Some(Lease("worker", TOKEN, 60))
  {
    assert After([]) == EMPTY;
    hide After, Step, Answer;
    AfterStep([], CREATE);
    AfterStep([] + [CREATE], PREPARE);
    AfterStep([] + [CREATE] + [PREPARE], CLAIM);
    AfterStep([] + [CREATE] + [PREPARE] + [CLAIM], PLAN);
    Created();
    PreparedNext(After([] + [CREATE]));
    ClaimedNext(After([] + [CREATE] + [PREPARE]));
    LeaseUntil(After([] + [CREATE] + [PREPARE]));
    PlanKeepsLease(After([] + [CREATE] + [PREPARE] + [CLAIM]));
  }

  lemma LeaseUntil(s: State)
    requires OneRun(s, Pending) && Prepared(s) && s.runs[RUN].lease.None?
    ensures var s' := Step(s, CLAIM).0; RUN in s'.runs && s'.runs[RUN].lease == Some(Lease("worker", TOKEN, 60))
  {
    hide Step, Prepared;
    assert RUN in FreeRuns(s, 0, {});
    ClaimTakesLeast(s, "worker", 60, 0, {}, TOKEN);
  }

  lemma PlanKeepsLease(s: State)
    requires OneRun(s, Pending) && s.runs[RUN].lease == Some(Lease("worker", TOKEN, 60))
    ensures var s' := Step(s, PLAN).0; RUN in s'.runs && s'.runs[RUN].lease == Some(Lease("worker", TOKEN, 60))
  {
    hide CallsEnding, CancelCalls, StepsOf, CancelSteps, AdvancedTasks, AdvancedSessions;
  }

  /** The root's budgets are told apart: of two grants of 10 tokens the one that asks for 100 microunits is
      accepted, and the one that asks for 50 tool calls refused for them. */
  lemma BudgetsToldApart()
    ensures Step(After(Planned()), Delegate(AskingFor(Amounts(10, 100, 0)), CATALOG)).1 == DelegationMade(RUN, CHILD, "worker", TOKEN)
    ensures Step(After(Planned()), Delegate(AskingFor(Amounts(10, 0, 50)), CATALOG)).1 == Refused(BudgetExceeded(ToolCalls))
  {
    hide *;
    PlannedRun();
    Answered(After(Planned()), Amounts(10, 100, 0));
    Answered(After(Planned()), Amounts(10, 0, 50));
  }

  /** Its worker's delegation is then accepted. */
  lemma DelegationHappens() returns (history: seq<Command>)
    ensures |history| == 5 && Answer(history, 4) == DelegationMade(RUN, CHILD, "worker", TOKEN)
  {
    history := Planned() + [Delegate(REQUEST, CATALOG)];
    assert history[..4] == Planned();
    assert Answer(history, 4) == Step(After(history[..4]), history[4]).1;
    hide *;
    PlannedRun();
    Accepted(After(Planned()));
  }

  // ----- a child that outlives its parent -----

  const STOP_PARENT := Command.Advance(RUN, Cancelled, 2)
  const STOP_TREE := Command.CancelTree(RUN, 3)

  /** A child of RUN that is still pending under an active delegation. */
  ghost predicate ChildAlive(s: State) {
    && RUN in s.runs && CHILD in s.runs && CHILD in s.delegations
    && s.delegations[CHILD].parent == RUN && Active(s.delegations[CHILD].status)
    && s.runs[CHILD].status == Pending
  }

  lemma ChildStarts(s: State)
    requires s.runs.Keys == {RUN} && s.runs[RUN].revision == 2 && s.runs[RUN].status == Planning
    requires DelegateStep(s, CATALOG, REQUEST).1.DelegationMade? && Rows(s)
    ensures var s' := DelegateStep(s, CATALOG, REQUEST).0;
      ChildAlive(s') && s'.runs[RUN].revision == 2 && s'.runs[RUN].status == Planning
  {
    hide DelegateStep, HoldsLease, Delegatable, ChildRun, Rows, Active;
    DelegateOutcome(s, CATALOG, REQUEST);
    ChildIsPending();
  }

  lemma ChildIsPending()
    ensures ChildRun(REQUEST).status == Pending
  {}

  lemma ParentStops(s: State)
    requires ChildAlive(s) && s.runs[RUN].revision == 2 && s.runs[RUN].status == Planning
    ensures var s' := Step(s, STOP_PARENT).0; ChildAlive(s') && s'.runs[RUN].status == Cancelled
  {
    hide CallsEnding, CancelCalls, StepsOf, CancelSteps, AdvancedTasks, AdvancedSessions, Active;
  }

  lemma ChildIsBelow(s: State)
    requires ChildAlive(s)
    ensures InSubtree(ParentsOf(s.delegations), RUN, CHILD) && !Quiescent(s, CHILD)
  {
    var p := ParentsOf(s.delegations);
    UpZero(p, RUN);
    assert Up(p, CHILD, 1) == Some(RUN);
  }

  /** The parent of an accepted delegation is cancelled directly, by a run transition; a `cancel_tree`
      on it then returns early, and the child below it is still pending under an active delegation. */
  lemma ChildOutlivesDirectCancel() returns (history: seq<Command>)
    ensures |history| == 7 && history[5] == STOP_PARENT && history[6] == STOP_TREE
    ensures Answer(history, 6) == Done
    ensures var s := After(history);
      && RUN in s.runs && s.runs[RUN].status == Cancelled
      && ChildAlive(s) && InSubtree(ParentsOf(s.delegations), RUN, CHILD) && !Quiescent(s, CHILD)
  {
    hide *;
    var stopped := ChildOfStoppedParent();
    history := stopped + [STOP_TREE];
    AfterStep(stopped, STOP_TREE);
    LastAnswer(stopped, STOP_TREE);
    CancelReturnsEarly(After(stopped), RUN, 3);
    StopTreeIs();
    ChildIsBelow(After(stopped));
  }

  lemma StopTreeIs()
    ensures STOP_TREE == Command.CancelTree(RUN, 3)
  {}

  lemma LastAnswer(history: seq<Command>, c: Command)
    ensures Answer(history + [c], |history|) == Step(After(history), c).1
  {
    assert (history + [c])[..|history|] == history;
    hide Step, After;
  }

  /** The history up to the direct cancellation. */
  lemma ChildOfStoppedParent() returns (stopped: seq<Command>)
    ensures |stopped| == 6 && stopped[5] == STOP_PARENT
    ensures var s := After(stopped); ChildAlive(s) && RUN in s.runs && s.runs[RUN].status == Cancelled
  {
    hide *;
    var delegated := ChildOfPlannedParent();
    stopped := delegated + [STOP_PARENT];
    AfterStep(delegated, STOP_PARENT);
    ParentStops(After(delegated));
    AliveMeans(After(stopped));
  }

  lemma ChildOfPlannedParent() returns (delegated: seq<Command>)
    ensures |delegated| == 5
    ensures var s := After(delegated);
      ChildAlive(s) && RUN in s.runs && s.runs[RUN].revision == 2 && s.runs[RUN].status == Planning
  {
    hide *;
    var made := Delegate(REQUEST, CATALOG);
    delegated := Planned() + [made];
    PlannedRun();
    FourPlanned();
    Reachable(Planned());
    InvParts(After(Planned()));
    AfterStep(Planned(), made);
    StepIsDelegate(After(Planned()), made);
    Accepted(After(Planned()));
    PlanningStatus(After(Planned()));
    ChildStarts(After(Planned()));
    AliveMeans(After(delegated));
  }

  lemma FourPlanned()
    ensures |Planned()| == 4
  {}

  lemma PlanningStatus(s: State)
    requires s.runs.Keys == {RUN} && OneRun(s.(runs := s.runs[RUN := s.runs[RUN].(revision := 1)]), Planning)
    ensures s.runs[RUN].status == Planning
  {}

  lemma AliveMeans(s: State)
    requires ChildAlive(s)
    ensures RUN in s.runs
  {}

  // ----- a child that finishes -----

  const HELPER := Uuid(6)
  const GRANT := Amounts(10, 0, 0)
  const USED := Amounts(7, 0, 0)
  const SUSPEND := Command.Suspend(RUN, "worker", TOKEN, 0)
  const PREPARE_CHILD := Command.Prepare(CHILD, map["coordination_policy" := Dict(POLICY)], Dict(POLICY), map[], Null, Null)
  const CLAIM_CHILD := Command.Claim("helper", 60, 0, {}, HELPER)
  const FINISH := Command.Complete(CHILD, "helper", HELPER, 0, Completed, SessionCompleted, USED, false)

  /** The policy RUN works under. */
  ghost function Own(): (d: Doc) { BuildSnapshot(map["coordination_policy" := Dict(POLICY)], Dict(POLICY)) }

  /** RUN with its one child at `status`, nothing consumed yet. */
  ghost predicate OneChild(s: State, status: RunStatus, revision: nat) {
    && s.runs.Keys == {RUN, CHILD} && s.delegations.Keys == {CHILD} && s.tasks.Keys == {TASK, Uuid(4)}
    && s.runs[RUN].version == "v1" && s.runs[CHILD].version == "v2"
    && s.runs[CHILD].status == status && s.runs[CHILD].revision == revision && s.runs[CHILD].task == Uuid(4)
    && s.delegations[CHILD].parent == RUN && s.delegations[CHILD].status == DelegationStatus.Accepted
    && s.delegations[CHILD].grant == GRANT && s.delegations[CHILD].id == Uuid(3) && s.delegations[CHILD].policy == Own()
    && CHILD in s.ledgers && s.ledgers[CHILD] == Ledger(GRANT, NOTHING, NOTHING, NOTHING, 0, 1)
    && RUN in s.sessions
  }

  /** The child's session. */
  ghost predicate ChildSession(s: State) {
    CHILD in s.sessions && s.sessions[CHILD].policy == NarrowPolicy(Own(), Own())
    && s.sessions[CHILD].endpoint == Null && s.sessions[CHILD].model == Null
  }

  lemma ChildMade(s: State)
    requires s.runs.Keys == {RUN} && s.delegations == map[] && RUN in s.sessions && s.sessions.Keys == {RUN} && s.tasks.Keys == {TASK}
    requires s.sessions[RUN].policy == Own() && s.runs[RUN].version == "v1"
    requires s.runs[RUN].status == Planning && HoldsLease(s.runs[RUN], "worker", TOKEN) && s.runs[RUN].lease.value.expires == 60
    requires DelegateStep(s, CATALOG, REQUEST).1.DelegationMade?
    ensures var s' := DelegateStep(s, CATALOG, REQUEST).0;
      && OneChild(s', Pending, 1) && s'.runs[RUN] == s.runs[RUN] && s'.runs[CHILD].lease.None? && CHILD !in s'.sessions
  {
    hide *;
    MadeIsWritten(s);
    var permissions := Admission(s, CATALOG, REQUEST).permissions;
    AdmissionMeans(s, CATALOG, REQUEST);
    AdmittedInserts(s, CATALOG, REQUEST, permissions);
    InsertableRun(s);
    RequestRows(s.sessions[RUN].policy, permissions);
    DelegationTables(s, REQUEST, permissions);
    ChildTask(s, permissions);
    MadeRows(s, WithDelegation(s, REQUEST, permissions), ChildRun(REQUEST), NewDelegation(REQUEST, s.sessions[RUN].policy, permissions));
  }

  lemma MadeIsWritten(s: State)
    requires DelegateStep(s, CATALOG, REQUEST).1.DelegationMade?
    ensures var verdict := Admission(s, CATALOG, REQUEST);
      && verdict.Admit? && REQUEST.run in s.runs && REQUEST.run in s.sessions && s.runs[REQUEST.run].task in s.tasks
      && DelegateStep(s, CATALOG, REQUEST).0 == WithDelegation(s, REQUEST, verdict.permissions)
    ensures REQUEST.run == RUN && REQUEST.childRun == CHILD && RUN != CHILD
  {
    hide Admission, WithDelegation, Admitted;
    AdmissionMeans(s, CATALOG, REQUEST);
    AdmittedRunIsLive(s, CATALOG, REQUEST, Admission(s, CATALOG, REQUEST).permissions);
  }

  lemma InsertableRun(s: State)
    requires Insertable(s, REQUEST)
    ensures RUN in s.runs && RUN in s.sessions && s.runs[RUN].task in s.tasks
  {}

  lemma RequestRows(policy: Doc, permissions: Doc)
    ensures var run := ChildRun(REQUEST);
      run.status == Pending && run.lease.None? && run.version == "v2" && run.revision == 1 && run.task == Uuid(4)
    ensures var d := NewDelegation(REQUEST, policy, permissions);
      d.parent == RUN && d.status == DelegationStatus.Accepted && d.grant == GRANT && d.id == Uuid(3) && d.policy == policy
    ensures ChildLedger(REQUEST) == Ledger(GRANT, NOTHING, NOTHING, NOTHING, 0, 1)
  {
    hide FingerprintOf;
  }

  lemma MadeRows(s: State, s': State, run: Run, d: Delegation)
    requires s.runs.Keys == {RUN} && s.delegations == map[] && s.sessions.Keys == {RUN} && RUN != CHILD
    requires s.tasks.Keys == {TASK} && s'.tasks.Keys == s.tasks.Keys + {Uuid(4)} && s.runs[RUN].version == "v1"
    requires s'.runs == s.runs[CHILD := run] && s'.delegations == s.delegations[CHILD := d] && s'.sessions == s.sessions
    requires run.status == Pending && run.lease.None? && run.version == "v2" && run.revision == 1 && run.task == Uuid(4)
    requires d.parent == RUN && d.status == DelegationStatus.Accepted && d.grant == GRANT && d.id == Uuid(3) && d.policy == Own()
    requires CHILD in s'.ledgers && s'.ledgers[CHILD] == Ledger(GRANT, NOTHING, NOTHING, NOTHING, 0, 1)
    ensures OneChild(s', Pending, 1) && s'.runs[RUN] == s.runs[RUN] && s'.runs[CHILD].lease.None? && CHILD !in s'.sessions
  {
    hide Own;
  }

  lemma ChildTask(s: State, permissions: Doc)
    requires Insertable(s, REQUEST)
    ensures WithDelegation(s, REQUEST, permissions).tasks.Keys == s.tasks.Keys + {Uuid(4)}
  {
    hide NewDelegation, ChildLedger, Reserved, LedgerOf, Grow, ChildRun;
  }

  /** A step that keeps the rows of the child's delegation, its ledger and its definition. */
  lemma ChildStays(s: State, s': State, status: RunStatus, revision: nat)
    requires OneChild(s, status, revision) && s'.runs.Keys == s.runs.Keys && s'.tasks.Keys == s.tasks.Keys
    requires s'.delegations == s.delegations && s'.ledgers == s.ledgers && s.sessions.Keys <= s'.sessions.Keys
    requires RUN in s.runs && s'.runs[RUN].version == s.runs[RUN].version
    requires CHILD in s.runs && s'.runs[CHILD].version == s.runs[CHILD].version && s'.runs[CHILD].task == s.runs[CHILD].task
    ensures OneChild(s', s'.runs[CHILD].status, s'.runs[CHILD].revision)
  {
    hide Own, RUN, CHILD, TASK, GRANT, NOTHING;
  }

  lemma ChildFacts(s: State, status: RunStatus, revision: nat)
    requires OneChild(s, status, revision)
    ensures s.runs.Keys == {RUN, CHILD} && RUN in s.runs && CHILD in s.runs && RUN != CHILD && RUN in s.sessions
    ensures s.runs[CHILD].status == status && s.runs[CHILD].revision == revision && s.runs[CHILD].task in s.tasks
  {
    hide Own, NOTHING;
  }

  lemma Suspends(s: State, run: Id, worker: string, token: Id)
    requires run in s.runs && run in s.sessions && HoldsLease(s.runs[run], worker, token) && s.runs[run].lease.value.expires > 0
    ensures var s' := Step(s, Command.Suspend(run, worker, token, 0)).0;
      && s'.runs == s.runs[run := s.runs[run].(status := WaitingForSubagent, lease := None, revision := s.runs[run].revision + 1)]
      && s'.sessions.Keys == s.sessions.Keys && s'.tasks == s.tasks && s'.delegations == s.delegations && s'.ledgers == s.ledgers
  {
    hide HoldsLease;
  }

  lemma ParentWaits(s: State)
    requires OneChild(s, Pending, 1) && HoldsLease(s.runs[RUN], "worker", TOKEN) && s.runs[RUN].lease.value.expires == 60
    requires s.runs[CHILD].lease.None? && CHILD !in s.sessions
    ensures var s' := Step(s, SUSPEND).0;
      && OneChild(s', Pending, 1) && s'.runs[RUN].status == WaitingForSubagent && s'.runs[CHILD].lease.None? && CHILD !in s'.sessions
  {
    SuspendIs();
    hide *;
    ChildFacts(s, Pending, 1);
    Suspends(s, RUN, "worker", TOKEN);
    ChildStays(s, Step(s, SUSPEND).0, Pending, 1);
  }

  lemma SuspendIs()
    ensures SUSPEND == Command.Suspend(RUN, "worker", TOKEN, 0)
  {}

  lemma ChildPrepared(s: State)
    requires OneChild(s, Pending, 1) && s.runs[RUN].status == WaitingForSubagent && s.runs[CHILD].lease.None? && CHILD !in s.sessions
    ensures var s' := Step(s, PREPARE_CHILD).0;
      && OneChild(s', Pending, 1) && s'.runs[RUN].status == WaitingForSubagent && s'.runs[CHILD].lease.None? && ChildSession(s')
  {
    hide NarrowPolicy, BuildSnapshot;
  }

  lemma ChildClaimed(s: State)
    requires OneChild(s, Pending, 1) && s.runs[RUN].status == WaitingForSubagent && s.runs[CHILD].lease.None? && ChildSession(s)
    ensures var s' := Step(s, CLAIM_CHILD).0;
      && OneChild(s', Pending, 1) && s'.runs[RUN].status == WaitingForSubagent && ChildSession(s')
      && s'.runs[CHILD].lease == Some(Lease("helper", HELPER, 60))
  {
    hide *;
    ChildFacts(s, Pending, 1);
    OnlyChildFree(s);
    ClaimIs();
    ClaimTakesLeast(s, "helper", 60, 0, {}, HELPER);
    ChildStays(s, Step(s, CLAIM_CHILD).0, Pending, 1);
    ChildSessionStays(s, Step(s, CLAIM_CHILD).0);
  }

  lemma ClaimIs()
    ensures CLAIM_CHILD == Command.Claim("helper", 60, 0, {}, HELPER) && ValidClaim("helper", 60)
  {}

  lemma OnlyChildFree(s: State)
    requires s.runs.Keys == {RUN, CHILD} && RUN != CHILD && RUN in s.runs && CHILD in s.runs
    requires s.runs[RUN].status == WaitingForSubagent && s.runs[CHILD].lease.None?
    requires s.runs[CHILD].status == Pending && s.runs[CHILD].task in s.tasks
    ensures CHILD in FreeRuns(s, 0, {}) && forall r :: r in s.runs && Claimable(s.runs[r].status) ==> r == CHILD
  {
    hide RUN, CHILD;
  }

  lemma ChildSessionStays(s: State, s': State)
    requires ChildSession(s) && s'.sessions == s.sessions
    ensures ChildSession(s')
  {
    hide Own, CHILD, NarrowPolicy;
  }

  lemma ChildMayEnd(s: State)
    requires OneChild(s, Pending, 1) && ChildSession(s) && s.runs[CHILD].lease == Some(Lease("helper", HELPER, 60))
    requires s.runs[RUN].status == WaitingForSubagent
    ensures MayEnd(s, CHILD, "helper", HELPER, 0) && ActiveChild(s, CHILD) && LastChild(s, CHILD)
    ensures s.delegations[CHILD].parent == RUN && s.delegations[CHILD].grant == GRANT && Terminal(Completed)
    ensures CHILD in s.ledgers && s.ledgers[CHILD] == Ledger(GRANT, NOTHING, NOTHING, NOTHING, 0, 1)
  {
    hide Own, NarrowPolicy, RUN, CHILD, TASK, GRANT, NOTHING;
  }

  lemma UseFits(s: State, r: Resource)
    requires CHILD in s.delegations && s.delegations[CHILD].grant == GRANT
    requires CHILD in s.ledgers && s.ledgers[CHILD] == Ledger(GRANT, NOTHING, NOTHING, NOTHING, 0, 1)
    ensures ChargeFits(s, CHILD, USED, r)
  {
    hide CHILD;
  }

  lemma FinishIs()
    ensures FINISH == Command.Complete(CHILD, "helper", HELPER, 0, Completed, SessionCompleted, USED, false)
    ensures Charge(USED, GRANT) == USED && Of(USED, Tokens) == 7 && Of(GRANT, Tokens) == 10
  {}

  /** RUN suspends; its child is prepared, claimed and finishes with 7 of the 10 tokens used. */
  ghost function Worked(): (history: seq<Command>) {
    Planned() + [Delegate(REQUEST, CATALOG)] + [SUSPEND] + [PREPARE_CHILD] + [CLAIM_CHILD]
  }

  lemma WorkedChild()
    ensures var s := After(Worked());
      && OneChild(s, Pending, 1) && ChildSession(s) && s.runs[CHILD].lease == Some(Lease("helper", HELPER, 60))
      && s.runs[RUN].status == WaitingForSubagent
  {
    var made := Delegate(REQUEST, CATALOG);
    var h1 := Planned() + [made];
    PlannedLease();
    PlannedRun();
    hide After, Step, Planned;
    PlannedFacts(After(Planned()));
    AfterStep(Planned(), made);
    StepIsDelegate(After(Planned()), made);
    Accepted(After(Planned()));
    hide DelegateStep, Prepared, OneRun, OneChild, ChildSession, Own;
    ChildMade(After(Planned()));
    AfterStep(h1, SUSPEND);
    ParentWaits(After(h1));
    AfterStep(h1 + [SUSPEND], PREPARE_CHILD);
    ChildPrepared(After(h1 + [SUSPEND]));
    AfterStep(h1 + [SUSPEND] + [PREPARE_CHILD], CLAIM_CHILD);
    ChildClaimed(After(h1 + [SUSPEND] + [PREPARE_CHILD]));
  }

  lemma PlannedFacts(s: State)
    requires s.runs.Keys == {RUN} && OneRun(s.(runs := s.runs[RUN := s.runs[RUN].(revision := 1)]), Planning) && Prepared(s)
    ensures s.delegations == map[] && s.sessions.Keys == {RUN} && s.tasks.Keys == {TASK} && s.runs[RUN].status == Planning
    ensures s.sessions[RUN].policy == Own() && s.runs[RUN].version == "v1"
  {
    hide BuildSnapshot;
  }

  /** The child's completion goes through, its parent goes on at once, and the parent's ledger
      consumed what the child used of the grant it no longer reserves. */
  lemma ChildFinishes()
    ensures var s, s' := After(Worked()), Step(After(Worked()), FINISH).0;
      && RUN in s.runs && s.runs[RUN].status == WaitingForSubagent && RUN in s.ledgers
      && RUN in s'.runs && s'.runs[RUN].status == Running && s'.runs[RUN].lease == None && RUN in s'.ledgers
      && s'.ledgers[RUN].reserved.tokens == s.ledgers[RUN].reserved.tokens - 10
      && s'.ledgers[RUN].childConsumed.tokens == s.ledgers[RUN].childConsumed.tokens + 7
  {
    WorkedChild();
    var s := After(Worked());
    hide After, Step, Worked;
    ChildMayEnd(s);
    forall r: Resource ensures ChargeFits(s, CHILD, USED, r) { UseFits(s, r); }
    FinishIs();
    Reachable(Worked());
    InvParts(s);
    hide Inv, Rows, OneChild, ChildSession, MayEnd, LastChild, ChargeFits, Terminal;
    ActiveChildRow(s, CHILD);
    CompletesExactly(Worked(), CHILD, "helper", HELPER, 0, Completed, SessionCompleted, USED, false);
    FinishWakesParent(Worked(), CHILD, "helper", HELPER, 0, Completed, SessionCompleted, USED, false, 0);
    CompletionSettles(Worked(), CHILD, "helper", HELPER, 0, Completed, SessionCompleted, USED, false, RUN, Tokens);
  }

  // ----- a cancellation that leaves the task table -----

  const REVIEW := Command.MoveTask(TASK, TaskWaitingForReview, 1)
  const STOP := Command.CancelTree(RUN, 1)

  lemma MovedToReview(s: State)
    requires s == Step(Step(EMPTY, CREATE).0, REVIEW).0
    ensures RUN in s.runs && s.runs[RUN].status == Pending && s.runs[RUN].revision == 1 && s.runs[RUN].task == TASK
    ensures TASK in s.tasks && s.tasks[TASK].status == TaskWaitingForReview
  {}

  /** The task of a pending run is sent to review, and the run is then cancelled: the task row moves
      from waiting for review to cancelled, which the task table does not list. */
  lemma CancellationLeavesTaskTable() returns (history: seq<Command>)
    ensures |history| == 2
    ensures var s := After(history);
      && RUN in s.runs && s.runs[RUN].status != Cancelled && s.runs[RUN].revision == 1
      && TASK in s.tasks && s.tasks[TASK].status == TaskWaitingForReview
      && OffTable(s.tasks, Step(s, STOP).0.tasks, TASK)
  {
    history := [] + [CREATE] + [REVIEW];
    assert After([]) == EMPTY;
    hide After, Step;
    AfterStep([], CREATE);
    AfterStep([] + [CREATE], REVIEW);
    var s := After(history);
    MovedToReview(s);
    CancelGoesThrough(s, RUN);
    CancelTables(s, RUN);
    assert RUN in Stopped(s.runs, TreeIds(s, RUN));
    assert TASK in TasksOf(s.runs, Stopped(s.runs, TreeIds(s, RUN)));
    hide TreeCancel, CancelTasks, OffTable, TreeIds, Stopped, TasksOf;
    CancelTaskRow(s.tasks, TasksOf(s.runs, Stopped(s.runs, TreeIds(s, RUN))), TASK);
  }
}
